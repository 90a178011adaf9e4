/** The state updates of src/hooks/useWebSocket.ts: which server messages
    become the latest auction update, the per-auction bid feed, the outbid
    notice, and the price replacement and removal applied to the listed
    auctions. Each hook's effect is a function from the previous state and
    the latest message to the next state. */
module LiveUpdates {
  import opened Wire
  import SyncAgent

  // ---------------------------------------------------------------------
  // useAuctionUpdates
  // ---------------------------------------------------------------------

  /** The four message types the hook passes on. */
  predicate IsAuctionEvent(m: ServerMsg)
  {
    m.BidPlaced? || m.AuctionUpdated? || m.AuctionClosed? || m.AuctionCreated?
  }

  /** The next `latestUpdate` after `lastMessage` changed. */
  function NextLatestUpdate(latest: Option<ServerMsg>, last: Option<ServerMsg>): Option<ServerMsg>
  {
    if last.Some? && IsAuctionEvent(last.value) then last else latest
  }

  /** The latest update only ever holds one of the four auction events, and
      any other message leaves it unchanged. */
  lemma LatestUpdateHoldsAuctionEvents(latest: Option<ServerMsg>, last: Option<ServerMsg>)
    requires latest.Some? ==> IsAuctionEvent(latest.value)
    ensures var r := NextLatestUpdate(latest, last);
      && (r.Some? ==> IsAuctionEvent(r.value))
      && (last.None? || !IsAuctionEvent(last.value) ==> r == latest)
      && (last.Some? && IsAuctionEvent(last.value) ==> r == last)
  {
  }

  /** Mounting the hook subscribes to every auction. */
  method MountAuctionUpdates(agent: SyncAgent.Agent)
    requires agent.Valid()
    modifies agent`tracked, agent`sent
    ensures agent.Valid()
    ensures agent.tracked == SyncAgent.SetAdd(old(agent.tracked), "*")
    ensures agent.sent == if old(agent.IsOpen())
      then old(agent.sent) + [SyncAgent.Outgoing(agent.current.value, Wire.Subscribe("*"))] else old(agent.sent)
  {
    agent.Subscribe("*");
  }

  /** Unmounting it unsubscribes from every auction. */
  method UnmountAuctionUpdates(agent: SyncAgent.Agent)
    requires agent.Valid()
    modifies agent`tracked, agent`sent
    ensures agent.Valid()
    ensures agent.tracked == SyncAgent.SetDelete(old(agent.tracked), "*")
    ensures agent.sent == if old(agent.IsOpen())
      then old(agent.sent) + [SyncAgent.Outgoing(agent.current.value, Wire.Unsubscribe("*"))] else old(agent.sent)
  {
    agent.Unsubscribe("*");
  }

  // ---------------------------------------------------------------------
  // useBidUpdates
  // ---------------------------------------------------------------------

  /** The bids seen for one auction, newest first, and the last price. */
  datatype BidFeed = BidFeed(bids: seq<ServerMsg>, currentPrice: Option<int>)

  /** Mounting the hook subscribes to its auction. */
  method MountBidUpdates(agent: SyncAgent.Agent, auctionId: string)
    requires agent.Valid()
    modifies agent`tracked, agent`sent
    ensures agent.Valid()
    ensures agent.tracked == SyncAgent.SetAdd(old(agent.tracked), auctionId)
    ensures agent.sent == if old(agent.IsOpen())
      then old(agent.sent) + [SyncAgent.Outgoing(agent.current.value, Wire.Subscribe(auctionId))] else old(agent.sent)
  {
    agent.Subscribe(auctionId);
  }

  /** Unmounting it unsubscribes from its auction. */
  method UnmountBidUpdates(agent: SyncAgent.Agent, auctionId: string)
    requires agent.Valid()
    modifies agent`tracked, agent`sent
    ensures agent.Valid()
    ensures agent.tracked == SyncAgent.SetDelete(old(agent.tracked), auctionId)
    ensures agent.sent == if old(agent.IsOpen())
      then old(agent.sent) + [SyncAgent.Outgoing(agent.current.value, Wire.Unsubscribe(auctionId))] else old(agent.sent)
  {
    agent.Unsubscribe(auctionId);
  }

  /** The feed after `lastMessage` changed. */
  function BidFeedStep(auctionId: string, feed: BidFeed, last: Option<ServerMsg>): BidFeed
  {
    if last.Some? && last.value.BidPlaced? && last.value.auctionId == auctionId
    then BidFeed([last.value] + feed.bids, Some(last.value.newPrice))
    else feed
  }

  /** `clearBids`. */
  function ClearBids(feed: BidFeed): (r: BidFeed)
    ensures r.bids == [] && r.currentPrice == feed.currentPrice
  {
    feed.(bids := [])
  }

  /** The feed's invariant: it holds only bids for its own auction, and the
      price shown is that of the newest one. */
  ghost predicate FeedValid(auctionId: string, feed: BidFeed)
  {
    && (forall b :: b in feed.bids ==> b.BidPlaced? && b.auctionId == auctionId)
    && (feed.bids != [] ==> feed.currentPrice == Some(feed.bids[0].newPrice))
  }

  /** A bid for this auction is put first and sets the price; anything else,
      including a bid for another auction, changes nothing; the invariant
      holds throughout, also after clearing. */
  lemma BidFeedStepKeepsInvariant(auctionId: string, feed: BidFeed, last: Option<ServerMsg>)
    requires FeedValid(auctionId, feed)
    ensures FeedValid(auctionId, BidFeedStep(auctionId, feed, last))
    ensures FeedValid(auctionId, ClearBids(feed))
    ensures last.Some? && last.value.BidPlaced? && last.value.auctionId == auctionId ==>
      BidFeedStep(auctionId, feed, last).bids == [last.value] + feed.bids
    ensures last.Some? && last.value.BidPlaced? && last.value.auctionId != auctionId ==>
      BidFeedStep(auctionId, feed, last) == feed
  {
  }

  // ---------------------------------------------------------------------
  // useOutbidNotifications
  // ---------------------------------------------------------------------

  /** The (auctionId, newPrice) the outbid callback receives, if it fires. */
  function OutbidNotice(userId: Option<string>, last: Option<ServerMsg>): Option<(string, int)>
  {
    if userId.None? || userId.value == "" || last.None? then None
    else if last.value.BidPlaced? && last.value.bidderId != userId.value
    then Some((last.value.auctionId, last.value.newPrice))
    else None
  }

  /** The callback fires exactly when a user is signed in, the message is a
      bid, and the bidder is someone else; it never fires for one's own bid. */
  lemma OutbidNoticeIff(userId: Option<string>, last: Option<ServerMsg>)
    ensures OutbidNotice(userId, last).Some? <==>
      userId.Some? && userId.value != "" && last.Some? && last.value.BidPlaced? &&
      last.value.bidderId != userId.value
    ensures OutbidNotice(userId, last).Some? ==>
      OutbidNotice(userId, last).value == (last.value.auctionId, last.value.newPrice)
  {
  }

  // ---------------------------------------------------------------------
  // useRealTimeAuctions
  // ---------------------------------------------------------------------

  /** BID_PLACED: the matching auctions take the new price. */
  function ApplyPrice(auctions: seq<Auction>, auctionId: string, newPrice: int): (r: seq<Auction>)
    ensures |r| == |auctions|
    ensures forall i :: 0 <= i < |r| ==>
      r[i] == if auctions[i].id == auctionId then auctions[i].(currentPrice := newPrice) else auctions[i]
  {
    if auctions == [] then []
    else
      var a := auctions[0];
      [if a.id == auctionId then a.(currentPrice := newPrice) else a] + ApplyPrice(auctions[1..], auctionId, newPrice)
  }

  /** AUCTION_CLOSED: the matching auctions are dropped. */
  function RemoveAuction(auctions: seq<Auction>, auctionId: string): (r: seq<Auction>)
    ensures |r| <= |auctions|
    ensures forall a :: a in r <==> a in auctions && a.id != auctionId
  {
    if auctions == [] then []
    else if auctions[0].id == auctionId then RemoveAuction(auctions[1..], auctionId)
    else [auctions[0]] + RemoveAuction(auctions[1..], auctionId)
  }

  /** Removal keeps the order of what remains: it distributes over
      concatenation. */
  lemma {:induction false} RemoveAuctionDistributes(s: seq<Auction>, t: seq<Auction>, auctionId: string)
    ensures RemoveAuction(s + t, auctionId) == RemoveAuction(s, auctionId) + RemoveAuction(t, auctionId)
  {
    if s == [] {
      assert s + t == t;
    } else {
      assert (s + t)[1..] == s[1..] + t;
      RemoveAuctionDistributes(s[1..], t, auctionId);
    }
  }

  /** A list without the closed auction is left as it is. */
  lemma {:induction false} RemoveAbsentAuction(s: seq<Auction>, auctionId: string)
    requires forall a :: a in s ==> a.id != auctionId
    ensures RemoveAuction(s, auctionId) == s
  {
    if s != [] {
      RemoveAbsentAuction(s[1..], auctionId);
      assert s == [s[0]] + s[1..];
    }
  }

  /** The listed auctions after the latest update. */
  function RealTimeStep(auctions: seq<Auction>, update: Option<ServerMsg>): seq<Auction>
  {
    if update.None? then auctions
    else match update.value
      case BidPlaced(a, p, _) => ApplyPrice(auctions, a, p)
      case AuctionClosed(a) => RemoveAuction(auctions, a)
      case _ => auctions
  }

  /** A bid changes only prices: the ids, titles, descriptions and deadlines
      of the list are as before, in the same order. A closure removes
      exactly the closed auction. */
  lemma RealTimeStepEffects(auctions: seq<Auction>, update: Option<ServerMsg>)
    ensures update.Some? && update.value.BidPlaced? ==>
      var r := RealTimeStep(auctions, update);
      |r| == |auctions| &&
      forall i :: 0 <= i < |r| ==>
        r[i].(currentPrice := 0) == auctions[i].(currentPrice := 0) &&
        (r[i].currentPrice != auctions[i].currentPrice ==> auctions[i].id == update.value.auctionId)
    ensures update.Some? && update.value.AuctionClosed? ==>
      forall a :: a in RealTimeStep(auctions, update) <==> a in auctions && a.id != update.value.auctionId
    ensures update.None? || !(update.value.BidPlaced? || update.value.AuctionClosed?) ==>
      RealTimeStep(auctions, update) == auctions
  {
  }
}
