/** The commentary panel of src/components/AIAuctioneer.tsx: a buffer of
    at most ten commentary items, newest first, fed by replies to model
    requests that new bids, time warnings and the end of the auction
    trigger. The model call is split into the request, which sets the
    loading flag, and the arrival of its reply, which is a parameter.
    Prices are in cents, the remaining time in milliseconds. */
module Auctioneer {
  import opened Wire
  import opened Decimal

  datatype Kind = Bid | Time | Hype | End

  datatype Item = Item(id: nat, text: string, kind: Kind)

  /** A model request: the event it is about and whether the reply is to
      interrupt the speech in progress. */
  datatype Request = Request(event: Kind, interrupt: bool)

  const BufferSize: nat := 10
  const BucketMs: nat := 30000

  /** `[newItem, ...prev].slice(0, 10)`. */
  function Push(buffer: seq<Item>, item: Item): (r: seq<Item>)
    ensures |r| == if |buffer| < BufferSize then |buffer| + 1 else BufferSize
    ensures r[0] == item
    ensures forall k :: 1 <= k < |r| ==> r[k] == buffer[k - 1]
  {
    var all := [item] + buffer;
    if |all| <= BufferSize then all else all[..BufferSize]
  }

  /** Ids strictly decrease from the newest item to the oldest, and none
      is above the last id handed out. */
  ghost predicate NewestFirst(buffer: seq<Item>, lastId: nat)
  {
    && (forall i, j :: 0 <= i < j < |buffer| ==> buffer[i].id > buffer[j].id)
    && (forall i :: 0 <= i < |buffer| ==> buffer[i].id <= lastId)
  }

  /** Pushing an item with a fresh, larger id keeps the buffer newest first
      and bounded. */
  lemma PushKeepsNewestFirst(buffer: seq<Item>, lastId: nat, text: string, kind: Kind)
    requires NewestFirst(buffer, lastId) && |buffer| <= BufferSize
    ensures var r := Push(buffer, Item(lastId + 1, text, kind));
      NewestFirst(r, lastId + 1) && |r| <= BufferSize
  {
  }

  /** The time warning for the remaining time: "one minute" between 30 and
      60 seconds, without interrupting, and "thirty seconds" in the last 30
      seconds, interrupting. */
  datatype Warning = OneMinute | ThirtySeconds

  function TimeWarning(remainingMs: int): Option<Warning>
  {
    if 30000 < remainingMs <= 60000 then Some(OneMinute)
    else if 0 < remainingMs <= 30000 then Some(ThirtySeconds)
    else None
  }

  function Interrupts(w: Warning): bool
  {
    w == ThirtySeconds
  }

  /** `Math.floor(timeRemainingMs / 30000)`: the time effect runs again
      only when this changes. */
  function Bucket(remainingMs: int): int
  {
    remainingMs / BucketMs
  }

  /** A warning is due exactly in the last minute, and the two warnings
      split it at 30 seconds; the bucket boundaries fall where the
      warnings change, except that exactly 60 s and exactly 30 s belong to
      the bucket above. */
  lemma TimeWarningRanges(remainingMs: int)
    ensures TimeWarning(remainingMs).Some? <==> 0 < remainingMs <= 60000
    ensures TimeWarning(remainingMs).Some? ==>
      (Interrupts(TimeWarning(remainingMs).value) <==> remainingMs <= 30000)
    ensures 0 < remainingMs < 30000 ==> Bucket(remainingMs) == 0 && TimeWarning(remainingMs) == Some(ThirtySeconds)
    ensures 30000 < remainingMs < 60000 ==> Bucket(remainingMs) == 1 && TimeWarning(remainingMs) == Some(OneMinute)
  {
  }

  /** The end-of-auction announcement. */
  function EndMessage(title: string, currentPrice: nat, startPrice: int): string
  {
    if title != "" && currentPrice > startPrice then
      "SOLD! The " + title + " is officially SOLD for " + Fixed2(currentPrice)
      + "! Congratulations to the winner! Please check your dashboard for contact details."
    else
      "And that's it! The auction for " + title + " has ended without a sale."
  }

  /** The announcement says SOLD exactly when there is a title and the
      price rose above the start price. */
  lemma EndMessageSoldIff(title: string, currentPrice: nat, startPrice: int)
    ensures "SOLD!" <= EndMessage(title, currentPrice, startPrice) <==>
      title != "" && currentPrice > startPrice
  {
    var m := EndMessage(title, currentPrice, startPrice);
    if !(title != "" && currentPrice > startPrice) {
      assert m[0] == 'A';
    }
  }

  predicate HasEnd(buffer: seq<Item>)
  {
    exists i :: 0 <= i < |buffer| && buffer[i].kind == End
  }

  class Panel {
    var commentary: seq<Item>
    /** `commentIdRef`. */
    var lastId: nat
    /** The `isLoading` state as last set. Effects do not read it directly:
        each effect reads the value of the render it belongs to, passed in
        as `seenLoading`. */
    var loading: bool
    /** The requests awaiting their replies, which may come in any order. */
    var inFlight: multiset<Request>
    /** Every request sent to the model, oldest first. */
    var requests: seq<Request>
    /** `lastBidCountRef`. */
    var lastBidCount: int
    /** The bucket the time effect last ran for. */
    var lastBucket: Option<int>

    ghost predicate Valid()
      reads this
    {
      && |commentary| <= BufferSize
      && NewestFirst(commentary, lastId)
      && (inFlight == multiset{} ==> !loading)
    }

    constructor (bidCount: int)
      ensures Valid()
      ensures commentary == [] && lastId == 0 && !loading && inFlight == multiset{} && requests == []
      ensures lastBidCount == bidCount && lastBucket == None
    {
      commentary := [];
      lastId := 0;
      loading := false;
      inFlight := multiset{};
      requests := [];
      lastBidCount := bidCount;
      lastBucket := None;
    }

    /** `addCommentary`. */
    method AddCommentary(text: string, kind: Kind)
      requires Valid()
      modifies this`commentary, this`lastId
      ensures Valid()
      ensures lastId == old(lastId) + 1
      ensures commentary == Push(old(commentary), Item(lastId, text, kind))
    {
      PushKeepsNewestFirst(commentary, lastId, text, kind);
      lastId := lastId + 1;
      commentary := Push(commentary, Item(lastId, text, kind));
    }

    /** `generateCommentary` up to the model call. The guard reads
        `seenLoading`, the loading flag of the render whose effect makes
        the call, so two effects of one render both send their requests. */
    method GenerateCommentary(event: Kind, interrupt: bool, seenLoading: bool)
      requires Valid()
      modifies this`loading, this`inFlight, this`requests
      ensures Valid()
      ensures seenLoading ==>
        loading == old(loading) && inFlight == old(inFlight) && requests == old(requests)
      ensures !seenLoading ==>
        && loading
        && inFlight == old(inFlight) + multiset{Request(event, interrupt)}
        && requests == old(requests) + [Request(event, interrupt)]
    {
      if seenLoading {
        return;
      }
      loading := true;
      inFlight := inFlight + multiset{Request(event, interrupt)};
      requests := requests + [Request(event, interrupt)];
    }

    /** The rest of `generateCommentary` for one request in flight:
        its reply arrives (None when the call failed or threw); a non-empty
        commentary is added under the request's kind, and loading ends in
        every case, even while other requests are still in flight. */
    method CommentaryArrives(request: Request, reply: Option<string>)
      requires Valid() && request in inFlight
      modifies this`commentary, this`lastId, this`loading, this`inFlight
      ensures Valid() && !loading
      ensures inFlight == old(inFlight) - multiset{request}
      ensures reply.Some? && reply.value != "" ==>
        lastId == old(lastId) + 1 &&
        commentary == Push(old(commentary), Item(lastId, reply.value, request.event))
      ensures reply.None? || reply.value == "" ==> commentary == old(commentary) && lastId == old(lastId)
    {
      if reply.Some? && reply.value != "" {
        AddCommentary(reply.value, request.event);
      }
      loading := false;
      inFlight := inFlight - multiset{request};
    }

    /** The bid effect: a higher bid count on a running auction asks for
        interrupting bid commentary and records the count, even when the
        request is dropped because the render saw a request loading. */
    method BidEffect(bidCount: int, isEnded: bool, seenLoading: bool)
      requires Valid()
      modifies this`loading, this`inFlight, this`requests, this`lastBidCount
      ensures Valid()
      ensures bidCount > old(lastBidCount) && !isEnded ==> lastBidCount == bidCount
      ensures bidCount > old(lastBidCount) && !isEnded && !seenLoading ==>
        && loading
        && inFlight == old(inFlight) + multiset{Request(Bid, true)}
        && requests == old(requests) + [Request(Bid, true)]
      ensures bidCount > old(lastBidCount) && !isEnded && seenLoading ==>
        loading == old(loading) && inFlight == old(inFlight) && requests == old(requests)
      ensures !(bidCount > old(lastBidCount) && !isEnded) ==>
        && lastBidCount == old(lastBidCount) && loading == old(loading)
        && inFlight == old(inFlight) && requests == old(requests)
    {
      if bidCount > lastBidCount && !isEnded {
        GenerateCommentary(Bid, true, seenLoading);
        lastBidCount := bidCount;
      }
    }

    /** The time effect, run when the 30-second bucket changes: asks for
        the due warning unless the auction has ended. */
    method TimeEffect(remainingMs: int, isEnded: bool, seenLoading: bool)
      requires Valid()
      modifies this`loading, this`inFlight, this`requests, this`lastBucket
      ensures Valid()
      ensures lastBucket == Some(Bucket(remainingMs))
      ensures old(lastBucket) == Some(Bucket(remainingMs)) || isEnded || TimeWarning(remainingMs).None? ==>
        loading == old(loading) && inFlight == old(inFlight) && requests == old(requests)
      ensures old(lastBucket) != Some(Bucket(remainingMs)) && !isEnded && TimeWarning(remainingMs).Some? && seenLoading ==>
        loading == old(loading) && inFlight == old(inFlight) && requests == old(requests)
      ensures old(lastBucket) != Some(Bucket(remainingMs)) && !isEnded && TimeWarning(remainingMs).Some? && !seenLoading ==>
        var request := Request(Time, Interrupts(TimeWarning(remainingMs).value));
        loading && inFlight == old(inFlight) + multiset{request} && requests == old(requests) + [request]
    {
      var bucket := Bucket(remainingMs);
      if lastBucket == Some(bucket) {
        return;
      }
      lastBucket := Some(bucket);
      if isEnded {
        return;
      }
      var w := TimeWarning(remainingMs);
      if w.Some? {
        GenerateCommentary(Time, Interrupts(w.value), seenLoading);
      }
    }

    /** The end effect: once ended, with some commentary and no end item
        yet, the announcement is added. */
    method EndEffect(isEnded: bool, title: string, currentPrice: nat, startPrice: int)
      requires Valid()
      modifies this`commentary, this`lastId
      ensures Valid()
      ensures isEnded && |old(commentary)| > 0 && !HasEnd(old(commentary)) ==>
        lastId == old(lastId) + 1 &&
        commentary == Push(old(commentary), Item(lastId, EndMessage(title, currentPrice, startPrice), End)) &&
        HasEnd(commentary)
      ensures !(isEnded && |old(commentary)| > 0 && !HasEnd(old(commentary))) ==>
        commentary == old(commentary) && lastId == old(lastId)
    {
      if isEnded && |commentary| > 0 && !HasEnd(commentary) {
        AddCommentary(EndMessage(title, currentPrice, startPrice), End);
        assert commentary[0].kind == End;
      }
    }
  }

  /** Readings at 100 s, 89 s and 59 s on an idle panel, the reply
      arriving after the last: one request, for the one-minute warning. */
  method OneMinuteReadings(p: Panel)
    requires p.Valid() && !p.loading && p.inFlight == multiset{} && p.requests == [] && p.lastBucket == None
    modifies p
    ensures p.Valid() && !p.loading && p.inFlight == multiset{}
    ensures p.requests == [Request(Time, false)] && p.lastBucket == Some(1)
  {
    assert Bucket(100000) == 3 && Bucket(89000) == 2 && Bucket(59000) == 1;
    p.TimeEffect(100000, false, p.loading);
    p.TimeEffect(89000, false, p.loading);
    assert p.requests == [] && p.inFlight == multiset{} && !p.loading;
    p.TimeEffect(59000, false, p.loading);
    assert p.inFlight == multiset{Request(Time, false)};
    p.CommentaryArrives(Request(Time, false), Some("One minute left!"));
  }

  /** Readings at 29 s, the reply arriving, and at 0 s once ended: one
      more request, for the interrupting thirty-second warning. */
  method ThirtySecondReadings(p: Panel)
    requires p.Valid() && !p.loading && p.inFlight == multiset{} && p.lastBucket == Some(1)
    modifies p
    ensures p.requests == old(p.requests) + [Request(Time, true)]
  {
    assert Bucket(29000) == 0 && Bucket(0) == 0;
    p.TimeEffect(29000, false, p.loading);
    assert p.inFlight == multiset{Request(Time, true)};
    p.CommentaryArrives(Request(Time, true), Some("Thirty seconds!"));
    p.TimeEffect(0, true, p.loading);
  }

  /** A countdown observed at 100 s, 89 s, 59 s, 29 s and 0 s, each reply
      arriving before the next reading: the panel asks once for the
      one-minute warning, without interrupting, and once for the
      thirty-second warning, interrupting. */
  method CountdownScenario() returns (requests: seq<Request>)
    ensures requests == [Request(Time, false), Request(Time, true)]
  {
    var p := new Panel(0);
    OneMinuteReadings(p);
    ThirtySecondReadings(p);
    requests := p.requests;
  }

  /** A bid and the one-minute mark land in the same render: both effects
      see the render's idle flag, so two requests go out; the first reply
      ends loading while the second request is still in flight. */
  method SameRenderScenario() returns (requests: seq<Request>, loadingAfterFirst: bool, stillInFlight: nat)
    ensures requests == [Request(Bid, true), Request(Time, false)]
    ensures !loadingAfterFirst && stillInFlight == 1
  {
    assert Bucket(59000) == 1;
    var p := new Panel(0);
    var seen := p.loading;
    p.BidEffect(1, false, seen);
    p.TimeEffect(59000, false, seen);
    requests := p.requests;
    p.CommentaryArrives(Request(Bid, true), Some("A new bid!"));
    loadingAfterFirst := p.loading;
    stillInFlight := |p.inFlight|;
  }

  /** After one bid commentary, running the end effect twice adds the
      announcement once, as the newest item, whatever the auction. */
  method EndOnceScenario(title: string, currentPrice: nat, startPrice: int) returns (kinds: seq<Kind>)
    ensures kinds == [End, Bid]
  {
    var p := new Panel(0);
    p.BidEffect(1, false, false);
    assert p.inFlight == multiset{Request(Bid, true)} && p.commentary == [] && p.lastId == 0;
    p.CommentaryArrives(Request(Bid, true), Some("A new bid!"));
    assert p.commentary == [Item(1, "A new bid!", Bid)];
    assert !HasEnd(p.commentary);
    p.EndEffect(true, title, currentPrice, startPrice);
    assert |p.commentary| == 2 && HasEnd(p.commentary);
    p.EndEffect(true, title, currentPrice, startPrice);
    kinds := [p.commentary[0].kind, p.commentary[1].kind];
  }
}
