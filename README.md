# flashBid, modelled in Dafny

flashBid is a live-auction web application. Its moving parts are:

- **The relay.** A WebSocket relay process keeps a registry of browser
  connections, each with the auctions it subscribes to and the user it
  authenticated as. It fans out bid and auction events posted to its HTTP
  ingress endpoint.
- **The connection agent.** In each browser, an agent opens the socket and
  reconnects with exponential backoff. It replays the user and the
  subscriptions every time the socket opens.
- **Hooks over the latest message.** Small hooks turn the newest server
  message into:
  - the latest auction update;
  - a per-auction bid feed;
  - an outbid notice;
  - price changes and removals in the listed auctions.
- **The listing page.** It filters by search text and price bounds, sorts
  active auctions before ended ones under three orderings, and paginates.
  Page buttons collapse into ellipses when there are more than seven
  pages.
- **The bid dialog.** It keeps the amount as text and filters keystrokes
  through a money pattern. It validates against the minimum next bid
  (5% of the price, at least one unit) and walks input → confirm → success.
- **Countdowns.** They show the remaining time and its urgency, and signal
  expiry once per deadline.
- **The create-auction form rules.**
- **The toast list.**
- **The AI auctioneer panel.** It keeps the ten newest commentary lines.
  Commentary is requested on new bids, in the last minute and at the end.
- **Three server functions around a language model.** These are listing
  suggestions from an image, an outcome prediction, and one line of
  commentary.

## How the model is built

There is one Dafny module per source file:

- `Relay`: the relay process
- `SyncAgent`: the connection agent
- `LiveUpdates`: the hooks over the latest message
- `Listing`: the listing page
- `Pagination`: the page buttons
- `BidModal`: the bid dialog
- `Countdown`: the countdowns
- `AuctionSchema`: the create-auction form rules
- `Toasts`: the toast list
- `Auctioneer`: the auctioneer panel
- `AiFunctions`: the three language-model server functions

Three more modules hold shared pieces:

- `Pricing` holds the helpers of `src/lib/utils.ts`.
- `Decimal` holds decimal rendering and reading.
- `Wire` holds the messages, the auction record and `Option`.

Units:

- **Money.** Money is in whole cents everywhere except `AiFunctions`.
  There, prices are JSON numbers and are modelled as `real`.
- **Time.** Time is in whole milliseconds.
- **The clock.** "Now" is a parameter.

Stateful parts of the source are classes with `modifies` frames and
`Valid()` invariants:

- the relay registry;
- the browser agent;
- the bid dialog;
- the countdown;
- the toast list;
- the auctioneer panel.

Pure logic is functions with lemmas about them.

Asynchronous work and the outside world enter as parameters or events:

- the result of placing a bid;
- a model's reply and `JSON.parse`;
- whether a string is a URL;
- random ids;
- socket callbacks and timer expiry.

The listing sort is an insertion sort over an array. It swaps while the
page's own comparator says two neighbours are out of order, and it is
proved sorted by the comparator's key order and a permutation of its
input.

Some behaviour follows the code and is worth knowing. Each point below is
captured by a member:

- **Relay error handler.** The relay's error handler removes a connection
  from the registry only. The transport has already taken the socket out
  of the open state, so nothing is sent to it afterwards. The socket stays
  tracked until its close event.
- **Agent error event.** The agent's error handler sets only the status.
  The browser has already closed the socket by then, so nothing more is
  sent on it. No reconnect is scheduled until the close event follows.
- **Agent unmount.** On unmount the agent closes the socket. The socket's
  close handler then still schedules a reconnect (`CallbackQuirksScenario`).
- **Dropped bid commentary.** A bid arriving in a render that saw a
  commentary request loading is dropped. The bid count is recorded all the
  same.
- **Loading is per render.** The auctioneer's guard reads the loading flag
  of the render its effect belongs to. When a bid and a time warning land
  in the same render, both requests go out. The first reply then ends
  loading while the other is still in flight (`SameRenderScenario`).
- **Empty commentary.** The commentary function reports success with an
  empty line. The panel then adds nothing.
- **Title length.** A 100-character title is accepted, although the
  message says "less than 100".

## Model

| member | source | states |
|---|---|---|
| Pricing.MinBidIncrement | src/lib/utils.ts:21-24 | the increment is at least one unit and at least 5% of the price, and anything one cent smaller than it (above one unit) is below 5% |
| Pricing.MinBidIncrementIsLeast | src/lib/utils.ts:21-24 | every whole-cent amount that is at least one unit and at least 5% of the price is at least the increment |
| Pricing.MinBidAmount | src/lib/utils.ts:29-31 | the minimum next bid is the price plus the increment, so always above the price |
| Pricing.MinBidExamples | src/lib/utils.ts:21-31 | at 100.00 the next bid is 105.00, at 10.00 it is 11.00 (one-unit floor), at 105.00 it is 110.25 |
| Pricing.FormatTimeRemainingMeaning | src/lib/utils.ts:37-58 | "Ended" exactly when no time remains; days+hours from one day, hours+minutes from one hour, minutes+seconds from one minute, else seconds; each pair is the remaining time truncated to its smaller unit, with hours < 24, minutes and seconds < 60 |
| Pricing.RenderEndedIff | src/lib/utils.ts:47-57 | the rendered text is "Ended" exactly when diff <= 0 (every other text starts with a digit) |
| Pricing.UrgencyMonotone | src/lib/utils.ts:64-78 | as the remaining time shrinks the urgency never relaxes (normal, warning, critical, ended) |
| Pricing.UrgencyAgreesWithText | src/lib/utils.ts:47-77 | "ended" urgency goes with "Ended"; "critical" is always shown in minutes/seconds; "normal" always shows hours or days |
| Pricing.Kept | src/lib/utils.ts:83-85 | `filter(Boolean)` keeps only non-empty strings that were arguments, and every truthy argument is kept; never more than were given |
| Pricing.KeptOne | src/lib/utils.ts:83-85 | one argument is kept iff it is truthy |
| Pricing.KeptAppend | src/lib/utils.ts:83-85 | filtering distributes over concatenation, so the kept names stay in argument order |
| Pricing.CnRoundTrip | src/lib/utils.ts:83-85 | `cn` joins exactly the truthy class names in order with single spaces: splitting its result at spaces gives them back |
| Relay.SubscribedElsewhereNeverReceives | src/server/websocket-server.ts:156-166 | a connection subscribed only to auction b never receives an event for another auction |
| Relay.WildcardReceivesEveryAuction | src/server/websocket-server.ts:156-166 | an open connection subscribed to "*" receives every auction's events |
| Relay.DeliverAppendsOnce | src/server/websocket-server.ts:146-176 | a send appends exactly one copy to each recipient and leaves every other outbox unchanged |
| Relay.Hub.Connect | src/server/websocket-server.ts:65-72 | a new connection gets an empty registry entry, an open socket and the CONNECTED greeting |
| Relay.Hub.StartClosing | src/server/websocket-server.ts:158-159 | a socket that starts closing is no longer OPEN for sends; the registry keeps it |
| Relay.Hub.OnClose | src/server/websocket-server.ts:83-86 | close removes the registry entry and the socket |
| Relay.Hub.OnError | src/server/websocket-server.ts:88-91 | error removes the registry entry; the socket is no longer open for sends but stays tracked |
| Relay.Hub.OnMessage | src/server/websocket-server.ts:74-143 | unparsable, unknown or unregistered: nothing; AUTH sets the user (even to none); SUBSCRIBE/UNSUBSCRIBE with a truthy id add/remove it; PING answers PONG to the sender only |
| Relay.Hub.Broadcast | src/server/websocket-server.ts:146-153 | every OPEN socket receives the message once, registered or not |
| Relay.Hub.BroadcastToAuction | src/server/websocket-server.ts:156-166 | exactly the open registered connections subscribed to the auction or to "*" receive it |
| Relay.Hub.BroadcastToUser | src/server/websocket-server.ts:169-176 | exactly the open registered connections authenticated as the user receive it |
| Relay.Hub.HandleBroadcastRequest | src/server/websocket-server.ts:28-46 | bad JSON: 400 and nothing sent; a body with an auction id goes to that auction's recipients, any other to every open socket; 200 |
| Relay.FanOutScenario | src/server/websocket-server.ts:109-166 | of two connections, only the one subscribed to B receives B's bid |
| SyncAgent.BackoffLadder | src/components/WebSocketProvider.tsx:38-106 | reconnect delays double from 1 s to 16 s, are 30 s from the sixth attempt on, and never shrink as attempts grow |
| SyncAgent.SetAdd | src/components/WebSocketProvider.tsx:123-126 | adding keeps the tracked ids duplicate-free and adds exactly the new id |
| SyncAgent.SetDelete | src/components/WebSocketProvider.tsx:128-131 | deleting removes exactly that id, keeps the rest duplicate-free |
| SyncAgent.AddThenDelete | src/components/WebSocketProvider.tsx:123-131 | subscribing to a new id and unsubscribing again restores the tracked ids exactly |
| SyncAgent.SubscribeReplay | src/components/WebSocketProvider.tsx:68-71 | one SUBSCRIBE per tracked id, in insertion order, on the opening socket |
| SyncAgent.SubscribeReplayRebuilds | src/components/WebSocketProvider.tsx:68-71 | the relay, reading the replay, subscribes the connection to exactly the non-empty tracked ids |
| SyncAgent.OpenReplayRebuildsRelayEntry | src/components/WebSocketProvider.tsx:58-72 | what is sent on open rebuilds the relay's entry for the fresh connection: the stored user (when truthy) and every tracked subscription |
| Wire.UseContext | src/components/WebSocketProvider.tsx:161-167 | `useWebSocket`, and `useToast` (src/components/ToastProvider.tsx:114-119) with its own message: throws that message exactly when no provider is present, otherwise yields the provider's value |
| SyncAgent.Agent.Connect | src/components/WebSocketProvider.tsx:49-99 | nothing while the referenced socket is open; otherwise connecting and a new socket, or, when the constructor throws, error status and a scheduled reconnect |
| SyncAgent.Agent.ScheduleReconnect | src/components/WebSocketProvider.tsx:101-115 | a held timer is left alone; otherwise a timer with the delay for the current attempt |
| SyncAgent.Agent.TimerFires | src/components/WebSocketProvider.tsx:110-114 | the slot empties and the attempt counter grows by one; connect then returns early on an open socket, opens a fresh connecting socket, or, when the constructor throws, sets error and schedules the next back-off delay; nothing else changes |
| SyncAgent.Agent.OnOpen | src/components/WebSocketProvider.tsx:58-72 | connected, counter reset, then AUTH (if a truthy user is stored) and every tracked SUBSCRIBE are sent |
| SyncAgent.Agent.OnMessage | src/components/WebSocketProvider.tsx:74-81 | a parsed frame becomes the latest message; an unparsable one changes nothing |
| SyncAgent.Agent.OnClose | src/components/WebSocketProvider.tsx:83-88 | disconnected, reference emptied, reconnect scheduled |
| SyncAgent.Agent.OnError | src/components/WebSocketProvider.tsx:90-93 | the handler sets only the status to error and schedules nothing; the socket is already CLOSED, so nothing more is sent on it and it never opens, and its close event is still due |
| SyncAgent.Agent.SendMessage | src/components/WebSocketProvider.tsx:117-121 | sent on the referenced socket exactly when it is open |
| SyncAgent.Agent.Subscribe | src/components/WebSocketProvider.tsx:123-126 | always tracked locally; sent only when open |
| SyncAgent.Agent.Unsubscribe | src/components/WebSocketProvider.tsx:128-131 | always untracked locally; sent only when open |
| SyncAgent.Agent.Authenticate | src/components/WebSocketProvider.tsx:133-136 | always stored; sent only when open |
| SyncAgent.Agent.Teardown | src/components/WebSocketProvider.tsx:142-149 | a held timer is cleared without emptying the reference; the referenced socket starts closing |
| SyncAgent.BackoffScenario | src/components/WebSocketProvider.tsx:83-115 | repeated failures schedule 1, 2, 4, 8, 16, 30, 30 s; after a successful open the next delay is 1 s |
| SyncAgent.CallbackQuirksScenario | src/components/WebSocketProvider.tsx:83-149 | an error event leaves no timer and a send after it is dropped; the close that follows schedules a reconnect; on a later socket that opens, a close after unmount still schedules a reconnect |
| LiveUpdates.LatestUpdateHoldsAuctionEvents | src/hooks/useWebSocket.ts:13-24 | the latest update only ever holds one of the four auction events; other messages leave it unchanged |
| LiveUpdates.MountAuctionUpdates | src/hooks/useWebSocket.ts:8-11 | mounting tracks "*" and, exactly when the socket is open, sends one subscribe for "*" on it; otherwise nothing is sent |
| LiveUpdates.UnmountAuctionUpdates | src/hooks/useWebSocket.ts:8-11 | unmounting untracks "*" and, exactly when the socket is open, sends one unsubscribe for "*" |
| LiveUpdates.MountBidUpdates | src/hooks/useWebSocket.ts:34-37 | mounting tracks the auction and, exactly when the socket is open, sends one subscribe for it |
| LiveUpdates.UnmountBidUpdates | src/hooks/useWebSocket.ts:34-37 | unmounting untracks the auction and, exactly when the socket is open, sends one unsubscribe for it |
| LiveUpdates.ClearBids | src/hooks/useWebSocket.ts:47-49 | the bids are emptied and the price kept |
| LiveUpdates.BidFeedStepKeepsInvariant | src/hooks/useWebSocket.ts:39-45 | the feed holds only its own auction's bids, newest first, and the price is the newest bid's; a bid for another auction changes nothing |
| LiveUpdates.OutbidNoticeIff | src/hooks/useWebSocket.ts:60-70 | the callback fires exactly when a user is signed in and someone else placed a bid, with that bid's auction and price |
| LiveUpdates.ApplyPrice | src/hooks/useWebSocket.ts:86-95 | exactly the auctions with the id take the new price; the list keeps its length and order |
| LiveUpdates.RemoveAuction | src/hooks/useWebSocket.ts:97-100 | exactly the auctions with the closed id are dropped |
| LiveUpdates.RemoveAuctionDistributes | src/hooks/useWebSocket.ts:97-100 | removal distributes over concatenation, so the order of the rest is kept |
| LiveUpdates.RemoveAbsentAuction | src/hooks/useWebSocket.ts:97-100 | a list without the closed auction is unchanged |
| LiveUpdates.RealTimeStepEffects | src/hooks/useWebSocket.ts:83-101 | a bid changes only prices, and only of the bid's auction; a closure removes exactly that auction; other updates change nothing |
| Listing.FilterBy | src/routes/auctions.tsx:76-88 | the result keeps exactly the elements satisfying the predicate, as a sub-multiset |
| Listing.ToLower | src/routes/auctions.tsx:75-79 | lower-casing maps each character and keeps the length |
| Listing.ToLowerIdempotent | src/routes/auctions.tsx:75-79 | lower-casing twice is lower-casing once |
| Listing.SearchIgnoresCase | src/routes/auctions.tsx:74-81 | a query and its lower-cased form select the same auctions |
| Listing.ApplyFiltersMeaning | src/routes/auctions.tsx:70-89 | an auction survives iff the non-empty search hits title or description and the price lies within each set bound (inclusive); a NaN bound keeps nothing |
| Listing.CmpIsKeyOrder | src/routes/auctions.tsx:91-127 | each comparator is antisymmetric and agrees with "active first, then the mode's key", a total preorder |
| Listing.SortAuctions | src/routes/auctions.tsx:97-127 | the array ends sorted under the comparator and is a permutation of its contents |
| Listing.FilteredAuctions | src/routes/auctions.tsx:70-130 | the result is a permutation of the filtered auctions, sorted |
| Listing.CopyToArray | src/routes/auctions.tsx:71 | a fresh array holding the list |
| Listing.SortedListingOrder | src/routes/auctions.tsx:91-127 | in a sorted list active auctions precede ended ones; active ones are by deadline, price up or price down; ended ones most recently ended first |
| Listing.TotalPages | src/routes/auctions.tsx:133 | the page count is the least number of pages that holds every item |
| Listing.PageContents | src/routes/auctions.tsx:134-137 | page p holds items (p-1)·n up to p·n, clipped to the list, never more than n |
| Listing.PagesArePrefix | src/routes/auctions.tsx:134-137 | the first k pages, concatenated, are the first k·n items |
| Listing.PagesPartitionListing | src/routes/auctions.tsx:133-137 | pages 1 to the page count, concatenated, are the whole listing in order |
| Pagination.Range | src/components/ui/Pagination.tsx:19-28 | the consecutive page numbers lo..hi |
| Pagination.PageNumbers | src/components/ui/Pagination.tsx:14-36 | the pushing loop yields the page list |
| Pagination.FewPagesAllShown | src/components/ui/Pagination.tsx:18-19 | up to seven pages: exactly 1..total, no ellipsis |
| Pagination.ManyPagesLayout | src/components/ui/Pagination.tsx:20-33 | more than seven pages: first 1, then an ellipsis iff current > 3, the window around current, an ellipsis iff current < total-2, then total |
| Pagination.ManyPagesShape | src/components/ui/Pagination.tsx:20-33 | ellipses appear only in second and second-to-last position, and exactly under those conditions |
| Pagination.PageNumbersIncrease | src/components/ui/Pagination.tsx:14-36 | the numbers shown lie in 1..total, start at 1, end at total, and strictly increase |
| Pagination.NoPageSkipped | src/components/ui/Pagination.tsx:14-36 | neighbouring numbers are consecutive pages, and an ellipsis only ever stands between two numbers at least two apart |
| Pagination.CurrentPageShown | src/components/ui/Pagination.tsx:25-28 | the current page always has a button |
| Pagination.NavigationStaysInRange | src/components/ui/Pagination.tsx:59-92 | an enabled Prev or Next leads to a page in 1..total, and not both are disabled |
| BidModal.AcceptsIsPattern | src/components/BidModal.tsx:56-61 | digits, an optional point and up to two digits are accepted by the field |
| BidModal.AcceptedHasPattern | src/components/BidModal.tsx:56-61 | everything the field accepts has that shape |
| BidModal.Fixed2RoundTrip | src/components/BidModal.tsx:37-38 | the two-decimal text of an amount is accepted and reads back as the same cents |
| BidModal.EmptyAmountIsZero | src/components/BidModal.tsx:48 | "" and "." read as 0 |
| BidModal.QuickBidPassesIff | src/components/BidModal.tsx:50-69 | a quick bid passes validation exactly when its increment is at least the minimum increment |
| BidModal.QuickBidButtonPassesIff | src/components/BidModal.tsx:25 | the quick bid with the k-th of the increments 5, 10, 25, 50, 100 passes iff the price is at most twenty times it |
| BidModal.AllQuickBidsPassIff | src/components/BidModal.tsx:25 | all five quick bids pass exactly when the price is at most 100.00 |
| BidModal.Dialog.Open | src/components/BidModal.tsx:35-42 | opening proposes the minimum bid, on the input step, with no error |
| BidModal.Dialog.QuickBid | src/components/BidModal.tsx:50-54 | price plus increment, in two-decimal text; error cleared |
| BidModal.Dialog.InputChange | src/components/BidModal.tsx:56-61 | accepted text replaces the amount and clears the error; anything else is ignored |
| BidModal.Dialog.Validate | src/components/BidModal.tsx:63-69 | passes iff the amount is at least the minimum bid; on failure the error names minimum bid and increment |
| BidModal.Dialog.Continue | src/components/BidModal.tsx:71-75 | a valid amount moves to confirm; an invalid one sets the error; an empty field does nothing |
| BidModal.Dialog.SubmitBid | src/components/BidModal.tsx:77-112 | invalid: error and no call; placed: success with the amount; refused or thrown: back to input with the message or its fallback; never left submitting |
| BidModal.Dialog.Back | src/components/BidModal.tsx:114-117 | back to input, error cleared |
| BidModal.HappyPathScenario | src/components/BidModal.tsx:35-112 | at 100.00 the dialog proposes 105.00 and a successful placement ends on success with 105.00 |
| AuctionSchema.Check | src/lib/validations/auction-schema.ts:3-19 | an issue is reported iff its rule is broken, in rule order |
| AuctionSchema.IssuesAreBrokenRules | src/lib/validations/auction-schema.ts:3-19 | the issues are exactly the broken rules, each once, in field order |
| AuctionSchema.Utf16Length | src/lib/validations/auction-schema.ts:4-9 | a string's length in UTF-16 code units, which zod's min and max count, lies between its number of characters and twice that |
| AuctionSchema.Utf16Example | src/lib/validations/auction-schema.ts:4-9 | two emoji and two letters are four characters but six code units |
| AuctionSchema.AcceptedIff | src/lib/validations/auction-schema.ts:3-19 | accepted iff title 5..100 and description 10..500 UTF-16 code units, image URL absent, empty or valid, start price at least one unit, deadline after now |
| AuctionSchema.PriceRules | src/lib/validations/auction-schema.ts:14-16 | a price <= 0 breaks both price rules; a positive price below one unit breaks only the first |
| Countdown.Timer.Update | src/components/ui/CountdownTimer.tsx:25-44 | shows the formatted time and urgency; reports expiry iff the deadline passed; `onExpire` is called only the first time |
| Countdown.Timer.SetDeadline | src/components/ui/CountdownTimer.tsx:21-58 | resets the flag, updates once, ticks iff the deadline is ahead; fires once if already passed |
| Countdown.Timer.Tick | src/components/ui/CountdownTimer.tsx:51-55 | updates and stops ticking once the deadline has passed |
| Countdown.ExpireOnceScenario | src/components/ui/CountdownTimer.tsx:97-134 | across ticks and deadline changes the callback fires once per passed deadline and the interval stops at expiry |
| Toasts.RemoveId | src/components/ToastProvider.tsx:33-35 | exactly the toasts with the id are removed |
| Toasts.RemoveIdDistributes | src/components/ToastProvider.tsx:33-35 | removal keeps the order of the rest |
| Toasts.RemoveAbsentId | src/components/ToastProvider.tsx:28-30 | removing an id no toast has changes nothing (a timer after a manual close) |
| Toasts.RemoveIdIdempotent | src/components/ToastProvider.tsx:28-35 | removing twice is removing once; removals commute |
| Toasts.ToastCenter.AddToast | src/components/ToastProvider.tsx:23-31 | the toast is appended and its removal timer queued |
| Toasts.ToastCenter.RemoveToast | src/components/ToastProvider.tsx:33-35 | the toast is removed at once; its timer stays queued |
| Toasts.ToastCenter.AutoRemoveFires | src/components/ToastProvider.tsx:28-30 | the oldest timer removes its toast, if still shown |
| Toasts.ToastCenter.Success | src/components/ToastProvider.tsx:38 | adds a success toast |
| Toasts.ToastCenter.Error | src/components/ToastProvider.tsx:39 | adds an error toast |
| Toasts.ToastCenter.Warning | src/components/ToastProvider.tsx:40 | adds a warning toast |
| Toasts.ToastCenter.Info | src/components/ToastProvider.tsx:41 | adds an info toast |
| Toasts.ToastScenario | src/components/ToastProvider.tsx:23-35 | after three toasts, one closed and one timed out, only the third is shown |
| Auctioneer.Push | src/components/AIAuctioneer.tsx:141 | the new item is first, the rest shift down, at most ten are kept |
| Auctioneer.PushKeepsNewestFirst | src/components/AIAuctioneer.tsx:134-141 | with fresh increasing ids the buffer stays newest first and bounded |
| Auctioneer.TimeWarningRanges | src/components/AIAuctioneer.tsx:182-202 | a warning is due exactly in the last minute, and it interrupts exactly at 30 s or less; the bucket boundaries agree with the two warnings |
| Auctioneer.EndMessageSoldIff | src/components/AIAuctioneer.tsx:206-215 | the announcement starts "SOLD!" exactly when there is a title and the price rose above the start price |
| Auctioneer.Panel.AddCommentary | src/components/AIAuctioneer.tsx:134-143 | the next id is used and the item pushed |
| Auctioneer.Panel.GenerateCommentary | src/components/AIAuctioneer.tsx:146-149 | nothing when the calling render saw loading; otherwise loading, with the request sent and added to those in flight |
| Auctioneer.Panel.CommentaryArrives | src/components/AIAuctioneer.tsx:150-162 | the reply to one in-flight request: a non-empty one is added under that request's kind; that request leaves those in flight (replies may come in any order) and loading ends, even if others remain |
| Auctioneer.Panel.BidEffect | src/components/AIAuctioneer.tsx:166-179 | a higher bid count on a running auction asks for interrupting bid commentary and records the count even if the request is dropped; otherwise nothing changes |
| Auctioneer.Panel.TimeEffect | src/components/AIAuctioneer.tsx:182-202 | runs once per 30-second bucket; asks for the due warning unless ended; otherwise loading and the requests are unchanged |
| Auctioneer.Panel.EndEffect | src/components/AIAuctioneer.tsx:205-219 | once ended, with commentary and no end item, the announcement is added under the next id; otherwise nothing changes |
| Auctioneer.OneMinuteReadings | src/components/AIAuctioneer.tsx:182-202 | readings at 100 s, 89 s and 59 s on an idle panel make one request, the non-interrupting one-minute warning |
| Auctioneer.ThirtySecondReadings | src/components/AIAuctioneer.tsx:182-202 | readings at 29 s and, once ended, 0 s make one more request, the interrupting thirty-second warning |
| Auctioneer.CountdownScenario | src/components/AIAuctioneer.tsx:182-202 | a countdown asks once for each warning, the second interrupting |
| Auctioneer.SameRenderScenario | src/components/AIAuctioneer.tsx:146-202 | a bid and the one-minute mark in one render send two requests; the first reply ends loading with one still in flight |
| Auctioneer.EndOnceScenario | src/components/AIAuctioneer.tsx:205-219 | running the end effect twice adds the announcement once |
| AiFunctions.OrDefault | src/server/ai-functions.ts:95-100 | a truthy field is kept whatever its type, otherwise the fallback text |
| AiFunctions.NumberOr | src/server/ai-functions.ts:98 | a number field is kept, anything else gives the fallback |
| AiFunctions.ExtractJsonSpan | src/server/ai-functions.ts:79-90 | a span is found iff some '}' follows a '{'; it runs from the first '{' to the last '}' |
| AiFunctions.ImageRequestChoice | src/server/ai-functions.ts:18-45 | no key or no image: those errors; otherwise a data URL as given, else base64 wrapped with its type (JPEG by default), else the URL; "No valid image provided" is unreachable |
| AiFunctions.AnalyzeProductImageContract | src/server/ai-functions.ts:10-107 | a failing guard decides before any model call; a thrown call gives its message or "Failed to analyze image"; a reply without a parseable JSON span gives the invalid-response error; success iff the reply parses, and then each field is the reply's truthy value or its default (Product, the stock description, Other, Good, 25, no keywords) |
| AiFunctions.Facts | src/server/ai-functions.ts:127-129 | hours remaining are never negative; the increase percentage is 0 without a positive start price and otherwise relative to it |
| AiFunctions.PredictAuctionOutcomeContract | src/server/ai-functions.ts:110-200 | without a key, the not-configured error; a thrown call gives its message or "Failed to predict auction"; an unparseable reply the invalid-response error; success iff the reply parses, and the prediction is then built from it with the defaults |
| AiFunctions.PredictionDefaults | src/server/ai-functions.ts:186-196 | confidence is the reply's only when it is one of the three words, else Medium; missing prices fall back on the current price, 1.2 times it and 5 more |
| AiFunctions.PromptFor | src/server/ai-functions.ts:223-235 | bid, time and end choose their prompts; every other event, "hype" included, the default one |
| AiFunctions.TrimBounds | src/server/ai-functions.ts:244 | the trimmed commentary neither starts nor ends with white space |
| AiFunctions.TrimMeaning | src/server/ai-functions.ts:244 | it is a slice of the reply with only white space cut from either end |
| AiFunctions.TrimIdempotent | src/server/ai-functions.ts:244 | trimming again changes nothing |
| AiFunctions.GenerateCommentaryContract | src/server/ai-functions.ts:204-254 | without a key no prompt is sent; otherwise the prompt follows the event, a reply is returned trimmed (empty is still success), an exception gives its message, or "Failed to generate commentary" when it has none |

## Left out

- Formatting money with `Intl.NumberFormat` (`formatCurrency`) is not modelled. Messages carry the amounts as numbers instead.
- `isValidImageUrl` and zod's URL check are not modelled: URL parsing is a parameter.
- Type errors from zod, such as a missing field, a non-number price or an invalid date, are not modelled. The form is taken as well typed.
- `debounce` and `generateId` are not modelled. Random toast ids are parameters.
- Floating-point rounding of prices is not modelled (every amount is whole cents). This affects `currentPrice * 0.05`, `toFixed` and `parseFloat` on amounts with more than two decimals. `toFixed`'s exponent form for huge numbers is also not modelled.
- Listing.ToLower: only the ASCII letters are folded, because JavaScript's full Unicode case mapping is not modelled.
- Listing.SortAuctions: `new Date()` is read once per sort, where the source reads it on every comparison. Also, sort stability is not stated.
- Listing price bounds are whole cents. `parseFloat`'s reading of text with trailing garbage is folded into `Amount`.
- `AiFunctions.IsSpace` covers the white space and line terminators of `String.prototype.trim` as fixed characters.
- The outbid toast on the listing page (`src/routes/auctions.tsx:62-67`) is not modelled. It is a lookup plus `formatCurrency`.
- The login redirect and bid-modal opening of `handleBidClick` are not modelled. They are navigation and JSX.
- The language-model calls, the prompt wording, the image/listing JSON sent and the HTTP plumbing (CORS, `/health`, 404) are not modelled. Model replies and `JSON.parse` are parameters.
- The `placeBid` server function is not part of this model: its outcome is a parameter of `BidModal.Dialog.SubmitBid`.
- The toasts raised by the bid dialog and the two-second close timer after success are not modelled.
- The auctioneer panel's `null` render for an ended auction without commentary is not modelled. It is JSX.
- Speech synthesis, voice choice, the random interrupt phrases and the expand/collapse state of the auctioneer panel are not modelled. The `interrupt` flag is kept on each request.
- The `priceIncrease` prompt text sent with bid commentary is not modelled, including its division by a zero start price.
- The relay's heartbeat pings and the ping/pong liveness are not modelled.
- JSON encoding of messages is not modelled. Messages are datatypes, and malformed frames are explicit variants.
- Concurrency is not modelled: the event loop is a sequence of method calls. Each callback, timer expiry and reply is one call.
- Countdown.Timer.SetDeadline: re-running the deadline effect when the caller passes a new `Date` object with the same instant is not distinguished from a real change. The callback-ref effect is not modelled.
- The reset of the listed auctions when the initial list changes (`src/hooks/useWebSocket.ts:79-81`) is not modelled: it replaces the state wholesale.
- `formatTimeRemaining`'s date and string arguments are not modelled: `Pricing.FormatTimeRemaining` takes the difference the caller computes against `now`.
- The case where a broadcast body parses to `null` is folded into `Relay.IngressBody.Unparseable`: reading its `auctionId` throws, so it is also answered 400.
- The `WS_PORT` setting and the listening socket are not modelled.
- The optional First and Last page buttons are not modelled. They are disabled under the same conditions as Prev and Next.
- The items-per-page selector and the reset to page 1 when filters change are not modelled. They are plain state assignments.
