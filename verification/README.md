# Verification of the Polyester Go SDK's realtime machinery and exact codecs

A Dafny model of the parts of the SDK whose correctness is not visible in any
one function: the private order stream, the snapshot-then-stream coordinator
with the local order book it feeds, the hand-written Protocol Buffers codec,
the resume gate, the token renewer and the timestamp allocator, the exact
decimal, money and identifier codecs, the deep clone of catalog values, and the
page-token loops. `dafny verify dfyconfig.toml` checks all of it.

How the pieces are modelled:

- A type whose methods update its fields under a mutex is a class. Every
  section it runs under the mutex is one method, proved to compute one step of
  a transition system; what must hold over every run and every interleaving is
  then proved of that system. `PrivateOrderStream` and `OrderStreamModel`,
  `SnapshotThenStream` and `SnapshotProtocol`, `SubaccountAccess` and
  `ResumeGate`, and the two halves of `TokenRenewer` and `Timestamps` are such
  pairs.
- A goroutine waiting for a token or a dial is a task, an armed timer is a
  token; each wakes up in a step of its own, or never. A loop over a Go map
  visits it in any order.
- Loops over slices, byte buffers, side maps and page tokens are methods with
  loops, proved against functions (`LocalBook`, `BookView`, `BookFeed`,
  `ProtoCursor`, `CatalogClone`, `Paging`). Code that only computes is
  functions and lemmas (`Wire`, `Replies`, `ReplyFields`, `Decimals`, `Money`,
  `Ids`, `OrderTotals`).
- What a step leads to is stated apart from the functions that compute it:
  `OrderStreamOutcomes` and `OrderStreamEndings` for the order stream,
  `SnapshotOutcomes` for the coordinator, `ResumeOutcomes` for the resume gate.
- Integers are unbounded except where the width matters: `Int64` with
  wrap-around in the book, 64-bit varints, 32-bit request numbers in the
  renewer, 128-bit amounts, the `int64` range of timestamps.
- Identifiers that are strings in the private protocol are integers here, with
  0 for the empty string. A decoded protobuf message is a datatype.

## Assumptions about the environment

Of the private order server (`OrderStreamView.Honest`, `Truthful`,
`FrameKept`; `OrderStreamControl.ControlKept`):

- A confirmation of a subscribe answers one whose message was written, names a
  non-empty server subscription that is not in use, and starts at the cursor
  that was asked for. A refresh confirmation answers a refresh.
- An error that says a refreshed subscription is unknown names it. The client
  compares that name with the subscription it has now
  (realtime/private_orders.go:883); see the second finding.
- Data frames of one server subscription are numbered 1, 2, 3 and so on. They may be
  late, repeated, reordered or lost; a frame numbered n is the n-th frame.
  Ready, Unavailable and Available are numbered like the frames that carry
  orders. Only expiry notices, unsolicited ends and frames of a kind the client
  does not know may come without a number.
- The cursor of a snapshot, unit or cover names the server's live view. Units
  and covers come only once the view is known: after a complete snapshot, or
  after a subscribe that resumed at a cursor; so in particular none comes inside
  a snapshot. A subscribe with an empty cursor starts with no known view.

Of the order book server (`LocalBook.Honest`, `HonestEvent`): a delta the client
does not refuse on sight tells the truth about the levels changed in its range,
a reset about the whole side, and a snapshot about its sequence number. A delta
the client refuses may say anything. Nothing is assumed about order, gaps or
repetition.

Of the page-token server (`Paging.Names`): the page tokens it can ever name are
finitely many. Clocks: the resume gate's clock does not go back; the
allocator's clock may do anything.

## Findings

- `Replies.UnknownInReply` (realtime/protocol.go:102-165): inserting a
  well-formed unknown field does not always leave a reply as it is. A reply
  without any field is read as a ping before its fields are looked at, so the
  record `[]` decodes to a ping while the same record with an unknown field
  decodes to a reply with id 0. Exactly this case fails: an inserted unknown
  field changes nothing if and only if the record was not empty without it.
- `OrderStreamTheorems.UnnamedRefreshError` (realtime/private_orders.go:883):
  an error that answers a refresh with "subscription unknown" and leaves the
  name empty matches a subscription that has no server subscription at that
  moment, and makes it subscribe once more. It is then served by exactly one
  of a server subscription, a pending subscribe and a retry timer if and only
  if it was not already waiting for a subscribe. The state can be reached:
  `OrderStreamWitness.DoubledReached` gives the run, ten events from an honest
  server, after which that error leaves the subscription served twice.
- `BookView.CheckedMulExact` (orderbook/local_book.go:105-114): the overflow
  test of `checkedMul` is exact but for -1 times the least integer, which
  overflows and passes. Bucketing never asks for that product, as bucket sizes
  are positive and prices are not negative where it multiplies.

## Model

| member | source | states |
|---|---|---|
| OrderStreamTheorems.ViewRefinement | realtime/private_orders.go:737-809 | In every reachable state a current subscription that holds a cursor shows exactly the server's live view at that cursor, through gaps, repeats, reordering, partial snapshots, resyncs, invalid cursors, resubscribes and reconnects |
| OrderStreamTheorems.InOrderPrefix | realtime/private_orders.go:737-760 | What a live subscription has made of its frames is what the first `seq` frames the server sent make, one after the other: the frames processed are an in-order prefix of those sent |
| OrderStreamTheorems.StaleAsTold | realtime/private_orders.go:800-824 | A live subscription, and every open consumer of it, is stale for exactly the reason and the orders of the last Unavailable among the frames processed, fresh if an Available came later or neither came, and ready exactly once a Ready frame was among them |
| OrderStreamTheorems.ConsumersAgree | realtime/private_orders.go:229-242 | For every open consumer, whenever it joined, folding the events it was sent gives the shared orders, connection state, readiness and staleness |
| OrderStreamTheorems.NeverStranded | realtime/private_orders.go:491-574 | While connected, each current subscription has exactly one of a live server subscription, one pending subscribe and an armed retry timer, and a pending subscribe has a goroutine or a timer that wakes it |
| OrderStreamTheorems.NeverDisconnectedForGood | realtime/private_orders.go:892-935 | While a subscription exists there is exactly one of a connection, a connect in flight and an armed reconnect timer |
| OrderStreamTheorems.BooksBalance | realtime/private_orders.go:978-1004 | `bySub` is the inverse of `sub`, every request and every consumer whose channel is open belongs to a current subscription, every current subscription has a consumer, and the run exists exactly while a subscription does |
| OrderStreamTheorems.QueuesBounded | realtime/private_orders.go:294-316 | No consumer ever has more events waiting than its queue holds |
| OrderStreamTheorems.ClosedForGood | realtime/private_orders.go:277-316 | However a run goes on, a closed consumer is sent nothing more and a closed channel stays closed |
| OrderStreamTheorems.UnnamedRefreshError | realtime/private_orders.go:842-890 | An unnamed "subscription unknown" error for a refresh, met by a subscription with no server subscription, leaves it served by exactly one thing if and only if it was not waiting for a subscribe |
| OrderStreamEndings.ToldByTheTable | realtime/private_orders.go:294-1026 | In every step of every run each consumer hears exactly the events that a table over the steps (`OrderStreamOutcomes.ScriptOf`) gives, in order, until its queue is full, and then the error that ends its subscription, if one does: which failures are reported to whom, which are fatal, when connects, disconnects, snapshots, units, readiness and staleness are told |
| OrderStreamEndings.WhyEnds | realtime/private_orders.go:978-1026 | A subscription outlives a step if and only if the table does not end it (refused token, refused or unconfirmed first subscribe, close codes 4400 and 4403) and some consumer of it neither leaves nor overflows in that step |
| OrderStreamEndings.JoinerTold | realtime/private_orders.go:193-242 | A late joiner hears the catch-up of its subscription as far as its queue goes, the first consumer of an account nothing yet |
| OrderStreamEndings.ConnectionToken | realtime/private_orders.go:404-489 | A refused connection token ends every subscription and the run; any other answer ends none that has a consumer with room in its queue |
| OrderStreamEndings.GivesUp | realtime/private_orders.go:608-629 | A frame out of order, a short snapshot and the server's own unsubscribe give the server subscription up and subscribe again, at once when there was progress since the last time and with a delay otherwise, from the same cursor, or from none after a short snapshot; the server is told unless it told so itself |
| OrderStreamEndings.StartsAfterLoss | realtime/private_orders.go:883-888 | A server subscription that the server does not know is not unsubscribed; the subscription starts again from its cursor |
| OrderStreamEndings.StartsWithoutCursor | realtime/private_orders.go:874-879 | A refused cursor is given up and the subscription subscribes at once without one; its consumers hear nothing |
| OrderStreamEndings.RenewsConnection | realtime/private_orders.go:732-734 | A connection token about to expire is fetched anew for that connection |
| OrderStreamEndings.RenewsSubscription | realtime/private_orders.go:825-826 | A subscription token about to expire is fetched anew for the server subscription it was for |
| OrderStreamEndings.SendsFreshToken | realtime/private_orders.go:581-606 | A fresh token is sent exactly if the server subscription it was fetched for is still the live one |
| OrderStreamEndings.LastLeaves | realtime/private_orders.go:978-1002 | The last consumer to leave ends its subscription: the server is told if others go on, and else the run is over |
| OrderStreamEndings.StrayTakenBack | realtime/private_orders.go:692-723 | A confirmation nobody waits for is unsubscribed; the answer to a refresh settles its request |
| OrderStreamEndings.ProgressForgets | realtime/private_orders.go:767-806 | A complete snapshot, a unit, a cover and a ready frame make the next repair immediate again |
| OrderStreamEndings.FailureDelays | realtime/private_orders.go:498-574 | A subscribe without a token and one not confirmed in time are withdrawn and tried again after a delay that counts one retry more, from the same cursor |
| OrderStreamEndings.BacksOff | realtime/private_orders.go:892-935 | A run that outlives a failed connect or a lost connection has a reconnect timer armed and one attempt more, the first again after a stable connection |
| OrderStreamWitness.ViewReached | realtime/private_orders.go:758-783 | An honest server and a run after which a subscription shows an open order at a non-empty cursor, so the premises of the view refinement can be met |
| OrderStreamWitness.DoubledReached | realtime/private_orders.go:581-629 | An honest server and a run that reaches a pending refresh beside a pending subscribe, where the unnamed error leaves the subscription served twice |
| OrderStreamSteps.StepKeeps | realtime/private_orders.go:193-1026 | Every section, whatever wakes it and in whatever order its loops run, keeps ownership, queues, routing, requests, timers and every subscription's agreement with its consumers |
| OrderStreamView.RunKeeps | realtime/private_orders.go:677-833 | After any run from an honest server the bookkeeping holds and every record tracks the server's frames |
| OrderStreamView.ProcessAbsorbs | realtime/private_orders.go:758-832 | Whatever processing a frame does besides (deliveries, overflows, teardown, resubscribing) comes after the record took the frame in, and touches no view and no position but to give it up |
| OrderStreamFrames.SubFrameKeeps | realtime/private_orders.go:737-832 | A frame of a server subscription, in order or not, keeps the bookkeeping even when delivering it tears the subscription down |
| OrderStreamConsumers.SortedOrdersFold | realtime/private_orders.go:244-258 | The sorted list of a map's orders folds back to the map, so a late joiner's snapshot says what the map says |
| OrderStreamConsumers.FoldCatchUp | realtime/private_orders.go:229-242 | What a late joiner is told folds to what the subscription's other consumers know |
| PrivateOrderStream.PrivateOrderStream.constructor | realtime/private_orders.go:180-188 | A new stream has no run, no connection and the configured queue bound, 1000 by default |
| PrivateOrderStream.PrivateOrderStream.Subscribe | realtime/private_orders.go:193-225 | Does exactly the subscribe step (run, subscription, consumer, then catch up, subscribe or connect) and keeps the invariant |
| PrivateOrderStream.PrivateOrderStream.CatchUp | realtime/private_orders.go:229-242 | Offers the joiner Connected, the snapshot, Ready and Stale, each when it applies, in that order, even if its queue overflows meanwhile |
| PrivateOrderStream.PrivateOrderStream.Remove | realtime/private_orders.go:260-275 | Takes the consumer out, closes its channel once, and ends the subscription with its last consumer; the invariant holds |
| PrivateOrderStream.PrivateOrderStream.CloseConsumer | realtime/subscription.go:71-87 | The first section of a close marks the consumer closed and nothing else |
| PrivateOrderStream.PrivateOrderStream.Read | realtime/subscription.go:52-55 | A consumer takes the oldest event it has not taken |
| PrivateOrderStream.PrivateOrderStream.Finish | realtime/private_orders.go:277-290 | Closes an open channel, keeping the first error |
| PrivateOrderStream.PrivateOrderStream.Offer | realtime/private_orders.go:294-316 | Queues the event, skips a closed consumer, or fails one whose queue is full and ends the subscription with its last consumer |
| PrivateOrderStream.PrivateOrderStream.Deliver | realtime/private_orders.go:318-323 | Offers the event to every consumer, in any order, with one and the same result |
| PrivateOrderStream.PrivateOrderStream.ReportAll | realtime/private_orders.go:335-352 | Reports the failure to every subscription, each once, in the order visited |
| PrivateOrderStream.PrivateOrderStream.ConnectReturned | realtime/private_orders.go:404-437 | A connect of an ended run does nothing; a refused token ends everything; a failure is reported and a reconnect armed; a socket subscribes every account. The invariant holds |
| PrivateOrderStream.PrivateOrderStream.Authenticate | realtime/private_orders.go:462-469 | Subscribes every current subscription on the new connection, each once |
| PrivateOrderStream.PrivateOrderStream.ReauthReturned | realtime/private_orders.go:471-489 | A new connection token is used, reported or fatal, on its own connection only; the invariant holds |
| PrivateOrderStream.PrivateOrderStream.SubscribeServer | realtime/private_orders.go:491-498 | A current subscription gets one pending subscribe and one token fetch |
| PrivateOrderStream.PrivateOrderStream.SubscribeTokenReturned | realtime/private_orders.go:498-534 | Writes the subscribe with the current cursor and arms its timer, or ends, or reports and retries; a fetch whose request is gone does nothing. The invariant holds |
| PrivateOrderStream.PrivateOrderStream.AckFired | realtime/private_orders.go:526-552 | An unanswered subscribe ends a subscription never confirmed and retries a confirmed one; a timer replaced meanwhile does nothing. The invariant holds |
| PrivateOrderStream.PrivateOrderStream.RetrySubscribe | realtime/private_orders.go:561-574 | Replaces the retry timer by one for this connection |
| PrivateOrderStream.PrivateOrderStream.RetryFired | realtime/private_orders.go:565-573 | Subscribes again if the timer is still the one armed and the subscription has no server subscription; the invariant holds |
| PrivateOrderStream.PrivateOrderStream.RefreshReturned | realtime/private_orders.go:581-606 | A refresh is requested only for the server subscription it was fetched for; the invariant holds |
| PrivateOrderStream.PrivateOrderStream.Resubscribe | realtime/private_orders.go:608-629 | Drops the server subscription, subscribes again at once or after a backoff, and tells consumers once that they are disconnected |
| PrivateOrderStream.PrivateOrderStream.OnFrame | realtime/private_orders.go:677-833 | One message from the socket does exactly its step, on the current connection only, and keeps the invariant; what the step tells and keeps is StaleAsTold, ToldByTheTable and GivesUp |
| PrivateOrderStream.PrivateOrderStream.OnRequestError | realtime/private_orders.go:842-890 | An error is matched to its request or server subscription and drops a cursor, ends, resubscribes or is reported |
| PrivateOrderStream.PrivateOrderStream.OnClosed | realtime/private_orders.go:892-921 | A closed connection is forgotten everywhere, then ends everything or arms a reconnect and tells consumers; the invariant holds |
| PrivateOrderStream.PrivateOrderStream.ReconnectFired | realtime/private_orders.go:923-935 | Connects again unless there is nothing to connect for or a connect is under way; the invariant holds |
| PrivateOrderStream.PrivateOrderStream.Detach | realtime/private_orders.go:938-953 | Forgets the connection, its requests and every current subscription's server subscription and timers |
| PrivateOrderStream.PrivateOrderStream.Shutdown | realtime/private_orders.go:957-971 | Ends the run and everything that belongs to it |
| PrivateOrderStream.PrivateOrderStream.Teardown | realtime/private_orders.go:978-1000 | Ends a current subscription, closing each consumer once, and the run with the last one; anything else is left alone |
| PrivateOrderStream.PrivateOrderStream.TerminateAll | realtime/private_orders.go:1006-1026 | Ends every subscription with the error, each after telling its consumers |
| SnapshotTheorems.AppliedExactlyOnce | realtime/client.go:811-921 | Over every interleaving the applied publications are a prefix of those received, in order and each once; while the stream lives everything received is applied, in one callback's hands or pending; when ready nothing is pending; pending never exceeds its bound |
| SnapshotTheorems.NothingAfterTheEnd | realtime/client.go:979-997 | Once disposed, the stream stays so and applies only what a callback already held |
| SnapshotTheorems.MismatchMeansDisposed | realtime/client.go:877-915 | A refresh that sees another generation than its own is on a disposed stream |
| SnapshotTheorems.OneWorkerRuns | realtime/client.go:925-952 | At most one refresh worker exists, and while a request is not served it exists and can move or waits for the refresh under way |
| SnapshotTheorems.NoLostRequest | realtime/client.go:925-968 | On a stream not disposed, every request is followed by a refresh that begins after it before the worker goes away |
| SnapshotOutcomes.RetriesOnce | realtime/client.go:955-968 | Over every interleaving, counting a worker's turn from its events: it begins at most two refreshes, pauses only when the first failed, and fails the stream exactly when both failed, or the first did and the pause was cut short |
| SnapshotOutcomes.FailureOutcome | realtime/client.go:955-968 | The first refresh of a turn that fails, by its fetch or by a panic, makes the worker pause; the second makes it give up |
| SnapshotOutcomes.WorkerGone | realtime/client.go:938-952 | A worker goes away only from the top of its loop with nothing noted, on a stream that is over, or by failing the stream after two failures or a cut pause |
| SnapshotOutcomes.WhyDisposed | realtime/client.go:811-997 | A stream is over exactly when an overflow, a panic of a callback, a worker giving up, a terminal error or a stop came before |
| SnapshotOutcomes.WhyReady | realtime/client.go:862-977 | The stream is ready exactly when a refresh drained the buffer since the last refresh began, fetch or transport failed, or stream ended; a stop leaves readiness as it is |
| SnapshotOutcomes.RefreshEnds | realtime/client.go:880-921 | A refresh of a living stream ends with a failed fetch or with the stream ready |
| SnapshotProtocol.StepKeeps | realtime/client.go:811-997 | Every section of stream worker, refreshers and refresh worker accounts for each publication, dates the refresh under way and keeps the single worker; what a failure leads to is RetriesOnce and FailureOutcome |
| SnapshotThenStream.SnapshotThenStream.Receive | realtime/client.go:811-845 | A publication is applied live, buffered, or ends the stream when the buffer is full; the invariant holds |
| SnapshotThenStream.SnapshotThenStream.BeginRefresh | realtime/client.go:862-876 | A refresh takes a new generation and makes the stream not ready, or nothing on a disposed stream; the invariant holds |
| SnapshotThenStream.SnapshotThenStream.TakeBuffered | realtime/client.go:885-896 | A fetched snapshot takes the whole buffer, unless the stream is disposed or a newer refresh began; the invariant holds |
| SnapshotThenStream.SnapshotThenStream.Drain | realtime/client.go:897-921 | The stream becomes ready only with nothing pending; otherwise the next batch is taken; the invariant holds |
| SnapshotThenStream.SnapshotThenStream.Request | realtime/client.go:925-937 | A request is noted for the worker, which is started if there is none; the invariant holds |
| SnapshotThenStream.SnapshotThenStream.WorkerTop | realtime/client.go:938-952 | The worker takes the noted requests or goes away, never leaving one behind; the invariant holds |
| SnapshotThenStream.SnapshotThenStream.FailClosed | realtime/client.go:979-997 | Disposes the stream, drops the buffer and dates every refresh under way |
| SnapshotThenStream.SnapshotThenStream.Stop | realtime/client.go:1018-1029 | Disposes the stream, drops the buffer and dates every refresh under way |
| LocalBook.ReplayRefines | orderbook/local_book.go:137-172 | After any sequence of snapshots and deltas (stale, overlapping, reset, malformed, gapped) both sides are the server's sides at the local sequence number |
| LocalBook.MergeRefines | orderbook/local_book.go:137-172 | One delta, whatever it is, leaves the book the server's book at its own sequence number |
| LocalBook.MergeAllOrNothing | orderbook/local_book.go:137-172 | A delta either moves the sequence to its end or leaves book and sequence as they were |
| LocalBook.NeverBack | orderbook/local_book.go:149-160 | Within a snapshot's lifetime the sequence never decreases |
| LocalBook.PrintedDelta | orderbook/local_book.go:147-160 | Of deltas with printed sequence numbers exactly those with a bad row, an inverted range or an end above an `int` are refused; refresh and new sequence follow from the numbers |
| LocalBook.ApplyDelta | orderbook/local_book.go:137-172 | Updates both sides in place and returns sequence and refresh flag as the merge function says |
| LocalBook.ApplySideDelta | orderbook/local_book.go:38-52 | Applies the rows one by one in place, skipping negative ones and deleting on zero |
| LocalBook.SideAfterQty | orderbook/local_book.go:38-52 | After applying rows the quantity at a price is the last one named for it, or the one before |
| LocalBook.LevelsFromProtoLevels | orderbook/local_book.go:18-35 | Succeeds exactly when every level is present with positive price and quantity; otherwise gives the first bad level's error |
| BookView.BucketSide | orderbook/local_book.go:58-101 | Whatever order the map is visited in: succeeds exactly when all levels are valid and every bucket price and total fits `int64`, and then gives exactly the bucketed side |
| BookView.BucketRange | orderbook/local_book.go:73-90 | A bid's bucket is in (price - b, price], an ask's in [price, price + b) |
| BookView.QuantityConserved | orderbook/local_book.go:58-101 | Bucketing neither loses nor invents quantity |
| BookView.UncrossedStays | orderbook/local_book.go:58-101 | A book whose bids are below its asks stays so when bucketed |
| BookView.BucketedUnique | orderbook/local_book.go:58-101 | A side has one bucketed form |
| BookView.CheckedMulExact | orderbook/local_book.go:105-114 | The product, or an error exactly on overflow, but for -1 times the least integer |
| BookView.CheckedAddExact | orderbook/local_book.go:116-122 | The sum, or an error exactly on overflow |
| BookView.SideToLevels | orderbook/local_book.go:197-234 | Exactly the best min(limit, n) levels of the bucketed side in strict order, or an error exactly when the side cannot be bucketed or has a level that is not positive |
| BookView.BestUnique | orderbook/local_book.go:215-230 | The best levels in strict order are one list only |
| BookView.BuildOrderbookData | orderbook/local_book.go:176-193 | Renders both sides; an error for a negative depth and exactly when a side cannot be rendered |
| BookView.ShownUncrossed | orderbook/local_book.go:176-234 | Of an uncrossed book every bid shown is below every ask shown |
| BookFeed.BookFeed.Emit | services/orderbook.go:148-169 | Hands out the rendered book with its availability, or closes the subscription exactly when it cannot be rendered; a closed one gets nothing |
| BookFeed.BookFeed.HandleDelta | services/orderbook.go:171-190 | Unless closed: merges the delta and keeps the book the server's; asks for a snapshot exactly when the merge says so and then hands out nothing; otherwise hands out exactly one view, the best levels of the new sides at the new sequence with the availability, or closes exactly when the book cannot be rendered |
| BookFeed.BookFeed.MergeBuffered | services/orderbook.go:275-277 | Merges the buffered deltas in order, all of them unless one leaves a book that cannot be rendered; hands out one view for each that asks for no snapshot, with the sequence it led to |
| BookFeed.BookFeed.InstallSnapshot | services/orderbook.go:241-274 | Replaces both sides together or nothing, fails exactly on a bad level or a book that cannot be rendered, renders the best levels of the new sides, and keeps the book the server's |
| BookFeed.BookFeed.ApplySnapshot | services/orderbook.go:278-291 | Folds the buffered deltas into the book, all of them unless a book that cannot be rendered closes the subscription, each shown once; then shows the book unless the snapshot repeats an unavailable one; paces the next request |
| BookFeed.BookFeed.RecheckUnavailableSnapshot | services/orderbook.go:194-213 | While unavailable exactly one request is scheduled, with a delay that doubles up to eight seconds; an available snapshot resets it |
| BookFeed.BookFeed.RecheckFired | services/orderbook.go:214-231 | A scheduled request is made exactly when no available snapshot came in between |
| Wire.VarintRoundTrip | realtime/protocol.go:363-397 | Decoding inverts encoding for every 64-bit value, whatever follows |
| Wire.VarintAccepts | realtime/protocol.go:380-397 | Exactly the byte strings that start with a varint of at most ten bytes and 64 bits are accepted (section "Base 128 Varints" of the Protocol Buffers Encoding specification) |
| Wire.FieldsConcat | realtime/protocol.go:399-451 | The fields of two well-formed stretches are the fields of the first followed by those of the second |
| Wire.LengthDelimitedRoundTrip | realtime/protocol.go:420-432 | Reading a length-delimited value gives the value and stops behind it |
| Replies.RepliesCompose | realtime/protocol.go:77-98 | Decoding two frames joined is decoding both and joining the messages, within the 8 MiB cap |
| Replies.OKReplyRoundTrip | hardening/centrifugo.go:5-11 | An empty success reply decodes to a reply with its id |
| Replies.PublicationRoundTrip | hardening/centrifugo.go:13-21 | A publication frame decodes to its payload, or is too long exactly above the cap |
| Replies.UnsubscribeRoundTrip | hardening/centrifugo_unsubscribe.go:11-18 | An unsubscribe frame decodes to its channel, code and reason, or is too long exactly above the cap |
| Replies.CommandReads | realtime/protocol.go:70-75 | A command is one record whose fields are the id and the request |
| Replies.ConnectRequestReads | realtime/protocol.go:37-43 | A connect request says its token, unless there is none |
| Replies.ChannelRequestReads | realtime/protocol.go:45-64 | A subscribe or renewal request says its channel and its token; a subscribe without token leaves it out |
| Replies.PongReads | realtime/protocol.go:66-68 | A pong is the record a reader takes for a ping |
| Replies.UnknownInPush | realtime/protocol.go:247-292 | Inserting a well-formed unknown field into a push changes nothing |
| Replies.UnknownInUnsubscribe | realtime/protocol.go:294-325 | Inserting a well-formed unknown field into an unsubscribe changes nothing |
| Replies.UnknownInReply | realtime/protocol.go:102-165 | Inserting a well-formed unknown field into a reply changes nothing if and only if the reply was not empty |
| ReplyFields.ConnectionLifetime | realtime/protocol.go:167-206 | A reply whose connect result (field 5) or refresh result (14) says in field 3 whether the token expires and in field 4 after how many seconds decodes to exactly that, for every id and lifetime within 32 bits, and to the error of the first that is not |
| ReplyFields.SubscriptionLifetime | realtime/protocol.go:167-206 | The same for a subscribe result (6) and a sub refresh result (15) with fields 1 and 2 |
| ReplyFields.ErrorRoundTrip | realtime/protocol.go:208-245 | A reply whose field 2 holds a code (1), a message (2) and a temporary flag (3) decodes to that error, for every code within 32 bits |
| ReplyFields.IdRange | realtime/protocol.go:118-126 | A reply id beyond 32 bits is refused, every other comes back |
| ReplyFields.PushWithId | realtime/protocol.go:135-164 | A push that carries an id is a reply as well, after its messages; without an id it is not |
| ReplyFields.UnsubscribeLast | realtime/protocol.go:247-292 | An unsubscribe written before the publication and the channel of its push comes last and names that channel |
| ReplyFields.UnsubscribeCodeRange | realtime/protocol.go:294-325 | An unsubscribe code beyond 32 bits is refused |
| ReplyFields.FixedPassed | realtime/protocol.go:434-451 | A 64-bit field is passed over with eight bytes and a 32-bit one with four, whatever follows |
| ReplyFields.FixedRefused | realtime/protocol.go:434-451 | A fixed field cut short and every other wire type are errors |
| ReplyFields.ZeroRefused | realtime/protocol.go:399-409 | A field numbered zero is an error |
| ReplyFields.NumberWraps | realtime/protocol.go:399-409 | A field number keeps its 32 low bits |
| ReplyFields.LengthRange | realtime/protocol.go:77-98 | A field and a record are as long as their length says, and refused beyond 8 MiB or the bytes there are |
| ReplyFields.UnknownInError | realtime/protocol.go:208-245 | Inserting a well-formed unknown field into an error changes nothing |
| ReplyFields.UnknownInPublication | realtime/protocol.go:327-346 | Inserting a well-formed unknown field into a publication changes nothing |
| ReplyFields.UnknownInLifetime | realtime/protocol.go:170-206 | Inserting a well-formed field other than 3 and 4 (connect, refresh) or 1 and 2 (subscribe, sub refresh) into a result changes nothing |
| ProtoCursor.ProtoCursor.Varint | realtime/protocol.go:380-397 | Reads what the varint function says and advances by exactly its bytes |
| ProtoCursor.ProtoCursor.Key | realtime/protocol.go:399-409 | Reads field number and wire type, refusing number 0, and advances by exactly the key |
| ProtoCursor.ProtoCursor.Take | realtime/protocol.go:411-418 | Takes the bytes or fails without leaving the buffer |
| ProtoCursor.ProtoCursor.LengthDelimited | realtime/protocol.go:420-432 | Reads a length and that many bytes, or fails without leaving the buffer |
| ProtoCursor.ProtoCursor.Skip | realtime/protocol.go:434-451 | Passes over exactly one value of the wire type, or fails |
| ProtoCursor.DecodeReplies | realtime/protocol.go:77-98 | Decodes a frame record by record as the reply function says |
| ProtoCursor.DecodeReply | realtime/protocol.go:102-165 | Decodes one record field by field as the reply function says |
| ProtoCursor.DecodePush | realtime/protocol.go:247-292 | Decodes a push field by field as the push function says |
| ProtoCursor.DecodeUnsubscribe | realtime/protocol.go:294-325 | Decodes an unsubscribe field by field as its function says |
| ProtoCursor.DecodePublication | realtime/protocol.go:327-346 | Decodes a publication field by field as its function says |
| ProtoCursor.DecodeExpiry | realtime/protocol.go:170-206 | Decodes a token lifetime field by field as its function says; which fields those are is ConnectionLifetime and SubscriptionLifetime |
| ProtoCursor.AppendVarint | realtime/protocol.go:363-369 | The loop appends exactly the encoding |
| ProtoCursor.AppendVarintShifting | hardening/centrifugo.go:29-42 | The other loop appends the same encoding |
| ResumeGate.ResumesOnlyWhenListed | realtime/resubscribe.go:188-233 | A subscription resumes only on a read that began after it joined it and listed its sub-account, with no removal standing at that moment, and not before its slot; why it ends otherwise is WhyEnded and MustEnd |
| ResumeOutcomes.WhyEnded | realtime/resubscribe.go:188-233 | A step that ends a subscription has its reason: the read it joined was refused; the answer it judged did not list it; no attempts were left; or its sub-account stood removed, which is told before the others |
| ResumeOutcomes.MustEnd | realtime/resubscribe.go:188-233 | Each of these reasons ends it at the moment it is looked for; a read that failed otherwise makes it ask again, one that lists it lets it reserve a slot, and a slot that is over resumes it |
| ResumeOutcomes.EndedForGood | realtime/resubscribe.go:188-233 | What has ended stays ended, for the same reason |
| ResumeOutcomes.RemovedAsTold | realtime/resubscribe.go:164-183 | A sub-account stands removed exactly when the latest update about it removed it |
| ResumeOutcomes.BudgetAsTold | realtime/resubscribe.go:113-161 | The attempts counted are those begun since the last stable period, and that is measured from the last confirmation since the server last ended the subscription |
| ResumeGate.AttemptsBounded | realtime/resubscribe.go:196-200 | Over any stretch of a run without a stable period, the attempts a subscription begins are at most the maximum |
| ResumeGate.BudgetKept | realtime/resubscribe.go:154-161 | Attempts made are forgotten only when the server ends a subscription that stayed up long enough |
| ResumeGate.PacedAcrossCallers | realtime/resubscribe.go:237-283 | Across any number of callers reads begin at least an interval apart and attempt slots are at least a spacing apart, though callers read the clock before they hold the mutex |
| SubaccountAccess.SubaccountAccess.NoteUpdate | realtime/resubscribe.go:164-176 | Notes or clears a removal; the invariant holds |
| SubaccountAccess.SubaccountAccess.JoinRead | realtime/resubscribe.go:250-260 | Joins the read that has not begun, starting it exactly when there is none; the invariant holds |
| SubaccountAccess.SubaccountAccess.PaceRead | realtime/resubscribe.go:267-274 | A read waits until an interval after the last; the invariant holds |
| SubaccountAccess.SubaccountAccess.BeginRead | realtime/resubscribe.go:275-280 | From here callers join another read; the invariant holds |
| SubaccountAccess.SubaccountAccess.ReserveAttempt | realtime/resubscribe.go:237-246 | Takes the next slot and returns the wait for it, whenever the clock was read; the invariant holds |
| TokenRenewer.AnsweredOnce | realtime/renewal.go:107-148 | Over any run a reply answers an id no more often than it was sent, and at most once until 2^32 requests were sent |
| TokenRenewer.NothingAfterStop | realtime/renewal.go:163-174 | Once stopped, nothing is sent or armed any more, and the wait group counts exactly the renewals still in flight |
| TokenRenewer.RenewsNext | realtime/renewal.go:87-150 | Over any run a renewal is armed exactly when the server says that a token expires, at the start or in a success that answers a renewal, with a timer of its own in place of its kind's; a refusal, an unexpiring token and a stray reply leave every timer |
| TokenRenewer.SendsOnce | realtime/renewal.go:107-142 | Every fetched token is sent once, numbered next and remembered with its kind, unless the connection is over; a reply settles its request and no other |
| TokenRenewer.TokenRenewer.Schedule | realtime/renewal.go:87-105 | Replaces the kind's timer, the wait group counting one per armed timer and running renewal |
| TokenRenewer.TokenRenewer.TokenFetched | realtime/renewal.go:107-131 | Numbers and sends a request unless stopped, canceled or failed |
| TokenRenewer.TokenRenewer.HandleReply | realtime/renewal.go:135-150 | Answers a pending request once and schedules the next renewal after a success |
| TokenRenewer.TokenRenewer.Stop | realtime/renewal.go:163-174 | No timer is left; what remains to wait for is the renewals in flight |
| Timestamps.TimestampsDistinct | auth/timestamps.go:28-67 | Over any number of threads and any clock, issued timestamps strictly increase in the order they are issued, each between the clock read and 5000 ms after it, within `int64` |
| Timestamps.CallersDiffer | auth/timestamps.go:36-66 | Two callers never get the same timestamp |
| Timestamps.FailureMeansProgress | auth/timestamps.go:52-66 | A compare-and-swap fails only because another one succeeded meanwhile |
| Timestamps.EarliestPossible | auth/timestamps.go:36-66 | Over any run each timestamp is the clock its thread read, or one more than the timestamp issued before it, whichever is later |
| Timestamps.TurnEnds | auth/timestamps.go:44-66 | A turn issues that timestamp exactly when none was issued since its load and it is within 5000 ms of the clock; otherwise it tries again, or fails when it may not wait or no `int64` is left |
| Timestamps.ClockUsable | auth/timestamps.go:38-44 | A clock before the epoch or within 5000 ms of the greatest `int64` fails the call |
| Timestamps.Allocator.CompareAndSwap | auth/timestamps.go:52-66 | One try does exactly its step; the invariant holds |
| Decimals.ParsesExactly | codecs/money.go:278-325 | Parsing succeeds exactly on strict decimals that are an integer at the scale, and gives that integer |
| Decimals.PrintsCanonical | models/money.go:475-543 | Every integer that is a decimal at some scale prints as that decimal's canonical form |
| Decimals.ParseFormat | codecs/money.go:278-325 | Parsing what was printed gives the integer back at every scale from 0 to 36 |
| Decimals.FormatParse | codecs/money.go:278-325 | Printing what was parsed gives the canonical form of the text |
| Money.PriceRoundTrip | codecs/scalars.go:35-71 | Parse after format is the identity on non-negative ticks |
| Money.PriceReads | codecs/scalars.go:35-52 | Exactly the texts that denote a whole number of ticks up to the greatest `int64` are prices, and they are read as that number |
| Money.QtyReads | codecs/scalars.go:76-97 | Exactly the texts that denote a positive whole number at the scale are quantities: within 64 bits at scale 18, 63 at the others |
| Money.PriceCanonical | codecs/scalars.go:35-71 | Format after parse is the canonical form of the text |
| Money.QtyRoundTrip | codecs/scalars.go:76-130 | Parse after format is the identity on positive quantities at every scale |
| Money.QtyCanonical | codecs/scalars.go:76-130 | Format after parse is the canonical form of the text |
| Money.RescalesExactly | codecs/money.go:201-230 | Rescaling succeeds exactly when the value is representable at the target scale in 128 bits, and gives that value |
| Money.ResolvesExactly | codecs/money.go:133-199 | A resolved amount is exactly the decimal, positive and below 2^128 |
| Money.ResolvesWhen | codecs/money.go:133-199 | An amount is resolved to `out` if and only if the text denotes `out` at the target scale and some number at the scale it is read at, it is positive and within 128 bits, and within 63 unless it is for the ledger |
| Money.SplitJoin | codecs/withdraw.go:43-50 | Splitting into two 64-bit halves and joining them gives the amount back exactly when it fits 128 bits |
| Money.LedgerPrints | codecs/ledger.go:51-88 | The ledger formatter accepts exactly digit strings below 2^128 and prints their value at the scale |
| Money.AmountPipeline | codecs/money.go:133-199 | A decimal resolved to the 18-decimal ledger scale, split, joined and printed by the ledger formatter is its own canonical form |
| Ids.IdRoundTrip | codecs/scalars.go:133-175 | Parsing a printed id gives the id back for every 64-bit id, even when its base58 text is all digits |
| Ids.EveryIdText | codecs/scalars.go:133-168 | What every text is read as: digits as the id whose text they are, else as the number they are; anything else as its base58 value; an empty text, a foreign character and a value beyond 64 bits are the three errors |
| Ids.DecimalWithZero | codecs/scalars.go:133-168 | A decimal id with a zero digit, which base58 does not have, is read as the decimal it is |
| Ids.IdsDistinct | codecs/scalars.go:170-175 | Different ids print differently |
| Ids.DecodedValue | codecs/scalars.go:133-168 | Decoding base58 text gives the bytes of its value (sections "Base58 Encoding Algorithm" and "Base58 Decoding Algorithm" of draft-msporny-base58) |
| OrderTotals.BudgetConserved | models/order_totals.go:49-129 | Whenever the unspent amount is known so is the used one, and as exact rationals they add up to the submitted budget, for fee, rebate and base-fee orders and either order of the scales |
| OrderTotals.UsedKnown | models/order_totals.go:81-111 | The quote used is known exactly when the fee total covers every fill and any fee is in quote or base, and then it is the notional plus a quote fee, minus a quote rebate, exactly, at the finer of the two scales |
| OrderTotals.QuoteUsedKnown | models/order_totals.go:49-56 | It is printed exactly when it is known at a base scale up to 27, as a decimal of exactly that value |
| OrderTotals.QuoteUnspentKnown | models/order_totals.go:62-79 | The unspent amount is known exactly for an order with a budget whose quote used is known, at scales that are printed |
| OrderTotals.FeeSides | models/order_totals.go:81-111 | A quote fee costs exactly what a rebate gives back, and a base fee costs no quote |
| CatalogClone.CloneCatalogValue | catalogs/catalogs.go:139-287 | For any finite, possibly cyclic graph the clone terminates; it fails exactly when something reachable hides fields; otherwise it is the image of the source under an injective map of nodes that covers exactly the nodes reachable, each alike in kind, type, length and capacity, and shares no node with the source |
| CatalogGraph.ImageInjective | catalogs/catalogs.go:150-263 | Different values have different images, so a copied map keeps its keys apart |
| CatalogClone.Cloner.CloneValue | catalogs/catalogs.go:150-263 | One value's clone copies every node it reaches that was not copied yet and no other, leaving nodes still being filled alone |
| Paging.Paginate | services/changelog.go:107-136 | Yields exactly the concatenation of the pages up to the first error, repeated token or break of the consumer; no token is requested twice, so a server with finitely many tokens is asked finitely often |
| Paging.Collect | services/changelog.go:138-147 | Every item of every page, or the error |
| Paging.StopAllTrading | services/stop_all_trading.go:55-110 | Nothing is canceled unless the listing is complete; with a live context every distinct listed trigger is attempted exactly once, in order, and lands in exactly one of canceled and failed; the cancel-all comes last, once |
| Paging.ListTriggers | services/stop_all_trading.go:60-84 | The distinct ids of all pages in the order first listed, or the error; no token is requested twice |

## Left out

- Sockets, HTTP, TLS, token endpoints, JSON and generated protobuf code: a token
  fetch succeeds, is refused or fails; a frame is an already decoded message.
- Decoding of orders: the identity.
- Real time, jitter and backoff lengths of the order stream and the snapshot
  stream: an armed timer fires at any moment or never. Write failures, encode
  failures and panicking callbacks of the order stream.
- The unit event's payload beyond changed orders and removed ids, and the texts
  of errors.
- Wrap-around of the order stream's 64-bit sequence and request numbers.
- `CloseCall` and `ReadOne` of `OrderStreamModel` happen between the sections
  of the stream. In the source they take the subscription's own lock only, so
  they can also fall inside a loop that delivers to several consumers or catches
  one up; interleavings at that grain are not modelled.
- Waiting: `Subscription.Close` waiting for its goroutine, and the stream's own
  shutdown waiting for its goroutines.
- That a subscription that ended has no armed timer: an overflow while a failed
  subscribe is reported can leave one, which does nothing when it fires.
- SnapshotThenStream's transport: subscribing, reconnecting and its backoff are
  the errors and publications they lead to.
- BookFeed: the symbol and quantity scale attached to a rendered book, and the
  user's callbacks.
- SendsOnce: the token fetched for a renewal may be of either kind; which kind's
  timer started it is not kept.
- ResumeGate: channels that name no sub-account, for which the source ends the
  subscription at once, and the lengths of the backoff.
- NoLostRequest: says nothing of a worker that never moves again; the source
  retries a failed fetch only after a pause, which may last for ever here.
- CloneCatalogValue: zero-size allocations that share an address, map keys that
  are not equal to themselves, and function, channel and unsafe pointer values,
  which the source shares. Nodes are values with explicit addresses and
  pointers, not Go memory.
- QtyCanonical: quantities above the largest `int64`, which the parser accepts
  at scale 18 and the formatter cannot take.
- PriceRoundTrip: negative ticks; the least `int64` prints wrongly in the signed
  formatters, as negating it overflows.
- Catalog hydration, lookups and validation, the flat validation trees of orders
  and triggers, enum and label maps, error classification, chain signing, and
  the thin service wrappers: their claims are settled by reading one branch.
