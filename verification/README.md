# Verification of the weaver multiplexer and its neighbours

This project models the behaviour of the weaver repository in Dafny and proves
properties of it. Its centre is the `weaver-mux` connection engine: a state
machine that multiplexes message streams over one frame transport, with a signed
handshake, credit windows, fragmentation and compression, half-close, reset and
teardown. Around it stand six smaller cores: the usage metrics, the rate limiter
and its evicting store, the byte classifier of the request scanner, the visitor
exchange pump, the scheduler of periodic jobs, and two codecs.

## How it is built

The engine is described twice. `Conn` gives every call as a function from the
state before to the state after; `Engine` is the object itself,
whose methods update their fields step by step and are each proved to compute
that function. All properties are proved about the functions, so they hold of the
object.

| module | what it holds |
|---|---|
| `MuxTypes`, `Int64` | frames, events, errors, parameters; 32- and 64-bit arithmetic |
| `Fragments` | cutting a message into payloads and putting it together again |
| `Flow`, `Streams`, `Timing` | credit windows, one stream, the deadlines |
| `Conn` | the connection, call by call, as functions |
| `Engine` | the connection and its scheduler as objects |
| `Ends` | one stream at one end: the order of its frames and its invariant |
| `SoloRun`, `Hostile`, `Runs` | runs of one connection against any peer |
| `Wakeups`, `Queues` | credit and wake-ups over a run; how many messages may queue |
| `Deadlines`, `Goodbye` | time; the last frames of a connection |
| `Scripts` | runs written out act by act, to reach a state by example |
| `Link` | both ends of one stream and the frames between them |
| `Handshake` | the order of connection frames |
| `Peers`, `Delivery`, `System` | two connections and two FIFO queues, any interleaving |
| `Theorems`, `Tightness` | what an application may rely on, and that its bound on credit is attained |
| `Metrics`, `Metering` | live and folded usage and the queries over both; runs of writes and folds |
| `Limiter`, `BudgetStore`, `Lifetimes` | the rate limiter, the token bucket, the evicting store, its lifetime |
| `Scanner` | the word-at-a-time classifier |
| `Visitor` | the exchange pump |
| `TaskScheduler` | deadlines, waits and ticks |
| `Codecs` | key texts and frame bytes |

A run of `System` starts from any client and server configuration and takes any
sequence of moves: a call of either application with any arguments, a timeout at
any instant, a transmission of whatever the scheduler may pick, or the delivery
of the frame at the head of either queue. What the outside decides (signatures,
key lookups, re-verification, random nonces, the clock) is an argument of the
move and arbitrary. Compression is a pair of functions of which only one thing is
assumed: decompressing what was compressed gives it back when the cap allows.

## What was found

- `handle_timeout` ends for every positive `reverify_interval` and for no other: with
  a zero interval, a due check and a key that stays valid, any number of rounds
  leaves the check due (`Deadlines.LoopEndsIffPositive`).
- The default parameters promise messages that can never be sent: a message costs
  its length and one byte per fragment, and from 512 KiB on that exceeds the
  default window whatever the state (`Theorems.DefaultsAdmitUnsendable`,
  `Theorems.TooDearForever`).
- The bound on queued messages holds for frames of one length if and only if that
  length is not a multiple of four gigabytes: such a length casts to zero and the
  frame is taken for free (`Queues.BoundIffSized`); a run in which a peer queues
  any number of messages so is `Queues.QueueUnbounded`.
- A connection closes with GOAWAY for whatever reason but three: the peer's GOAWAY,
  its REJECT, or a HELLO turned away (`Goodbye.ClosingParts`).
- The retry delay of the limiter is exact if and only if the wait fits 64 bits;
  on a clock far below zero it wraps and reports one millisecond
  (`Limiter.RetryIsExact`, `Limiter.RetryWraps`).
- A usage window cut inside an hour or day slot shows whether its days were folded
  (`Metrics.FoldVisible`); on whole slots nothing shows.
- `totals` promises that the caller cannot tell live from folded days. That holds if
  and only if the window is whole days: on every other window there is data whose
  total changes with the fold, as rollup columns are not clipped
  (`Metrics.TotalsVisible`). Its caller, `crates/weaver-server/src/account/views/mod.rs:457-463`,
  passes the last thirty days up to now, which is whole days only at midnight.
- The comments say that a service-day is in one table only, so that no dedup is
  needed. Nothing keeps it so: a flush that failed is retried
  (`crates/weaver-server/src/metering/mod.rs:565-578`) after its day was folded
  (`crates/weaver-server/src/metering/mod.rs:651-658`), and the next fold then replaces the
  rollup row. The queries and the fold are therefore modelled on any tables. A fold
  loses exactly what the rollup rows it overwrites held (`Metrics.FoldKeepsUsage`),
  a late write and the fold after it leave the day with that write alone
  (`Metering.LateWriteLoses`), and the tables are the ledger of all writes after any
  run in which no write comes for a folded day (`Metering.RunIsLedger`).
- An entry of the budget store may be forgotten a millisecond before its debt is
  paid: a positive lifetime is unobservable if and only if it is at least the
  tolerance and the cost less one (`Lifetimes.LifetimeIsExact`).
- Prompt answers keep a connection from being found idle if and only if the idle
  timeout exceeds the ping interval and both delays (`Deadlines.IdleIffMargin`).
- `next_wait` is zero exactly when something is due, except in the last millisecond
  of the clock with a deadline beyond it (`TaskScheduler.WaitZeroIffDue`).
- `eq_del_mask` is exact as a test for zero and not lane by lane
  (`Scanner.DelNotPerLane`).

## Model

| member | source | states |
|---|---|---|
| Theorems.NoAccusation | crates/weaver-mux/src/connection.rs:348-747 | two conforming ends, in every interleaving of calls, timeouts, transmissions and in-order deliveries, never make `recv` return a protocol error |
| Theorems.BothAgree | crates/weaver-mux/src/connection.rs:459-551 | a client that finished the handshake and its server hold the same version, key and parameters, and the parameters are the server's configuration clamped into range |
| Theorems.ReturnedIsPrefix | crates/weaver-mux/src/connection.rs:907-927 | in every run, what `recv_msg` returned on a stream is a prefix of what the other end's `send` accepted |
| Theorems.NothingMissing | crates/weaver-mux/src/connection.rs:785-872 | while a direction is under way (no reset or close; from before the OPEN arrives until the FIN does), accepted messages are those returned, those in the inbox, and exactly what partial message, frames in flight and outbox reassemble to, with nothing left over |
| Theorems.FinishedMeansAll | crates/weaver-mux/src/connection.rs:929-935 | once `Finished` was announced, every accepted message of the direction has been returned |
| Theorems.FinMeansInbox | crates/weaver-mux/src/connection.rs:705-721 | once the FIN arrived, what is accepted and not returned is in the inbox |
| Theorems.CreditConserved | crates/weaver-mux/src/flow.rs:26-84 | what the receiver still takes is the sender's credit, plus DATA bytes in flight, plus credit queued or in flight; with what is consumed, queued and partial it makes up the window |
| Theorems.GrantsAreExact | crates/weaver-mux/src/flow.rs:26-30 | a WINDOW_UPDATE that reaches a sender is added in full: the saturating addition never saturates and credit stays within the window |
| Theorems.NoStall | crates/weaver-mux/src/flow.rs:70-84 | when everything queued was delivered and consumed and every grant arrived, free credit is the window less what was consumed and not announced, at least half the window rounded up and one; `send` accepts every message of at most that cost |
| Tightness.ThresholdIsTight | crates/weaver-mux/src/flow.rs:74-84 | that bound is reached: a run written out from the handshake on ends quiescent with exactly so much free, whatever the configurations, and there a message is accepted if and only if it costs no more |
| Theorems.TooDearForever | crates/weaver-mux/src/connection.rs:814-824 | a message that costs more than the window is refused in every reachable state |
| Theorems.FreshAccepts | crates/weaver-mux/src/connection.rs:803-824 | on a new stream `send` accepts a message within `max_message` if and only if its cost fits the window |
| Theorems.DefaultsAdmitUnsendable | crates/weaver-mux/src/config.rs:55-64 | under the default parameters every message from the window size to `max_message` is one of those |
| System.NormalizedOk | crates/weaver-mux/src/config.rs:194-200 | clamping makes any parameters ones the client accepts, and leaves such parameters alone |
| System.ReachedInv | crates/weaver-mux/src/connection.rs:78-133 | the two-end invariant holds in every reachable state |
| Delivery.RecvJoined | crates/weaver-mux/src/connection.rs:345-362 | receiving the frame at the head of the queue returns no error and keeps both ends joined, for any clock and any answers from outside |
| Delivery.FrameAccepted | crates/weaver-mux/src/connection.rs:374-403 | the frame at the head of the queue is accepted, and the receiver then expects what the sender sends next |
| Delivery.NextOpen | crates/weaver-mux/src/connection.rs:766-783 | OPEN ids arrive in order without a gap |
| Peers.ActJoined | crates/weaver-mux/src/connection.rs:749-970 | whatever one application, clock or transport asks of its end keeps both ends joined |
| Link.Delivered | crates/weaver-mux/src/connection.rs:618-747 | whatever frame heads a stream's queue, the other end takes it and both directions keep credit, messages and phases linked |
| Link.SendKeeps | crates/weaver-mux/src/connection.rs:791-872 | accepting a message keeps both directions linked |
| Link.SendDataKeeps | crates/weaver-mux/src/connection.rs:280-305 | moving the head of the outbox to the wire moves its credit with it; a deferred FIN follows the last DATA |
| Link.TakeKeeps | crates/weaver-mux/src/connection.rs:907-927 | consuming a message turns its bytes into announced or unannounced credit and loses none |
| Link.FinishKeeps | crates/weaver-mux/src/connection.rs:875-890 | half-closing keeps both directions linked, at once or after the outbox drains |
| Link.ResetKeeps | crates/weaver-mux/src/connection.rs:893-905 | after a reset what is on its way is still a prefix of what was accepted |
| Link.CloseKeeps | crates/weaver-mux/src/connection.rs:976-1001 | so it is after a close |
| Link.FinArrives | crates/weaver-mux/src/connection.rs:705-721 | a FIN that arrives is never a duplicate, never inside a message, and comes after everything accepted |
| Link.DataArrives | crates/weaver-mux/src/connection.rs:642-695 | DATA that arrives decodes, fits the window and the message bound |
| Handshake.StepHs | crates/weaver-mux/src/connection.rs:405-569 | against any peer, connection frames leave as CHALLENGE or HELLO, WELCOME or REJECT, traffic, at most one GOAWAY last; WELCOME names what the server agreed to |
| Handshake.ExpectedAccepted | crates/weaver-mux/src/connection.rs:374-403 | a connection frame that is expected next is accepted, and the expectation moves on |
| Runs.StepKeeps | crates/weaver-mux/src/connection.rs:135-1001 | every call keeps the one-end invariant, whatever its arguments and the peer's bytes |
| Runs.BuffersBounded | crates/weaver-mux/src/connection.rs:642-695 | against any peer: outbox bytes are the sum of the outbox and covered by credit, inbox and partial bytes fit the window, a partial message fits `max_message`, and no tracked stream is finished |
| Runs.SchedulerAgrees | crates/weaver-mux/src/connection.rs:258-326 | after every call the streams active in the scheduler are exactly those tracked, with their OPEN sent and a non-empty outbox |
| Runs.FramesInOrder | crates/weaver-mux/src/connection.rs:258-326 | each stream's frames leave as OPEN if ours, DATA, at most one FIN after the last DATA, at most one RST; OPENs leave in id order |
| Runs.LifeCycle | crates/weaver-mux/src/connection.rs:929-1001 | `Finished` is announced at most once with no `Readable` after it, exactly when the stream is drained; `Closed` is the last event ever queued |
| Queues.QueueBounded | crates/weaver-mux/src/connection.rs:671-693 | against any peer that sends no frame of a multiple of four gigabytes, at most `initial_window` messages are queued on a stream |
| Queues.Flood | crates/weaver-mux/src/connection.rs:656-693 | `n` receptions of one whole message queue `n` messages and are charged `n` times its length in 32 bits; they are all taken if and only if the window covers that |
| Queues.BoundIffSized | crates/weaver-mux/src/connection.rs:656-693 | frames of one length keep a new stream's queue within the window if and only if the length is no multiple of four gigabytes |
| Queues.QueueUnbounded | crates/weaver-mux/src/connection.rs:656-693 | a run of a client whose peer queues `n` messages on one stream, for any `n` |
| Queues.OversizedIsFree | crates/weaver-mux/src/connection.rs:656-676 | a payload of exactly four gigabytes with flag byte 0 is a message by itself under the largest bound, and is charged nothing |
| Wakeups.CreditMovesOnlySo | crates/weaver-mux/src/stream.rs:103-105 | free credit changes only when `send` accepts on the stream or a WINDOW_UPDATE for it is received |
| Wakeups.GrantWakes | crates/weaver-mux/src/connection.rs:734-747 | a WINDOW_UPDATE that leaves credit on a refused stream announces `Writable` with exactly that credit |
| Wakeups.WaitsUntilTold | crates/weaver-mux/src/connection.rs:817-824 | after a refusal the stream is, at any later time, gone, still waiting, or was told `Writable` |
| Goodbye.GoodbyeIsLast | crates/weaver-mux/src/connection.rs:966-1001 | after whatever closed the connection with GOAWAY exactly one more frame is transmitted, that GOAWAY with its reason; after a close without one, at most what was waiting and a REJECT, in order |
| Goodbye.ClosingParts | crates/weaver-mux/src/connection.rs:208-456 | a close by a call, a deadline, a revoked key, a failed signer or a violation leaves its GOAWAY as the only frame to send; only a dismissal by or of the peer does not |
| Deadlines.LoopSettles | crates/weaver-mux/src/connection.rs:210-242 | the timeout loop ends with a closed connection or no deadline that has passed |
| Deadlines.HandlingTwice | crates/weaver-mux/src/connection.rs:208-242 | a second `handle_timeout` at the same or an earlier instant changes nothing |
| Deadlines.ConnectionNeverIdle | crates/weaver-mux/src/timers.rs:82-100 | with deadlines served within d, PINGs answered within r and ping interval + d + r below the idle timeout, no run closes on silence |
| Deadlines.MarginIsExact | crates/weaver-mux/src/timers.rs:88-130 | without that margin there is a run of a client, from construction on, served and answered just on time and found idle |
| Deadlines.IdleIffMargin | crates/weaver-mux/src/timers.rs:82-130 | so for a client promptness excludes idleness if and only if the margin is there |
| Deadlines.LoopEndsIffPositive | crates/weaver-mux/src/connection.rs:210-242 | with a key check due and the key valid, the timeout loop ends if and only if the interval is positive |
| Timing.WakeUpIsExact | crates/weaver-mux/src/timers.rs:102-130 | something has expired if and only if the announced wake-up has been reached |
| Timing.RearmClearsIffPositive | crates/weaver-mux/src/connection.rs:218-229 | re-arming clears the key check if and only if the interval is positive |
| Timing.Timers.constructor | crates/weaver-mux/src/timers.rs:39-56 | only the handshake deadline is armed at first |
| Timing.Timers.Observe | crates/weaver-mux/src/timers.rs:61-66 | time never runs backwards |
| Timing.Timers.OnAuthenticated | crates/weaver-mux/src/timers.rs:70-75 | the handshake deadline gives way to the steady ones |
| Timing.Timers.OnRecv | crates/weaver-mux/src/timers.rs:78-80 | any frame counts as liveness |
| Timing.Timers.Clear | crates/weaver-mux/src/timers.rs:134-139 | nothing stays armed |
| Timing.Timers.Expiry | crates/weaver-mux/src/timers.rs:114-130 | the most severe deadline that has passed |
| Flow.ConsumeConserves | crates/weaver-mux/src/flow.rs:70-84 | consuming keeps window = remaining + consumed + held, announces only half windows or more, and never saturates |
| Flow.SendWindow.Grant | crates/weaver-mux/src/flow.rs:26-30 | credit grows by the grant, saturating |
| Flow.SendWindow.Consume | crates/weaver-mux/src/flow.rs:34-37 | credit shrinks by the frame; exactly, when there is enough |
| Flow.RecvWindow.OnData | crates/weaver-mux/src/flow.rs:62-68 | accepted if and only if within what remains, and then taken off it |
| Flow.RecvWindow.OnConsumed | crates/weaver-mux/src/flow.rs:74-84 | credit is announced in steps of at least half the window |
| Fragments.FragmentReassembles | crates/weaver-mux/src/connection.rs:812-852 | whatever the frame size and whichever fragments were compressed, the payloads reassemble to exactly the message, within the cost charged |
| Fragments.ReassembleAppend | crates/weaver-mux/src/connection.rs:679-693 | reassembly of a stretch of frames goes through the partial message in between |
| Fragments.ChunkCount | crates/weaver-mux/src/connection.rs:814-816 | the number of fragments is the length divided by the fragment size, rounded up, at least one |
| Fragments.PayloadDecodes | crates/weaver-mux/src/connection.rs:642-662 | a payload decodes to the chunk and flag it was made from, within `max_frame` |
| Streams.EnqueueInv | crates/weaver-mux/src/connection.rs:839-852 | a message that fits the free credit leaves every outbox byte covered by credit |
| Streams.PopOutboxInv | crates/weaver-mux/src/connection.rs:285-292 | neither subtraction of a transmission underflows, and free credit is untouched |
| Streams.AcceptInv | crates/weaver-mux/src/connection.rs:664-693 | whatever DATA arrives, an accepted frame stays inside the window and the message bound |
| Streams.TakeInv | crates/weaver-mux/src/connection.rs:910-927 | consuming keeps the window's account and announces what it adds |
| Streams.InboxBounded | crates/weaver-mux/src/connection.rs:685-693 | no more messages are queued than bytes are accounted to them when each costs one |
| Engine.SchedTree.PushControl | crates/weaver-mux/src/sched/mod.rs:82-86 | control frames queue in order |
| Engine.SchedTree.Choose | crates/weaver-mux/src/sched/mod.rs:141-147 | a pick is for something that is there, and nothing only if nothing is |
| Engine.SchedTree.PopControl | crates/weaver-mux/src/sched/mod.rs:150-152 | the front control frame leaves |
| Engine.SchedTree.Reclass | crates/weaver-mux/src/sched/mod.rs:123-132 | a stream moved to another class is active if and only if it is backlogged; to its own class, nothing changes |
| Engine.SchedTree.Served | crates/weaver-mux/src/sched/mod.rs:157-170 | a stream with nothing left goes idle |
| Engine.Connection.constructor | crates/weaver-mux/src/connection.rs:78-133 | the initial state, with the server's CHALLENGE queued |
| Engine.Connection.HandleTimeout | crates/weaver-mux/src/connection.rs:210-242 | with a positive interval the loop ends and computes the specified state |
| Engine.Connection.PollTransmit | crates/weaver-mux/src/connection.rs:258-308 | at most one frame, the one bypassing the scheduler or the one picked, and the specified state |
| Engine.Connection.PollEvent | crates/weaver-mux/src/connection.rs:192-194 | events leave in order |
| Engine.Connection.Recv | crates/weaver-mux/src/connection.rs:348-362 | one transport message: the specified state and error, ignored once closed, a violation closes |
| Engine.Connection.OnChallenge | crates/weaver-mux/src/connection.rs:415-457 | HELLO is queued, or a failed signer closes |
| Engine.Connection.OnHello | crates/weaver-mux/src/connection.rs:459-501 | WELCOME, or REJECT for version, key or signature |
| Engine.Connection.OnWelcome | crates/weaver-mux/src/connection.rs:518-542 | parameters outside the ranges are refused; the scheduler is rebuilt |
| Engine.Connection.OnReject | crates/weaver-mux/src/connection.rs:553-569 | the refusal is announced and the connection closes |
| Engine.Connection.StreamMut | crates/weaver-mux/src/connection.rs:601-620 | tracked, known and gone, or a violation |
| Engine.Connection.OnStreamOpen | crates/weaver-mux/src/connection.rs:622-640 | a new id of the peer's parity opens a stream, anything else is refused |
| Engine.Connection.OnData | crates/weaver-mux/src/connection.rs:642-695 | flags, decompression, credit and message bound in the source's order |
| Engine.Connection.OnFin | crates/weaver-mux/src/connection.rs:705-721 | half-close, refused when repeated or inside a message |
| Engine.Connection.OnRst | crates/weaver-mux/src/connection.rs:723-732 | the stream is dropped and announced |
| Engine.Connection.OnWindowUpdate | crates/weaver-mux/src/connection.rs:734-747 | credit is granted and a waiting sender told |
| Engine.Connection.Open | crates/weaver-mux/src/connection.rs:766-783 | a new stream and its OPEN, or why not |
| Engine.Connection.Send | crates/weaver-mux/src/connection.rs:791-872 | all or nothing, fragment by fragment, with demotion and activation |
| Engine.Connection.Cut | crates/weaver-mux/src/connection.rs:830-852 | the loop queues exactly the fragments of the message |
| Engine.Connection.Finish | crates/weaver-mux/src/connection.rs:875-890 | FIN now, or after the outbox drains |
| Engine.Connection.Reset | crates/weaver-mux/src/connection.rs:893-905 | the stream is dropped and RST queued |
| Engine.Connection.RecvMsg | crates/weaver-mux/src/connection.rs:910-927 | the front message, its credit, and `Finished` when drained |
| Engine.Connection.SetClass | crates/weaver-mux/src/connection.rs:940-960 | the class changes and the scheduler follows |
| Engine.Connection.Close | crates/weaver-mux/src/connection.rs:966-970 | GOAWAY replaces everything queued |
| Engine.Connection.CloseInternal | crates/weaver-mux/src/connection.rs:976-1001 | every stream is reset lowest id first, deadlines go, `Closed` is last |
| Engine.Connection.DropAll | crates/weaver-mux/src/connection.rs:988-996 | resets are announced in id order |
| Codecs.PrintThenParse | crates/weaver-mux/src/wire.rs:56-102 | parsing a printed key gives the key |
| Codecs.ParseThenPrint | crates/weaver-mux/src/wire.rs:73-102 | only printed forms parse: lower-case hex, exact length, the right name |
| Codecs.PrintsDiffer | crates/weaver-mux/src/wire.rs:56-70 | two keys with the same text are the same key |
| Codecs.EncodeThenParse | crates/weaver-mux/src/frame.rs:82-106 | parsing an encoded frame gives the frame |
| Codecs.ParseThenEncode | crates/weaver-mux/src/frame.rs:39-106 | whatever parses re-encodes to the same bytes; exactly five bytes or more with a known type parse |
| Codecs.EncodeInto | crates/weaver-mux/src/frame.rs:102-106 | the frame is appended to the caller's buffer |
| Metrics.FoldsInvisible | crates/weaver-server/src/metrics.rs:249-315 | on a window of whole slots, in any state, a slot of an existing service is the same after any folds if and only if no rollup row that held something else for it was overwritten |
| Metrics.FoldVisible | crates/weaver-server/src/metrics.rs:660-793 | on any other window there is data whose series changes with the fold |
| Metrics.SeriesIsUsage | crates/weaver-server/src/metrics.rs:655-793 | on a window of whole slots each slot is the usage of its minutes in the table that is read: all of it, unless a live row stands beside a rollup row |
| Metrics.MinutesAlign | crates/weaver-server/src/metrics.rs:201-209 | minute slots are always whole |
| Metrics.ChoiceIsFinest | crates/weaver-server/src/metrics.rs:197-209 | the width is the finest that fits the slot limit, or days |
| Metrics.Query | crates/weaver-server/src/metrics.rs:249-315 | one series: its width, first slot, length and values; a live row beside a rollup row is skipped |
| Metrics.FillFolded | crates/weaver-server/src/metrics.rs:655-734 | adds each rollup row's value to its slots and reports the days that had one |
| Metrics.FillLive | crates/weaver-server/src/metrics.rs:736-793 | adds each remaining live day's minutes in the window to their slots |
| Metrics.AddSlot | crates/weaver-server/src/metrics.rs:861-869 | one place of the buffer changes, if the slot is in the window |
| Metrics.Totals | crates/weaver-server/src/metrics.rs:328-401 | rollup columns and clipped live minutes, day by day |
| Metrics.TotalsIsUsage | crates/weaver-server/src/metrics.rs:317-401 | on whole days the total is the usage of the window's minutes, in any state |
| Metrics.TotalsInvisible | crates/weaver-server/src/metrics.rs:317-401 | there any folds take from it exactly what they overwrite, nothing when the tables are apart |
| Metrics.TotalsVisible | crates/weaver-server/src/metrics.rs:317-401 | on every other window there is data whose total is 0 before and 1 after its day is folded |
| Metrics.SeriesMeetsTotals | crates/weaver-server/src/metrics.rs:289-304 | on whole days the sum that comes with a series is the total |
| Metrics.SeriesAddsUp | crates/weaver-server/src/metrics.rs:289-304 | a series of whole slots sums to the usage of all its minutes |
| Metrics.LastOpen | crates/weaver-server/src/metrics.rs:412-472 | with non-negative open times, the latest minute with any, over both tables |
| Metrics.LastOpenInvisible | crates/weaver-server/src/metrics.rs:403-472 | any folds keep open times non-negative and do not change it, if and only if that minute's open time is not overwritten whole |
| Metrics.FoldDay | crates/weaver-server/src/metrics.rs:513-549 | existing services' live rows become rollup rows, whatever was there, and the day's live rows go |
| Metrics.WriteDay | crates/weaver-server/src/metrics.rs:551-577 | hours and totals are the sums of the minutes |
| Metrics.FoldKeepsUsage | crates/weaver-server/src/metrics.rs:474-549 | in any state folding moves every minute of an existing service and loses exactly what the overwritten rows held |
| Metrics.ChainUsage | crates/weaver-server/src/metrics.rs:485-498 | so do any number of folds |
| Metering.WriteDaySlots | crates/weaver-server/src/store/usage_live.rs:208-281 | a batch is written whole, or refused whole for one write that does not fit |
| Metering.WrittenUsage | crates/weaver-server/src/store/usage_live.rs:208-281 | a write replaces what the live row held in its minutes and touches nothing else |
| Metering.RunIsLedger | crates/weaver-server/src/metering/mod.rs:547-582 | after any run of batches and folds in which no write is for a folded day, every minute of an existing service holds what was written to it last, in one table |
| Metering.LateWriteLoses | crates/weaver-server/src/metering/mod.rs:565-658 | after a write for a folded day and the next fold the day holds that write alone: a minute is kept if and only if it is rewritten or was empty |
| Metering.LateRunLoses | crates/weaver-server/src/metering/mod.rs:565-658 | in the run write, fold, write, fold the first write is lost |
| Limiter.Gcra.Check | crates/weaver-abuse/src/gcra.rs:78-95 | the decision, the delay and the new state |
| Limiter.RefinesBucket | crates/weaver-abuse/src/gcra.rs:1-14 | over every sequence of calls in clock order the limiter decides as a token bucket with debt |
| Limiter.CountingBound | crates/weaver-abuse/src/gcra.rs:78-111 | what is admitted between the first and the last charge is paid for by the elapsed time and the burst, on any clock |
| Limiter.AdmitsAtMost | crates/weaver-abuse/src/gcra.rs:98-101 | in figures for unit charges, with the factor that rounding costs, and none when the units divide the period |
| Limiter.RateRounding | crates/weaver-abuse/src/gcra.rs:98-101 | how far rounding down the interval departs from the rate |
| Limiter.RetryIsExact | crates/weaver-abuse/src/gcra.rs:78-95 | a delay below the cap is exact if and only if the wait fits 64 bits |
| Limiter.RefusalIsFree | crates/weaver-abuse/src/gcra.rs:89-94 | a refusal changes nothing and its delay is between one and the cap |
| BudgetStore.MemoryStore.Evict | crates/weaver-abuse/src/testing.rs:61-67 | entries idle longer than the lifetime go |
| BudgetStore.MemoryStore.Check | crates/weaver-abuse/src/testing.rs:85-106 | one key: eviction, the bound, the charge; the same as a policy of one key |
| BudgetStore.MemoryStore.CheckAll | crates/weaver-abuse/src/testing.rs:108-137 | all keys of a policy are charged, or none for lack of room |
| BudgetStore.NeverOverfull | crates/weaver-abuse/src/testing.rs:85-137 | the bound holds over every sequence of requests |
| BudgetStore.EvictionUnobservable | crates/weaver-abuse/src/testing.rs:61-137 | with a lifetime of at least tolerance and cost less a millisecond and a clock that does not run backwards, answers are those of a store that never evicts, for any requests |
| Lifetimes.LifetimeIsExact | crates/weaver-abuse/src/testing.rs:61-106 | for every quota, cost and bound, all runs of one charge are answered as without eviction if and only if the lifetime is that long, or not positive |
| Scanner.Classify | crates/weaver-abuse/src/scanner.rs:269-292 | exactly the per-byte answers, for every slice of every length |
| Scanner.BelowIsExact | crates/weaver-abuse/src/scanner.rs:241-252 | the control-byte test of a word is exact, bytes from 0x80 up included |
| Scanner.UpperIsExact | crates/weaver-abuse/src/scanner.rs:241-252 | so is the upper-case test |
| Scanner.DelIsExact | crates/weaver-abuse/src/scanner.rs:254-259 | the DEL mask is non-zero exactly when some byte is DEL |
| Scanner.DelNotPerLane | crates/weaver-abuse/src/scanner.rs:254-259 | it is not exact lane by lane |
| Scanner.HighLanesMatter | crates/weaver-abuse/src/scanner.rs:261-268 | without masking high lanes the control-byte test would be wrong |
| Visitor.Exchange.PumpOut | crates/weave/src/start.rs:395-473 | what was handed to the mux is a prefix, in order, of what the origin produced; the stream is finished at most once and only after all of it; a message that does not encode ends the exchange unfinished |
| Visitor.Exchange.OnVisitorBody | crates/weave/src/start.rs:351-391 | a frame is queued, parked when there is no room, or ends the request when it does not decode |
| Visitor.Exchange.DrainStream | crates/weave/src/start.rs:338-347 | arrived messages are handed on in order until the queue is full |
| Visitor.Exchange.ParkedSent | crates/weave/src/start.rs:380-384 | the parked frame follows those queued before it |
| Visitor.Exchange.Resume | crates/weave/src/start.rs:384-390 | the drain goes on where it paused |
| Visitor.Exchange.OnFinished | crates/weave/src/start.rs:547-557 | the relay's end does not lose a parked frame |
| Visitor.Exchange.AllReceived | crates/weave/src/start.rs:338-391 | with nothing on the way the origin has received every frame that decoded, in order |
| TaskScheduler.Scheduler.constructor | crates/weaver-server/src/scheduler.rs:95-103 | every task is asked at boot |
| TaskScheduler.Scheduler.NextDeadline | crates/weaver-server/src/scheduler.rs:110-112 | the earliest of the deadlines |
| TaskScheduler.Scheduler.NextWait | crates/weaver-server/src/scheduler.rs:115-119 | the time to it, saturating |
| TaskScheduler.Scheduler.RunDue | crates/weaver-server/src/scheduler.rs:128-152 | exactly the due tasks run, each at its own tick, and only they are asked again |
| TaskScheduler.WaitZeroIffDue | crates/weaver-server/src/scheduler.rs:105-145 | the wait is zero if and only if a pass would run something, but for one corner of the clock |
| TaskScheduler.RunsAreOnTick | crates/weaver-server/src/scheduler.rs:128-152 | what runs, runs at the tick it asked for, which the clock has reached |
| TaskScheduler.NextMidnightIsNext | crates/weaver-server/src/scheduler.rs:46-48 | the least multiple of a day after now |
| TaskScheduler.BootThenMidnights | crates/weaver-server/src/housekeeping.rs:24-29 | once at boot, then at strictly increasing midnights, however late the passes |

## Left out

- Scheduling weights and fairness (`crates/weaver-mux/src/sched/qfq.rs`): which backlogged flow is picked is left open, so the theorems hold for any choice; the head length that `activate`, `reclass` and `served` also take is not modelled.
- zstd, the entropy probe, signatures, postcard payloads and random numbers: functions or arguments about which nothing is assumed but that decompression undoes compression. A postcard payload is a datatype value or one that does not decode.
- The DATA byte sink: an observer that changes nothing.
- Streams and their windows inside a connection are values held in a map, as in the source; the window objects of `Flow` are proved against the same values and are not shared with the map.
- 64-bit counters (`written_total`, `ping_counter`, frame and message counts, usage sums) are unbounded integers; lengths that are cast to 32 bits are cast explicitly.
- Instants are integers; a sum of an instant and a duration never overflows.
- One `handle_timeout` takes one answer from the key store, as at most one key check falls due in it.
- Metrics.Query: one series of one service and metric at a time, where the source reads several in one statement; rows are visited by day.
- Metering.WriteDaySlots: values are unbounded integers and a service's existence does not change during a run; the buckets of the metering manager, whose retries make a write late, are not modelled.
- Lifetimes.LifetimeIsExact: stated where six times tolerance and cost fit 64 bits; nearer the end of the clock saturation caps what is owed.
- Queues.BoundIffSized: one length per stream; frames of several lengths that vanish only in part are covered by the one direction of QueueBounded.
- Timeouts with a zero re-verification interval: runs skip them, as the call need not return.
- Metrics.FoldDay: the transaction is one step; SQL, blob encoding, retention sweeps, name resolution and JSON are not modelled.
- The six metrics are column indices; `Metric` and `Slots` share them.
- Visitor.Exchange.PumpOut: whether a message encodes is part of the message; status, byte counts and reports are not modelled. The command queue between threads is modelled by when its commands run, not by whether they are dropped.
- TaskScheduler.Scheduler.RunDue: due tasks run at the same time in the source; the model lists them in order and says nothing about their effects.
- HTTP proxying, pairing, header and URL rules, configuration files, the store's SQL, the command line and the frontends: input, output and string cases around these cores.
