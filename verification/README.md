# tg-focus: a model and its proofs

tg-focus is a daemon that watches a Telegram account, keeps the messages its filters ask for, and
forwards them to one chat. This project models its core in Dafny and proves what that core promises.

The parts, each in its own modules:

- **The collector as a concurrent protocol** (`Collector`, `CollControl`, `CollLog`, `CollTheorems`,
  `CollStop`, `CollJam`, `CollFair`, `CollLive`, `CollHistory`, `CollGuards`, `CollRequests`, `CollRuns`,
  `CollBatch`, `TdRequests`). Producer, consumer and switcher threads, the initer that starts and joins
  them and the command handler share a queue, a hand-over flag, a pause flag and a two-flag stop
  handshake per worker. The model has one program counter per thread and one step per atomic load,
  store, wait, lock or unlock. The results are about every schedule, or every fair one where that is
  said, and across any number of restarts.
- **The filters** (`Filters`, `FilterGroup`, `FilterToml`, `TomlRoundTrip`, `ChatCmd`,
  `ChatTheorems`). How a group decides, how it is edited in mixed signed and unsigned arithmetic, how
  it is printed and read back, and what the text commands do to the stored text. `EndToEnd` plugs
  the filters into the collector.
- **Text offsets** (`Utf`, `Decor`, `HelpDecor`). The transcoding loops around `mbrtoc16`, and the
  scanners that compute intervals over UTF-16 units.
- **Byte formats** (`IpcMsg`, `IntFiles`). The 64-byte command frame and the signed number files.

## Main results

1. `StateIsHistory`, `Conservation`, `ArrivalOrder`, `SessionOutbox`, `HandledOnce`, `DiscardNeedsStop`: what
   is taken from TDLib, and where every message goes, in which order and under which id, in every run;
   `DeliveredIsDecided`: that it gets there.
2. `StopOrder`, `OneSession`, `UpCollForNothing`, `HandOverProtocol`, `PauseStopsRaising`: the handshakes.
3. `ShutdownAnswered`, `StopEnds`, `CanStopExactly`, `CanFetchExactly`, `StopTerminates`, `StuckExactly`:
   when a shutdown is answered, and when a session can be stopped and can fetch, exactly.
4. `NextQueryIsFresh`, `CallbacksRunOnce`, `CreateRaceExactly`: the request table and chat creation.
5. `GroupMeans`, `RemoveUndoesInsert`, `DeleteUndoesAdd`, `AddMonotone`, `DeleteMonotone`: filters and edits.
6. `PrintReadsBack`, `EditCommandWorks`, `EditRefusedExactly`, `StoredTextRefines`: the stored text, exactly.
7. `ForwardedAsDocumented`, `StoredFiltersFollowCommands`: collector and filters together.
8. `TranscodesText`, `AlwaysPaired`, `HeadersListedExactly`, `BoldExactly`, `FoldExactly`: text offsets.
9. `EncodedDecodes`, `DecodedIsEncoded`, `ReadsBack`, `WritesBack`: byte formats.

## Assumptions

- Atomics are sequentially consistent. `wait` is a guarded step, which can be taken whenever
  its condition holds. Sleeps and counters of loop turns take no part.
- Results about infinite runs (`CollFair`, `CollLive`) say what they take from the scheduler: a thread
  that stays able to move is taken at some time (`WeaklyFair`), and the switcher gets the lock if it is
  free time and again (`LockFair`; in `CollLive` producer and consumer too, `LocksFair`). An idle handler
  need not get a command, and TDLib need not say anything. Every other result is about all schedules.
- One operation on the callback table is one step, with the increment of the query id that precedes
  it. The program takes no lock there.
- Commands on the immediate socket are handled one at a time, because the listener calls the handler
  itself (src/worker/conn_listener.cc:81-85). A `jthread` joins at the end of its scope.
- Starting the initer and its first store (src/worker/coll_initer.cc:27) are one step where a lemma
  requires `env.atomicSpawn`; `SecondSessionWithoutAtomicSpawn` shows what happens otherwise.
- The query counter is 64 bits wide and wraps; statements about the request table hold until then.
  The per-session counter `consume_cnt` is an `int` that is taken not to overflow.
- The filter store is an exact cell. Texts are shorter than 2^20 and not of exactly 4096 bytes, where
  the file reader of the program gives its fallback.
- Regular expressions are a parameter: which patterns compile, and what they find.
- Of TOML v1.0.0 the reader takes the part that the printed form and the default file use: arrays of
  tables, arrays of basic strings, blanks and newlines. A text outside that part reads as the fallback.
- `atoi` is that of the GNU C library: `strtol`, saturating at 64 bits, cut down to 32.
- `mbrtoc16` runs in a UTF-8 locale and decodes after RFC 3629.

## Where the code does not do what it is meant to

- **Lost wake-up.** The switcher raises the hand-over flag, then tells the consumer to leave. A
  consumer that takes the raised flag, goes once around and parks again before it is told waits for
  good, and so does everybody else. `StuckExactly`, `LostExactlyWhenParked` and `LostOnlyThere` give
  the exact condition, `LostWakeUp` a run.
- **No login, no way down.** Without a login and without a chat the consumer turns back before it
  lowers the hand-over flag, and nobody else lowers it. UpColl resets eight flags but not
  `do_csm_mq` (src/worker/ipc_conn_handler.cc:204-221), so the flag that the forced raise of one
  stopped session leaves up makes the next session's producer wait for good: it fetches no update,
  so no login is ever seen, and a shutdown never ends. `LeftoverFlagJams` is such a run, without any
  message; `BarrenForever` shows that nothing helps, over any number of sessions of the process;
  `CanStopExactly` and `CanFetchExactly` give the exact conditions on the state. `ShutdownAnswered` adds
  that under a fair scheduler this and the lost wake-up are the only ways in which a shutdown hangs.
- **Success without a session.** An UpColl that comes between the end of a session and the initer's last
  store finds coll_initer_up still set and is answered with success, and no session follows
  (`UpCollForNothing` has the exact condition, `AnsweredWithoutSession` a run).
- **Two chats.** A creation request can go out over a chat id that has just become valid
  (`CreateRaceExactly`, `CreateOverValidHappens`).
- **Unclean values.** The printer escapes backslashes only. A value with a double quote or a control
  character is accepted with "success", and the text stored then does not stand for the edited group
  (`PrintReadsBack`, `CommandRefines`). Both directions are proved.
- **`add_one`** answers true on its refusing path, and appends a filter for an id past the end.
- **English headers** are written with a bar and searched for with a bracket
  (`EnglishHeadersMissed`, `HeadersListedExactly`). `decorate_msg` returns before it looks at the
  positions anyway (src/td_coll.cc:98).
- **A code span or link that begins the help text** is not set (`SpanSetExactly`,
  `FirstSpanPassedOver`).

## Model

| member | source | states |
|---|---|---|
| `Collector.Init` | src/stat.cc:12-60 | the state after start-up: every flag clear, no session, queue empty; stored chat id, filters and login hint arbitrary |
| `CollGuards.StartsClear` | src/stat.cc:12-60 | at start-up nothing is set, nobody runs, nothing waits, and what is stored is as it was |
| `Collector.StepP` | src/worker/coll_producer.cc:16-36 | one step of the producer: its wait, one fetch, its stop; None exactly where the thread blocks |
| `Collector.Receive` | src/td_coll.cc:152-196 | what one `receive` leads to: a response runs its callback, a message from outside the own chat goes to the queue, a command from the own chat is run |
| `Collector.Call` | src/td_coll.cc:45-84 | what the registered callbacks do to the shared state: store the new chat id, count a confirmation, or forget the chat |
| `CollHistory.StateIsHistory` | src/td_coll.cc:526-662 | in every run from start-up: the messages queued, and the one in hand, are in order exactly those received from other chats than the own one of the moment; forwarding is paused if and only if a pause command was received from the own chat and no resume since; the stored filters are the first ones edited by the commands received there; a login is known if and only if one was reported; the chat id is the last one created unless it was found gone; the callbacks run are those of the responses received, and as many messages count as sent as were confirmed |
| `CollHistory.EveryCommandReplied` | src/td_coll.cc:419-523 | each command received from the own chat is replied to exactly once, up to the one in hand |
| `CollGuards.WhatTheConsumerChecked` | src/worker/coll_consumer.cc:37-83 | in every run: a batch is opened only under the lock, with messages waiting and a chat to write to, and without these the queue is left alone; messages are looked at only while the consumer is not told to leave, and decided under the filters stored at that moment; a chat is asked for only after a login, with none stored and none asked for |
| `CollGuards.TriedChanges` | src/td_coll.cc:37-43 | that a chat has been asked for is noted right before the request, and forgotten exactly when a message sent comes back because its chat is gone |
| `CollGuards.RaisedForSomething` | src/worker/coll_switcher.cc:35-50 | in every reachable state the switcher about to raise the flag in its loop holds the lock, finds the flag down and a message waiting |
| `CollGuards.SessionNeedsHint` | src/worker/coll_initer.cc:39-53 | the initer waits until the login process has left its hint or a shutdown comes, and starts no session without the hint |
| `CollGuards.IniterBegins` | src/worker/ipc_conn_handler.cc:222-225 | an initer comes up through UpColl alone, after its resets, and first looks for the hint |
| `CollGuards.NothingToShutDown` | src/worker/ipc_conn_handler.cc:169-193 | a shutdown with no session up is answered at once; the one of the whole server leaves the success flag set |
| `CollLive.LockComes` | src/worker/coll_consumer.cc:54-89 | in every fair run, from any state, the lock of the queue is free again at some time |
| `CollLive.WaitingIsDecided` | src/worker/coll_switcher.cc:22-55 | in every fair run of a session that is not stopped or paused and has a chat, every message in the queue is decided, and not discarded |
| `CollLive.DeliveredIsDecided` | src/td_coll.cc:556-660 | so every message that TDLib delivers from another chat is queued, handed over and decided under the filters |
| `Collector.StepC` | src/worker/coll_consumer.cc:32-104 | one step of the consumer: wait, chat check, batch under the lock, lowering the flag, stop |
| `Collector.Decide` | src/worker/coll_consumer.cc:66-82 | the fate of the message at the cursor under the filters stored at that moment |
| `Collector.Collect` | src/worker/coll_consumer.cc:71-78 | the id written into a message is one more than the number sent in this session |
| `Collector.StepS` | src/worker/coll_switcher.cc:19-75 | one step of the switcher: pause check, raising the flag, ordered stop of producer and consumer |
| `Collector.StepI` | src/worker/coll_initer.cc:24-79 | one step of the initer: session start, wait for stop, joins in reverse order of the thread objects, success flag |
| `Collector.StepH` | src/worker/ipc_conn_handler.cc:160-249 | one step of the command handler on the immediate socket |
| `CollControl.CtlStep` | src/worker/ipc_conn_handler.cc:169-248 | every step of every thread keeps the control invariant: flags, program counters, lock holder, hand-over flag |
| `CollControl.CtlReachable` | src/worker/coll_initer.cc:27-77 | the control invariant holds in every reachable state, over every schedule and any number of restarts |
| `CollControl.StopOrder` | src/worker/coll_switcher.cc:57-72 | outside the resets of UpColl the stop flags imply each other in one order, from switcher_succ back to the initer; when a shutdown is answered with success all three workers are out |
| `CollControl.OneSession` | src/worker/ipc_conn_handler.cc:202-227 | at most one session: while UpColl resets the flags and when it spawns, no initer and no worker is alive; coll_initer_up is set exactly while an initer is |
| `CollRuns.UpCollForNothing` | src/worker/coll_initer.cc:73-77 | an UpColl at its check of coll_initer_up is answered with success although no worker is up and none comes up before the next UpColl, if and only if the initer is then before one of its last two stores |
| `CollRuns.AnsweredWithoutSession` | src/worker/ipc_conn_handler.cc:202-232 | that happens: a run from start-up in which a session is stopped, an UpColl answered, and no session is there |
| `CollControl.SecondSessionWithoutAtomicSpawn` | src/worker/coll_initer.cc:27 | if spawning the initer and its first store are two steps, a schedule exists in which a second UpColl gets to its spawn while the first initer is alive |
| `CollControl.HandOverProtocol` | src/worker/coll_consumer.cc:41-98 | with the hand-over flag down the consumer is outside its body; only the consumer lowers the flag, at the end of its body, and only the switcher raises it, at two places |
| `CollControl.SwitcherFlag` | src/worker/coll_switcher.cc:35-65 | no step of the switcher lowers the flag, and under a pause no step adds to the raises done or still due |
| `CollControl.PauseStopsRaising` | src/worker/coll_switcher.cc:35-52 | while forwarding stays paused, over any schedule, the flag is raised at most once more, and only by a switcher already past its pause check |
| `CollLog.LogStep` | src/worker/coll_consumer.cc:52-88 | every step keeps the log invariant that ties queue, counters and session log to the history of insertions |
| `CollLog.LogReachable` | src/worker/coll_consumer.cc:35-98 | the log invariant holds in every reachable state |
| `CollTheorems.Conservation` | src/worker/coll_consumer.cc:52-88 | with the lock free, the multiset of messages ever inserted is the disjoint sum of pending, forwarded, filtered out, own and discarded ones, and it_msg_total counts them modulo 2^32 |
| `CollTheorems.ArrivalOrder` | src/td_coll.cc:652-656 | the whole history in order: the reverse of each batch, batch after batch, then the reverse of the queue, is the sequence of insertions |
| `CollTheorems.SessionOutbox` | src/worker/coll_consumer.cc:61-83 | what a session sends is, in newest-first order of each batch, exactly the messages decided to be collected under the filters then stored, with ids 1, 2, 3 and so on |
| `CollTheorems.HandledOnce` | src/worker/coll_consumer.cc:61-88 | no message is handled twice in a whole run, so none is forwarded twice |
| `CollTheorems.FatesPartition` | src/worker/coll_consumer.cc:61-83 | the four fates partition the messages of any list of handled messages |
| `CollTheorems.DiscardNeedsStop` | src/worker/coll_consumer.cc:63-87 | the discarded messages grow only when the consumer gives up its batch after it was told to stop, and then by the unhandled rest of the queue |
| `CollBatch.CollConsumer.HandleBatch` | src/worker/coll_consumer.cc:52-88 | the loop in place, whatever it reads of filters and stop flag at each turn: the messages before the first stop get the fates of the filters then stored, those sent are appended with consecutive ids, the queue is emptied; nothing happens to an empty queue or without a chat |
| `CollBatch.FatesAreRight` | src/worker/coll_consumer.cc:61-83 | the fates the loop computes cover the batch in order, agree with the filters stored at each turn, and number the sent messages on from the count before |
| `CollBatch.BatchAlone` | src/worker/coll_consumer.cc:52-94 | scheduled alone, the steps of the protocol give the same fates, ids and messages as the loop |
| `CollStop.CanMeansEnabled` | src/worker/coll_switcher.cc:57-68 | the conditions under which producer, consumer and switcher can move, each equivalent to its step being defined |
| `CollStop.StuckExactly` | src/worker/coll_switcher.cc:57-72 | in every reachable state with tryshutwk::coll_switcher set, no worker can move if and only if all are out or the wake-up of the consumer is lost |
| `CollStop.LostExactlyWhenParked` | src/worker/coll_switcher.cc:64-68 | the store of tryshutwk::coll_consumer loses the wake-up if and only if the consumer is parked at its wait with the flag down at that moment |
| `CollStop.LostOnlyThere` | src/worker/coll_switcher.cc:66 | no other step leads into the lost wake-up |
| `CollStop.LostForever` | src/worker/coll_consumer.cc:41 | after a lost wake-up only the login hint can still change: all threads and the handler are blocked for good |
| `CollStop.Measure` | src/worker/coll_consumer.cc:37-98 | the ranking: rounds left times their cost, plus the steps left in this round and on the way out of producer and switcher |
| `CollStop.MeasureStep` | src/worker/coll_consumer.cc:37-98 | with the producer told to stop and the consumer not about to turn back for want of a login and a chat, every worker step lowers the ranking and no other step raises it |
| `CollStop.StopTerminates` | src/worker/coll_switcher.cc:57-72 | stopping ends, with or without a login, on every schedule that does not bring the consumer to turn back before it lowers the flag: no more worker steps than the ranking, a stuck end has all workers out or the wake-up lost, and with the consumer told and not lost all get out |
| `CollStop.AuthorisedWinds` | src/td_coll.cc:39 | with a login the consumer never turns back, so stopping an authorised session always ends |
| `CollRuns.StopBoundedExactly` | src/worker/coll_consumer.cc:43-49 | over all schedules the worker steps of a stopping session are bounded if and only if none of them brings the consumer to turn back |
| `CollJam.BarrenForever` | src/worker/ipc_conn_handler.cc:204-221 | once the hand-over flag is up with no login, no chat, none tried and no help under way at the producer, it stays so through every step, shutdowns and new sessions included, and no update is fetched again |
| `CollJam.JammedForever` | src/worker/coll_producer.cc:21 | a producer waiting in that situation waits for good |
| `CollJam.DoomedForever` | src/worker/coll_switcher.cc:64-68 | a consumer parked when the switcher is past its forced raise never leaves |
| `CollJam.CanStopExactly` | src/worker/coll_switcher.cc:57-72 | in every reachable state, with or without a login, some schedule brings all workers out if and only if the producer is not jammed and the consumer not parked past the forced raise; both are conditions on the state alone |
| `CollJam.CanFetchExactly` | src/worker/coll_producer.cc:19-30 | a session at work: some schedule brings its producer to fetch again if and only if it is fetching or the flag is not up, nor about to be raised by a switcher the producer waits for, with nobody left to lower it |
| `CollFair.OnlyWorkers` | src/worker/ipc_conn_handler.cc:232-237 | once the producer has been told to leave, and until all workers are out, no step of handler or initer is possible |
| `CollFair.OthersBounded` | src/worker/coll_switcher.cc:57-72 | over every schedule of a stopping session, with or without a login and even if the consumer turns back for ever, producer and switcher together take no more steps than their counters leave them |
| `CollFair.StopEnds` | src/worker/coll_switcher.cc:57-72 | in every infinite run that takes each thread that stays able to move, with or without a login, a stopping session comes to one of three ends: all workers out, the producer jammed, the wake-up lost |
| `CollFair.SwitcherMoves` | src/worker/coll_switcher.cc:22-55 | a switcher told to stop gets through its loop although producer and consumer take the lock in turn, because each lets go of it |
| `CollFair.ShutdownAnswered` | src/worker/ipc_conn_handler.cc:232-244 | the whole shutdown, from the wait of the handler on, in every fair run and whatever arrives meanwhile: it is answered, with all workers out, if and only if the handler does not wait for good with the producer jammed or the consumer parked past the forced raise |
| `CollFair.AuthorisedHangs` | src/worker/coll_switcher.cc:64-68 | with a login only the lost wake-up keeps a shutdown from its answer |
| `CollStop.SwitcherLeavesLoop` | src/worker/coll_switcher.cc:22-55 | told to stop, the switcher leaves its loop within eight steps of its own |
| `TdRequests.RequestTable.NextQueryId` | src/td_coll.cc:750-753 | the running id, advanced in place in 64-bit arithmetic |
| `TdRequests.RequestTable.SendQuery` | src/td_coll.cc:169-177 | a request takes the next id; a callback is registered under it unless the key is taken |
| `TdRequests.RequestTable.ProcessResponse` | src/td_coll.cc:180-196 | a response runs the callback of its own id, which is gone afterwards; id 0 and unknown ids run none |
| `TdRequests.RequestTable.Replay` | src/td_coll.cc:169-196 | any sequence of requests and responses, done on the table in place, gives the fold of their effects |
| `CollRequests.TableOfRun` | src/td_coll.cc:169-196 | in every run the table of the protocol is what the class keeps when it replays the requests and responses of that run |
| `CollRequests.NextQueryIsFresh` | src/td_coll.cc:750-753 | across restarts the next id is not 0, not waiting and never run before, until the 64-bit counter wraps; it is 0 exactly on the wrap |
| `CollRequests.CallbacksRunOnce` | src/td_coll.cc:180-196 | every callback runs at most once, while registered, and only for its own id |
| `CollRequests.ConfirmedAtMostSent` | src/td_coll.cc:117-150 | it_msg_coll never exceeds the number of collect_msg calls |
| `CollRequests.CreationsBounded` | src/td_coll.cc:37-87 | chat creations number at most one more than the answers that the chat is gone |
| `CollRequests.CreateRaceExactly` | src/td_coll.cc:39-46 | a creation can still go out over a chat id that has become valid if and only if, at the check of tried_c_tgfchat, the id is valid already or the producer is about to make it so |
| `CollRuns.CreateOverValidHappens` | src/td_coll.cc:138-148 | that race is reachable: a concrete run with two messages and a second "chat not found" |
| `CollRuns.LostWakeUp` | src/worker/coll_switcher.cc:64-68 | the lost wake-up is reachable: a concrete run of an authorised session that ends stuck |
| `CollRuns.UnauthorisedSpins` | src/worker/coll_consumer.cc:43-49 | a consumer that turns back for want of a login comes to the same place after five steps of its own, with the whole state unchanged |
| `CollRuns.LeftoverFlagJams` | src/worker/ipc_conn_handler.cc:204-221 | a run from start-up without a single message: a session stopped before its login leaves the flag up, UpColl does not reset it, and the next session is jammed and cannot be stopped |
| `Filters.DecideMeans` | src/filter.hh:361-386 | a filter rejects, matches or skips a message as the documentation defines it |
| `Filters.MtchMeans` | src/filter.hh:186-270 | the six rule tests, by the names of the fields: an empty positive rule matches, otherwise a value of titles, senders or keywords must compile and be found in title, sender or text |
| `Filters.GroupMeans` | src/filter.hh:393-412 | a message is forwarded if and only if some filter matches it without rejecting and no earlier filter matched or rejected it |
| `Filters.LaterFiltersIrrelevant` | src/filter.hh:393-412 | filters behind the deciding one do not matter |
| `Filters.ValueOrderIrrelevant` | README.md:323-347 | neither order nor repetition of the values of a rule matters |
| `Filters.VerdictMonotone` | src/filter.hh:393-412 | raising decisions never turns forwarding into discarding |
| `FilterGroup.FilterGroup.MtchTgmsg` | src/filter.hh:393-412 | the loop computes the group verdict, and i_prev_visited_ is the place of the first filter that does not skip, or the group size |
| `FilterGroup.FilterGroup.InsFilter` | src/filter.hh:436-470 | insertion at the clamped place with the place reported back; refused ids leave the group alone |
| `FilterGroup.FilterGroup.RmFilter` | src/filter.hh:475-499 | removal of exactly the named filter; never the last one |
| `FilterGroup.FilterGroup.AddOne` | src/filter.hh:504-552 | a value joins the end of one rule of one filter; answers true on its refusing path too, and appends a filter for an id past the end |
| `FilterGroup.FilterGroup.DelOne` | src/filter.hh:557-655 | the first equal value leaves one rule of one filter, the last filter for an id past the end |
| `FilterGroup.FilterGroup.EraseOne` | src/filter.hh:587-595 | the iterator loop erases the first equal value and nothing else |
| `FilterGroup.AddPastEnd` | src/filter.hh:512-519 | an addition past the end leaves all filters alone and appends one with just that value in that rule, or an empty one when the value does not compile; the place reported is the new one |
| `FilterGroup.DeletePastEnd` | src/filter.hh:557-580 | a deletion past the end changes the named rule of the last filter alone; it is refused if and only if the id is 0 or the value does not compile |
| `FilterGroup.EraseFirstMultiset` | src/filter.hh:587-595 | erasing takes one occurrence of a value out of the multiset, or changes nothing |
| `FilterGroup.RemoveUndoesInsert` | src/filter.hh:436-499 | an insert is accepted exactly for ids 1 to 2^31, and removing at the reported place restores any non-empty group |
| `FilterGroup.RemoveKeepsOthers` | src/filter.hh:475-499 | a removal keeps every other filter and its order, and never empties the group |
| `FilterGroup.DeleteUndoesAdd` | src/filter.hh:504-655 | add then delete at an existing id keeps every rule as a multiset, every other filter, and the verdict on every message |
| `FilterGroup.AddMonotone` | src/filter.hh:504-552 | at an existing id a value added to a no-rule never lets a message through, and one added to a non-empty positive rule never stops one |
| `FilterGroup.DeleteMonotone` | src/filter.hh:557-655 | the dual for deletion, as long as the positive rule keeps a value |
| `FilterGroup.FirstValueNarrows` | src/filter.hh:186-190 | the side condition is needed: the first value of an empty positive rule can stop a message |
| `FilterToml.EscapeLoop` | src/filter.cc:62-76 | the loop doubles backslashes and keeps everything else |
| `FilterToml.AsFsdata` | src/filter.cc:83-159 | the nested loops write the printed form of the group |
| `FilterToml.Load` | src/filter.cc:44-60 | reading never gives an empty group; what it gives for printed texts is stated by PrintReadsBack |
| `TomlRoundTrip.ReadEscaped` | src/filter.cc:62-96 | a quoted pattern reads back as itself if and only if it holds no double quote and no control character but tab |
| `TomlRoundTrip.ReadPrintedRule` | src/filter.cc:91-100 | a printed line reads back as its key and values if and only if all of them are clean |
| `TomlRoundTrip.PrintReadsBack` | src/filter.cc:44-159 | reading the printed form gives the group back if and only if every pattern is clean |
| `TomlRoundTrip.PrintStable` | src/filter.cc:83-159 | printing a clean group, reading and printing again gives the same text |
| `TomlRoundTrip.DefaultLoads` | src/user_data.cc:183-190 | the default file stands for one filter with keyword tg-focus |
| `TomlRoundTrip.PrintedLine` | src/filter.cc:91-100 | how a rule looks: quoted values, backslashes doubled, a comma and a blank between them |
| `TomlRoundTrip.FallbackIs` | src/filter.cc:53-59 | a text that cannot be read, or holds no filter, stands for one filter with six empty rules, which forwards everything |
| `TomlRoundTrip.LineTaken` | src/filter.cc:44-60 | a line is taken where a filter has begun, unless it repeats a key; before the first header it is not |
| `TomlRoundTrip.LooseLine` | src/filter.cc:44-60 | blanks around the sign and any bare key are read |
| `TomlRoundTrip.SpaceIgnored` | src/filter.cc:44-60 | blank lines and indentation do not matter |
| `ChatCmd.EditFields` | src/chatcmd.cc:233-312 | the begi/endi cursors cut the command into its fields, the fourth to the end of the text |
| `ChatCmd.HandleInsFilter` | src/chatcmd.cc:87-149 | the stored text becomes the print of the edited group, or stays as it is with the reason |
| `ChatCmd.HandleRmFilter` | src/chatcmd.cc:152-220 | the same for removal |
| `ChatCmd.HandleEditFilter` | src/chatcmd.cc:223-417 | the same for edits, with every missing or invalid argument told apart |
| `ChatCmd.UserData.SetFilters` | src/user_data.cc:491-512 | the store is a cell; an empty text is not written |
| `ChatCmd.LoadBounded` | src/filter.cc:44-60 | a text of n characters holds at most n filters, or the one fallback filter |
| `ChatTheorems.FieldsOfJoined` | src/chatcmd.cc:233-312 | any fields with any positive numbers of spaces before them come apart as they were put together |
| `ChatTheorems.JoinedOfFields` | src/chatcmd.cc:233-312 | and a text that comes apart into n fields is those fields put together |
| `ChatTheorems.AtoiOfDecimal` | src/chatcmd.cc:314 | the number read from a decimal numeral up to 2^31 - 1 is the number written |
| `ChatTheorems.NumeralRead` | src/chatcmd.cc:314 | blanks, a sign, zeros and a numeral of any size are read as that number, saturated at 64 bits, whatever follows that is no digit |
| `ChatTheorems.EditCommandUnderstood` | src/chatcmd.cc:223-345 | every id from 1 to 2^31 - 1, property, action and value (spaces and quotes included) is recovered from its command, unless the value does not compile |
| `ChatTheorems.UnderstoodEditIsSpelled` | src/chatcmd.cc:223-345 | every command that is understood is spelled that way, up to how its number is written and what follows the command word |
| `ChatTheorems.EditCommandWorks` | src/chatcmd.cc:223-401 | from the text of an edit command to the stored text, by the literal names: the value at the end of the named rule of the numbered filter, or in a filter of its own for a larger number; or without its first occurrence there, or in the last filter for a larger number |
| `ChatTheorems.EditRefusedExactly` | src/chatcmd.cc:314-345 | which argument of an edit command is found invalid, exactly, and when it is understood |
| `ChatTheorems.RemoveWithoutIdFails` | src/chatcmd.cc:167-183 | a remove without its argument fails for want of it, whatever is stored |
| `ChatTheorems.UnderstoodRemoveIsSpelled` | src/chatcmd.cc:158-192 | a remove that is understood carries a number other than 0 behind its word, and asks for that filter |
| `ChatTheorems.UnderstoodInsertIsSpelled` | src/chatcmd.cc:93-120 | an insert that is understood carries a positive number, or nothing, which names no place |
| `ChatTheorems.OtherWordsRefused` | src/chatcmd.cc:93-231 | a text is taken for a command if and only if it begins with its word |
| `ChatTheorems.InsertWithoutIdFails` | src/chatcmd.cc:96-139 | an insert without its argument always fails, whatever is stored |
| `ChatTheorems.EditWithoutArgumentFails` | src/chatcmd.cc:237-307 | an edit command that ends after any of its first arguments fails for want of exactly the next one |
| `ChatTheorems.InsertCommandWorks` | src/chatcmd.cc:96-139 | an insert with any id from 1 to 2^31 - 1 and any number of spaces stores the group with a "tg-focus" filter before the named one, or at the end |
| `ChatTheorems.RemoveCommandWorks` | src/chatcmd.cc:161-209 | a remove with such an id stores the group without the named filter, and fails exactly when there is none or no other |
| `ChatTheorems.RemoveWorksExactly` | src/chatcmd.cc:186-205 | a removal succeeds if and only if the id names a filter of a group of two or more |
| `ChatTheorems.EditedClean` | src/filter.hh:436-655 | an edit keeps a clean group clean if and only if it adds no unclean value |
| `ChatTheorems.CommandRefines` | src/chatcmd.cc:347-401 | on a text of a clean group: a failed command leaves text and group alone; after a successful one the text stands for the edited group if and only if no unclean value was added |
| `ChatTheorems.StoredTextRefines` | src/chatcmd.cc:87-417 | over every sequence of commands that add clean values the stored text stands for the abstract list, which is never empty |
| `ChatTheorems.FromTheDefault` | src/user_data.cc:183-190 | the same from a fresh installation |
| `EndToEnd.ForwardedAsDocumented` | src/worker/coll_consumer.cc:19-30 | with the real filters and commands plugged in, in every reachable state a message was forwarded only if the filters then stored want it in the documented sense, and filtered out only if they do not |
| `EndToEnd.StoredFiltersFollowCommands` | src/chatcmd.cc:347-401 | in every run of the whole program, as long as no command adds an unclean value, the stored text stands for the list that the edit commands run so far make of the first one |
| `Utf.Decode8` | src/utfutils.cc:31 | a decoded character is a scalar value within the bytes looked at |
| `Utf.Encode8Is` | src/utfutils.cc:31 | the table of RFC 3629: lengths, ranges of lead and tail bytes, and the number as the sum of their bits |
| `Utf.IncompleteExactly` | src/utfutils.cc:31-36 | bytes are called incomplete if and only if they are the beginning of a character |
| `Utf.DecodesEncoded` | src/utfutils.cc:31 | the decoder accepts every encoded character and gives it back |
| `Utf.DecodedIsEncoded` | src/utfutils.cc:31 | what the decoder accepts is the encoding of what it gives |
| `Utf.OneCall` | src/utfutils.cc:31-43 | one call of mbrtoc16, by its return value, against what is still to be produced |
| `Utf.GetC16Seq` | src/utfutils.cc:50-83 | the pointer loop ends, stays inside its buffer of as many units as bytes, and returns the transcoding |
| `Utf.GetC16Len` | src/utfutils.cc:5-47 | the same loop gives the length of the sequence for up to 1024 bytes, and 0 beyond |
| `Utf.Transcode` | src/utfutils.cc:50-83 | never more units than bytes |
| `Utf.TranscodesText` | src/utfutils.cc:64-78 | for text without NUL and any rest no character begins, the units are the UTF-16 encoding of the text, and one 0 unit for a NUL that follows |
| `Utf.Splits` | src/utfutils.cc:64-78 | every byte string is such a text and such a rest |
| `Utf.WellFormed` | src/utfutils.cc:50-83 | well-formed UTF-8 without NUL gives exactly its UTF-16 encoding, from which the text can be read back, with all surrogates paired |
| `Utf.Utf16RoundTrip` | src/utfutils.cc:50-83 | decoding UTF-16 as RFC 2781 says undoes encoding it |
| `Utf.Encode16Is` | src/utfutils.cc:64-78 | one unit that is no surrogate, or a high and a low surrogate that share the bits of the number |
| `Utf.AlwaysPaired` | src/utfutils.cc:50-83 | whatever the bytes, every high surrogate produced is followed by a low one and no low one stands elsewhere |
| `Decor.ToLocaleString` | src/tg_msg.cc:36-125 | the appended pieces are the five headers and fields in order, each field followed by a newline |
| `Decor.HeadersApart` | src/tg_msg.cc:166-352 | two header matches do not overlap, and no two fields share a header |
| `Decor.HeadersSpelled` | src/tg_msg.cc:42-114 | the headers of the three languages, in characters |
| `Decor.MessageSpelled` | src/tg_msg.cc:36-125 | the message as a whole: title, sender, text, time and id, each behind its own header and before a newline |
| `Decor.PatternsSpelled` | src/tg_msg.cc:166-352 | what the scanner looks for: in Chinese the header, in English another text |
| `Decor.DecodeUnits` | src/tg_msg.cc:456-484 | the loop gives the units before the first NUL, or nothing if some bytes are no character |
| `Decor.UnitsExactly` | src/tg_msg.cc:456-484 | a text is scanned if and only if it is well formed up to its end or its first NUL, and then as the UTF-16 of that |
| `Decor.GetDecorPos` | src/tg_msg.cc:450-512 | the positions are exactly the headers present, in range, increasing and disjoint |
| `Decor.ChineseHeadersFound` | src/tg_msg.cc:42-92 | in zh_CN and zh_HK all five headers of every message are listed where they were written, whatever the fields hold |
| `Decor.EnglishHeadersMissed` | src/tg_msg.cc:94-120 | in English locales no header of any message is ever listed where it was written, whatever the fields hold: the scanner looks for other units than are written |
| `Decor.HeadersListedExactly` | src/tg_msg.cc:450-512 | over all locales, messages and headers: a header is listed where it was written if and only if the locale is a Chinese one |
| `Decor.EnglishNothingListed` | src/tg_msg.cc:94-120 | and nothing at all is listed unless a field of the message holds a bracket |
| `HelpDecor.ExtraDecorationHelp` | src/td_coll.cc:227-323 | the entities added are, kind by kind, the marks taken in pairs, the folds from headline to closing words, and the headlines that open them, in the order in which the scanner completes them |
| `HelpDecor.ListFixed` | src/td_coll.cc:227-323 | two lists that meet the contract of the scanner for the same text are the same list |
| `HelpDecor.Toggle` | src/td_coll.cc:285-313 | one unit of the code and link scanners pairs the marks, passing over a pair whose first mark is the first unit |
| `HelpDecor.HelpEntitiesFit` | src/td_coll.cc:227-323 | for every text all entities lie inside it, and no two of a kind overlap, headlines, folds, code spans and links alike |
| `HelpDecor.SpanSetExactly` | src/td_coll.cc:285-313 | in the list the scanner returns: the k-th code span or link, from one of its marks to the next, is there if and only if it does not begin the text |
| `HelpDecor.FirstSpanPassedOver` | src/td_coll.cc:285-313 | so the first span of either kind is in that list if and only if the text does not begin with its mark |
| `HelpDecor.SpansOnly` | src/td_coll.cc:285-313 | and no code span or link is listed but from a mark with an even number of marks before it to the next mark |
| `HelpDecor.BoldExactly` | src/td_coll.cc:244-270 | a headline is set in bold if and only if no fold is open where it stands |
| `HelpDecor.FoldExactly` | src/td_coll.cc:272-283 | a fold is listed if and only if it goes from such a headline to the end of the next closing words |
| `HelpDecor.WordsSpelled` | src/td_coll.cc:244-302 | the words and marks the scanner reads, in characters |
| `IpcMsg.IpcMsg.constructor` | src/ipc_msg.cc:80-130 | a buffer is taken if and only if it begins with the magic, and then type, length and data are those of its frame |
| `IpcMsg.IpcMsg.Scan` | src/ipc_msg.cc:92-119 | the shift-accumulate loop reads the big-endian numbers without overflow |
| `IpcMsg.IpcMsg.SerializeInto` | src/ipc_msg.cc:134-138 | the whole data is copied out |
| `IpcMsg.NewIpcMsg` | src/ipc_msg.cc:151-202 | the blocks written through the moving pointer are the encoding of the frame, and the message holds that frame |
| `IpcMsg.EncodedDecodes` | src/ipc_msg.cc:80-202 | every 16-bit type, 32-bit length and 55 bytes of arguments come back |
| `IpcMsg.DecodedIsEncoded` | src/ipc_msg.cc:80-130 | every buffer that begins with the magic is the encoding of its own fields, and no other is taken |
| `IpcMsg.FrameLayout` | src/ipc_msg.cc:151-202 | the frame byte by byte: "tgf", type and length with the highest byte first, the arguments |
| `IntFiles.IntFile.Set` | src/user_data.cc:443-457 | the shifting loop writes the two's complement bytes, lowest first |
| `IntFiles.IntFile.Get` | src/user_data.cc:384-398 | the or-ing loop reads them as signed, a missing byte as 0 |
| `IntFiles.IntFile.IsTgfidValid` | src/user_data.cc:553-571 | false exactly for the eight bytes of -1 |
| `IntFiles.ReadsBack` | src/user_data.cc:514-551 | every number that fits n bytes comes back |
| `IntFiles.WritesBack` | src/user_data.cc:514-551 | every file of n bytes is the file of the number it is read as |
| `IntFiles.StoredNumbersComeBack` | src/user_data.cc:384-551 | every int32_t API id and every int64_t chat id comes back from its file |
| `IntFiles.ValidExactly` | src/user_data.cc:553-571 | a stored chat id counts as valid if and only if it is not -1 |
| `IntFiles.ByteIs` | src/user_data.cc:443-457 | the i-th byte of a file is the i-th digit to base 256 |
| `IntFiles.ShortAndLong` | src/user_data.cc:384-398 | a short file reads as its bytes alone, a long one as its first n bytes |

## Left out

- Collector.StepC: the worker threads and the handler are steps on values, not methods on shared
  objects, so aliasing of the shared objects is not captured; `CollConsumer.HandleBatch` has the
  consumer's loop in place and `BatchAlone` ties it to the steps.
- ChatCmd.HandleInsFilter: the reply texts are not modelled, only success or the reason of failure.
- ChatCmd.HandleRmFilter: the same.
- ChatCmd.HandleEditFilter: the same.
- FilterToml.Load: its own contract says only that the group is not empty.
- CollRuns.StopBoundedExactly: its condition is a schedule, not a predicate of the state, and it counts
  unfair schedules too; `StopEnds` and `CanStopExactly` have neither limit.
- Decor.EnglishNothingListed: claims nothing for fields that hold a bracket, which can match by chance
  elsewhere than at a header.
- CollRequests.NextQueryIsFresh: says nothing about the table after 2^64 requests.
- A restart of the daemon process itself, which clears all its flags.
- TDLib, sockets, epoll, fork, signals and the command line (src/td_auth.cc, src/ipc_client.cc,
  src/ipc_server.cc, src/worker/conn_listener.cc, src/tgfocus.cc): foreign calls; `receive` is "nothing,
  an update, a response or one new message".
- How title, sender and text of a message are put together from TDLib's objects, chat titles and users
  (src/td_coll.cc:537-650): a received message has them; and the markup of the filter list
  (src/td_coll.cc:326-416), a scanner of the same kind as that of the help text.
- File handling and locks of the stores (src/user_data.cc outside the lines cited).
- Compiling and matching regular expressions (src/posix_regex.cc): a thin layer over the C library.
- TOML beyond the subset: comments, multi-line and literal strings, other value types, root keys.
- The lazy command path (src/ipc_msg_queue.cc, src/worker/ipc_msg_dequer.cc), which the shipped client
  never uses, and commands that arrive in pieces (src/worker/ipc_conn_handler.cc:115-141).
- How a chat text is told to be a command (`handle_tgfcmd`), stripping its leading spaces, and the
  commands that only show something: the dispatch is a parameter of `EndToEnd.Program`.
- Logging, usage texts, timestamps, locale probing, `as_readable`.
- Weak memory orders and real time.
