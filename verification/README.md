# SchedMon, verified

A Dafny model of the parts of SchedMon that have to be right together, and proofs about them.

* **The channel.** Kernel hooks append variable-length records to a ring of separately allocated
  pages; the tool walks the mapping without a lock, with a cursor of its own, and tells the kernel
  afterwards how far to move the tail. `RingBuffer` and `Reader` are the code as it stands, on
  page arrays and 32-bit masks; `RingSpec` and `ReaderSpec` say what the bytes mean as a queue;
  `Pipeline` interleaves writers, single reader turns and tail updates in any order. `EofLost`
  holds two runs that go wrong.
* **The task family.** `Sched` and `Hooks` are the scheduler hooks: wait list, per-CPU lists,
  `children` links, reference counts. Kernel memory is a map from addresses to structures, so that
  reading a freed structure would be reading outside the map. `FamilyTree` is the abstract family.
  `Channel` joins this to the first part: whatever the hooks do to a ring buffer is a sequence of
  the writers' steps of `Pipeline`.
* **Virtual counters.** `Counters` and `Sampling` are one CPU's registers and one task's sample,
  timer and event-set rotation, `Budget` the arithmetic of its timer; `Monitor` runs any number of
  tasks over any number of CPUs. `Phases` reads the phases `Monitor` knows off the lists of
  `Hooks`. `Shortfalls` holds two runs that go wrong.

`Bits` and `RingMasks` relate `&`, `|` and 32-bit wrap-around to modular arithmetic, `Samples` has
the record layouts, `Environment` is `driver/envir.c`.

The main results, each for all inputs and all runs:

1. Until the reader passes the head, which takes a dropped EOF, what the tool has printed is a
   prefix, byte for byte, of what was queued, and no unknown header is met; a finished session has
   printed everything before EOF (`Pipeline.Fifo`). The read after POLLHUP ends on EOF if EOF was
   accepted and past the head if not (`Pipeline.FinalRead`). At POLLIN
   a read prints exactly the first `batch` samples queued and leaves the rest, whatever is written
   meanwhile (`Pipeline.ExactBatch`, `Pipeline.OneSession`), both tails agree after every flush and
   the clamping branches of `smon_rb_read` never run (`Pipeline.FlushAgrees`), and unread bytes
   never change under the reader (`Pipeline.UnreadStable`).
2. A root's `children` ring is the preorder walk of its whole family, newest child first, after
   any hooks in any order (`Sched.ForkFamily`, `Hooks.Scheduler.Run`), which is why unregistering
   a root destroys every descendant once and nothing else (`Hooks.Scheduler.UnregisterRoot`).
   No write, reference or release of theirs is ever out of turn in the channel, whatever the tool
   does in between, and what is offered to the channel is what they log (`Channel.HooksDrive`). Every
   hook has its whole effect written out, no log ever loses anything, and every live task has the
   pid of its process (`Hooks.Scheduler.Do`, `Hooks.Scheduler.Run`).
3. For each task, event set and counter, reported plus pending counts are the events that
   occurred while the task was counted under that set, and likewise for time, in every run of the
   machine, exactly unless a task was put on a run list while its process was running
   (`Monitor.Machine.Run`). With ticks on time, a task has one sample for every whole period it was
   counted with a timer (`Sampling.Task.PeriodsSaved`).

Where the code falls short of what it is for:

* EOF is an ordinary write and is dropped exactly when all but 4 bytes of the ring are in use
  (`Pipeline.EofDropped`). Then, and only then, the final read runs on past the head
  (`Pipeline.FinalRead`), or the tool is never woken again (`Pipeline.HangUp`). Both happen: on two
  pages 87 samples leave no room for EOF, and the tool either reads past the head
  (`EofLost.PastTheHead`) or, having just read the 87 as its batch, waits for ever
  (`EofLost.NeverWoken`).
* The sampling period is computed in 32 bits and is the requested time exactly up to 4294 ms
  (`Environment.PeriodExact`); it comes out 0 exactly for multiples of 2^26 ms.
* A task put on a run list while its process is running (no exec option) is stopped at the next
  switch, or exit, without ever having been started: its duration is then too long by all the
  cycles since the time stamp counter was 0, for good, and its counts by what the CPU held
  (`Sampling.Task.Totals`, with a run in `Shortfalls.ListedWhileRunning`). All other tasks keep
  their totals. The tool always asks for the exec option.
* A stop of the sampling timer that is still queued on one CPU when its task is started on another
  cancels the new timer. Counts and time are kept, but the task is counted without a tick to come
  (`Shortfalls.StoppedElsewhere`). With no tick late, the sampling budget fails exactly then and,
  if any time was counted like that, until the next save (`Sampling.Task.BudgetFails`); a period is
  then too long by that time, but never saved twice (`Sampling.Task.PeriodsSaved`).
* `driver/smon.h:196` documents sample time 0 as "only count"; `driver/envir.c:22-25` replaces it
  by 10 ms (`Environment.SampleTimeKept`). SMON_IOCREAD answers -ENOTTY (`driver/main.c:154-160`) after it
  has taken effect; the model has the effect.

Assumptions: an event-set registration with valid ids whose `global_ctrl` enables exactly its
configured counters; each process is registered once, under its own pid, with a ring buffer of its own; a root is
unregistered when its ring buffer has no writer left, as after POLLHUP; a queued irq_work runs on
its CPU before the next switch there, and a queued start before an exec or exit too;
sections under a lock are atomic, and so is the last release with its EOF. Clocks do not run
backwards, the time stamp counter is positive, and counters do not overflow. hrtimer_forward steps
by at least 1 ns, which matters only for a period of 0.

## Model

| member | source | states |
|---|---|---|
| Bits.AndMask | driver/rb.c:11-17 | masking with 2^k - 1 is reduction modulo 2^k |
| Bits.PowerOf2Test | driver/main.c:262-263 | the bit trick accepts exactly the powers of two |
| RingMasks.PageExponent | driver/main.c:257-263 | an admitted page count is a power of two from 2 to 1024, so every position fits 22 bits |
| RingMasks.CountMask | driver/rb.c:16-17 | RB_COUNT on wrapping 32-bit values is the distance from tail to head round the ring |
| RingMasks.SpaceMask | driver/rb.c:19-20 | RB_SPACE is size - 1 less RB_COUNT, so the two always add up to size - 1 |
| RingMasks.TrimMask | driver/rb.c:27 | HEAD_TRIM_PAGE wraps a position that ran up to the end of the ring |
| RingMasks.NextPageMask | driver/rb.c:25 | stuffing moves the head by exactly the rest of its page |
| RingMasks.PageNextMask | tool/src/rb.c:51-59 | the user's page step lands where the kernel's does, also on the last page |
| Samples.HeaderRoundTrip | driver/smon.h:332-334 | a header word read back is the type that was written |
| Samples.Layout | driver/smon.h:323-381 | the accepted types are those of the sample structures and EOF, and each payload has the size the C layout of its structure's members gives |
| RingSpec.FrameAt | driver/rb.c:139-149 | a framed record or PAD is a multiple of 4 bytes, stays inside its page and the mapping, and the next one starts at a position again |
| RingSpec.WriteAppends | driver/rb.c:165-243 | seen from any unread record boundary a write appends exactly its sample, or nothing when it does not fit, also when a PAD was committed first; `items` moves with it |
| RingSpec.WriteKeepsUnread | driver/rb.c:206-232 | no byte between tail and head changes, and the head never reaches the tail |
| RingSpec.WhenDropped | driver/rb.c:208-222 | a drop means fewer than 196 bytes were free; EOF is dropped exactly at size - 4 bytes in use; a drained ring takes anything |
| RingSpec.DecodeJoin | tool/src/profile.c:145-228 | adjacent well-framed stretches decode to the concatenation of their samples |
| RingSpec.DecodeLength | driver/smon.h:332-381 | n bytes hold at most n / 4 records, each of a known type and size |
| RingSpec.StuffRecord | driver/rb.c:139-149 | a PAD header fits the rest of any page and decodes to no sample |
| RingBuffer.KernelRing.constructor | driver/rb.c:33-82 | a new ring is empty, on distinct pages, batch 1, no writer |
| RingBuffer.KernelRing.Write | driver/rb.c:165-243 | on pages and masks, the append-or-nothing write of the flat ring; an unknown type changes nothing; the reader is woken exactly when an accepted record completes a batch, and so whenever poll becomes ready |
| RingBuffer.KernelRing.StuffPage | driver/rb.c:139-149 | the PAD goes to the head and the head to the next page, nothing else moves |
| RingBuffer.KernelRing.Read | driver/rb.c:245-272 | tail and items after a read of any size, with both clamping branches; the tail stays where a header may stand exactly for clamped reads and multiples of 4 |
| RingBuffer.KernelRing.Get | driver/rb.c:97-102 | one more writer |
| RingBuffer.KernelRing.Release | driver/rb.c:104-111 | one writer less; the last one attempts EOF and wakes the reader, and nobody else makes poll ready |
| RingBuffer.KernelRing.Poll | driver/main.c:166-200 | readable exactly with a batch and a writer; hang-up exactly without a writer and with a batch or any byte |
| RingBuffer.Mmap | driver/main.c:248-275 | the mapping succeeds exactly for 2, 4, ..., 1024 pages |
| ReaderSpec.LookDecodes | tool/src/profile.c:149-227 | on a framed stretch the switch takes the next sample, skips a PAD, or stands on EOF; never an unknown header, and a PAD leads to a page start |
| ReaderSpec.WriteAllAppends | driver/rb.c:206-232 | any number of writes beside the reader only adds the accepted samples behind what it has ahead |
| ReaderSpec.WalkLook | tool/src/profile.c:145-228 | a reader turn moves one sample from ahead to decoded and keeps both sides framed |
| ReaderSpec.WalkSplits | driver/rb.c:264-267 | decoded and undecoded samples are the queue, and `items` counts both |
| ReaderSpec.WalkFlush | driver/rb.c:254-262 | the consumed bytes bring the kernel's tail to the reader's, and drop exactly what was decoded |
| Reader.UserRing.Consume | tool/src/rb.c:30-40 | the user's tail advances round the ring, the byte count with it |
| Reader.UserRing.CountBytes | tool/src/rb.c:61-64 | distance between two positions |
| Reader.UserRing.PageNext | tool/src/rb.c:51-59 | tail to the next page, consumed by the skipped bytes |
| Reader.UserRing.Flush | tool/src/rb.c:42-50 | hands out the consumed bytes and starts again |
| Reader.Load | driver/main.c:221-239 | the mapping shows page after page of the ring |
| Reader.ReadOne | tool/src/profile.c:149-227 | one pass of the switch is one look of the specification, by the consuming calls of the code |
| Reader.DecodeLoop | tool/src/profile.c:145-228 | whatever is written between the turns, the loop returns the first samples queued, up to nr or EOF, counts EOF but no PAD, and terminates |
| Reader.ReadSamples | tool/src/profile.c:128-236 | exactly those samples leave the ring, the tails agree, and what was accepted meanwhile is queued behind the rest |
| Pipeline.NextInv | driver/rb.c:165-272 | every step of writers, poll, reader and kernel keeps framing, cursors, counts and the place of EOF |
| Pipeline.Run | tool/src/profile.c:238-275 | every state of every run satisfies that invariant |
| Pipeline.Fifo | tool/src/profile.c:128-236 | printed is a prefix of queued; no unknown header; done means all printed but EOF; the head is passed only when EOF was dropped, everything having been printed |
| Pipeline.PollExact | driver/main.c:183-193 | with a writer an idle tool is let go exactly when `batch` samples are queued, to read that many; without, exactly when any byte is, to read until EOF |
| Pipeline.ExactBatch | tool/src/profile.c:252-256 | a session begun at POLLIN ends with the first `batch` samples queued, none of them EOF; the others stay and `items` falls by `batch` |
| Pipeline.OneSession | tool/src/profile.c:252-256 | over any run from such a poll to its flush, the tool prints exactly the first `batch` samples that were queued at the poll |
| Pipeline.WriteQueues | driver/rb.c:165-243 | a write queues its sample, or nothing with fewer than 196 bytes free, and touches nothing of the reader's |
| Pipeline.OnlyOffered | driver/rb.c:104-243 | in every run what is queued was offered, in that order, with EOF behind it once all writers have gone, unless EOF was dropped |
| Pipeline.FlushAgrees | driver/rb.c:254-267 | at every flush the two tails meet and neither clamp applies; after POLLIN `batch` samples are flushed |
| Pipeline.UnreadStable | driver/rb.c:206-232 | between flushes no step moves the tail or changes an unread byte |
| Pipeline.TurnShrinks | tool/src/profile.c:207-212 | every turn, PADs included, brings the cursor closer to the head or finds EOF |
| Pipeline.HangUp | driver/main.c:192-193 | without writers an idle tool is woken unless EOF was dropped and the ring is empty |
| Pipeline.FinalRead | tool/src/profile.c:257-260 | the read after POLLHUP ends: on EOF with everything before it printed if EOF was accepted, else past the head with everything printed |
| Pipeline.EofDropped | driver/rb.c:158-163 | EOF is lost exactly when size - 4 bytes are in use at the last release |
| Pipeline.BatchRead | tool/src/profile.c:145-228 | a read at POLLIN, left alone, ends with its batch printed |
| Pipeline.NothingAhead | driver/rb.c:215-222 | an idle reader that has printed everything stands at the head, unless a PAD has brought the head to a page start |
| EofLost.PastTheHead | tool/src/profile.c:257-260 | a run in which EOF is dropped and the final read prints all 87 samples and passes the head |
| EofLost.NeverWoken | driver/main.c:189-193 | a run in which EOF is dropped and no step of any kind is left, with the tool polling |
| FamilyTree.PreorderAddChild | driver/sched.c:169 | a newest child comes right behind its parent in the preorder walk, at any depth |
| FamilyTree.DegreeAddChild | driver/sched.c:170 | only the parent's number of children changes |
| Sched.RingInsert | driver/sched.c:169 | list_add behind any member of a ring gives the ring with the entry inserted there |
| Sched.RingDelete | driver/sched.c:189 | list_del of the entry behind the head closes the ring over it |
| Sched.ForkFamily | driver/sched.c:154-182 | every root's ring stays the preorder walk of its family, and n_children the number of direct children |
| Sched.EnvAdd | driver/envir.c:52-56 | after taking a reference the count is again the number of holders |
| Sched.WriterAdd | driver/rb.c:97-102 | active is again the number of tasks with that ring buffer, before EOF |
| Sched.ExitRb | driver/sched.c:593-595 | active stays the number of such tasks, and the last one out leaves EOF as the last entry, once |
| Sched.RegisterLists | driver/sched.c:109-125 | a registered task is on the wait list with the exec option, else on its CPU's list, and on no other |
| Sched.ForkLists | driver/sched.c:173-179 | a child is on the list of its own CPU and on no other |
| Sched.ExecLists | driver/sched.c:537-563 | exec moves a task from the wait list to its CPU's list |
| Sched.MigrateLists | driver/sched.c:459-493 | a running task moves to the list of the destination; a waiting one stays |
| Sched.ExitLists | driver/sched.c:576-626 | an exited task is on no list |
| Sched.QuietFamily | driver/sched.c:567-627 | once active is 0 no member of the family is alive or on any list |
| Sched.SweepStep | driver/sched.c:184-193 | destroying the first descendant left keeps the rest linked, the counts exact and the environment alive |
| Sched.SweepEnd | driver/sched.c:195-214 | with the descendants gone the root is the only holder of the environment |
| Sched.FamilyGone | driver/sched.c:184-214 | the other families are untouched; the removed tasks are exactly those of the root |
| Sched.PlayLog | driver/rb.c:97-111 | a ring buffer's log is what its history wrote, in order, with EOF behind it once all references taken have been dropped |
| Sched.NamedExit | driver/sched.c:586-595 | the pid a task's last sample carries is its process's |
| Hooks.Scheduler.FindOn | driver/sched.c:445-453 | the list search finds the task of the process if it is on the list |
| Hooks.Scheduler.CreateTask | driver/task.c:14-65 | a task structure, a ring of one, with a first reference to a new environment and a reference to the ring buffer |
| Hooks.Scheduler.Register | driver/sched.c:85-128 | exactly one task and one environment more, on the list the exec option says |
| Hooks.Scheduler.NewChild | driver/task.c:84-116 | a structure under the child's own pid, sharing environment and ring buffer, linked behind the parent |
| Hooks.Scheduler.CreateChild | driver/task.c:84-116 | that child has environment and ring buffer counted once more, and is the parent's newest child |
| Hooks.Scheduler.RegisterChild | driver/sched.c:154-182 | the same, with the child in front of its CPU's list, and its pid that of its process |
| Hooks.Scheduler.Exec | driver/sched.c:531-565 | the process's task waits no longer; if it was waiting, a root's log has an INFO sample more, and nothing else is written |
| Hooks.Scheduler.Fork | driver/sched.c:495-529 | if the parent's task is found on its CPU's list: with the inherit option a task of the child's process and pid joins the family, in front of the child's CPU's list, with the fork option a FORK sample of both pids goes behind the log; otherwise nothing |
| Hooks.Scheduler.Migrate | driver/sched.c:459-493 | the process changes CPU and its task with it; with the cpu option a CPU sample with the process's pid and both CPUs goes behind the log of a running task |
| Hooks.Scheduler.Exit | driver/sched.c:567-627 | the task gives up process and ring buffer; a PMC sample of the process's pid goes behind the log if it was on a run list, and EOF behind that exactly if it was the last holder |
| Hooks.Scheduler.DestroyTask | driver/task.c:67-82 | structure freed, references dropped, environment freed with its last holder |
| Hooks.Scheduler.UnregisterChildren | driver/sched.c:184-193 | the ring walk frees every descendant once, in preorder, and no environment |
| Hooks.Scheduler.UnregisterRoot | driver/sched.c:195-214 | the family is freed, root last, with its environment, and nothing else changes |
| Hooks.Scheduler.Unregister | driver/sched.c:130-152 | finds the root by pid or fails without effect |
| Hooks.Scheduler.GetRb | driver/rb.c:97-102 | one reference more, as the ring buffer's history says |
| Hooks.Scheduler.ReleaseRb | driver/rb.c:104-111 | one reference less; nothing is lost from the log, and EOF goes behind it exactly after the last |
| Hooks.Scheduler.WriteRb | driver/sample.c:18-24 | the sample goes behind everything logged, on that ring buffer and no other |
| Channel.Driven | driver/rb.c:97-111 | a permitted history of a ring buffer keeps its writers' steps possible in the channel, whatever the tool does in between |
| Channel.HooksDrive | driver/sched.c:85-627 | after any hooks, the history of every ring buffer in use is such a sequence, the channel's writers are the tasks that hold it, and the samples offered are the ones logged |
| Channel.OffersLog | driver/rb.c:165-243 | the writers' steps offer the channel the messages of the history, kind by kind, in order |
| Hooks.Scheduler.Do | driver/sched.c:85-627 | every hook has exactly its effect; each log stays a prefix of itself, and an environment that stays changes in its count only |
| Hooks.Scheduler.StatSilent | driver/envir.c:28-35 | forks and migrations leave nothing in a ring buffer all of whose writers are in stat mode |
| Hooks.Scheduler.Run | driver/sched.c:85-627 | in every run: rings in preorder, counts equal holders, one list per live task, EOF last and once, nothing freed twice; each live task has its process's pid, and no log loses anything |
| Phases.Found | driver/sched.c:422-457 | a task is on a CPU's list exactly when it is live and its process is there, on the wait list exactly when it is waiting |
| Phases.Step | driver/sched.c:85-627 | every hook moves the phases of tasks as the counting machine does: new, gone live, exited, or removed once exited |
| Environment.NewEnvir | driver/envir.c:8-41 | made member by member, the environment is the user's with the default sample time for 0, and in stat mode one event set and no other samples |
| Environment.UserKept | driver/envir.c:16-41 | outside stat mode event-set ids, their number, the batch and all options are the user's |
| Environment.StatKept | driver/envir.c:28-35 | in stat mode there is one event set, the user's first, and rapl, cpu, fork and sched are off |
| Environment.Period | driver/sched.c:10 | the timer period is the 32-bit remainder of the product |
| Environment.PeriodExact | driver/sched.c:10 | the timer period is the requested time exactly up to 4294 ms |
| Environment.SampleTimeKept | driver/envir.c:22-25 | the sample time asked for is kept exactly unless it is 0, which becomes the default |
| Environment.NextEvset | driver/envir.c:79-82 | the next event-set index is a valid one |
| Counters.CreatedOk | driver/envir.c:8-41 | valid ids stay valid, stat mode has a single event set, and the period is 0 exactly for multiples of 2^26 ms |
| Counters.EvsetOf | driver/sample.c:31 | the event set of a turn is the one the turn's id names |
| Counters.EventCounts | driver/sample.c:31-44 | an event counts for counter i in turn k exactly if it was seen in that turn and the event set the k-th id names asks counter i for it |
| Counters.ConservedOccur | driver/pmc.c:72-82 | an event advances exactly the counters that ask for it, so totals stay exact |
| Counters.ConservedSave | driver/sample.c:75-88 | handing a sample over moves its counts from pending to reported |
| Counters.BaseShows | driver/sample.c:71-72 | counts a task never earned stay in its totals for good, unless they are all 0 |
| Counters.Cpu.PmcSet | driver/pmc.c:39-54 | every configured counter selects its event |
| Counters.Cpu.PmcStart | driver/pmc.c:72-76 | exactly the counters the event set configures are enabled |
| Counters.Cpu.PmcStop | driver/pmc.c:78-82 | no counter is enabled |
| Counters.Cpu.PmcRead | driver/pmc.c:84-101 | configured counters as they stand, the others 0 |
| Counters.Cpu.PmcWrite | driver/pmc.c:103-117 | all counters loaded |
| Sampling.Task.constructor | driver/task.c:106-113 | a new task has no counts, no samples and event set 0 |
| Sampling.Task.SampleStart | driver/sample.c:29-57 | the task's counts move to the CPU unchanged, which is programmed for the event set the present turn's id names, with exactly its counters enabled; the first start is stamped |
| Sampling.Task.SampleStop | driver/sample.c:59-73 | they move back with everything counted since, and the duration likewise; a task never started takes what the CPU holds instead, and all the cycles there were |
| Sampling.Task.SampleSave | driver/sample.c:75-88 | the sample is handed over as it is, cleared, and the next event set is due |
| Sampling.Task.StartTimer | driver/sched.c:220-238 | a full period, or what was left of one |
| Sampling.Task.TaskIn | driver/sched.c:249-262 | counting starts at once in stat mode only |
| Budget.StartKeeps | driver/sched.c:220-238 | setting the timer goes on with the schedule, kept or missed, and loses no time |
| Budget.SwitchKeeps | driver/sched.c:264-289 | at a switch a running timer keeps the schedule, one that has run out brings the task back to it, and a stint without one loses it unless it had no length |
| Budget.TickKeeps | driver/sched.c:291-318 | a tick on time brings the task back to its schedule, a late one leaves it ahead by what it took from the new period |
| Budget.StopKeeps | driver/sched.c:240-247 | cancelling the timer loses the schedule exactly if the task is being counted |
| Budget.ExitKeeps | driver/sched.c:581-586 | the last run has at most a period with a timer |
| Budget.LaterKeeps | driver/sched.c:274 | passing time keeps the schedule, and is counted exactly while the task is |
| Budget.BudgetExact | driver/sched.c:220-318 | the timer is on schedule exactly if one runs while counting and the time counted without one since the last save equals what a late tick took, which is 0 if none was late |
| Sampling.Task.TaskOut | driver/sched.c:264-289 | saves exactly if the timer runs and the period is up, and disarms the tick |
| Sampling.Task.TimerTick | driver/sched.c:291-318 | saves exactly if the tick is still meant, and rearms past now |
| Sampling.Task.Retake | driver/sched.c:301-314 | stop, save, forward, start keeps all sums and the budget |
| Sampling.Task.Exit | driver/sched.c:581-589 | one last sample, nothing pending |
| Sampling.Task.StopTimer | driver/sched.c:240-247 | the timer is cancelled, also when its task is being counted again |
| Sampling.Task.Occur | driver/pmc.c:72-82 | one event adds one to the pending count of exactly the counters that the present turn's event set asks for it |
| Sampling.Task.UserTurns | driver/envir.c:79-82 | outside stat mode the k-th sample of a task carries the user's event set k modulo their number |
| Sampling.Task.Totals | driver/sample.c:59-73 | time adds up exactly unless the task was listed while running and has been switched out or exited since; counts exactly if nothing was taken in then |
| Sampling.Task.BudgetFails | driver/sched.c:220-318 | with no tick late, the timer is off schedule exactly if none runs while the task is counted, or time was counted without one since the last save; it takes a stop queued elsewhere |
| Sampling.Task.PeriodsSaved | driver/sched.c:264-318 | with no tick late, the number of samples is the number of whole periods counted with a timer, which is all the time unless a stop came late; no period is ever saved twice |
| Sampling.Task.PeriodsSavedAtExit | driver/sched.c:581-586 | after exit all samples but the last are of one period with a timer, and the last of at most one |
| Sampling.Task.StatSample | driver/sched.c:255-288 | in stat mode an exited task has left one sample with its whole run's counts and duration, or was never counted |
| Sampling.Later | driver/sched.c:274 | the budget holds at any later time: run time and remaining time trade one for one |
| Budget.OnePerPeriod | driver/sched.c:276-277 | saved runs of a period each, but for the gaps, and a started one divide the time counted |
| Budget.HrtimerForward | driver/sched.c:308 | the expiry stays on the timer's grid and is its first point past now |
| Sampling.TakeTurn | driver/envir.c:79-82 | after the k-th sample the event set is k + 1 modulo n_esids |
| Monitor.Machine.SwitchOut | driver/sched.c:426-440 | the leaving task is stopped on its own CPU, the others are untouched |
| Monitor.Machine.SwitchIn | driver/sched.c:442-455 | the arriving task starts on the CPU it arrives on |
| Monitor.Machine.Exec | driver/sched.c:549-563 | a waiting task starts being counted where it runs |
| Monitor.Machine.RunStart | driver/sched.c:220-238 | the queued start counts the task on that CPU |
| Monitor.Machine.RunStop | driver/sched.c:240-247 | the queued stop cancels the timer; the task is on schedule after it exactly if it was before and is not being counted elsewhere |
| Monitor.Machine.Add | driver/sched.c:109-125 | a new task, marked if it goes on a run list while its process is running |
| Monitor.Machine.Tick | driver/sched.c:291-318 | a timer interrupt saves one sample, or none after the task was switched out |
| Monitor.Machine.Exit | driver/sched.c:578-589 | a counted task exits with exactly one more sample |
| Monitor.Machine.Occur | driver/pmc.c:72-76 | an event is charged to the task counted on that CPU and to no other, and the CPU counts for that task's turn |
| Monitor.Machine.Do | driver/sched.c:220-627 | every step has its effect: who is on which CPU, what is queued, which task goes live, is saved, loses its timer or exits, and what a new one starts with |
| Monitor.Machine.Run | driver/sample.c:29-88 | in every run, for every task: the event sets in turn, and conservation of counts and of time exactly unless the task was registered running and without the exec option and has left its CPU or exited since, and such tasks come from exactly those registrations |
| Shortfalls.ListedWhileRunning | driver/sched.c:114-125 | a run in which such a task reports another's event and too much time |
| Shortfalls.StoppedElsewhere | driver/sched.c:240-247 | a run in which a task is counted for ten periods without a sample, and no tick to come |

## Left out

- Pipeline.Run: ends where the reader passes the head; what it decodes beyond is stale bytes that no writer framed. It takes a dropped EOF to get there.
- Pipeline.Fifo: for the same reason says nothing of what is printed after the head is passed.
- Reader.ReadOne: assumes a header whose record stays in its page, as every framed one does; beyond the head there may be others.
- Reader.DecodeLoop: assumes that the queue holds nr samples or an EOF, so not a final read after a dropped EOF.
- Reader.ReadSamples: assumes the same.
- Pipeline.Init: starts with one registered task and a fixed batch; `start_sampling` is the Idle, Reading and Done modes and not a loop of its own.
- Reader.TakeSample: printing is the sequence of samples returned.
- Hooks.Scheduler.CreateTask: setting the batch of the ring buffer, and a pid that names no process, are not modelled.
- Hooks.Scheduler.Register: a second root on the same ring buffer is excluded; each root has one of its own, as in the tool.
- Hooks.Scheduler.Unregister: unregistering a family that still has a writer is excluded; the tool waits for POLLHUP.
- Hooks.Scheduler.UnregisterRoot: likewise.
- Hooks.Scheduler.Exec: starting the counters is in Monitor, on the same hook; the two models agree on phases (Phases.Step), but are not one state.
- Hooks.Scheduler.Fork: allocation failure is not modelled, nor races on `lock_children`.
- Channel.HooksDrive: PMC samples written by timer ticks are not among the hooks; they too are written only by live tasks.
- Sampling.Task.TaskOut: the SCHED sample is not among the samples modelled.
- Counters.Cpu.Occur: counters are unbounded; overflow and its control register are not modelled.
- RAPL sampling, beyond its record size in the ring: three register reads and subtractions on a timer of its own.
- Event and event-set registries (`driver/event.c`, `driver/evset.c`): append-only arrays.
- Destroying the ring buffer at unmap, module load and unload, character-device setup.
- The tool's command line, printing formats, process launch and scripts.
