# Clock distributor: verified model

This project models the three parts of the clock distributor application whose behaviour
is decided by interleavings, long runs or bit arithmetic, and proves what they keep.

* **The message channels of `snmp.c` over the queue of `freeLockQ.c`.** The
  acknowledgement channel (receive thread, `pthread_snmp_send_ack`, one counting
  semaphore, no lock) and the trap channel (timer, `pthread_second_task`,
  `pthread_snmp_send`, a mutex semaphore and a counting semaphore) are transition systems
  in which threads interleave between single container and semaphore calls. A schedule is
  any sequence of turns, so every theorem about `Run(es)` is about every interleaving. The
  thread bodies are also written as programs and proved to make exactly those turns.
* **The role and register state machine of `main.c` over the accessors of `fpga_ctl.c`.**
  The loop body is a program over a register file, proved equal to a step function; runs
  interleave loop passes, role switches and GPS polls with arbitrary inputs.
* **The netmask validator**, whose two's-complement trick is proved to recognise prefix
  masks (prefix notation, section 3.1 of RFC 4632) at every word width.

## Findings

* On the trap channel the lock makes all the error paths dead except one: the sender's
  "Pop trap error" exit. On every schedule it is taken if and only if the sender once held
  the lock with the queue empty and has had three turns since (`TrapChannel.ExitIffEmptyGet`),
  and a sender left alone gets there if and only if there has ever been an eviction
  (`TrapChannel.DrainOutcome`). An eviction therefore costs more than one trap: the surplus
  token it leaves ends the sender the next time it catches up.
* "A sender that takes a token while the queue is empty terminates" is false of the
  acknowledgement sender, even when the queue wrappers are atomic: no lock joins its failed
  Get to the Pop that follows, so the receive thread can push in between. The Pop then
  succeeds, the thread lives on, and a message is removed unsent, so that one eviction can
  cost a second acknowledgement (`AckSurvival.BlindRemovalCanHappen`). What decides is
  whether a queue_push comes before the sender's next turn (`AckSurvival.NextTurnDecides`):
  if not, the thread ends (`AckSurvival.ExitIffBeaten`); if so, a message is lost
  (`AckSurvival.BlindIffRescued`, `AckSurvival.RescueLosesOne`). `AckSurvival.SenderEndsIff`
  gives every way the thread can end. With the receive thread standing still, the law of the
  trap sender holds (`AckChannel.DrainOutcome`).
* "The Pop after a successful Get always succeeds" is false of the acknowledgement channel
  when turns may fall inside `SN_Free_Lock_Queue_Push`: Push decides to evict on a length
  that is stale by the time it evicts. `AckRemoval.RemovalCanFail` builds a failing
  schedule, and `AckRemoval.RemovalFailsIffOvertaken` gives the exact condition: the only
  message is evicted while the sender holds its copy, and the sender reaches its own
  queue_empty or queue_pop before the receiver's queue_push. If the push comes first the
  Pop succeeds. `AckRemoval.UndisturbedIsSafe` proves the property for every schedule in
  which the sender does not run between the full check and the eviction; any schedule with
  atomic wrappers is one.
* The same stale length can lose an owed acknowledgement with no eviction at all: if the
  sender removes every queued message between a Push's full check and its queue_empty, the
  push is refused (`AckOverflow.RefusalCanHappen`); if it does so between queue_empty and
  queue_pop, the receive thread pops an empty queue (`AckOverflow.ReceiverCanFault`). A
  push fails in no other way (`AckOverflow.PushFailsIffSomeDrained`).
* So "without overflow" has to mean that no Push ever found the queue full. With the threads
  at rest, exactly the owed acknowledgements have been sent if and only if that holds
  (`AckOverflow.AllDeliveredIffNoOverflow`). Without any hypothesis, what is sent is always
  picked in order from what is owed (`AckChannel.DeliveredFromOwed`).

## Assumptions

* Single container, semaphore and `msgget` calls are atomic; `sem_wait` returns only when
  it has taken a token. The container is a sequence; `queue_front` on an empty one answers
  NULL, and `queue_pop` on an empty one is a fault of the caller.
* The acknowledgement sender's queue_front and the copy of the message it points to are one
  atomic step. The source copies through the pointer afterwards, without a lock; what such
  a copy would hold if the message were removed meanwhile is not part of this model.
* FPGA accessor calls do not overlap. The configuration register reads back what was
  written and has no other writer.
* `system(...)` is an emitted command that returns.
* The status words that one tick publishes, and the two that one GPS poll writes (the
  published lock word and the connection state), appear to other threads together; no trap
  is composed, and no role switch made, between two of them. Traps of different codes may be composed at different
  moments (`StatusTexts.LockTrapFollows`), but `StatusTexts.SourceTrapIsTrue` reads both of
  its words at one moment.
* The target has 32-bit `int`, `long` and pointers.

## Files

| file | contents |
|---|---|
| Sequences.dfy | strictly increasing index sequences, partitions, ordered selections |
| FreeLockQueue.dfy | the queue wrappers as a class, and the queue as a value |
| Dispatch.dfy | requests, the handler table, the acknowledgements owed |
| AckChannel.dfy | the acknowledgement channel: steps, invariants, delivery, survival |
| AckRemoval.dfy | when the removal after a successful Get can fail |
| AckSurvival.dfy | what a failed Get costs: the thread, or a message |
| AckOverflow.dfy | when a push fails, and what overflow costs |
| AckSchedules.dfy | schedules from which failing runs are built |
| AckThreads.dfy | the two acknowledgement threads as programs |
| TrapChannel.dfy | the trap channel: steps, invariants, delivery, survival |
| TrapThreads.dfy | the two trap threads as programs |
| FpgaBus.dfy | the register accessors and the time transfer loops |
| Clock.dfy | boot, loop body, role switch and GPS poll: specification and program |
| ClockRuns.dfy | what every run of the clock keeps |
| ClockTicks.dfy | one boot, pass, switch and poll in the numbers of the device; the GPS state and the PTP-valid bit of every run |
| StatusTexts.dfy | the trap texts and what they say about the run |
| Netmask.dfy | the netmask validator |

## Model

| member | source | states |
|---|---|---|
| FreeLockQueue.Queue.Push | clock_distribut_app/freeLockQ.c:101-160 | the message is appended with its cmd, length and first `length` bytes; the oldest is evicted exactly when the queue holds QUEUE_MAX_SIZE; the push succeeds |
| FreeLockQueue.Queue.Get | clock_distribut_app/freeLockQ.c:75-99 | fails exactly on an empty queue and leaves the buffer alone; otherwise the buffer is the message pushed at position pops + evictions, which stays queued |
| FreeLockQueue.Queue.Pop | clock_distribut_app/freeLockQ.c:161-171 | fails exactly on an empty queue; otherwise removes the front and nothing else |
| FreeLockQueue.Queue.Full | clock_distribut_app/freeLockQ.c:45-55 | 1 exactly at or above the limit, else 0 |
| FreeLockQueue.ContentsAreLatestPushes | clock_distribut_app/freeLockQ.c:101-171 | over any mix of calls the contents are a run of at most QUEUE_MAX_SIZE messages ending at the latest push |
| FreeLockQueue.PushOnlyKeepsNewest | clock_distribut_app/freeLockQ.c:117-130 | with no pops the queue holds min(pushes, QUEUE_MAX_SIZE) messages, so evictions begin only when it is full |
| Dispatch.Agent.constructor | clock_distribut_app/snmp.c:1395-1413 | the table has an entry for exactly the populated codes: the three writable ones, 0x04, 0x05 and 0x32 have handlers of their own kind, all others the query handler |
| Dispatch.Agent.HandleNetParameter | clock_distribut_app/snmp.c:283-444 | codes 0x01-0x03: exactly one message of type 0x8000 with the same code is offered for a GET (error 0) and for a SET (error -1 iff the setter failed), none otherwise |
| Dispatch.Agent.HandleQuery | clock_distribut_app/snmp.c:520-681 | the query handlers acknowledge a GET and nothing else, and return 0 in every case |
| Dispatch.Agent.HandleEquipmentType | clock_distribut_app/snmp.c:491-515 | 0x32 acknowledges a GET and fails otherwise |
| Dispatch.Agent.Receive | clock_distribut_app/snmp.c:836-844 | one received message: the trap flag rises on the first 0x1000 or 0x2000 and never falls, and exactly one answer is offered if the type and code call for one, none otherwise |
| Dispatch.Agent.ReceiveAll | clock_distribut_app/snmp.c:809-849 | for every sequence of populated requests the acknowledgements offered are the order-preserving filter and map AcksOf |
| Dispatch.AckForMeans | clock_distribut_app/snmp.c:1528-1571 | in literal codes: a GET is answered for 0x01-0x03, 0x32, 0x36, 0x60-0x66, a SET for 0x01-0x03, nothing else; the answer has type 0x8000, the request's code, and error -1 iff a SET's setter failed |
| Dispatch.AcksAnswerRequests | clock_distribut_app/snmp.c:1528-1571 | the i-th acknowledgement answers, in literal codes, a request that calls for one, and those before it are owed to the requests before that one |
| Dispatch.RequestsAreAnswered | clock_distribut_app/snmp.c:837-843 | every request that calls for an answer gets the acknowledgement next after those owed before it; every other request adds none |
| AckChannel.RunInv | clock_distribut_app/snmp.c:976-1025 | after every schedule: tokens plus owed post plus held token equal queue length plus evictions; the queue is a bounded run of the pushed messages; what is owed is pushed, refused or in hand; what was sent is picked from what was pushed |
| AckChannel.RequestsAreAccepted | clock_distribut_app/snmp.c:809-849 | the requests whose acknowledgements are owed are exactly those of the schedule that arrive while the receive thread waits for one, in order |
| AckChannel.DeliveredInOrder | clock_distribut_app/snmp.c:977-1022 | under every interleaving msgsnd is given pushed messages, with their contents, in strictly increasing push order, and between rounds what is missing below the front numbers evictions plus removals made without a copy |
| AckChannel.GapFreeIffNoEviction | clock_distribut_app/snmp.c:976-1025 | between rounds the deliveries are exactly 0, 1, 2, ... up to the front if and only if nothing was ever evicted |
| AckChannel.NoEvictionNoGap | clock_distribut_app/snmp.c:976-1025 | in any state, no eviction means no gap |
| AckChannel.DeliveredFromOwed | clock_distribut_app/snmp.c:837-843 | on every schedule, overflow or not, the acknowledgements handed to msgsnd are picked, unchanged, in order and none twice, from those the received requests are owed |
| AckChannel.OwedIsConserved | clock_distribut_app/snmp.c:976-1025 | between rounds, sent plus queued plus in hand are exactly the owed acknowledgements, in order, if and only if nothing was evicted or refused |
| AckChannel.SenderEndsOnlyAfterEviction | clock_distribut_app/snmp.c:982-986 | the sender ends, in whatever way, only on schedules with an eviction |
| AckChannel.SurplusNeverFalls | clock_distribut_app/snmp.c:1562-1568 | the surplus of tokens over messages never falls, whatever turns follow |
| AckChannel.LossesAddUp | clock_distribut_app/snmp.c:976-1025 | between rounds the owed acknowledgements that are neither sent, queued nor in hand number exactly the evictions plus the removals without a copy plus the refused pushes |
| AckChannel.DrainOutcome | clock_distribut_app/snmp.c:976-1025 | wherever the receive thread stands still, turns of the sender alone end it if and only if it has ended already or the evictions outnumber the token still owed; otherwise it comes to wait |
| AckChannel.LeftAlone | clock_distribut_app/snmp.c:976-1025 | after any schedule that leaves it waiting and the receive thread idle, turns of the sender alone send all that is queued in order, and exactly the owed acknowledgements have then been sent if and only if nothing was evicted or refused |
| AckRemoval.UndisturbedIsSafe | clock_distribut_app/freeLockQ.c:117-130 | if no sender turn falls between a Push's full check and its eviction, evictions happen only at full length, pushes never fail, and the Pop after a successful Get always succeeds |
| AckRemoval.RemovalFailsIffOvertaken | clock_distribut_app/snmp.c:1017-1022 | on every schedule the Pop after a successful Get fails if and only if an eviction takes the only message while the sender holds its copy and the sender reaches its queue_empty or queue_pop before the receiver has another turn |
| AckRemoval.RemovalCanFail | clock_distribut_app/snmp.c:990-1022 | there is a schedule on which the Pop after a successful Get fails |
| AckSurvival.NextTurnDecides | clock_distribut_app/snmp.c:977-988 | after a failed Get the sender's next turn ends the thread if no queue_push has come since, and otherwise leads to a removal |
| AckSurvival.ExitIffBeaten | clock_distribut_app/snmp.c:982-986 | on every schedule the sender has ended after a failed Get if and only if, after some failed Get, its next turn came before any queue_push |
| AckSurvival.SenderEndsIff | clock_distribut_app/snmp.c:976-1025 | on every schedule, whatever the receive thread does, the sender has ended if and only if it was beaten after a failed Get or overtaken after a successful one |
| AckSurvival.RunBlindLaw | clock_distribut_app/snmp.c:977-988 | on every schedule the Pop after a failed Get never calls queue_pop on an empty queue |
| AckSurvival.BlindIffRescued | clock_distribut_app/snmp.c:977-990 | on every schedule a message has been removed without a copy if and only if, after some failed Get, a queue_push came before the sender's next turn and the sender has had another turn since |
| AckSurvival.RescueLosesOne | clock_distribut_app/snmp.c:977-990 | the sender so rescued goes on, and the message it removes is never handed to msgsnd |
| AckSurvival.BlindRemovalCanHappen | clock_distribut_app/snmp.c:977-990 | there is a schedule with one eviction and no refused push on which more than one owed acknowledgement is lost and the sender waits on |
| AckOverflow.PushFailsIffDrained | clock_distribut_app/freeLockQ.c:117-130 | a Push that found the queue full is refused at its queue_empty, or faults at its queue_pop, if and only if the sender has by then removed QUEUE_MAX_SIZE messages since the full check |
| AckOverflow.PushFailsIffSomeDrained | clock_distribut_app/freeLockQ.c:117-130 | on every schedule a push has failed if and only if the sender removed every queued message between some Push's full check and its queue_empty or queue_pop |
| AckOverflow.OverflowSpills | clock_distribut_app/freeLockQ.c:117-130 | a Push has found the queue full if and only if a message was evicted or refused, or an eviction is under way or has faulted |
| AckOverflow.DeliveredIsPrefixOfOwed | clock_distribut_app/snmp.c:837-843 | at every moment, as long as no Push has found the queue full, the acknowledgements handed to msgsnd are a prefix of those owed, codes included |
| AckOverflow.AllDeliveredIffNoOverflow | clock_distribut_app/snmp.c:976-1025 | with the receive thread idle and the waiting sender left alone, exactly the owed acknowledgements have been sent if and only if no Push ever found the queue full |
| AckOverflow.RefusalCanHappen | clock_distribut_app/freeLockQ.c:117-130 | there is a schedule with no eviction on which an owed acknowledgement is lost |
| AckOverflow.ReceiverCanFault | clock_distribut_app/freeLockQ.c:117-130 | there is a schedule with no eviction on which the receive thread pops an empty queue |
| AckThreads.SettleIsOnePush | clock_distribut_app/snmp.c:1528-1548 | a request handled without interruption, by turns of the receive thread alone, is one drop-oldest push of the owed acknowledgement and one token |
| AckThreads.Threads.Handle | clock_distribut_app/snmp.c:1553-1571 | the push-and-post code ends in the state that turns of the receive thread reach |
| AckThreads.Threads.SendAcks | clock_distribut_app/snmp.c:953-1028 | the sender's loop makes exactly the turns of the channel, sends what was queued whether or not msgsnd fails, and returns early exactly after an eviction |
| TrapChannel.RunInv | clock_distribut_app/snmp.c:1577-1611 | after every schedule: the mutex is free or held by exactly one thread; `full` plus pushed-not-posted plus taken-not-removed equals queue length plus evictions; the queue is a bounded run of the pushed traps |
| TrapChannel.EveryTrapAccountedFor | clock_distribut_app/snmp.c:897-935 | traps reach msgsnd in push order with their contents, none twice; a trap below the front was handed on exactly when it was not evicted |
| TrapChannel.GapFreeIffNoEviction | clock_distribut_app/snmp.c:897-935 | the taken traps are 0, 1, 2, ... up to the front if and only if none was ever evicted |
| TrapChannel.CodesCycle | clock_distribut_app/snmp.c:1310-1315 | the n-th trap pushed is the message of type 0xA000, code 0x70 + n mod 6, error 0, and the queue and the traps handed to msgsnd keep that cyclic order after evictions |
| TrapChannel.PushesAreGated | clock_distribut_app/snmp.c:1295-1316 | counted over the schedule: the flag is up iff a 0x1000 or 0x2000 has come; no trap before that; at most six for each timer signal; and once all signals are handled exactly six for each that was not looked at before that |
| TrapChannel.EveryTimerPushesSix | clock_distribut_app/snmp.c:1303-1316 | if the schedule begins with a GET or SET, then once the task waits with no signal pending, exactly six traps have been pushed for each timer signal |
| TrapChannel.OnlyEvictionEndsSender | clock_distribut_app/snmp.c:900-914 | the error exit is taken only after an eviction; a failed push, a Pop that succeeds after a failed Get and a pop of an empty queue never happen |
| TrapChannel.ExitIffEmptyGet | clock_distribut_app/snmp.c:897-914 | on every schedule, whatever the producer does, the sender has taken the error exit if and only if it once held the lock with the queue empty and has had three turns since |
| TrapChannel.ExitIffQueueMissing | clock_distribut_app/snmp.c:890-896 | the sender ends for want of the message queue iff one of its msgget calls failed |
| TrapChannel.SurplusNeverFalls | clock_distribut_app/snmp.c:1606-1607 | tokens minus messages is the number of evictions and never falls |
| TrapChannel.DrainOutcome | clock_distribut_app/snmp.c:887-947 | with the producer quiet, a sender left alone takes the error exit if and only if there has ever been an eviction; otherwise it waits on an empty queue |
| TrapChannel.DrainDeliversTheRest | clock_distribut_app/snmp.c:887-947 | the messages such a sender has sent in the end are every pushed trap that was not evicted, with their contents, in push order |
| TrapThreads.Threads.SnmpDataTrap | clock_distribut_app/snmp.c:1577-1611 | one drop-oldest push of the message of type 0xA000, code 0x70 + c, error 0; the lock restored, one token posted, in exactly the turns of the channel |
| TrapThreads.Threads.SecondTask | clock_distribut_app/snmp.c:1287-1326 | consumes every pending timer signal, pushing six traps for each when the flag is set and none otherwise |
| TrapThreads.Threads.SendTraps | clock_distribut_app/snmp.c:856-950 | the sender's loop makes exactly the turns of the channel, sends what was queued, and returns early exactly after an eviction |
| FpgaBus.Bus.WriteConfig | clock_distribut_app/fpga_ctl.c:111-116 | register 0x02 takes the value, every other register is unchanged |
| FpgaBus.Bus.RdwrConfig | clock_distribut_app/fpga_ctl.c:32-41 | sets bits of register 0x02 and clears none |
| FpgaBus.Bus.WriteTimes | clock_distribut_app/main.c:185-186 | registers 0x0A-0x0F equal the buffer, all others are unchanged |
| FpgaBus.Bus.ReadTimes | clock_distribut_app/main.c:188-189 | the buffer equals the six device time registers, no other register changes |
| Clock.ClockNode.constructor | clock_distribut_app/main.c:416-440 | boot sets both roles and the published mode from the configuration and the CLK_SLAVE bit to "configured as slave" |
| Clock.ClockNode.PollGps | clock_distribut_app/main.c:139-155 | one GPS poll: bit 7 of register 0x1C is published as the lock and sets the connection state, 0 if set and 1 if clear |
| Clock.ClockNode.SendSystemTime | clock_distribut_app/main.c:160-197 | the PTP time goes to the device; the one-shot flag rises on a reading of 09:00:00 and is otherwise kept |
| Clock.ClockNode.Work | clock_distribut_app/main.c:214-330 | the loop body up to its switch, statement by statement over the register file, equals the step function Tick |
| Clock.ClockNode.SwitchRole | clock_distribut_app/main.c:332-355 | the switch statement equals the step function Switch |
| ClockTicks.PassValues | clock_distribut_app/main.c:246-327 | what every pass does to the register, its cached copy, the published words, the counter, the accounts and the commands, by role (1, 2) and carrier byte (49, 48), in literal bits and counts |
| ClockTicks.PassSenses | clock_distribut_app/main.c:216-244 | every pass publishes the work status and the carrier byte it read, and leaves the GPS state alone |
| ClockTicks.PassSetsTime | clock_distribut_app/main.c:160-186 | a triggered tick with carrier in either role sets the six PTP time registers, each to its field, years counted from 2000; other passes leave them |
| ClockTicks.BootValues | clock_distribut_app/main.c:416-440 | boot sets or clears bit 11 by the configured type and no other bit; every other variable starts from nothing |
| ClockTicks.SwitchValues | clock_distribut_app/main.c:332-355 | a switch changes the role, starts ntpd and selects GPS (bit 15 cleared, bit 14 set, no other bit) exactly as the roles and the GPS state say |
| ClockTicks.GpsFollowsLastPoll | clock_distribut_app/main.c:139-155 | in every run of a master-configured machine the connection state and the published lock are bit 7 of the status polled last |
| ClockTicks.MasterFollowsLastPoll | clock_distribut_app/main.c:332-355 | so after every such run the next switch leaves it master iff the last poll had bit 7 set |
| ClockTicks.ValidBitFollows | clock_distribut_app/main.c:250-310 | bit 13 of the register: clear from a lost-carrier tick until a later tick writes a source or restarts the run light, set from such a tick until a lost-carrier tick, and as found if there was neither |
| ClockRuns.RunLaws | clock_distribut_app/main.c:214-357 | all the run laws hold after every run from every boot |
| ClockRuns.MasterFollowsGps | clock_distribut_app/main.c:332-355 | in every run the next switch leaves a master-configured machine as master iff GPS is connected then |
| ClockRuns.FailoversAlternate | clock_distribut_app/main.c:332-355 | in every run of a master-configured machine recoveries <= failovers <= recoveries + 1, level exactly while it is master |
| ClockRuns.OthersNeverMaster | clock_distribut_app/main.c:416-464 | the configured type and the published mode never change; a machine not configured as master is never master, never leaves GPS-unconnected and never starts ntpd |
| ClockRuns.MasterSourceClear | clock_distribut_app/main.c:252-310 | after every run from every boot a master's PTP-source bit is clear iff the register found at boot had it clear or a recovery has happened |
| ClockRuns.SlaveSourceStays | clock_distribut_app/main.c:257-285 | on a slave-configured machine bits 15:14, once both set, stay set for ever |
| ClockRuns.SlaveBitAsConfigured | clock_distribut_app/main.c:436-440 | in every run the CLK_SLAVE bit equals "configured as slave" |
| ClockRuns.RunLightLatches | clock_distribut_app/main.c:257-316 | from any state after an OMAP_RUN_LED write, bit 12 stays clear in the register, the cached copy and the published word for ever |
| ClockRuns.CounterSyncsBounded | clock_distribut_app/main.c:286-304 | at most two counter-driven synchronisations short of a wrap, whatever the roles; with master ticks only, exactly at triggers 60 and 3660, and the counter has its closed form |
| ClockRuns.CounterStaysHigh | clock_distribut_app/main.c:303-304 | a counter that has reached 3700 stays there or above until it wraps |
| ClockRuns.RebootsArePaidFor | clock_distribut_app/main.c:269-285 | net_flag is up iff lost ticks accumulated; three lost-carrier ticks per reboot plus net_count never exceed the lost-carrier ticks |
| ClockRuns.RebootsWhenDue | clock_distribut_app/main.c:269-275 | short of 2^32 lost ticks an event reboots iff it is a slave tick with carrier and three have accumulated |
| ClockRuns.ReadingsAreConsumedOnce | clock_distribut_app/main.c:193-194 | flag-driven synchronisations plus the raised flag never exceed the 09:00:00 readings; the flag is up iff a slave's reading is still held |
| ClockRuns.HeldUntilMasterTick | clock_distribut_app/main.c:318-322 | a held reading survives every event but a master tick with carrier, which consumes it with exactly one synchronisation |
| StatusTexts.SourceTrapIsTrue | clock_distribut_app/snmp.c:1219-1222 | in every run the source trap never names RS422 and names PTP iff a slave published last; a lock trap composed at the same moment then says "Lock" |
| StatusTexts.LockTrapFollows | clock_distribut_app/snmp.c:1235-1241 | once the source trap has named PTP, every later lock trap says "Lock" until a master tick with carrier publishes |
| StatusTexts.SourceText | clock_distribut_app/snmp.c:1219-1222 | the source trap's text by bits 15:14 of the published word, in literal texts |
| StatusTexts.TextsByWord | clock_distribut_app/snmp.c:1226-1275 | the text of every other trap and of the work mode by the published word it is looked up from, in literal texts |
| StatusTexts.OtherTextsAreTrue | clock_distribut_app/snmp.c:1226-1275 | in every run: the GPS trap says "Lock" iff a master-configured machine polled bit 7 last; the FPGA trap names the work status read last; the net trap says "Connected" iff the carrier byte read last is 49; the run trap says "Run" after the first OMAP_RUN_LED write; the work mode is the configured one |
| Netmask.ClearLowestBit | clock_distribut_app/snmp.c:1114 | at every width x & (x-1) is 0 iff the positive x is a power of two |
| Netmask.PrefixMaskValue | clock_distribut_app/snmp.c:1101-1105 | p leading ones in w bits is the value 2^w - 2^(w-p), both ways |
| Netmask.TrickIsPrefixTest | clock_distribut_app/snmp.c:1113-1115 | at every width the bit trick accepts exactly the contiguous prefix masks, all-zeros and all-ones included |
| Netmask.IsValidNetmask | clock_distribut_app/snmp.c:1106-1119 | the packing loop and the trick accept exactly addresses whose packed word is a prefix mask |
| Netmask.PositionalBytes | clock_distribut_app/snmp.c:1108-1112 | for octets the packed word has the first octet as its top byte, then the second, the third and the fourth |
| Netmask.OctetMasks | clock_distribut_app/snmp.c:1108-1112 | octets cannot overflow the packing, and the accepted values are 2^32 - 2^k, k = 0..32 |
| Netmask.SetNetmask | clock_distribut_app/snmp.c:1124-1133 | an invalid mask gives -1, a valid one gives the interface's answer |

## Left out

- IsValidNetmask: starts from the numbers sscanf stored; text with fewer than four of them, and inet_aton itself, are not modelled.
- Work: the printed messages, the LED and the time strings are not modelled.
- Receive: requires a populated operation code; the table's empty entries and codes outside it are not modelled.
- TrapText: the address text of a trap and what becomes of the texts in the queued bytes are not modelled.
- The network configuration calls behind the setters; their results are inputs.
- Overlapping FPGA accessor calls on the shared message structure; accessor calls are serialised.
- The message queues of the operating system beyond the success or failure of a call.
- `snmp_data_deal`, which nothing calls, and the shutdown handler.
