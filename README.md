# Causal delivery with vector and matrix clocks — a verified model

The repository contains four small simulations of causal message delivery
between three processes P1, P2 and P3: `SES.py`, `BSS.py`, `matrix_clock.py`
and `DistributedApp.py`. Each one re-implements the same engine under its
Tkinter drawing code. A process holds a logical clock, the list of delivered
message ids and a buffer of pending messages. The engine does four things:

- **Send**: tick the sender's own counter and tag the message with a copy of the clock.
- **Test**: decide whether a received message is deliverable now.
- **Deliver**: update the receiver's clock and record the id.
- **Drain**: re-scan the buffer until nothing more can be delivered.

The four files differ in the clock and in two details:

| file | clock | on delivery | drain after a send |
|---|---|---|---|
| `SES.py` | vector | entry-wise max with the tag, then the receiver's own entry +1 | no |
| `BSS.py` | vector | only the sender's entry is copied from the tag | yes |
| `matrix_clock.py` | matrix | entry-wise max of the whole table, then the receiver's diagonal +1 | no |
| `DistributedApp.py` | matrix (messages also carry chat text) | as `matrix_clock.py` | yes |

The model has one Dafny module per source file (`Ses`, `Bss`, `MatrixClock`,
`DistributedApp`), each followed by a scenario module that replays the
file's scripted opening. Shared modules:

- `Clocks`: vectors, matrices, their order, merge and tick, and the two deliverability tests.
- `Engine`: the receive status and Python's `list.remove`.

Each source file's imperative code becomes a `Process` class and a
`Simulation` class. The fields and loops are as in the source. Every method is
proved against a pure function on the per-process state `PState`:
`ApplyDelivery`, `Drained`, `Received`, `Sent`. The properties of the engine
are lemmas about those functions.

Two further modules relate the engines to each other:

- `MatrixDiagonal`: the diagonal of a `matrix_clock.py` process evolves exactly like an `SES.py` vector clock. Both make the same delivery decisions in the same order.
- `ChatAsMatrixClock`: with the chat text dropped, `DistributedApp.py` is `matrix_clock.py` plus a drain after every send.

Three behaviours of the code are kept as written:

- The buffer is a list that is appended to without a duplicate check. A message received again after its delivery is appended to the buffer. It is not ignored.
- Only `BSS.py` and `DistributedApp.py` drain the sender's buffer after a send.
- One pass of the drain delivers only the first deliverable message, then starts the scan over.

## Model

| member | source | states |
|---|---|---|
| Clocks.ZeroVec | SES.py:55 | every entry of the starting vector clock is 0 |
| Clocks.MaxVec | SES.py:96-97 | the entry-wise max dominates both clocks and is the least clock that does |
| Clocks.Tick | SES.py:238 | a tick raises the ticked entry by exactly 1, leaves every other entry alone, and lowers nothing |
| Clocks.Deliverable | SES.py:30-45 | the vector test: next event of the sender, nothing unseen from anyone else; a message that passes it raises exactly the sender's entry by one when merged |
| Clocks.SeenNotDeliverable | SES.py:40 | once the receiver's entry for the sender has reached the tag's, the vector test fails |
| Clocks.InitialMatrix | matrix_clock.py:12-22 | initial_matrix is the N x N table of zeros |
| Clocks.MaxMat | matrix_clock.py:118-120 | the entry-wise max of two matrices dominates both and is the least matrix that does |
| Clocks.TickDiag | matrix_clock.py:258 | a diagonal tick raises entry (p,p) by exactly 1 and leaves every other entry alone |
| Clocks.MatDeliverableIsDiagonalTest | matrix_clock.py:47-63 | the matrix test is the vector test applied to the two diagonals |
| Clocks.MatDeliverableIgnoresOffDiagonal | matrix_clock.py:47-63 | two pairs of matrices with the same diagonals get the same answer from the test |
| Clocks.MatDeliverable | matrix_clock.py:47-63 | the matrix test on diagonals; a snapshot that passes it advances the merged diagonal by exactly the sender's one event |
| Clocks.MatSeenNotDeliverable | matrix_clock.py:56 | once the receiver's diagonal entry for the sender has reached the snapshot's, the test fails |
| Engine.RemoveFirst | SES.py:125 | list.remove drops exactly one occurrence: length one less, multiset minus that element |
| Engine.MultisetWithout | SES.py:125 | cutting one index out of a list removes exactly that element, as a multiset |
| Engine.RemoveFirstAt | SES.py:123-125 | removing a value whose first occurrence is at index j is cutting index j out |
| Ses.IsDeliverable | SES.py:30-45 | the early-exit loop answers True iff tag[sender] = VC[sender]+1 and tag[k] <= VC[k] for every other k |
| Ses.Initial | SES.py:51-57 | a new process has a zero clock, no history and an empty buffer |
| Ses.MergeOnDeliver | SES.py:96-99 | the merged clock dominates both the old clock and the tag; the receiver's entry strictly exceeds both; other entries come from one of the two |
| Ses.FirstReady | SES.py:122-126 | the scan returns the earliest buffered message that passes the test, or the buffer length if none does |
| Ses.ApplyDelivery | SES.py:77-99 | delivery appends the id and leaves the buffer alone; the new clock dominates the old clock and the tag, and the receiver's own entry strictly increases |
| Ses.Drained | SES.py:115-129 | the drain never grows the buffer, and every message it takes out of the buffer lands in the history: buffer plus history keep their total length |
| Ses.Received | SES.py:131-143 | the received message ends up in exactly one of buffer or history (their total length grows by one), and the history grows iff the message passes the test |
| Ses.Sent | SES.py:234-242 | a send raises the sender's own entry by exactly 1, changes no other entry, and leaves history and buffer alone (no drain follows) |
| Ses.ScanStopsAtFirstReady | SES.py:122-125 | the message where the scan breaks is the earliest deliverable one, and no earlier buffered message equals it |
| Ses.DrainedIsFixedPoint | SES.py:115-129 | when the drain ends, no buffered message passes the test |
| Ses.DrainedMonotone | SES.py:115-129 | the drain lowers no clock entry |
| Ses.DrainedExtendsHistory | SES.py:115-129 | the drain appends to the history exactly the ids of the messages it delivered, in delivery order |
| Ses.DrainedConserves | SES.py:115-129 | each buffered copy is either still buffered or delivered by the drain, and no copy is counted twice (buffer after plus delivered equals buffer before, as multisets) |
| Ses.StepMonotone | SES.py:131-143 | one send or receive lowers no clock entry and only appends to the history |
| Ses.RunMonotone | SES.py:228-267 | over any sequence of sends and receives, no clock entry decreases and the history only grows |
| Ses.SeenNotDrained | SES.py:115-129 | once the receiver's entry for the sender has reached the tag's, the drain never delivers that message, and the entry stays reached |
| Ses.DrainedDeliversOnce | SES.py:115-129 | one drain delivers no message twice, even when the buffer holds several copies of it |
| Ses.SeenStep | SES.py:228-269 | once the receiver's entry for the sender has reached the tag's, no send or receive delivers that message, and the entry stays reached |
| Ses.SeenRun | SES.py:228-269 | once the receiver's entry for the sender has reached the tag's, it stays so over any sequence of sends and receives |
| Ses.DeliveredAtMostOnce | SES.py:131-143 | a receive that delivers m delivers it once (a buffered copy stays buffered through the drain that follows); afterwards no step ever delivers m again and receiving it again only buffers it |
| Ses.DrainedSeen | SES.py:115-129 | a message the drain delivers is seen when the drain ends |
| Ses.StepSeen | SES.py:228-269 | a message any step delivers, on receipt or released from the buffer, is seen after that step |
| Ses.StepDeliversOnce | SES.py:228-269 | one send or receive step delivers no message twice |
| Ses.DeliveredNeverAgain | SES.py:228-269 | once any step has delivered m, on receipt or by a drain, no later step delivers m again and receiving it again only buffers it |
| Ses.ReceivedConserves | SES.py:131-143 | a receive only moves messages: old buffer plus the received message equals new buffer plus what it delivered, and the history grows by exactly the delivered ids, in order |
| Ses.Process.constructor | SES.py:51-57 | a new process is in the initial state |
| Ses.Process.DeliverMessage | SES.py:77-99 | the per-entry max loop and the own-entry tick give the merged clock; the id is appended |
| Ses.Process.ScanPending | SES.py:122-129 | one pass over a copy of the buffer finds the same index as FirstReady |
| Ses.Process.TryDeliverPending | SES.py:115-129 | the flag-driven loop ends in the state of the pure drain |
| Ses.Process.ReceiveMessage | SES.py:131-143 | deliverable: delivered then drained; otherwise appended to the buffer with the clock and history unchanged |
| Ses.NewProcesses | SES.py:168 | one fresh initial process per name, in order |
| Ses.Simulation.constructor | SES.py:168-170 | three initial processes and an empty message table |
| Ses.Simulation.StepSend | SES.py:234-242 | only the sender's own entry ticks, by 1; the tag equals the new clock; the message is stored under its id; no drain |
| Ses.Simulation.StepReceive | SES.py:259-265 | an unknown id changes nothing and reports an error; otherwise the process receives; other processes are untouched |
| Ses.Simulation.Reset | SES.py:271-283 | fresh initial processes and an empty message table |
| SesScenario.M1BufferedAtP2 | SES.py:185-186 | m1 = [2,0,0] reaching P2 first is buffered |
| SesScenario.M0ReleasesM1AtP2 | SES.py:187-188 | m0 = [1,0,0] gives P2 [1,1,0]; the drain then delivers m1, giving [2,2,0] |
| SesScenario.DrainReleasesM1 | SES.py:187-188 | the drain after m0 delivers the buffered m1 and empties the buffer |
| SesScenario.DuplicateM1KeptAtP2 | SES.py:131-143 | m1 received twice before m0 is buffered twice; when m0 arrives the drain delivers one copy of m1 and keeps the other |
| SesScenario.OutOfOrderDelivery | SES.py:181-188 | the scripted opening through the simulation: Buffered then Delivered; P2 ends at [2,2,0] with m0, m1 delivered |
| Bss.IsDeliverable | BSS.py:123-137 | the early-exit loop answers True iff tag[sender] = VC[sender]+1 and tag[k] <= VC[k] for every other k |
| Bss.Initial | BSS.py:26-32 | a new process has a zero clock, no history and an empty buffer |
| Bss.AdoptSenderEntry | BSS.py:67 | delivery sets the sender's entry to the tag's and changes no other entry |
| Bss.AdoptOnReady | BSS.py:63-67 | on a message that passed the test, the update raises the sender's entry by exactly 1 and equals a full merge with the tag |
| Bss.FirstReady | BSS.py:102-104 | the scan returns the earliest buffered message that passes the test, or the buffer length if none does |
| Bss.ApplyDelivery | BSS.py:56-67 | delivery appends the id, sets the sender's entry to the tag's and leaves every other entry and the buffer alone |
| Bss.Drained | BSS.py:94-108 | the drain never grows the buffer, and every message it takes out of the buffer lands in the history: buffer plus history keep their total length |
| Bss.Received | BSS.py:110-121 | the received message ends up in exactly one of buffer or history (their total length grows by one), and the history grows iff the message passes the test |
| Bss.Sent | BSS.py:240-266 | a send followed by its drain keeps the total length of buffer plus history (contents, order and the tick: see SentConserves) |
| Bss.ScanStopsAtFirstReady | BSS.py:102-104 | the message where the scan breaks is the earliest deliverable one, and no earlier buffered message equals it |
| Bss.DrainedIsFixedPoint | BSS.py:94-108 | when the drain ends, no buffered message passes the test |
| Bss.DrainedMonotone | BSS.py:94-108 | the drain lowers no clock entry, because it delivers only messages that pass the test |
| Bss.DrainedExtendsHistory | BSS.py:94-108 | the drain appends to the history exactly the ids of the messages it delivered, in delivery order |
| Bss.DrainedConserves | BSS.py:99-108 | each buffered copy is either still buffered or delivered by the drain, and no copy is counted twice (buffer after plus delivered equals buffer before, as multisets) |
| Bss.ReceivedConserves | BSS.py:110-121 | a receive only moves messages: old buffer plus the received message equals new buffer plus what it delivered, and the history grows by exactly the delivered ids, in order |
| Bss.StepMonotone | BSS.py:110-121 | one send (with its drain) or receive lowers no clock entry and only appends to the history |
| Bss.RunMonotone | BSS.py:234-276 | over any sequence of sends and receives, no clock entry decreases and the history only grows |
| Bss.SeenNotDrained | BSS.py:94-108 | once the receiver's entry for the sender has reached the tag's, the drain never delivers that message, and the entry stays reached |
| Bss.DrainedDeliversOnce | BSS.py:94-108 | one drain delivers no message twice, even when the buffer holds several copies of it |
| Bss.SeenStep | BSS.py:234-278 | once the receiver's entry for the sender has reached the tag's, no send or receive delivers that message, and the entry stays reached |
| Bss.SeenRun | BSS.py:234-278 | once the receiver's entry for the sender has reached the tag's, it stays so over any sequence of sends and receives |
| Bss.DeliveredAtMostOnce | BSS.py:110-121 | a receive that delivers m delivers it once (a buffered copy stays buffered through the drain that follows); afterwards no step ever delivers m again and receiving it again only buffers it |
| Bss.DrainedSeen | BSS.py:94-108 | a message the drain delivers is seen when the drain ends |
| Bss.StepSeen | BSS.py:234-278 | a message any step delivers, on receipt or released from the buffer, is seen after that step |
| Bss.StepDeliversOnce | BSS.py:234-278 | one send or receive step delivers no message twice |
| Bss.DeliveredNeverAgain | BSS.py:234-278 | once any step has delivered m, on receipt or by a drain, no later step delivers m again and receiving it again only buffers it |
| Bss.SentConserves | BSS.py:240-266 | after a send the clock dominates the ticked clock, and its drain only moves messages: old buffer equals new buffer plus the delivered messages, and the history grows by their ids, in order |
| Bss.Process.constructor | BSS.py:26-32 | a new process is in the initial state |
| Bss.Process.DeliverMessage | BSS.py:56-67 | the id is appended and only the sender's entry is copied from the tag |
| Bss.Process.ScanPending | BSS.py:102-108 | one pass over a copy of the buffer finds the same index as FirstReady |
| Bss.Process.TryDeliverPending | BSS.py:94-108 | the flag-driven loop ends in the state of the pure drain |
| Bss.Process.ReceiveMessage | BSS.py:110-121 | deliverable: delivered then drained; otherwise appended to the buffer with the clock and history unchanged |
| Bss.NewProcesses | BSS.py:168 | one fresh initial process per name, in order |
| Bss.Simulation.constructor | BSS.py:168-172 | three initial processes and an empty message table |
| Bss.Simulation.StepSend | BSS.py:240-266 | only the sender's own entry ticks, by 1; the tag is the new clock; the message is stored; the sender's buffer is then drained |
| Bss.Simulation.StepReceive | BSS.py:268-274 | an unknown id changes nothing and reports an error; otherwise the process receives; other processes are untouched |
| Bss.Simulation.Reset | BSS.py:280-294 | fresh initial processes and an empty message table |
| BssScenario.P1SendsTwice | BSS.py:183-186 | P1's sends give tags [1,0,0] and [2,0,0], and its drains find nothing |
| BssScenario.M1BufferedAtP2 | BSS.py:187-188 | m1 = [2,0,0] reaching P2 first is buffered |
| BssScenario.M0ReleasesM1AtP2 | BSS.py:189-190 | m0 gives P2 the clock [1,0,0]; the drain then delivers m1, giving [2,0,0] |
| BssScenario.DrainReleasesM1 | BSS.py:189-190 | the drain after m0 delivers the buffered m1 and empties the buffer |
| BssScenario.DuplicateM1KeptAtP2 | BSS.py:110-121 | m1 received twice before m0 is buffered twice; when m0 arrives the drain delivers one copy of m1 and keeps the other |
| BssScenario.OutOfOrderDelivery | BSS.py:183-190 | the scripted opening through the simulation: Buffered then Delivered; P2 ends at [2,0,0] with m0, m1 delivered |
| MatrixClock.IsDeliverable | matrix_clock.py:47-63 | the sender's diagonal check, then the loop over the other diagonals, answers True iff the diagonal test holds |
| MatrixClock.Initial | matrix_clock.py:69-76 | a new process has the all-zero matrix, no history and an empty buffer |
| MatrixClock.MergeOnDeliver | matrix_clock.py:118-122 | the merged matrix dominates the old matrix and the snapshot; the receiver's diagonal entry strictly exceeds both; other entries come from one of the two |
| MatrixClock.FirstReady | matrix_clock.py:146-148 | the scan returns the earliest buffered message that passes the diagonal test, or the buffer length if none does |
| MatrixClock.ApplyDelivery | matrix_clock.py:99-122 | delivery appends the id and leaves the buffer alone; the new matrix dominates the old matrix and the snapshot, and the receiver's diagonal entry strictly increases |
| MatrixClock.Drained | matrix_clock.py:138-152 | the drain never grows the buffer, and every message it takes out of the buffer lands in the history: buffer plus history keep their total length |
| MatrixClock.Received | matrix_clock.py:154-165 | the received message ends up in exactly one of buffer or history (their total length grows by one), and the history grows iff the message passes the diagonal test |
| MatrixClock.Sent | matrix_clock.py:254-262 | a send raises the sender's diagonal entry by exactly 1, changes no other entry, and leaves history and buffer alone (no drain follows) |
| MatrixClock.ScanStopsAtFirstReady | matrix_clock.py:146-148 | the message where the scan breaks is the earliest deliverable one, and no earlier buffered message equals it |
| MatrixClock.DrainedIsFixedPoint | matrix_clock.py:138-152 | when the drain ends, no buffered message passes the diagonal test |
| MatrixClock.DrainedMonotone | matrix_clock.py:138-152 | the drain lowers no matrix entry |
| MatrixClock.DrainedExtendsHistory | matrix_clock.py:138-152 | the drain appends to the history exactly the ids of the messages it delivered, in delivery order |
| MatrixClock.DrainedConserves | matrix_clock.py:138-152 | each buffered copy is either still buffered or delivered by the drain, and no copy is counted twice (buffer after plus delivered equals buffer before, as multisets) |
| MatrixClock.StepMonotone | matrix_clock.py:154-165 | one send or receive lowers no matrix entry and only appends to the history |
| MatrixClock.RunMonotone | matrix_clock.py:249-286 | over any sequence of sends and receives, no matrix entry decreases and the history only grows |
| MatrixClock.SeenNotDrained | matrix_clock.py:138-152 | once the receiver's diagonal entry for the sender has reached the snapshot's, the drain never delivers that message, and the entry stays reached |
| MatrixClock.DrainedDeliversOnce | matrix_clock.py:138-152 | one drain delivers no message twice, even when the buffer holds several copies of it |
| MatrixClock.SeenStep | matrix_clock.py:249-288 | once the receiver's diagonal entry for the sender has reached the snapshot's, no send or receive delivers that message, and the entry stays reached |
| MatrixClock.SeenRun | matrix_clock.py:249-288 | once the receiver's diagonal entry for the sender has reached the snapshot's, it stays so over any sequence of sends and receives |
| MatrixClock.DeliveredAtMostOnce | matrix_clock.py:154-165 | a receive that delivers m delivers it once (a buffered copy stays buffered through the drain that follows); afterwards no step ever delivers m again and receiving it again only buffers it |
| MatrixClock.DrainedSeen | matrix_clock.py:138-152 | a message the drain delivers is seen when the drain ends |
| MatrixClock.StepSeen | matrix_clock.py:249-288 | a message any step delivers, on receipt or released from the buffer, is seen after that step |
| MatrixClock.StepDeliversOnce | matrix_clock.py:249-288 | one send or receive step delivers no message twice |
| MatrixClock.DeliveredNeverAgain | matrix_clock.py:249-288 | once any step has delivered m, on receipt or by a drain, no later step delivers m again and receiving it again only buffers it |
| MatrixClock.ReceivedConserves | matrix_clock.py:154-165 | a receive only moves messages: old buffer plus the received message equals new buffer plus what it delivered, and the history grows by exactly the delivered ids, in order |
| MatrixClock.Process.constructor | matrix_clock.py:69-76 | a new process is in the initial state |
| MatrixClock.Process.DeliverMessage | matrix_clock.py:99-122 | the nested max loops and the diagonal tick give the merged matrix; the id is appended |
| MatrixClock.Process.ScanPending | matrix_clock.py:146-152 | one pass over a copy of the buffer finds the same index as FirstReady |
| MatrixClock.Process.TryDeliverPending | matrix_clock.py:138-152 | the flag-driven loop ends in the state of the pure drain |
| MatrixClock.Process.ReceiveMessage | matrix_clock.py:154-165 | deliverable: delivered then drained; otherwise appended to the buffer with the matrix and history unchanged |
| MatrixClock.NewProcesses | matrix_clock.py:192 | one fresh initial process per name, in order |
| MatrixClock.Simulation.constructor | matrix_clock.py:192-193 | three initial processes and an empty message table |
| MatrixClock.Simulation.StepSend | matrix_clock.py:254-262 | only the sender's diagonal entry ticks; the snapshot equals the new matrix; the message is stored; no drain |
| MatrixClock.Simulation.StepReceive | matrix_clock.py:278-284 | an unknown id changes nothing and reports an error; otherwise the process receives; other processes are untouched |
| MatrixClock.Simulation.Reset | matrix_clock.py:290-301 | fresh initial processes and an empty message table |
| MatrixClockScenario.P1SendsTwice | matrix_clock.py:203-206 | P1's two sends snapshot its row as [1,0,0], then [2,0,0] |
| MatrixClockScenario.M1BufferedAtP2 | matrix_clock.py:207-208 | m1 reaching P2 first is buffered: its diagonal entry 2 is not the next |
| MatrixClockScenario.M0ReleasesM1AtP2 | matrix_clock.py:209-210 | m0 gives P2 rows [1,0,0],[0,1,0],[0,0,0]; the drain then delivers m1, giving [2,0,0],[0,2,0],[0,0,0] |
| MatrixClockScenario.DrainReleasesM1 | matrix_clock.py:209-210 | the drain after m0 delivers the buffered m1 and empties the buffer |
| MatrixClockScenario.OutOfOrderDelivery | matrix_clock.py:203-210 | the scripted opening through the simulation: Buffered then Delivered, with the final matrix of P2 |
| MatrixDiagonal.InitialProjects | matrix_clock.py:12-22 | both engines start from the same projected state |
| MatrixDiagonal.ReadyProjects | matrix_clock.py:47-63 | the matrix test accepts a message iff the vector test accepts its projection |
| MatrixDiagonal.MergeProjects | matrix_clock.py:118-122 | the diagonal of the matrix merge-and-tick is the vector merge-and-tick of the diagonals |
| MatrixDiagonal.SentProjects | matrix_clock.py:258 | a matrix send projects to a vector send |
| MatrixDiagonal.ApplyDeliveryProjects | matrix_clock.py:99-122 | a matrix delivery projects to the vector delivery of the projected message |
| MatrixDiagonal.FirstReadyProjects | matrix_clock.py:146-148 | both scans stop at the same index |
| MatrixDiagonal.DrainStepProjects | matrix_clock.py:146-152 | one pass of the matrix drain projects to one pass of the vector drain |
| MatrixDiagonal.DrainedProjects | matrix_clock.py:138-152 | the two drains deliver the same messages in the same order and leave the same buffer |
| MatrixDiagonal.ReceivedProjects | matrix_clock.py:154-165 | a matrix receive projects to a vector receive |
| MatrixDiagonal.RunProjects | matrix_clock.py:249-286 | over any sequence of operations, the projected matrix process is the vector process fed the projected operations |
| MatrixDiagonal.SameDeliveriesAsSes | matrix_clock.py:47-63 | from the initial state, a matrix process delivers exactly the ids a full-merge vector process delivers, in the same order, and its diagonal is that clock |
| DistributedApp.IsDeliverable | DistributedApp.py:42-51 | the sender's diagonal check, then the loop over the other diagonals, answers True iff the diagonal test holds |
| DistributedApp.Initial | DistributedApp.py:57-61 | a new process has the all-zero matrix, no history and an empty buffer |
| DistributedApp.FirstReady | DistributedApp.py:124-126 | the scan returns the earliest buffered message that passes the diagonal test, or the buffer length if none does |
| DistributedApp.ApplyDelivery | DistributedApp.py:103-117 | delivery appends the id and leaves the buffer alone; the new matrix dominates the old matrix and the snapshot, and the receiver's diagonal entry strictly increases |
| DistributedApp.Drained | DistributedApp.py:120-130 | the drain never grows the buffer, and every message it takes out of the buffer lands in the history: buffer plus history keep their total length |
| DistributedApp.Received | DistributedApp.py:132-139 | the received message ends up in exactly one of buffer or history (their total length grows by one), and the history grows iff the message passes the diagonal test |
| DistributedApp.Sent | DistributedApp.py:206-212 | a send followed by its drain keeps the total length of buffer plus history (contents, order and the tick: see SentConserves) |
| DistributedApp.ScanStopsAtFirstReady | DistributedApp.py:124-126 | the message where the scan breaks is the earliest deliverable one, and no earlier buffered message equals it |
| DistributedApp.DrainedIsFixedPoint | DistributedApp.py:120-130 | when the drain ends, no buffered message passes the diagonal test |
| DistributedApp.DrainedMonotone | DistributedApp.py:120-130 | the drain lowers no matrix entry |
| DistributedApp.DrainedExtendsHistory | DistributedApp.py:120-130 | the drain appends to the history exactly the ids of the messages it delivered, in delivery order |
| DistributedApp.DrainedConserves | DistributedApp.py:120-130 | each buffered copy is either still buffered or delivered by the drain, and no copy is counted twice (buffer after plus delivered equals buffer before, as multisets) |
| DistributedApp.StepMonotone | DistributedApp.py:202-222 | one send (with its drain) or receive lowers no matrix entry and only appends to the history |
| DistributedApp.RunMonotone | DistributedApp.py:202-220 | over any sequence of sends and receives, no matrix entry decreases and the history only grows |
| DistributedApp.SeenNotDrained | DistributedApp.py:120-130 | once the receiver's diagonal entry for the sender has reached the snapshot's, the drain never delivers that message, and the entry stays reached |
| DistributedApp.DrainedDeliversOnce | DistributedApp.py:120-130 | one drain delivers no message twice, even when the buffer holds several copies of it |
| DistributedApp.SeenStep | DistributedApp.py:202-222 | once the receiver's diagonal entry for the sender has reached the snapshot's, no send or receive delivers that message, and the entry stays reached |
| DistributedApp.SeenRun | DistributedApp.py:202-222 | once the receiver's diagonal entry for the sender has reached the snapshot's, it stays so over any sequence of sends and receives |
| DistributedApp.DeliveredAtMostOnce | DistributedApp.py:132-139 | a receive that delivers m delivers it once (a buffered copy stays buffered through the drain that follows); afterwards no step ever delivers m again and receiving it again only buffers it |
| DistributedApp.DrainedSeen | DistributedApp.py:120-130 | a message the drain delivers is seen when the drain ends |
| DistributedApp.StepSeen | DistributedApp.py:202-222 | a message any step delivers, on receipt or released from the buffer, is seen after that step |
| DistributedApp.StepDeliversOnce | DistributedApp.py:202-222 | one send or receive step delivers no message twice |
| DistributedApp.DeliveredNeverAgain | DistributedApp.py:202-222 | once any step has delivered m, on receipt or by a drain, no later step delivers m again and receiving it again only buffers it |
| DistributedApp.ReceivedConserves | DistributedApp.py:132-139 | a receive only moves messages: old buffer plus the received message equals new buffer plus what it delivered, and the history grows by exactly the delivered ids, in order |
| DistributedApp.SentConserves | DistributedApp.py:206-212 | after a send the matrix dominates the ticked matrix, and its drain only moves messages: old buffer equals new buffer plus the delivered messages, and the history grows by their ids, in order |
| DistributedApp.Process.constructor | DistributedApp.py:57-61 | a new process is in the initial state |
| DistributedApp.Process.SendMessage | DistributedApp.py:90-101 | only the own diagonal entry ticks; the returned snapshot equals the new matrix; history and buffer unchanged |
| DistributedApp.Process.DeliverMessage | DistributedApp.py:103-116 | the id is appended; the nested max loops and the diagonal tick give the merged matrix |
| DistributedApp.Process.ScanPending | DistributedApp.py:124-130 | one pass over a copy of the buffer finds the same index as FirstReady |
| DistributedApp.Process.TryDeliverPending | DistributedApp.py:120-130 | the flag-driven loop ends in the state of the pure drain |
| DistributedApp.Process.ReceiveMessage | DistributedApp.py:132-139 | deliverable: delivered then drained; otherwise appended to the buffer with the matrix and history unchanged |
| DistributedApp.NewProcesses | DistributedApp.py:154 | one fresh initial process per name, in order |
| DistributedApp.Simulation.constructor | DistributedApp.py:154-169 | three initial processes and an empty message table |
| DistributedApp.Simulation.StepSend | DistributedApp.py:206-212 | the sender's diagonal ticks; the message carries the new matrix and the text and is stored; the sender's buffer is then drained |
| DistributedApp.Simulation.StepReceive | DistributedApp.py:213-219 | an unknown id changes nothing and reports an error; otherwise the process receives; other processes are untouched |
| DistributedApp.Simulation.Reset | DistributedApp.py:224-233 | every existing process returns to the initial state in place, and the message table is emptied |
| ChatAsMatrixClock.FirstReadyForgets | DistributedApp.py:124-126 | the text plays no part in the scan: both scans stop at the same index |
| ChatAsMatrixClock.DrainStepForgets | DistributedApp.py:124-130 | one pass of the chat drain is one pass of the matrix_clock.py drain |
| ChatAsMatrixClock.DrainedForgets | DistributedApp.py:120-130 | the chat drain and the matrix_clock.py drain deliver the same messages in the same order |
| ChatAsMatrixClock.ReceivedForgets | DistributedApp.py:132-139 | a chat receive is a matrix_clock.py receive |
| ChatAsMatrixClock.SentIsSendThenDrain | DistributedApp.py:206-212 | a chat send is a matrix_clock.py send followed by a drain of the sender's buffer |
| DistributedAppScenario.P1SendsTwice | DistributedApp.py:190-193 | P1's sends snapshot its row as [1,0,0], then [2,0,0]; the drains after them find nothing |
| DistributedAppScenario.M1BufferedAtP2 | DistributedApp.py:194-195 | m1 reaching P2 before m0 is buffered |
| DistributedAppScenario.M0ReleasesM1AtP2 | DistributedApp.py:196-197 | m0 is delivered at P2 and the drain then delivers the buffered m1 |
| DistributedAppScenario.DrainReleasesM1 | DistributedApp.py:196-197 | the drain after m0 delivers the buffered m1 and empties the buffer |
| DistributedAppScenario.M0DeliveredAtP3 | DistributedApp.py:198-199 | m0 is delivered at P3 at once |
| DistributedAppScenario.ChatScript | DistributedApp.py:189-200 | the whole five-event script through the simulation: Buffered, Delivered, Delivered, with the final matrices of P2 and P3 |

## Left out

- Drawing and widgets are not modelled: canvas shapes, timelines, `next_x`, `PROCESS_Y`, `send_positions`, chat panels, headers, buttons and `mainloop`. They have no algorithmic content.
- `vector_clock_list` and `matrix_to_string` are not modelled. They only format clocks for display.
- The log is not modelled as text. A receive step reports a `Status`: Delivered, Buffered or UnknownMessage. The "Step n:" lines and the drain's "delivers buffered" lines are not modelled.
- The event list (`create_events`), `current_event_index` and the "Simulation complete" branch are not modelled. The scripted events are replayed by the scenario modules instead: the first four events of `SES.py`, `BSS.py` and `matrix_clock.py`, and all five events of `DistributedApp.py`.
- Process names "P1", "P2", "P3" are the indices 0, 1, 2, and N is fixed at 3. A name outside the membership, which would raise `KeyError` in the source, cannot be written in the model.
- Dict-of-dict clocks are sequences indexed by process.
- The chat text of `DistributedApp.py` is an opaque string. It is carried along but never inspected.
- Python compares messages in `pending.remove` by identity; the model compares them by value. The drain removes the element it has just found, and no earlier buffered element equals it (`ScanStopsAtFirstReady`), so both remove the same element.
- Cross-process liveness is not proved. Under the full-merge variants a receiver ticks its own entry on delivery, so a later message from it can stay buffered for ever at another process.
- Clock values are unbounded integers, as Python's are. There is no wrap-around to model.
