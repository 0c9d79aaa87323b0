# A verified model of the CDJ-2000 emulator's core

The emulator runs the boards of a CDJ player as separate guests with separate clocks and
models the DSP board's C6747 peripherals register by register.  This project models the parts
whose behaviour is hardest to see from any one function, and proves what their authors rely on.

- **Conservative co-simulation** (`Endpoint`, `TwoBoards`, `Lookahead`, `Segment`, `SenderOrder`,
  `EndpointMachine`, `Wire`).  An end holds a guest clock that may only run up to its peer's promise plus a
  quantum.  `cdj2000_cosim.c` and `cdj2000_netsim.c` run the same step; `Endpoint.Kind` selects
  where they differ.  Systems of two boards, and of N players behind a hub, are transition
  systems over that step with FIFO wires; the guest CPU is either running, and may send at any
  moment, or asleep until a device timer.  Under `-icount` a board stops at exactly its step's
  time, which is what lets delivery be exact.  `Lookahead` shows what an end promises to be the
  greatest promise it could keep.  `Wire` carries the protocol over bytes.
- **EDMA engine and transactional bus** (`Memory`, `Edma`, `EdmaPlan`, `EdmaPreview`,
  `EdmaBus`, `EdmaGrid`, `EdmaTransfer`, `EdmaBytes`, `EdmaRegs`, `EdmaMachine`).  Transfers are served from a work list
  that linking and chaining extend, first as a preview and then for real.  `EdmaPlan` shows that
  the registers alone decide what a run moves and leaves, whatever the bytes and the
  peripherals; `EdmaPreview` finds exactly when the preview decides the run; `EdmaBus` shows the
  staged-write overlay to be plain memory; `EdmaGrid` gives the closed form of a
  three-dimensional transfer and `EdmaTransfer` runs it through the engine, by its own events,
  by one self-chained event, and among any other transfers; `EdmaBytes` says which bytes of
  memory it leaves, from the fields of its set; `EdmaRegs` says what runs leave of every register.
- **Serial and timing machines** (`Spi`, `SpiRegs`, `Converter`, `Mcasp`, `McaspRuns`,
  `McaspControl`, `Timer`, `TimerModes`, `Pll`).  `AudioFeed` follows one frame of audio through
  three of the components, from memory over the EDMA engine to the McASP's wire.
- **The serial link of MAIN** (`LinkFifo`, `LinkStream`, `Crc`, `Requests`) **and its DMA copy**
  (`DmaCopy`).
- **Pulse queue and deck position** (`Press`, `PressService`, `Deck`).

Each component is first a set of functions on values.  Where the source changes records, queues
and buffers in place there is a class, or a method over an array, whose postconditions equate
its new state with those functions; the properties are lemmas about the functions over all
inputs, all runs or all reachable states.  The 32-bit event, flag and status registers that the
code uses bit by bit are sets of bit numbers.

Four places where the code and what is said of it differ; the model follows the code.

- `cdj_c6747_edma.h` asks of the bus that a checked write is one that will be carried out, and
  the engine relies on a preview to tell whether a run succeeds.  For moves between memories, and
  to a McASP's DMA port, it does (`EdmaPreview.RehearsalDecides` with `MemoryIsSure` and
  `AudioIsSure`).  In general, for any set of peripheral addresses, it does if and only if no answer
  there depends on the word or on earlier writes (`EdmaPreview.PreviewDecidesExactly`).  The McASP's
  latch at offset 04 is an address where it does not: `EdmaPreview.LatchMisleads` gives an event that is
  rehearsed, accepted, and refused half done.  What keeps a refusal whole on this board is that
  the transaction works on copies (`EdmaBus.TransactionIsDirect`).
- The header of `cdj2000_cosim.c` calls a time report empty; the code's carries the promise in eight
  bytes, and one without them promises only its own time (`Wire.OnTheWire`, `Wire.TakenFor`).
- A write to QEECR, QEESR or QSECR with bits above 7 is refused yet changes the register
  (`EdmaPreview.RefusedWriteThatBites`).
- The press channel can be asked where any recent press is, but 32 record slots serve up to 32
  queued presses and one being driven: the one being driven is forgotten exactly when 32 have
  been accepted since (`Press.ActiveForgotten`, with a run that gets there in `Press.ForgottenRun`).

## Model

| member | source | states |
|---|---|---|
| TwoBoards.ExactDelivery | emulator/qemu/cdj2000_cosim.c:18-24 | In every run the frames handed to a board are a prefix of those the other sent, in order and unchanged, each at exactly its stamp plus the quantum |
| TwoBoards.NeverInThePast | emulator/qemu/cdj2000_cosim.c:20-24 | A frame still on the wire or queued is never due before its receiver's clock |
| TwoBoards.PromisesKept | emulator/qemu/cdj2000_cosim.c:363-395 | However a run goes on, a frame sent later is stamped no earlier than any promise reported before, and reported promises never decrease |
| TwoBoards.BoundedSkew | emulator/qemu/cdj2000_cosim.c:23-25 | Neither board runs more than a quantum past what the other last reported or promised, nor past a running one's clock |
| TwoBoards.LeastClockLeaves | emulator/qemu/cdj2000_cosim.c:427-454 | With both boards in their wait loop, the one with the lesser clock leaves it on reading what the other sent |
| TwoBoards.NoDeadlock | emulator/qemu/cdj2000_cosim.c:403-483 | In every reachable state some action moves the system |
| TwoBoards.TimeGoesOn | emulator/qemu/cdj2000_cosim.c:403-483 | Liveness: from every reachable state and for every guest time some run brings both clocks past it |
| TwoBoards.StepsRearm | emulator/qemu/cdj2000_cosim.c:456-482 | In every reachable state, a step or turn that leaves its wait re-arms the board's timer strictly in its future, so the clamp is never taken |
| TwoBoards.NextGood | emulator/qemu/cdj2000_cosim.c:205-483 | Every action of either board keeps the invariant of both directions of the link |
| Lookahead.PromiseIsSound | emulator/qemu/cdj2000_cosim.c:355-386 | However an end goes on, whatever a peer that keeps its own promises sends it, it sends no frame stamped before what it promises now |
| Lookahead.PromiseIsTight | emulator/qemu/cdj2000_cosim.c:355-386 | And some way of going on sends a frame stamped exactly that, woken by the timer, by a frame that is queued or by one the peer is free to send |
| Lookahead.PromiseIsGreatest | emulator/qemu/cdj2000_cosim.c:355-386 | So a time is safe to promise, in every state of the invariant and on both links, if and only if it is no later than the promise computed: the timer, the frames due and the peer's promise plus a quantum are all looked at, and nothing else bounds it |
| Lookahead.IdleBoardsGain | emulator/qemu/cdj2000_cosim.c:355-395 | The lookahead at work: two sleeping boards that exchange reports n times, in at most 4n actions, have promised 2n quanta further and their clocks have followed |
| Lookahead.ComesToRest | emulator/qemu/cdj2000_cosim.c:403-483 | Two boards at rest like that are reached from power-up |
| Lookahead.OneReport | emulator/qemu/cdj2000_cosim.c:388-395 | A step or turn sends at most one report, of its own clock and of the promise it then stands by; without one nothing it has said changes |
| Lookahead.QuietTurn | emulator/qemu/cdj2000_cosim.c:427-454 | An end that waits and learns nothing says nothing and stays as it is |
| Segment.SegmentDelivery | emulator/qemu/cdj2000_netsim.c:18-28 | On the segment every frame is handed over exactly a quantum after its stamp, and frames are conserved: sent = held by the hub + on the wire + queued + handed over |
| SenderOrder.SenderInOrder | emulator/qemu/cdj2000_netsim.c:18-28 | Each sender's frames stay in order: for any test on a frame's bytes that tells player i's from the others', such as the source address, the frames of i handed to j are a prefix of those i sent |
| Segment.QueueInOrder | emulator/qemu/cdj2000_netsim.c:190-209 | A player's due queue stays sorted by due time and never holds a frame due in the past, in whatever order frames of different senders arrive |
| Segment.SegmentPromisesKept | emulator/qemu/cdj2000_netsim.c:272-304 | No player sends a frame stamped before a promise it has given, over any run |
| Segment.LeastIsLeast | emulator/qemu/cdj2000_netsim.c:22-25 | What the hub announces to a player is the least of the other players' promises |
| Segment.LeastPlayerLeaves | emulator/qemu/cdj2000_netsim.c:337-363 | With every player waiting and the hub up to date, the player with the least clock leaves its wait |
| Segment.SegmentNoDeadlock | emulator/qemu/cdj2000_netsim.c:319-391 | In every reachable state the hub has something to pass on or a greater promise to announce, or a player can move |
| Segment.SegmentTimeGoesOn | emulator/qemu/cdj2000_netsim.c:319-391 | Liveness: from every reachable state and for every guest time some run brings the clock of every player past it |
| Segment.PlayersRearm | emulator/qemu/cdj2000_netsim.c:365-391 | In every reachable state of the segment, a player leaving its wait re-arms strictly in its future |
| Segment.GoFine | emulator/qemu/cdj2000_netsim.c:174-391 | Every run keeps the invariant of every player's two wires and its ledger of frames |
| Endpoint.ActKeeps | emulator/qemu/cdj2000_cosim.c:205-483 | Rely and guarantee of one end, for both files: fed a stream that keeps its promises, every action keeps the end's invariant, sends only a stream that keeps its own, and hands frames over exactly when due |
| Endpoint.InsertDuePlace | emulator/qemu/cdj2000_netsim.c:190-209 | The walk from the tail puts a frame after every one due no later and before every later one |
| Endpoint.InsertDueAdds | emulator/qemu/cdj2000_netsim.c:190-209 | Insertion adds the one frame and nothing else |
| Endpoint.ParseTail | emulator/qemu/cdj2000_cosim.c:221-229 | On the board link pushing at the tail is the sorted insertion, because a stamp never lies before the promise |
| Endpoint.DrainMoves | emulator/qemu/cdj2000_netsim.c:174-228 | Reading a batch moves exactly its frames into the queue |
| Endpoint.DrainAppends | emulator/qemu/cdj2000_cosim.c:205-247 | On the board link reading a batch appends its frames in order |
| Endpoint.RipeSplits | emulator/qemu/cdj2000_cosim.c:280-289 | Delivery takes exactly the frames due now from the front; everything left is due later |
| Endpoint.ReportIfKeeps | emulator/qemu/cdj2000_cosim.c:388-395 | A report is sound when it is made and never takes an earlier promise back |
| Endpoint.FinishKeeps | emulator/qemu/cdj2000_cosim.c:455-482 | Leaving the wait, the end re-arms itself at its computed next time, strictly in its future, and keeps its invariant |
| Endpoint.ActRearms | emulator/qemu/cdj2000_cosim.c:403-483 | From any state of the invariant, every step or turn that ends its wait re-arms strictly in the future |
| Endpoint.FreeEndMoves | emulator/qemu/cdj2000_cosim.c:403-483 | An end that is not waiting always has an action that moves it |
| EndpointMachine.StepIsBeginAndTurns | emulator/qemu/cdj2000_cosim.c:403-483 | The blocking callback is an atomic beginning followed by turns of its wait |
| EndpointMachine.Machine.Enqueue | emulator/qemu/cdj2000_netsim.c:190-209 | Walking the queue in place is the stable sorted insertion |
| EndpointMachine.Machine.ParseAll | emulator/qemu/cdj2000_cosim.c:205-247 | The parse loop in place is the batch read |
| EndpointMachine.Machine.Deliver | emulator/qemu/cdj2000_cosim.c:280-289 | The delivery loop in place hands over the frames due now, in order |
| EndpointMachine.Machine.ComputePromise | emulator/qemu/cdj2000_cosim.c:363-386 | The comparisons in place give the promise of `Lookahead.PromiseIsGreatest`: the least of the timer, the next frame due and the peer's promise plus a quantum, and never less than now |
| EndpointMachine.Machine.NextTime | emulator/qemu/cdj2000_cosim.c:456-481 | The re-arm time the step computes |
| EndpointMachine.Machine.Step | emulator/qemu/cdj2000_cosim.c:403-483 | The whole callback in place, wait loop included, is the step the systems above are built from |
| Wire.RoundTrip | emulator/qemu/cdj2000_cosim.c:185-203 | A message put on the wire is the message taken off it, whatever bytes follow |
| Wire.BackTrip | emulator/qemu/cdj2000_cosim.c:33-37 | Re-encoding a message taken off restores its bytes exactly when the three reserved bytes were zero |
| Wire.ParseSplits | emulator/qemu/cdj2000_cosim.c:205-247 | Parsing a stream at any point and then the rest is parsing it at once, malformed streams included |
| Wire.ParseTwice | emulator/qemu/cdj2000_cosim.c:244-247 | What parsing leaves holds no whole message and is shorter than one, so the buffer always has room again |
| Wire.Segmentation | emulator/qemu/cdj2000_cosim.c:250-278 | However the bytes are cut into receives, the same messages come out and the same link is lost |
| Wire.ParseEncoded | emulator/qemu/cdj2000_cosim.c:205-247 | Encoded messages followed by part of another parse into exactly those messages and exactly that part |
| Wire.LinkCarries | emulator/qemu/cdj2000_cosim.c:185-278 | The bytes a sender writes, however cut, make the receiver's step take in exactly the protocol messages sent |
| Wire.OnTheWire | emulator/qemu/cdj2000_cosim.c:27-60 | The protocol's messages byte by byte: magic, type, time and length little-endian, payload, with the frame types and the greatest lengths of the two links |
| Wire.TakenFor | emulator/qemu/cdj2000_cosim.c:205-247 | What a message taken off is read as: a report only with a payload of one promise, a frame only by its own link's type |
| Wire.Reader.TakeOut | emulator/qemu/cdj2000_cosim.c:205-247 | The parse loop over the buffer and the move of the rest to its front |
| Wire.Reader.DrainAll | emulator/qemu/cdj2000_cosim.c:250-278 | Filling the fixed buffer, parsing when it is full, takes out every whole message; the too-large-message branch is never reached |
| Memory.Aliases | emulator/qemu/cdj2000_nxs_hpi.c:344-364 | Both L2 windows, both L1D windows and SDRAM every 32 MiB name the same bytes |
| Memory.MapIs | emulator/qemu/cdj2000_nxs_hpi.c:344-364 | The address map byte by byte: exactly which guest addresses have memory behind them, with L1D less its cache and SDRAM once enabled, and exactly which two of them have the same byte |
| Memory.SpanIsBytes | emulator/qemu/cdj2000_nxs_hpi.c:344-364 | A stretch is mapped as a whole exactly when its bytes are mapped one after the other |
| Memory.OverlayAllReads | emulator/qemu/cdj2000_nxs_hpi.c:424-445 | Laying staged writes over bytes read, oldest first, gives what applying them to memory would |
| Memory.ViewIsFlat | emulator/qemu/cdj2000_nxs_hpi.c:424-445 | Reading through the write buffer reads the memory it stands for |
| Memory.PutIsPoke | emulator/qemu/cdj2000_nxs_hpi.c:396-415 | Staging a write stands for carrying it out |
| Edma.CompletedValid | emulator/qemu/cdj_c6747_edma.c:114-216 | A completed request leaves legal registers and sets off only events that exist |
| Edma.WriteParamValid | emulator/qemu/cdj_c6747_edma.c:411-443 | A PaRAM write that is accepted leaves legal registers, in the preview and for real |
| Edma.ChannelRegValid | emulator/qemu/cdj_c6747_edma.c:346-394 | So does every channel register write |
| EdmaRegs.CompletedIs | emulator/qemu/cdj_c6747_edma.c:139-216 | What one request does to every latch: its own are cleared, those of the channels it chains to and links are set, and exactly the ones set already are recorded as missed |
| EdmaRegs.PlanRan | emulator/qemu/cdj_c6747_edma.c:114-238 | What a successful run leaves of the registers, however it chains and links: every latch of every channel served is clear and every other latch, enable and mapping stands; a region is notified exactly if it was not pending before and is after; the counters have grown by the requests served and the bytes moved |
| EdmaRegs.ServiceRan | emulator/qemu/cdj_c6747_edma.c:218-238 | The same of a run over any memory and any peripherals, rehearsed or real; the events asked for are served first, in order |
| EdmaRegs.LastWins | emulator/qemu/cdj_c6747_edma.c:346-394 | Over any run of accepted register writes and events, whatever they set in motion, every EER, IER and QEER bit is what the last write naming it through a view that reaches it made it; and over writes that set nothing in motion so is every bit of all ten channel registers |
| EdmaRegs.LastMaps | emulator/qemu/cdj_c6747_edma.c:438-442 | Over any such run each QCHMAP entry is the last value written to it |
| EdmaRegs.NamedAreServed | emulator/qemu/cdj_c6747_edma.c:354-379 | An accepted write to ESR, or to EESR where the event is waiting, serves first each channel it names through its view, in increasing order, and no other |
| EdmaRegs.EventServed | emulator/qemu/cdj_c6747_edma.c:491-505 | An accepted event is served first on an enabled channel, and missed exactly if it was latched already; on any other channel it waits |
| EdmaRegs.EvalNotifies | emulator/qemu/cdj_c6747_edma.c:383-388 | IEVAL pulses its region exactly if the region is pending, and takes no value but 0 and 1 |
| EdmaRegs.TriggeredIs | emulator/qemu/cdj_c6747_edma.c:417-427 | A PaRAM write triggers exactly the enabled QDMA channels mapped to one of the words it writes |
| EdmaRegs.WordsWritten | emulator/qemu/cdj_c6747_edma.c:434-436 | A PaRAM write replaces the words it names and no others |
| EdmaRegs.LegalWritten | emulator/qemu/cdj_c6747_edma.c:411-416 | And is let through exactly when the set it leaves has its reserved bits clear |
| EdmaPlan.ServiceIsPlan | emulator/qemu/cdj_c6747_edma.c:218-238 | Non-interference, for every memory and every peripheral, previewed or real: a run is a plan drawn from the registers alone, carried out; it succeeds iff the plan stands and every move is taken, and then leaves the plan's registers |
| EdmaPlan.ControlDecides | emulator/qemu/cdj_c6747_edma.c:114-238 | Only PaRAM, QCHMAP and QEER steer a run: engines that agree on them have the same moves and end agreeing again |
| EdmaPlan.RunsAgree | emulator/qemu/cdj_c6747_edma.c:218-238 | Two successful runs, on any buses, previewed or real, leave engines that agree on control if they began so, and equal ones if they began equal |
| EdmaPreview.RehearsalDecides | emulator/qemu/cdj_c6747_edma.c:491-505 | An event whose moves outside memory go to peripherals that are dependable or have room is served iff its rehearsal succeeds, with the registers of its plan |
| EdmaPreview.MapDecides | emulator/qemu/cdj_c6747_edma.c:491-505 | Where the peripherals have room, an enabled event is served iff its plan stands and the address map has a place for every move |
| EdmaPreview.MemoryIsSure | emulator/qemu/cdj2000_nxs_hpi.c:396-461 | Moves between memories meet that condition on every bus, whatever its peripherals |
| EdmaPreview.AudioIsSure | emulator/qemu/cdj_c6747_mcasp.c:384-401 | So do moves to the DMA port of the modelled McASP, up to its 2^64 words |
| EdmaPreview.PreviewDecidesExactly | emulator/qemu/cdj_c6747_edma.c:491-505 | For any set of peripheral addresses: every event that passes its rehearsal and leaves memory only there is served, iff no answer there depends on the word written or on earlier writes |
| EdmaPreview.LatchMisleads | emulator/qemu/cdj_c6747_mcasp.c:374-382 | The McASP latch that takes only the word 1: an enabled event whose rehearsal is accepted and whose run is refused, with a memory word overwritten, its set spent and a chained event latched |
| EdmaPreview.RefusedEventIsInert | emulator/qemu/cdj_c6747_edma.c:491-505 | A refused event leaves registers, memory and peripherals unchanged: on every bus if its rehearsal failed, and in any case if its moves are dependable or there is room for them |
| EdmaPreview.CheckDecides | emulator/qemu/cdj_c6747_edma.c:396-489 | A register write whose moves meet that condition is accepted with commit iff it is accepted without |
| EdmaPreview.RefusedWriteIsInert | emulator/qemu/cdj_c6747_edma.c:396-489 | The same of a refused register write, with one exception stated exactly: a QDMA enable or clear register given bits above 7 |
| EdmaPreview.RefusedWriteThatBites | emulator/qemu/cdj_c6747_edma.c:389-391 | An input on which that exception changes a register although the write is refused |
| EdmaBus.ServiceFlat | emulator/qemu/cdj2000_nxs_hpi.c:396-461 | A service run over the write buffer does what it would do on memory directly |
| EdmaBus.TransactionIsDirect | emulator/qemu/cdj2000_nxs_hpi.c:491-521 | Staging then committing is direct execution, and a transaction that fails or is only checked changes nothing |
| EdmaBus.Buffer.Stage | emulator/qemu/cdj2000_nxs_hpi.c:396-415 | Staging a write leaves memory alone, and the buffer then stands for the memory it stood for with that write carried out last |
| EdmaBus.Buffer.ReadBytes | emulator/qemu/cdj2000_nxs_hpi.c:424-445 | The read loop gives the bytes of memory with all staged writes applied |
| EdmaBus.OverlayOne | emulator/qemu/cdj2000_nxs_hpi.c:430-443 | Copying the overlap of one staged write over the bytes read |
| EdmaBus.Buffer.CommitAll | emulator/qemu/cdj2000_nxs_hpi.c:508-513 | The commit loop applies every staged write in order |
| EdmaGrid.AfterIsAt | emulator/qemu/cdj_c6747_edma.c:146-168 | For every set without STATIC (and, A-synchronised, reloading the B count it began with), linked and chaining ones included: the set before event k in closed form: its addresses are those of row k div BCNT, place k mod BCNT of the grid, and exactly the last event is final |
| EdmaGrid.MovesTheGrid | emulator/qemu/cdj_c6747_edma.c:75-97 | The arrays moved by the first k events are the first arrays of the BCNT by CCNT grid, in order |
| EdmaGrid.SameGrid | emulator/qemu/cdj_c6747_edma.c:84-96 | AB-synchronisation with the C index counted from the start of a row moves the same arrays as A-synchronisation |
| EdmaTransfer.BurstStands | emulator/qemu/cdj_c6747_edma.c:491-505 | The engine itself, event by event: set, request and byte counts, completion codes and memory in closed form |
| EdmaTransfer.WholeTransfer | emulator/qemu/cdj_c6747_edma.c:114-216 | A whole transfer carries out every move of its grid once, counts ACNT*BCNT*CCNT bytes, raises its codes and leaves the linked set, or a null one; which bytes that leaves in memory is `EdmaBytes.WholeTransferBytes` |
| EdmaTransfer.OneEventMovesAll | emulator/qemu/cdj_c6747_edma.c:210-238 | What the work list is for: of a set that chains to its own channel one event moves the whole grid, and is served iff every move is taken, rehearsed and real |
| EdmaTransfer.AmongOthers | emulator/qemu/cdj_c6747_edma.c:114-238 | Among any events on any channels, with everything they link, chain and trigger, a set that only its own channel's events reach still moves its grid in order, an array or row an event |
| EdmaBytes.MoveCopies | emulator/qemu/cdj2000_nxs_hpi.c:396-461 | A move within memory is taken, rehearsed and real, and leaves the destination holding the bytes of the source and every other byte as it was |
| EdmaBytes.WordGoesOut | emulator/qemu/cdj2000_nxs_hpi.c:447-461 | A move of one word to a peripheral gives it the four bytes of memory, least significant first |
| EdmaBytes.MovesCopy | emulator/qemu/cdj_c6747_edma.c:75-97 | Any list of moves that keep clear of later ones: every destination holds what its source held before them all, and no other byte has changed |
| EdmaBytes.PackReads | emulator/qemu/cdj_c6747_edma.c:7-18 | The fields of a PaRAM set, laid out in its eight words as the manual has them, are what the engine reads from them |
| EdmaBytes.EverySetPacks | emulator/qemu/cdj_c6747_edma.c:60-73 | Every set the engine accepts is laid out from such fields, so results on fields are results on all sets |
| EdmaBytes.WholeTransferBytes | emulator/qemu/cdj_c6747_edma.c:75-216 | A whole transfer within memory, from the fields of its set: its events are all served, every array of the destination grid holds the bytes of its source array, and no other byte of memory has changed |
| EdmaBytes.OneEventBytes | emulator/qemu/cdj_c6747_edma.c:210-238 | A set that chains to its own channel does all that for one event |
| EdmaBytes.NullLinkStops | emulator/qemu/cdj_c6747_edma.c:170-173 | A finished transfer without a link leaves zeros and a null link, and the next event on its channel is refused |
| EdmaMachine.Machine.TransferBytes | emulator/qemu/cdj_c6747_edma.c:75-97 | The array loop over the bus in place: the moves whose bytes `EdmaBytes.MovesCopy` gives, stopping at the first refused |
| EdmaMachine.Machine.StepSet | emulator/qemu/cdj_c6747_edma.c:148-168 | Rewriting the words of a set in place |
| EdmaMachine.Machine.LinkSet | emulator/qemu/cdj_c6747_edma.c:174-193 | The final reload of a linked set and the QDMA channels it triggers, with the registers left when the queue fills half-way |
| EdmaMachine.Machine.UpdateSet | emulator/qemu/cdj_c6747_edma.c:144-195 | The PaRAM update in place, failing only when the queue is full, and the registers it then leaves |
| EdmaMachine.Machine.Raise | emulator/qemu/cdj_c6747_edma.c:197-208 | A completion code, and the regions it newly makes pending |
| EdmaMachine.Machine.CompleteOne | emulator/qemu/cdj_c6747_edma.c:114-216 | One request in place, succeeding or failing: bytes, event registers, set, interrupt, chain and counters |
| EdmaMachine.Machine.ServeAll | emulator/qemu/cdj_c6747_edma.c:218-238 | The work queue that grows while it is served: bus and every register, also of a run that fails half-way |
| EdmaMachine.Machine.TakeEvent | emulator/qemu/cdj_c6747_edma.c:491-505 | An event: rehearsed on a copy, then served; the whole new state in every case, a misled run included |
| EdmaMachine.Machine.WriteWords | emulator/qemu/cdj_c6747_edma.c:411-443 | A PaRAM write: rehearsed on a copy with the words in place, then done; the whole new state in every case |
| Spi.AdvanceAdds | emulator/qemu/cdj_c6747_spi.c:441-483 | Advancing by m and then n is advancing by m + n from any state; from a good one it succeeds and leaves a good one |
| Spi.WriteKeepsGood | emulator/qemu/cdj_c6747_spi.c:331-391 | No guest write, accepted or not, breaks the transfer's consistency |
| Spi.FlowPasses | emulator/qemu/cdj_c6747_spi.c:393-483 | After n half ticks exactly the words due by then are latched, in order, and the rest are n nearer |
| Spi.FlowIdles | emulator/qemu/cdj_c6747_spi.c:425-483 | When the board is idle again |
| Spi.OneWord | emulator/qemu/cdj_c6747_spi.c:280-315 | A word given to an idle board latches after 814 half ticks, not one before, and the board is idle after 818 |
| Spi.TwoWords | emulator/qemu/cdj_c6747_spi.c:372-389 | A second word given at any time during the first latches 818 half ticks after it |
| Spi.NothingLost | emulator/qemu/cdj_c6747_spi.c:331-483 | Over any sequence of writes, reads and time: latched + in flight + queued = accepted, in order, once each, but for what a reset or disable discards |
| Spi.LatchValid | emulator/qemu/cdj_c6747_spi.c:76-108 | A latched word leaves the converter's registers valid; what they then hold is `Converter.LatchedHolds` |
| Converter.LatchedHolds | emulator/qemu/cdj_c6747_spi.c:76-108 | What the converter holds after any words, from the words alone: each program register the last data addressed to it (register 3 without bit 5), the attenuations the low bytes of registers 0 and 1 as they stood at the last word to either with bit 8, register 4 only once some word to register 2 had all of 0x1e0 |
| Converter.RunHolds | emulator/qemu/cdj_c6747_spi.c:331-483 | And over any run of the board: that of exactly the words it accepted and has sent |
| SpiRegs.FlowReceives | emulator/qemu/cdj_c6747_spi.c:393-408 | For every word shifted out by then a word of ones has come in: two can wait unread, and the rest are an overrun |
| SpiRegs.RunTold | emulator/qemu/cdj_c6747_spi.c:280-391 | Over any run the transmit flag is up exactly while no word waits behind the one on its way |
| SpiRegs.ActiveIsGuarded | emulator/qemu/cdj_c6747_spi.c:331-391 | While a transfer is under way an accepted write is a flag, a word, or a stop |
| SpiRegs.WordTakenWhen | emulator/qemu/cdj_c6747_spi.c:331-391 | A word is taken exactly in the one configuration known, if it is one of the converter's and no other waits |
| SpiRegs.OthersStored | emulator/qemu/cdj_c6747_spi.c:331-391 | An accepted write to another register is the plain writer's, and only a stop discards the transfer |
| Spi.Machine.Pass | emulator/qemu/cdj_c6747_spi.c:441-483 | The advance loop in place |
| Spi.Machine.Put | emulator/qemu/cdj_c6747_spi.c:331-391 | The guest write in place, checked in full before anything changes |
| LinkFifo.RunKeeps | emulator/qemu/cdj2000_main.c:3048-3186 | Over any interleaving: arrived = left + queued in order, hand-overs at least the gap apart, and a waiting frame always has the watchdog or the gap timer behind it |
| LinkFifo.RunDropsLate | emulator/qemu/cdj2000_main.c:3168-3173 | A frame is dropped only once 64 later ones have arrived |
| LinkFifo.PendingIsSafe | emulator/qemu/cdj2000_main.c:2413-2468 | A frame the guest has not acknowledged is overwritten by nothing but an acknowledge, a re-arm or the watchdog |
| LinkFifo.NoStarvation | emulator/qemu/cdj2000_main.c:3097-3142 | With timers served on time, a waiting frame is never more than the longer of gap and watchdog from a hand-over |
| LinkFifo.FrameLeaves | emulator/qemu/cdj2000_main.c:3097-3142 | And the frame at position k of the queue has left it within (k + 1) times the longer of gap and watchdog |
| LinkFifo.BytesKeptExactly | emulator/qemu/cdj2000_main.c:3225-3243 | The backlog pump keeps every byte exactly when the frame length fits the 512-byte buffer or there is too little to overflow it |
| LinkFifo.LongFramesStick | emulator/qemu/cdj2000_main.c:3152-3161 | What happens otherwise: the frame is never completed and the excess is thrown away |
| LinkStream.RequestTakes | emulator/qemu/cdj2000_main.c:3248-3265 | What a request leaves of the stream: all of it, or, where the backlog would overflow, the frames and the frame under way, then the new bytes if any backlog could hold them |
| LinkStream.StreamIsAsked | emulator/qemu/cdj2000_main.c:3144-3265 | Over any run whose requests find room and whose frames fit the buffer, the frames completed, the frame under way and the backlog are the bytes requested, none lost, none twice, in order |
| LinkStream.PumpsDry | emulator/qemu/cdj2000_main.c:3225-3243 | And whatever the frame under way has room for is not left waiting in the backlog |
| LinkStream.LengthsInForce | emulator/qemu/cdj2000_main.c:3144-3163 | Over any run the frames an operation completes have the length last set |
| LinkStream.StatusTells | emulator/qemu/cdj2000_main.c:2448-2468 | Over any run the status register shows of a frame's bits those not acknowledged since it was handed over |
| LinkStream.AckEnds | emulator/qemu/cdj2000_main.c:2448-2468 | And an acknowledgment ends the frame exactly when it clears the last of them |
| LinkFifo.Machine.Free | emulator/qemu/cdj2000_main.c:3097-3117 | Handing over from the ring, or arming the gap timer |
| LinkFifo.Machine.TakeFrame | emulator/qemu/cdj2000_main.c:3163-3186 | A whole frame into the ring or straight to the guest |
| LinkFifo.Machine.Take | emulator/qemu/cdj2000_main.c:3144-3161 | Bytes gathered into a frame |
| LinkFifo.Machine.PumpBacklog | emulator/qemu/cdj2000_main.c:3225-3243 | The backlog loop in place |
| LinkFifo.Machine.Acknowledge | emulator/qemu/cdj2000_main.c:2448-2468 | The status register written back |
| LinkFifo.Machine.Watchdog | emulator/qemu/cdj2000_main.c:3134-3142 | The watchdog's callback |
| Crc.Compute | emulator/qemu/cdj2000_main.c:2579-2601 | The two shift loops compute the checksum function, a 16-bit word |
| Crc.CrcDivides | emulator/qemu/cdj2000_main.c:2579-2601 | message * x^16 = quotient * (x^16+x^12+x^5+1) + checksum, for every byte string |
| Crc.CrcIsRemainder | emulator/qemu/cdj2000_main.c:2579-2601 | The checksum is the one word below 2^16 of which that holds |
| Crc.ShiftDivides | emulator/qemu/cdj2000_main.c:2585-2592 | Every turn keeps the register below 2^24 and congruent to what has been shifted in |
| Crc.LinearBytes | emulator/qemu/cdj2000_main.c:2579-2601 | The checksum of the XOR of two messages of one length is the XOR of their checksums |
| Crc.BurstDetected | emulator/qemu/cdj2000_main.c:2579-2601 | Damage confined to 16 consecutive bits always changes the checksum |
| Requests.RestampChecks | emulator/qemu/cdj2000_main.c:2660-2663 | Re-stamping makes the checksum correct whatever it was, and changes no other byte |
| Requests.InboundChecks | emulator/qemu/cdj2000_main.c:3048-3057 | After the chain of rewriters a request has a correct checksum exactly if it had one before or some rewriter touched it |
| Requests.InboundMeans | emulator/qemu/cdj2000_main.c:2630-2813 | What the chain changes: no status repeat is left, the chosen kind is named, type, cursor and all other bytes stand |
| Requests.OthersPass | emulator/qemu/cdj2000_main.c:2630-2813 | A request under another cursor than the chosen one is left alone, but for a status repeat |
| Requests.GuardsStand | emulator/qemu/cdj2000_main.c:2630-2813 | Which rewriters fire does not depend on what an earlier one wrote |
| Requests.RowsChecks | emulator/qemu/cdj2000_main.c:2985-3046 | An answer keeps a correct checksum, and is held back exactly in the case asked for |
| Requests.RowsMatch | emulator/qemu/cdj2000_main.c:2994-3021 | Under match an answer carries the cursor of the request it answers; bytes 1 to 45 stand, and the checksum too where the cursor was right already, else it is correct |
| Requests.RowsChange | emulator/qemu/cdj2000_main.c:2985-3046 | Exactly which answers are changed, under match and under empty, and what an emptied one holds |
| Requests.Prepare | emulator/qemu/cdj2000_main.c:3048-3057 | The three rewriters on the copy of a frame, in place |
| DmaCopy.BlocksLand | emulator/qemu/cdj2000_main.c:1287-1312 | The byte an incrementing copy in blocks leaves at each offset, overlap included |
| DmaCopy.ChunksAreUnits | emulator/qemu/cdj2000_main.c:1287-1312 | The chunked copy equals copying unit by unit on every memory if and only if not (0 < dst - src < min(4096, length) and more than one unit fits in that) |
| DmaCopy.Run | emulator/qemu/cdj2000_main.c:1283-1312 | The copy loop: memory, and both address registers, in every mode and for every count |
| DmaCopy.FixedSourceFills | emulator/qemu/cdj2000_main.c:1290-1297 | A fixed source fills the destination with its one unit |
| DmaCopy.DownwardMoves | emulator/qemu/cdj2000_main.c:1300-1311 | Two decrementing addresses move a block to higher addresses undamaged |
| Mcasp.DoValid | emulator/qemu/cdj_c6747_mcasp.c:182-221 | Every write and every slot boundary keeps the registers valid |
| Mcasp.RunTraced | emulator/qemu/cdj_c6747_mcasp.c:86-93 | Over any sequence every buffer and shift register holds a word accepted for it, and sequence numbers rise at each serializer |
| Mcasp.NoWordTwice | emulator/qemu/cdj_c6747_mcasp.c:342-352 | Two words moved on are two different accepted words |
| McaspRuns.BoundaryDelivers | emulator/qemu/cdj_c6747_mcasp.c:342-353 | Delivery, over any run: at a boundary taken the shift register of each transmitting serializer gets the last word accepted for it, and the word is sent if it was accepted since that serializer was last served |
| McaspRuns.BoundaryUnderruns | emulator/qemu/cdj_c6747_mcasp.c:342-353 | And UNDERRUN is newly set exactly if some transmitting serializer has been given no word since |
| McaspRuns.WordsAreSent | emulator/qemu/cdj_c6747_mcasp.c:305-364 | Given at most one word between boundaries, a serializer sends exactly the words accepted for it, in order |
| McaspRuns.TakenIn | emulator/qemu/cdj_c6747_mcasp.c:327-363 | A boundary asks for words in the slots XTDM names, in DIT mode in all, of every transmitting serializer |
| Mcasp.SlotWaits | emulator/qemu/cdj_c6747_mcasp.c:355-363 | A boundary that is taken leaves every active serializer waiting for a word |
| Mcasp.DmaFills | emulator/qemu/cdj_c6747_mcasp.c:384-401 | Writes through the DMA port then fill the active serializers once each in increasing order, and the service event falls with the last |
| Mcasp.ExcessOnlyErrs | emulator/qemu/cdj_c6747_mcasp.c:384-401 | However many words more only set the DMA error: buffers, counts and every other register are as the first words left them |
| Mcasp.SlotsCycle | emulator/qemu/cdj_c6747_mcasp.c:327-338 | With the frame mode fixed and anything else written between boundaries, the accepted boundaries count the slots 0, 1, ..., slots - 1 and round again |
| Mcasp.NextTx | emulator/qemu/cdj_c6747_mcasp.c:78-84 | The next transmit serializer: the first from the place given, none skipped |
| McaspControl.RunOrderly | emulator/qemu/cdj_c6747_mcasp.c:223-260 | Over any run serializers held in reset ask for nothing, a frame generator held stands before slot 0, and the DMA port stands at an active serializer or past them all |
| McaspControl.LastBitWins | emulator/qemu/cdj_c6747_mcasp.c:223-231 | Over any run each GBLCTL bit is what the last accepted write through an alias that reaches it said |
| McaspControl.Resets | emulator/qemu/cdj_c6747_mcasp.c:232-260 | What holding and releasing each section does: requests cleared, every active serializer asked for a word, an underrun where words are missing |
| McaspControl.BoundaryWhen | emulator/qemu/cdj_c6747_mcasp.c:305-338 | A boundary is taken exactly with the transmit section released, a serializer on it, and a frame the slot lies in |
| McaspControl.LastSettings | emulator/qemu/cdj_c6747_mcasp.c:404-470 | Over any run slot mask, format and frame register are those last accepted |
| AudioFeed.FrameIsFed | emulator/qemu/cdj2000_nxs_hpi.c:463-484 | One frame from memory: where all serializers wait and the set on the event's channel moves a word per event, the board's loop serves exactly one event for each; they have then accepted the words at the set's next sources in order, memory stands, the set stands after that many events, and nothing more is asked |
| AudioFeed.BothAreFed | emulator/qemu/cdj2000_nxs_hpi.c:463-484 | Both instances, the first on channel 3 and the second on channel 5 |
| AudioFeed.AccessFeeds | emulator/qemu/cdj2000_nxs_hpi.c:491-521 | A guest access that leaves both instances asking, such as the write that releases them, feeds both before it is done |
| AudioFeed.FrameIsSent | emulator/qemu/cdj_c6747_mcasp.c:305-364 | And out: the next boundary taken puts each serializer's word of that frame into its shift register and sends it |
| Mcasp.Machine.MoveAll | emulator/qemu/cdj_c6747_mcasp.c:342-353 | The loop that moves every waiting word, in place; that no accepted word is left waiting is `McaspRuns.BoundaryDelivers` |
| Mcasp.Machine.Boundary | emulator/qemu/cdj_c6747_mcasp.c:305-364 | One slot boundary in place; a refusal changes nothing |
| Timer.ChainedForm | emulator/qemu/cdj_c6747_timer.c:219-258 | Chained: TIM34 = N mod (PRD34+1), TIM12 = (N div (PRD34+1)) mod (PRD12+1), and the number of matches |
| Timer.Gp64Form | emulator/qemu/cdj_c6747_timer.c:261-277 | 64-bit: the two halves count as one word modulo period + 1, with the number of matches |
| Timer.UnchainedLow | emulator/qemu/cdj_c6747_timer.c:167-182 | Unchained 1:2: counter, matches, and each compare register met once a period |
| Timer.UnchainedHigh | emulator/qemu/cdj_c6747_timer.c:183-216 | Unchained 3:4: one count each PSC34 + 1 clocks, the divisor its input rate is reported by |
| TimerModes.LowForm | emulator/qemu/cdj_c6747_timer.c:122-182 | The 1:2 half in every counting mode, in closed form: one-shot matches once and stands, continuous goes round, with reload takes the new period after its first match |
| TimerModes.HighForm | emulator/qemu/cdj_c6747_timer.c:183-216 | The 3:4 half in every counting mode, behind its prescaler |
| TimerModes.Form64 | emulator/qemu/cdj_c6747_timer.c:261-277 | The 64-bit timer in every counting mode |
| TimerModes.ChainedFirst | emulator/qemu/cdj_c6747_timer.c:219-258 | The chained timer in every counting mode, up to its first reload |
| TimerModes.ChainedReloads | emulator/qemu/cdj_c6747_timer.c:219-258 | At the end of the first round both halves take their reload values and begin again from zero |
| TimerModes.ClocksJoin | emulator/qemu/cdj_c6747_timer.c:155-278 | Clocks come to the same however they are grouped, so a run is carried on from any point |
| TimerModes.StandsStill | emulator/qemu/cdj_c6747_timer.c:80-100 | What stands still: a half not run, disabled, gated or clocked from outside, and the watchdog |
| Timer.Machine.Clock | emulator/qemu/cdj_c6747_timer.c:155-278 | One input clock in place, in every mode |
| Timer.Machine.Tick | emulator/qemu/cdj_c6747_timer.c:280-310 | Status bits latch on a match even where the interrupt is masked |
| Pll.LockWait | emulator/qemu/cdj_c6747_pll.c:10-18 | The loop finds the least w with w*w*M >= (2000*N)^2, after at most 2000*N turns |
| Pll.EnoughGrows | emulator/qemu/cdj_c6747_pll.c:12-15 | Every longer wait satisfies the bound too |
| Pll.CyclesExact | emulator/qemu/cdj_c6747_pll.c:102-127 | In PLL mode n cycles from phase 0 count exactly the whole input periods they take, and the lock and reset counters follow |
| Pll.CyclesAreSysclk | emulator/qemu/cdj_c6747_pll.c:58-84 | That count is n * OSCIN / SYSCLK1 rounded down, SYSCLK1 being the fraction reported |
| Pll.BypassExact | emulator/qemu/cdj_c6747_pll.c:114-117 | In bypass each cycle counts the divider's ratio |
| Pll.GoTakesEight | emulator/qemu/cdj_c6747_pll.c:130-131 | New dividers take effect together on the eighth cycle after GO |
| Pll.Machine.Clock | emulator/qemu/cdj_c6747_pll.c:102-132 | One cycle in place |
| Deck.ReportReadsBack | emulator/qemu/cdj2000_dsp_model.c:1485-1492 | 2 * frames + (samples >= 294) is pos_ms * 150 div 1000 for every position, modulo the 32-bit frame word |
| Deck.JobLands | emulator/qemu/cdj2000_dsp_model.c:2094-2105 | A job lands on the first millisecond of its half frame, clamped at the start, and reads back as exactly that half frame |
| Deck.JobsAdd | emulator/qemu/cdj2000_dsp_model.c:2094-2105 | Two jobs are one for their sum unless the first runs into the start |
| Deck.PlaysFromJob | emulator/qemu/cdj2000_dsp_model.c:2094-2105 | What is played after a job counts from the job |
| Deck.TempoKept | emulator/qemu/cdj2000_dsp_model.c:1447-1477 | Over k reports the position never runs ahead of the integral of rate over time and lags it by less than k ns |
| Deck.SpeedBounded | emulator/qemu/cdj2000_dsp_model.c:1447-1477 | Whatever rate words the guest supplies, the deck never runs backwards nor faster than three times nominal |
| Deck.LoopWraps | emulator/qemu/cdj2000_dsp_model.c:1478-1483 | A crossed loop end wraps into [IN, OUT), a whole number of loops back |
| Deck.SelectedLoops | emulator/qemu/cdj2000_dsp_model.c:311-348 | Whatever the loop select word, a deck that loops does so over a proper stretch and stays inside it |
| Deck.SelectsSlot | emulator/qemu/cdj2000_dsp_model.c:311-348 | Which stretch the word selects, and when none |
| Deck.Machine.Report | emulator/qemu/cdj2000_dsp_model.c:1431-1492 | The position report in place |
| Deck.Machine.TakeJob | emulator/qemu/cdj2000_dsp_model.c:2090-2110 | The job branch in place |
| Press.RunKeeps | emulator/qemu/cdj2000_input.c:935-992 | Over any frames and commands: clicks begun are the first waiting, exactly once, or dropped by clear; each is carried on at least two frames and for its hold, with at least two frames without a pulse between; that each is begun and ended is `PressService.EveryClickServed` |
| Press.ClicksAreEdges | emulator/qemu/cdj2000_input.c:935-992 | The rising edges put on a bit nothing else holds are exactly the clicks of that bit begun |
| PressService.RunTimed | emulator/qemu/cdj2000_input.c:935-992 | When things happen: a press ends on the first frame, from its second on, at which its hold has passed, and the gap on the first after a quiet frame at which it has |
| PressService.NextBegins | emulator/qemu/cdj2000_input.c:935-992 | The next waiting click begins on the frame after that, and on no earlier one |
| PressService.EveryClickServed | emulator/qemu/cdj2000_input.c:935-992 | Service: any run goes on, with enough frames late enough, to one in which every accepted click not dropped by clear has begun and ended |
| PressService.EdgesArePresses | emulator/qemu/cdj2000_input.c:935-992 | Without a clear the rising edges of a bit nothing else holds are then exactly the accepted presses of it |
| PressService.AcceptedAsAsked | emulator/qemu/cdj2000_input.c:597-622 | Over any run the accepted presses are those asked for, numbered from 1, each with the hold it names or the default of the moment, refused only while 32 wait |
| PressService.DrivenBits | emulator/qemu/cdj2000_input.c:950-970 | The panel's own bits stand while a press is driven on top of them |
| Press.AcksFound | emulator/qemu/cdj2000_input.c:246-251 | Asking after a press finds its record exactly while at most 31 presses have been accepted after it |
| PressService.RecordsTell | emulator/qemu/cdj2000_input.c:246-251 | What the record of a press says: the frames and times at which it went down and up |
| Press.ActiveForgotten | emulator/qemu/cdj2000_input.c:598-617 | The press being driven cannot be asked after exactly when 32 or more have been accepted since, as whenever the queue is full |
| Press.ForgottenRun | emulator/qemu/cdj2000_input.c:597-622 | A run that gets there: one press, one frame, 32 presses |
| Press.RampCloses | emulator/qemu/cdj2000_input.c:1014-1033 | A rotary turns one way, evenly, and stops on its target without passing it |
| Press.Machine.Enqueue | emulator/qemu/cdj2000_input.c:597-622 | The press command on the ring, refused when it is full |
| Press.Machine.Exchange | emulator/qemu/cdj2000_input.c:935-992 | One panel exchange in place: the payload gains the bits of the press under way |

## Left out

- Sockets, `poll`, accepting a connection and losing it: a wire is a FIFO of messages; a lost link is a flag that `Wire` raises and nothing follows.
- The 120-second and 10-second waits, wall clock, census, logging and checkpoints: no guest-visible behaviour.
- The GUI simulator and the Python hub: taken by the contract in the two file headers, the GUI as a symmetric end with the same quantum; the hub's replay frames are not modelled.
- 64-bit overflow of guest times in ns: times are unbounded integers, `INT64_MAX` as "no deadline" is `None`; `Wire` does model the 64-bit words.
- SenderOrder.SenderInOrder: tells frames apart by their bytes, since the protocol's frames name no sender; of two senders' byte-equal frames it says nothing.
- Edma: the queue maps, watermark, CCERR and QDMAQNUM registers, EMR and QEMR clearing, DRAE and QRAE writes, and all register reads; they steer nothing modelled.
- Edma.WriteReg: the channel register writes other than PaRAM words are on values only; the class has the PaRAM write, the event and the service loop in place.
- Edma's peripherals are an abstract port; of the McASP of `Mcasp` the DMA port, the event and the latch are tied to it.
- EdmaGrid: closed forms of STATIC sets and of A-synchronised sets that reload B with another count than they began with; the incremental update they run is in `Edma`.
- EdmaTransfer.AmongOthers: says nothing of the set after the last event, when another transfer may have rewritten the set it links to; `EdmaTransfer.WholeTransfer` does where nothing else is set off.
- Allocation failure in the engine and the write buffer: allocation succeeds.
- Spi: the plain register writer and reader are a parameter (any registers it may leave); serialized states with flag bytes above 1 or a phase out of range cannot be expressed; the fractional board clock that derives half ticks.
- Spi.AcceptIdle and the other timing lemmas hold for the one format and delay the strict path accepts.
- LinkFifo: the settings other than the default (hand-over on answer, one-shot receive, queue off), the interrupt controller and the flag register; frames are logged as received, before the rewriters of `Requests`.
- Requests: the environment variables are `Settings`; the static memory of the last request is a parameter.
- DmaCopy: the device roles of the controller (panel, USB, SD card, UHPI window) and memory-mapped I/O behind an address; memory is total over integer addresses, so decrementing below zero does not wrap to the top of a 64-bit space.
- Mcasp: pin registers, the receive side, clock rates, and the registers of `cdj_c6747_mcasp_control_valid` that hold a masked word and steer nothing; XSLOT of each instance separately.
- Timer: register reads and writes, Read Reset Mode, the watchdog counter; the loop over the two timers.
- TimerModes.ChainedFirst: one closed form up to the first reload; what follows is again such a form, from `TimerModes.ChainedReloads` and `TimerModes.ClocksJoin`, while the reload values stand.
- Pll: register writes, the operating-point check, and 32-bit wrap of the phase, which stays far below it.
- Deck: the transport states and seek commands that set a position from outside, and the words of the report beside frames and samples.
- Press: the text protocol, held bits, literal levels and media; the analogue fields only as their ramp; press identifiers are unbounded.
- The C674x interpreter, its loop buffer, USB, SDHI, ATA, GPIO, I2C, PSC, HPI, SYSCFG, cache and EMIFB register files: easy members or behaviour outside these files.
