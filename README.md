# 16550-style UART register file of the rv8 emulator, in Dafny

This project models the UART device of the rv8 RISC-V emulator
(`src/emu/device-uart.h`): the memory-mapped register file
`uart_mmio_device` that a guest drives with byte loads and stores, and the
part of `console_thread` the register file sees — the queue of host input
bytes, the byte path to the host terminal, and the flag that suspends console
input. The interrupt controller is reduced to the log of lines it was asked to
signal.

Layout:

- `registers.dfy` (`Registers`): the byte type (`bv8`), register offsets, the
  bit masks the code uses, the `com` record (`Com`) with its zeroed initial
  value, and the derived values of IER writes, IIR, LSR and MSR.
- `console_model.dfy` (`ConsoleModel`): the console as a value — queue,
  output stream, suspended flag — and `has_char`, `read_char`, `write_char`,
  the loop's stdin branch, `suspend` and `resume` as functions.
- `uart_model.dfy` (`UartModel`): `load_8`, `store_8` and `service` as pure
  transitions of the device state, and one lemma per register behaviour.
- `traces.dfy` (`Traces`): runs of many accesses and the properties that span
  them (DLAB is sticky, IER stays masked, THR bytes reach the host in order,
  in a mixed run with DLAB clear the host receives exactly the THR bytes,
  host bytes come back from RBR in order, a driver's divisor set-up sequence).
- `console_thread.dfy` (`ConsoleThreads.ConsoleThread`) and `uart_device.dfy`
  (`UartDevices.UartMmioDevice`, `UartDevices.Plic`): the objects whose fields
  the code updates in place; every method is proved to leave the object in
  the state the matching pure function gives. `UartDevices.ReceiveInterruptClient`
  drives the objects through the receive path: enable the received-data
  interrupt, a host byte arrives, `service` signals, LSR shows data, RBR
  returns the byte, LSR shows the queue drained.

The model follows the code where it departs from the 16550 register map it
cites at src/emu/device-uart.h:204:

- a load of offset 1 (IER) has no `break` and falls through into the IIR
  case, so it returns the IIR value and the stored IER is never readable
  (`UartModel.IerReadsAsIir`);
- IIR reports 0x06 ("read line status") rather than 0x04 ("receive ready")
  when input is pending (`Registers.IirValue`);
- while DLAB is set, `store_8` ignores every offset but 0 and 1, so a write of
  LCR cannot clear DLAB once it is set (`Traces.DlabSticky`). The usual driver
  sequence LCR=0x83, DLM, DLL, LCR=0x03, IER=0x01 therefore leaves the device
  in divisor mode: IER=0x01 lands in DLM, `service` never signals, and RBR
  reads return DLL (`Traces.DivisorSetupScenario`). Restoring normal banking
  after DLAB is set is not possible in this code and is not claimed;
- while console input is suspended the loop skips the stdin branch without
  reading, so the host byte is left unread rather than read and dropped
  (`ConsoleModel.PushHostByte`).

## Model

| member | source | states |
|---|---|---|
| `Registers.MaskIer` | src/emu/device-uart.h:408-409 | the stored IER has no bit outside the 4 defined ones and keeps the written value's defined bits, the received-data enable included |
| `Registers.IirValue` | src/emu/device-uart.h:358-360 | IIR never reports "no interrupt pending" or 0x04; it has bit 1 set, no bit outside 0x06, and bit 2 set exactly when input is queued, so it is exactly 0x06 or 0x02 |
| `Registers.LsrValue` | src/emu/device-uart.h:367-369 | LSR always has "THR empty" (0x20), has "data available" (0x01) iff input is queued, and no other bit |
| `Registers.MsrValue` | src/emu/device-uart.h:370-372 | MSR reports carrier detect and data set ready and nothing else |
| `Registers.MsrIsA0` | src/emu/device-uart.h:291-294 | the MSR value is 0xA0 |
| `Registers.ResetIsValid` | src/emu/device-uart.h:307 | the zeroed register record has a masked IER and DLAB clear |
| `ConsoleModel.ReadChar` | src/emu/device-uart.h:171-174 | with input queued, the returned byte followed by the remaining queue is the old queue; with none, 0 and nothing changes; output and flag untouched |
| `ConsoleModel.WriteChar` | src/emu/device-uart.h:177-182 | the host output grows by exactly the written byte at its end; input side untouched |
| `ConsoleModel.PushHostByte` | src/emu/device-uart.h:63-70 | not suspended: the host byte is appended at the end of the queue; suspended: the queue is unchanged |
| `ConsoleModel.Suspend` | src/emu/device-uart.h:137-141 | sets the suspended flag and keeps queue and output |
| `ConsoleModel.Resume` | src/emu/device-uart.h:144-148 | clears the suspended flag and keeps queue and output |
| `ConsoleModel.SuspendIdempotent` | src/emu/device-uart.h:137-141 | suspending twice is suspending once |
| `ConsoleModel.ResumeIdempotent` | src/emu/device-uart.h:144-148 | resuming twice is resuming once |
| `ConsoleModel.SuspendResumeKeepsData` | src/emu/device-uart.h:137-148 | suspend then resume loses no queued input and no output |
| `ConsoleModel.PushThenRead` | src/emu/device-uart.h:165-174 | a byte queued into an empty queue is what the next read returns, leaving the queue empty again |
| `UartModel.Initial` | src/emu/device-uart.h:301-310 | a new device has the all-zero register record (so IER masked and DLAB clear), the given line and interrupt log, an empty queue and output, input not suspended |
| `UartModel.Load8` | src/emu/device-uart.h:337-384 | a load changes nothing but RBR and the queue, and changes those only by moving the queue head into RBR and returning it |
| `UartModel.Store8` | src/emu/device-uart.h:386-433 | a store never touches the queue, RBR or the interrupt log; the host output grows by at most the written byte; IER stays within its 4 bits; a set DLAB stays set and then nothing is output |
| `UartModel.Service` | src/emu/device-uart.h:312-317 | service changes no register and no queue, and at most appends the device's line to the interrupt log |
| `UartModel.RbrRead` | src/emu/device-uart.h:352-355 | DLAB clear, offset 0: queue head returned, stored in RBR and removed (only it); empty queue: old RBR returned, nothing changes |
| `UartModel.StatusReads` | src/emu/device-uart.h:367-372 | DLAB clear: LSR reads exactly 0x20, or 0x21 with input queued; MSR reads 0xA0; nothing changes |
| `UartModel.IerReadsAsIir` | src/emu/device-uart.h:356-360 | DLAB clear: offsets 1 and 2 read alike, 0x06 with input queued and 0x02 without, independent of the stored IER; offsets past 7 read 0 |
| `UartModel.StoredReads` | src/emu/device-uart.h:361-375 | DLAB clear: LCR, MCR and SCR read back their stored values without side effect |
| `UartModel.DlabRead` | src/emu/device-uart.h:339-349 | DLAB set: offsets 0 and 1 read DLL and DLM, every other offset leaves the caller's byte unchanged; no state changes |
| `UartModel.DlabWrite` | src/emu/device-uart.h:391-401 | DLAB set: offset 0 or 1 updates only DLL or DLM; any other offset, LCR included, changes nothing |
| `UartModel.ThrWrite` | src/emu/device-uart.h:404-407 | DLAB clear: a THR store sets THR and appends exactly that byte to the host output; nothing else changes |
| `UartModel.IgnoredWrites` | src/emu/device-uart.h:411-430 | stores to offsets 2, 5, 6 and past 7 change nothing |
| `UartModel.StoredWrites` | src/emu/device-uart.h:408-428 | DLAB clear: IER takes the value masked to 0x0F; LCR, MCR and SCR take the raw value; nothing else in the device state changes and no byte goes to the host |
| `UartModel.StoreKeepsIerMasked` | src/emu/device-uart.h:408-409 | after any store, IER & ~0x0F == 0 |
| `UartModel.ServiceSignals` | src/emu/device-uart.h:312-317 | service appends the line to the log iff IER bit 0 is set and input is queued, and otherwise leaves the log alone |
| `Traces.Run` | src/emu/device-uart.h:312-433 | trace combinator over `service`, `load_8` and `store_8` (and the console steps): over any run the interrupt line is fixed and the host output and the interrupt log only grow at their ends |
| `Traces.DlabSticky` | src/emu/device-uart.h:391-401 | once DLAB is set, after any further accesses DLAB is still set, every register but DLL/DLM is unchanged, no byte reaches the host and no queued input is consumed |
| `Traces.IerStaysMasked` | src/emu/device-uart.h:408-409 | IER holds only its 4 defined bits after any run |
| `Traces.ThrWritesInOrder` | src/emu/device-uart.h:404-407 | DLAB clear: a run of THR stores sends exactly the written bytes to the host, in order, with no drop or duplication |
| `Traces.StoreKeepsLcr` | src/emu/device-uart.h:386-433 | a store to any offset other than 3 leaves LCR as it was, with DLAB set or clear |
| `Traces.NonLcrStep` | src/emu/device-uart.h:312-433 | DLAB clear, one access that is not an LCR store: LCR is kept and the host output gains exactly the byte of a THR store, or nothing |
| `Traces.DlabClearStep` | src/emu/device-uart.h:312-433 | DLAB clear, one access that is not an LCR store with bit 7 set: DLAB stays clear and the host output gains exactly the byte of a THR store, or nothing |
| `Traces.OutputIsThrBytes` | src/emu/device-uart.h:404-415 | DLAB clear and no LCR store with bit 7 set in a run of any loads, stores (LCR=0x03 included), services and console steps: DLAB stays clear and the host output gains exactly the THR-stored bytes, in order |
| `Traces.HostBytesQueued` | src/emu/device-uart.h:63-70 | host bytes arriving while not suspended join the queue in arrival order; while suspended the queue is unchanged |
| `Traces.RbrReadsInOrder` | src/emu/device-uart.h:352-355 | DLAB clear: as many RBR reads as queued bytes return exactly those bytes oldest first and empty the queue |
| `Traces.ReceivePath` | src/emu/device-uart.h:165-174 | host bytes typed while not suspended come back from RBR reads after what was queued before, in typing order |
| `Traces.DivisorSetupScenario` | src/emu/device-uart.h:386-401 | LCR=0x83, DLM=0, DLL=1, LCR=0x03, IER=1, host 'A', service, LSR and RBR reads: DLAB stays set, DLM=1, IER=0, no interrupt, the reads give 0x00 (caller's byte) and 0x01 (DLL), 'A' stays queued |
| `ConsoleThreads.ConsoleThread.constructor` | src/emu/device-uart.h:24-32 | a new console has an empty queue and output and is not suspended |
| `ConsoleThreads.ConsoleThread.HasChar` | src/emu/device-uart.h:165-168 | true iff input is queued |
| `ConsoleThreads.ConsoleThread.ReadChar` | src/emu/device-uart.h:171-174 | the fields become what `ConsoleModel.ReadChar` gives and the byte it returns is returned |
| `ConsoleThreads.ConsoleThread.WriteChar` | src/emu/device-uart.h:177-182 | the fields become what `ConsoleModel.WriteChar` gives |
| `ConsoleThreads.ConsoleThread.ReceiveHostByte` | src/emu/device-uart.h:63-70 | the fields become what `ConsoleModel.PushHostByte` gives |
| `ConsoleThreads.ConsoleThread.Suspend` | src/emu/device-uart.h:137-141 | the fields become what `ConsoleModel.Suspend` gives |
| `ConsoleThreads.ConsoleThread.Resume` | src/emu/device-uart.h:144-148 | the fields become what `ConsoleModel.Resume` gives |
| `UartDevices.Plic.SignalIrq` | src/emu/device-uart.h:315 | the signalled line is appended to the controller's log |
| `UartDevices.UartMmioDevice.constructor` | src/emu/device-uart.h:301-310 | zeroed registers, a fresh console, the given controller and line: the state `UartModel.Initial` describes |
| `UartDevices.UartMmioDevice.Service` | src/emu/device-uart.h:312-317 | device, console and controller end in the state `UartModel.Service` gives |
| `UartDevices.UartMmioDevice.Load8` | src/emu/device-uart.h:337-380 | device and console end in the state, and the byte returned is the one, that `UartModel.Load8` gives |
| `UartDevices.UartMmioDevice.Store8` | src/emu/device-uart.h:386-433 | keeps IER masked; device and console end in the state `UartModel.Store8` gives |
| `UartDevices.UartMmioDevice.StoreDivisor` | src/emu/device-uart.h:391-401 | the DLAB-set switch of `store_8` ends in the state `UartModel.Store8` gives |
| `UartDevices.UartMmioDevice.StoreRegister` | src/emu/device-uart.h:402-432 | the DLAB-clear switch of `store_8` ends in the state `UartModel.Store8` gives |

## Left out

- The console loop's thread, `poll` on the pipe and stdin, pipe creation and `fcntl`, signal masking, the `running` flag and `shutdown`/`join` (src/emu/device-uart.h:39-118, 151-162): concurrency and host I/O. Only the loop's stdin branch is modelled, as one step that receives one host byte.
- The relay of bytes from the pipe to the host terminal: `write_char` is modelled as appending to the host output stream, which the loop relays in the same order.
- Host I/O failures (a failed `read` or `write` is logged and skipped): the model assumes each host byte transfer succeeds.
- termios raw/canonical switching in `configure_console`, `restore_console`, `suspend` and `resume`: host terminal state; only the suspended flag is kept.
- `queue_atomic`, its atomicity and its 1024-entry capacity: the queue is an unbounded sequence, so full-queue behaviour is not modelled.
- MMIO tracing through `proc.log` and `printf`, and `print_registers`: observability only.
- The `memory_segment` base registration and the interrupt controller: foreign; `signal_irq` becomes an append to a log of lines.
- The MMIO offset type is an unbounded natural number rather than the emulator's unsigned machine word; every offset past 7 takes the default branch either way.
