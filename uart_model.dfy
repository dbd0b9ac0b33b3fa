/**
 * The UART register file as a pure state machine over the register record,
 * the console thread and the log of interrupt signals delivered to the
 * interrupt controller.
 *
 * The register map follows the code, which departs from the 16550 map in
 * three places: a load of IER falls through into the IIR case, IIR reports
 * "read line status" (0x06) rather than "receive ready" (0x04) when input is
 * pending, and while DLAB is set every store except to offsets 0 and 1 is
 * ignored, so DLAB can never be cleared again once set.
 */
module UartModel {
  import opened Registers
  import ConsoleModel

  datatype UartState = UartState(
    com: Com,                        // the register record
    irq: nat,                        // the interrupt line of this device
    console: ConsoleModel.Console,   // the console thread
    signals: seq<nat>)               // lines signalled to the interrupt controller, in order

  /** A freshly constructed device on line `irq`. */
  function Initial(irq: nat, signals: seq<nat>): (s: UartState)
    ensures s.com == Reset && IerMasked(s.com) && !Dlab(s.com)
    ensures s.irq == irq && s.signals == signals
    ensures s.console.queue == [] && s.console.output == [] && !s.console.suspended
  {
    UartState(Reset, irq, ConsoleModel.Initial, signals)
  }

  /**
   * `load_8`: the byte read at offset `va`, where `val` is the caller's byte
   * as it stood before the load (it is passed by reference and left as it was
   * when DLAB is set and `va` is neither 0 nor 1). Only RBR and the input
   * queue can change, and only by moving the oldest queued byte into RBR.
   */
  function Load8(s: UartState, va: nat, val: u8): (r: (UartState, u8))
    ensures r.0.irq == s.irq && r.0.signals == s.signals
    ensures r.0.console.output == s.console.output
    ensures r.0.console.suspended == s.console.suspended
    ensures r.0.com == s.com.(rbr := r.0.com.rbr)
    ensures r.0 == s || (ConsoleModel.HasChar(s.console) && [r.0.com.rbr] + r.0.console.queue == s.console.queue && r.1 == r.0.com.rbr)
  {
    if Dlab(s.com) then
      if va == RegDll then (s, s.com.dll)
      else if va == RegDlm then (s, s.com.dlm)
      else (s, val)
    else if va == RegRbr then
      if ConsoleModel.HasChar(s.console) then
        var (console', b) := ConsoleModel.ReadChar(s.console);
        (s.(com := s.com.(rbr := b), console := console'), b)
      else (s, s.com.rbr)
    // IER has no break: the value read from it is overwritten by the IIR case.
    else if va == RegIer || va == RegIir then (s, IirValue(ConsoleModel.HasChar(s.console)))
    else if va == RegLcr then (s, s.com.lcr)
    else if va == RegMcr then (s, s.com.mcr)
    else if va == RegLsr then (s, LsrValue(ConsoleModel.HasChar(s.console)))
    else if va == RegMsr then (s, MsrValue())
    else if va == RegScr then (s, s.com.scr)
    else (s, 0)
  }

  /**
   * `store_8`: writes `val` at offset `va`. The input queue, RBR, the
   * interrupt log and the suspended flag are never touched; the output stream
   * grows by at most the written byte; IER keeps only its defined bits; and a
   * set DLAB stays set.
   */
  function Store8(s: UartState, va: nat, val: u8): (r: UartState)
    ensures r.irq == s.irq && r.signals == s.signals
    ensures r.console.queue == s.console.queue && r.console.suspended == s.console.suspended
    ensures r.com.rbr == s.com.rbr
    ensures r.console.output == s.console.output || r.console.output == s.console.output + [val]
    ensures r.com.ier == s.com.ier || r.com.ier & !IerMask == 0
    ensures Dlab(s.com) ==> Dlab(r.com) && r.console.output == s.console.output
  {
    if Dlab(s.com) then
      if va == RegDll then s.(com := s.com.(dll := val))
      else if va == RegDlm then s.(com := s.com.(dlm := val))
      else s
    else if va == RegThr then
      s.(com := s.com.(thr := val), console := ConsoleModel.WriteChar(s.console, val))
    else if va == RegIer then s.(com := s.com.(ier := MaskIer(val)))
    else if va == RegLcr then s.(com := s.com.(lcr := val))
    else if va == RegMcr then s.(com := s.com.(mcr := val))
    else if va == RegScr then s.(com := s.com.(scr := val))
    // FCR (2), LSR (5), MSR (6) and offsets beyond 7: writes are ignored.
    else s
  }

  /**
   * `service`: signals the device's line when the received-data interrupt is
   * enabled and input is queued. Nothing but the interrupt log changes.
   */
  function Service(s: UartState): (r: UartState)
    ensures r.com == s.com && r.console == s.console && r.irq == s.irq
    ensures r.signals == s.signals || r.signals == s.signals + [s.irq]
  {
    if s.com.ier & IerErbda != 0 && ConsoleModel.HasChar(s.console) then s.(signals := s.signals + [s.irq]) else s
  }

  // ---------------------------------------------------------------------------
  // One access at a time.

  /** RBR read with DLAB clear: pops the queue head into RBR, or repeats RBR when empty. */
  lemma RbrRead(s: UartState, val: u8)
    requires !Dlab(s.com)
    ensures var (t, v) := Load8(s, RegRbr, val);
      if s.console.queue != [] then
        v == s.console.queue[0] && t.com == s.com.(rbr := v) && t.console.queue == s.console.queue[1..]
      else
        v == s.com.rbr && t == s
  {
  }

  /** LSR reads 0x20, plus 0x01 when input is queued; MSR always reads 0xA0. */
  lemma StatusReads(s: UartState, val: u8)
    requires !Dlab(s.com)
    ensures Load8(s, RegLsr, val) == (s, 0x20 | (if s.console.queue != [] then 0x01 else 0))
    ensures Load8(s, RegMsr, val) == (s, 0xA0)
  {
  }

  /**
   * Offsets 1 and 2 both read as IIR: 0x06 with input queued, 0x02 without.
   * The stored IER is never what is returned, and offsets past 7 read 0.
   */
  lemma IerReadsAsIir(s: UartState, val: u8, ier: u8, va: nat)
    requires !Dlab(s.com)
    ensures Load8(s, RegIer, val) == Load8(s, RegIir, val)
    ensures Load8(s, RegIer, val) == (s, if s.console.queue != [] then 0x06 else 0x02)
    ensures Load8(s.(com := s.com.(ier := ier)), RegIer, val).1 == Load8(s, RegIer, val).1
    ensures va > 7 ==> Load8(s, va, val) == (s, 0)
  {
  }

  /** Stored-register reads with DLAB clear return what was stored. */
  lemma StoredReads(s: UartState, val: u8)
    requires !Dlab(s.com)
    ensures Load8(s, RegLcr, val) == (s, s.com.lcr)
    ensures Load8(s, RegMcr, val) == (s, s.com.mcr)
    ensures Load8(s, RegScr, val) == (s, s.com.scr)
  {
  }

  /** With DLAB set, offsets 0 and 1 read the divisor latch and the rest leave `val` alone. */
  lemma DlabRead(s: UartState, va: nat, val: u8)
    requires Dlab(s.com)
    ensures Load8(s, va, val).0 == s
    ensures Load8(s, va, val).1 == if va == 0 then s.com.dll else if va == 1 then s.com.dlm else val
  {
  }

  /**
   * With DLAB set, a store to offset 0 or 1 changes only DLL or DLM; a store
   * anywhere else, LCR included, changes nothing, so DLAB stays set.
   */
  lemma DlabWrite(s: UartState, va: nat, val: u8)
    requires Dlab(s.com)
    ensures Store8(s, va, val) ==
      if va == 0 then s.(com := s.com.(dll := val))
      else if va == 1 then s.(com := s.com.(dlm := val))
      else s
  {
  }

  /**
   * With DLAB clear, a store to THR records the byte and sends exactly it to
   * the host; nothing else changes.
   */
  lemma ThrWrite(s: UartState, val: u8)
    requires !Dlab(s.com)
    ensures Store8(s, RegThr, val) ==
      s.(com := s.com.(thr := val), console := s.console.(output := s.console.output + [val]))
  {
  }

  /** Stores to FCR, LSR, MSR and to offsets past 7 have no effect. */
  lemma IgnoredWrites(s: UartState, va: nat, val: u8)
    requires va == RegFcr || va == RegLsr || va == RegMsr || va > 7
    ensures Store8(s, va, val) == s
  {
  }

  /**
   * With DLAB clear, the stored registers take the written value (IER masked
   * to 4 bits) and nothing else changes: no byte goes to the host.
   */
  lemma StoredWrites(s: UartState, val: u8)
    requires !Dlab(s.com)
    ensures Store8(s, RegIer, val) == s.(com := s.com.(ier := val & 0x0F))
    ensures Store8(s, RegLcr, val) == s.(com := s.com.(lcr := val))
    ensures Store8(s, RegMcr, val) == s.(com := s.com.(mcr := val))
    ensures Store8(s, RegScr, val) == s.(com := s.com.(scr := val))
  {
  }

  /** After any store IER holds only its four defined bits. */
  lemma StoreKeepsIerMasked(s: UartState, va: nat, val: u8)
    requires IerMasked(s.com)
    ensures Store8(s, va, val).com.ier & !0x0F == 0
  {
  }

  /** `service` signals iff the received-data interrupt is enabled and input is queued. */
  lemma ServiceSignals(s: UartState)
    ensures Service(s).signals == s.signals + [s.irq] <==> s.com.ier & 0x01 != 0 && s.console.queue != []
    ensures Service(s).signals == s.signals <==> !(s.com.ier & 0x01 != 0 && s.console.queue != [])
  {
  }
}
