/**
 * The register set of the emulated 16550-style UART: the byte type, the
 * register offsets, the bit masks the register file uses, the `com` record
 * and the values of the registers that are derived rather than stored.
 */
module Registers {

  /** An 8-bit register or data byte. */
  type u8 = bv8

  // Register offsets (the low three bits of the device-relative address).
  // RBR, THR and DLL share offset 0; IER and DLM share offset 1; IIR and FCR
  // share offset 2.
  const RegRbr: nat := 0
  const RegThr: nat := 0
  const RegDll: nat := 0
  const RegIer: nat := 1
  const RegDlm: nat := 1
  const RegIir: nat := 2
  const RegFcr: nat := 2
  const RegLcr: nat := 3
  const RegMcr: nat := 4
  const RegLsr: nat := 5
  const RegMsr: nat := 6
  const RegScr: nat := 7

  // Interrupt Enable Register bits.
  const IerErbda: u8 := 0x01   // received data available
  const IerMask: u8 := 0x0F    // the four defined bits

  // Interrupt Identity Register values.
  const IirNopend: u8 := 0x01  // no interrupt pending
  const IirTxRdy: u8 := 0x02   // transmit ready
  const IirRxRdy: u8 := 0x04   // receive ready
  const IirRdLsr: u8 := 0x06   // read line status

  // Line Control Register: the Divisor Latch Access Bit.
  const LcrDlab: u8 := 0x80

  // Line Status Register bits.
  const LsrDa: u8 := 0x01      // data available
  const LsrRe: u8 := 0x20      // THR is empty

  // Modem Status Register bits.
  const MsrDsr: u8 := 0x20     // data set ready
  const MsrDcd: u8 := 0x80     // data carrier detect

  /**
   * The device's register record. `iir`, `fcr`, `lsr` and `msr` exist in the
   * record but are never written: their values as seen by a load are derived.
   */
  datatype Com = Com(
    rbr: u8, thr: u8, ier: u8, iir: u8, fcr: u8, lcr: u8,
    mcr: u8, lsr: u8, msr: u8, scr: u8, dll: u8, dlm: u8)

  /** The record as the constructor zero-initialises it. */
  const Reset: Com := Com(0, 0, 0, 0, 0, 0, 0, 0, 0, 0, 0, 0)

  /** DLAB set: offsets 0 and 1 address the divisor latch. */
  predicate Dlab(c: Com) {
    c.lcr & LcrDlab != 0
  }

  /** IER holds only its four defined bits. */
  predicate IerMasked(c: Com) {
    c.ier & !IerMask == 0
  }

  /** The value stored into IER by a write of `v`. */
  function MaskIer(v: u8): (r: u8)
    ensures r & !IerMask == 0
    ensures r & IerMask == v & IerMask
    ensures r & IerErbda == v & IerErbda
  {
    v & IerMask
  }

  /** The value a load of IIR reports. */
  function IirValue(hasInput: bool): (r: u8)
    ensures r & IirNopend == 0
    ensures r != IirRxRdy
    ensures (r & 0x04 != 0) <==> hasInput
    ensures r & !IirRdLsr == 0 && r & IirTxRdy != 0
  {
    if hasInput then IirRdLsr else IirTxRdy
  }

  /** The value a load of LSR reports. */
  function LsrValue(hasInput: bool): (r: u8)
    ensures r & LsrRe != 0
    ensures (r & LsrDa != 0) <==> hasInput
    ensures r & !(LsrRe | LsrDa) == 0
  {
    LsrRe | (if hasInput then LsrDa else 0)
  }

  /** The value a load of MSR reports: carrier detect and data set ready. */
  function MsrValue(): (r: u8)
    ensures r & MsrDcd != 0 && r & MsrDsr != 0
    ensures r & !(MsrDcd | MsrDsr) == 0
  {
    MsrDcd | MsrDsr
  }

  lemma MsrIsA0()
    ensures MsrValue() == 0xA0
  {
  }

  lemma ResetIsValid()
    ensures IerMasked(Reset) && !Dlab(Reset)
  {
  }
}
