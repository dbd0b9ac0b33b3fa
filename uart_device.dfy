/**
 * `uart_mmio_device`: the register record updated in place by guest loads
 * and stores, the console thread it owns, and the interrupt controller it
 * signals. Each method is proved against the matching function of UartModel.
 */
module UartDevices {
  import opened Registers
  import ConsoleModel
  import UartModel
  import opened ConsoleThreads

  /** The interrupt controller, reduced to the log of lines it was asked to signal. */
  class Plic {
    var signals: seq<nat>

    constructor ()
      ensures signals == []
    {
      signals := [];
    }

    /** `signal_irq` */
    method SignalIrq(irq: nat)
      modifies this
      ensures signals == old(signals) + [irq]
    {
      signals := signals + [irq];
    }
  }

  class UartMmioDevice {
    var com: Com
    const irq: nat
    const plic: Plic
    const console: ConsoleThread

    /** The abstract value of the device, its console and its interrupt controller. */
    function View(): UartModel.UartState
      reads this, console, plic
    {
      UartModel.UartState(com, irq, console.View(), plic.signals)
    }

    /** IER holds only its defined bits. */
    ghost predicate Valid()
      reads this
    {
      IerMasked(com)
    }

    /** Zeroed registers and a fresh console; the controller is shared with the caller. */
    constructor (plic: Plic, irq: nat)
      ensures Valid() && fresh(console)
      ensures this.plic == plic && this.irq == irq
      ensures View() == UartModel.Initial(irq, plic.signals)
    {
      this.plic := plic;
      this.irq := irq;
      com := Reset;
      console := new ConsoleThread();
    }

    /** `service`: signal the line when received-data interrupts are on and input waits. */
    method Service()
      requires Valid()
      modifies plic
      ensures Valid()
      ensures View() == UartModel.Service(old(View()))
    {
      if com.ier & IerErbda != 0 && console.HasChar() {
        plic.SignalIrq(irq);
      }
    }

    /** `load_8`: `val` is the caller's byte, returned updated. */
    method Load8(va: nat, val: u8) returns (r: u8)
      requires Valid()
      modifies this, console
      ensures Valid()
      ensures (View(), r) == UartModel.Load8(old(View()), va, val)
    {
      r := val;
      if com.lcr & LcrDlab != 0 {
        if va == RegDll {
          r := com.dll;
        } else if va == RegDlm {
          r := com.dlm;
        }
      } else if va == RegRbr {
        if console.HasChar() {
          var c := console.ReadChar();
          com := com.(rbr := c);
        }
        r := com.rbr;
      } else if va == RegIer || va == RegIir {
        if va == RegIer {
          r := com.ier;
        }
        // no break after IER: the IIR case runs too
        r := if console.HasChar() then IirRdLsr else IirTxRdy;
      } else if va == RegLcr {
        r := com.lcr;
      } else if va == RegMcr {
        r := com.mcr;
      } else if va == RegLsr {
        r := LsrRe | (if console.HasChar() then LsrDa else 0);
      } else if va == RegMsr {
        r := MsrDcd | MsrDsr;
      } else if va == RegScr {
        r := com.scr;
      } else {
        r := 0;
      }
    }

    /** `store_8` */
    method Store8(va: nat, val: u8)
      requires Valid()
      modifies this, console
      ensures Valid()
      ensures View() == UartModel.Store8(old(View()), va, val)
    {
      if com.lcr & LcrDlab != 0 {
        StoreDivisor(va, val);
      } else {
        StoreRegister(va, val);
      }
    }

    /** The DLAB-set half of `store_8`: only the divisor latch can change. */
    method StoreDivisor(va: nat, val: u8)
      requires Valid() && Dlab(com)
      modifies this
      ensures Valid()
      ensures View() == UartModel.Store8(old(View()), va, val)
    {
      if va == RegDll {
        com := com.(dll := val);
      } else if va == RegDlm {
        com := com.(dlm := val);
      }
    }

    /** The DLAB-clear half of `store_8`. */
    method StoreRegister(va: nat, val: u8)
      requires Valid() && !Dlab(com)
      modifies this, console
      ensures Valid()
      ensures View() == UartModel.Store8(old(View()), va, val)
    {
      if va == RegThr {
        com := com.(thr := val);
        console.WriteChar(val);
      } else if va == RegIer {
        com := com.(ier := MaskIer(val));
      } else if va == RegLcr {
        com := com.(lcr := val);
      } else if va == RegMcr {
        com := com.(mcr := val);
      } else if va == RegScr {
        com := com.(scr := val);
      }
      // FCR, LSR, MSR and offsets beyond 7: writes are ignored
    }
  }

  /**
   * A client of the objects: with DLAB never set, enabling the receive
   * interrupt and typing 'A' makes `service` signal the line, LSR shows data
   * available, RBR returns 'A', and LSR then shows the queue drained.
   */
  method ReceiveInterruptClient(irq: nat) {
    var plic := new Plic();
    var uart := new UartMmioDevice(plic, irq);
    uart.Store8(RegIer, 0x01);
    uart.console.ReceiveHostByte(0x41);
    uart.Service();
    assert plic.signals == [irq];
    var lsr := uart.Load8(RegLsr, 0x00);
    assert lsr == 0x21;
    var rbr := uart.Load8(RegRbr, 0x00);
    assert rbr == 0x41;
    lsr := uart.Load8(RegLsr, 0x00);
    assert lsr == 0x20;
  }
}
