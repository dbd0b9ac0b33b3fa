/**
 * `console_thread` as an object whose fields its loop, the device and the
 * emulator update in place. Each method is proved against the matching
 * function of ConsoleModel.
 */
module ConsoleThreads {
  import opened Registers
  import ConsoleModel

  class ConsoleThread {
    var queue: seq<u8>      // host input not yet read by the guest, oldest first
    var output: seq<u8>     // bytes handed to the host output path, in order
    var suspended: bool     // console input disabled

    /** The abstract value of this console. */
    function View(): ConsoleModel.Console
      reads this
    {
      ConsoleModel.Console(queue, output, suspended)
    }

    constructor ()
      ensures View() == ConsoleModel.Initial
    {
      queue, output, suspended := [], [], false;
    }

    /** `has_char` */
    function HasChar(): (b: bool)
      reads this
      ensures b <==> ConsoleModel.HasChar(View())
    {
      |queue| > 0
    }

    /** `read_char`: the oldest queued byte, or 0 when nothing is queued. */
    method ReadChar() returns (c: u8)
      modifies this
      ensures (View(), c) == ConsoleModel.ReadChar(old(View()))
    {
      if |queue| > 0 {
        c := queue[0];
        queue := queue[1..];
      } else {
        c := 0;
      }
    }

    /** `write_char`: hands the byte to the host output path. */
    method WriteChar(c: u8)
      modifies this
      ensures View() == ConsoleModel.WriteChar(old(View()), c)
    {
      output := output + [c];
    }

    /** The loop's stdin branch: queue the host byte unless input is suspended. */
    method ReceiveHostByte(c: u8)
      modifies this
      ensures View() == ConsoleModel.PushHostByte(old(View()), c)
    {
      if suspended {
        return;
      }
      queue := queue + [c];
    }

    /** `suspend` */
    method Suspend()
      modifies this
      ensures View() == ConsoleModel.Suspend(old(View()))
    {
      suspended := true;
    }

    /** `resume` */
    method Resume()
      modifies this
      ensures View() == ConsoleModel.Resume(old(View()))
    {
      suspended := false;
    }
  }
}
