/**
 * The console thread as an abstract value: the queue of host input bytes not
 * yet consumed by the guest, the log of bytes handed to the host output path,
 * and the flag that suspends console input.
 */
module ConsoleModel {
  import opened Registers

  datatype Console = Console(queue: seq<u8>, output: seq<u8>, suspended: bool)

  /** A freshly constructed console: nothing queued or written, not suspended. */
  const Initial: Console := Console([], [], false)

  /** `has_char`: input is waiting. */
  predicate HasChar(c: Console) {
    |c.queue| > 0
  }

  /**
   * `read_char`: pops the oldest queued byte, or yields 0 and leaves the
   * console alone when nothing is queued.
   */
  function ReadChar(c: Console): (r: (Console, u8))
    ensures r.0.output == c.output && r.0.suspended == c.suspended
    ensures HasChar(c) ==> [r.1] + r.0.queue == c.queue
    ensures !HasChar(c) ==> r.0 == c && r.1 == 0
  {
    if |c.queue| > 0 then (c.(queue := c.queue[1..]), c.queue[0]) else (c, 0)
  }

  /** `write_char`: the byte joins the host output stream, after every earlier one. */
  function WriteChar(c: Console, b: u8): (r: Console)
    ensures r.queue == c.queue && r.suspended == c.suspended
    ensures |r.output| == |c.output| + 1
    ensures c.output <= r.output && r.output[|c.output|] == b
  {
    c.(output := c.output + [b])
  }

  /**
   * One pass of the console loop that finds host input ready: unless input is
   * suspended, the byte is read and appended to the queue; while suspended the
   * byte is left unread and nothing changes.
   */
  function PushHostByte(c: Console, b: u8): (r: Console)
    ensures r.output == c.output && r.suspended == c.suspended
    ensures c.suspended ==> r.queue == c.queue
    ensures !c.suspended ==> |r.queue| == |c.queue| + 1 && c.queue <= r.queue && r.queue[|c.queue|] == b
  {
    if c.suspended then c else c.(queue := c.queue + [b])
  }

  /** `suspend`: stop queuing host input (terminal mode handling is not modelled). */
  function Suspend(c: Console): (r: Console)
    ensures r.suspended
    ensures r.queue == c.queue && r.output == c.output
  {
    c.(suspended := true)
  }

  /** `resume`: queue host input again. */
  function Resume(c: Console): (r: Console)
    ensures !r.suspended
    ensures r.queue == c.queue && r.output == c.output
  {
    c.(suspended := false)
  }

  lemma SuspendIdempotent(c: Console)
    ensures Suspend(Suspend(c)) == Suspend(c)
  {
  }

  lemma ResumeIdempotent(c: Console)
    ensures Resume(Resume(c)) == Resume(c)
  {
  }

  /** Suspending and then resuming loses no queued input and no output. */
  lemma SuspendResumeKeepsData(c: Console)
    ensures Resume(Suspend(c)) == c.(suspended := false)
  {
  }

  /** A read directly after a host byte was queued into an empty queue returns that byte. */
  lemma PushThenRead(c: Console, b: u8)
    requires !c.suspended && !HasChar(c)
    ensures ReadChar(PushHostByte(c, b)) == (c, b)
  {
  }
}
