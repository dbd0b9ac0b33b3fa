/**
 * Sequences of accesses: guest loads and stores, the emulator's `service`
 * calls, host bytes arriving at the console, and suspend/resume. `Run`
 * executes them in order and collects the bytes the loads return.
 */
module Traces {
  import opened Registers
  import ConsoleModel
  import opened UartModel

  datatype Op =
    | Load(va: nat, val: u8)
    | Store(va: nat, val: u8)
    | Serve
    | HostByte(b: u8)
    | Suspend
    | Resume

  /** One access; a load contributes the byte it returned. */
  function Step(s: UartState, op: Op): (r: (UartState, seq<u8>))
    ensures r.0.irq == s.irq
    ensures s.console.output <= r.0.console.output
    ensures s.signals <= r.0.signals
    ensures |r.1| == if op.Load? then 1 else 0
  {
    match op
    case Load(va, val) => var (t, v) := Load8(s, va, val); (t, [v])
    case Store(va, val) => (Store8(s, va, val), [])
    case Serve => (Service(s), [])
    case HostByte(b) => (s.(console := ConsoleModel.PushHostByte(s.console, b)), [])
    case Suspend => (s.(console := ConsoleModel.Suspend(s.console)), [])
    case Resume => (s.(console := ConsoleModel.Resume(s.console)), [])
  }

  /**
   * Runs `ops` in order. The interrupt line never changes, and the host
   * output and the interrupt log only ever grow at their ends.
   */
  function Run(s: UartState, ops: seq<Op>): (r: (UartState, seq<u8>))
    ensures r.0.irq == s.irq
    ensures s.console.output <= r.0.console.output
    ensures s.signals <= r.0.signals
    decreases |ops|
  {
    if ops == [] then (s, [])
    else
      var first := Step(s, ops[0]);
      var rest := Run(first.0, ops[1..]);
      (rest.0, first.1 + rest.1)
  }

  /** `n` reads of RBR (the caller's byte is 0 each time). */
  function RbrLoads(n: nat): (ops: seq<Op>)
    ensures |ops| == n
  {
    if n == 0 then [] else [Load(RegRbr, 0)] + RbrLoads(n - 1)
  }

  /** One THR store per byte, in order. */
  function ThrStores(bytes: seq<u8>): (ops: seq<Op>)
    ensures |ops| == |bytes|
  {
    if bytes == [] then [] else [Store(RegThr, bytes[0])] + ThrStores(bytes[1..])
  }

  /** One host byte arrival per byte, in order. */
  function HostBytes(bytes: seq<u8>): (ops: seq<Op>)
    ensures |ops| == |bytes|
  {
    if bytes == [] then [] else [HostByte(bytes[0])] + HostBytes(bytes[1..])
  }

  /** Running `a + b` is running `a` and then `b`; the loaded bytes concatenate. */
  lemma {:induction false} RunAppend(s: UartState, a: seq<Op>, b: seq<Op>)
    ensures Run(s, a + b) == (Run(Run(s, a).0, b).0, Run(s, a).1 + Run(Run(s, a).0, b).1)
    decreases |a|
  {
    if a == [] {
      assert a + b == b;
      assert [] + Run(s, b).1 == Run(s, b).1;
    } else {
      var (s1, v1) := Step(s, a[0]);
      assert (a + b)[1..] == a[1..] + b;
      RunAppend(s1, a[1..], b);
      var (t, w) := Run(s1, a[1..]);
      assert Run(s, a).1 == v1 + w;
      assert Run(s, a + b).1 == v1 + (w + Run(t, b).1);
      assert v1 + (w + Run(t, b).1) == (v1 + w) + Run(t, b).1;
    }
  }

  /** One access with DLAB set changes at most the divisor latch and the input queue's tail. */
  lemma DlabStep(s: UartState, op: Op)
    requires Dlab(s.com)
    ensures var t := Step(s, op).0;
      && t.com == s.com.(dll := t.com.dll, dlm := t.com.dlm)
      && t.console.output == s.console.output
      && s.console.queue <= t.console.queue
  {
    match op
    case Load(va, val) => DlabRead(s, va, val);
    case Store(va, val) => DlabWrite(s, va, val);
    case _ =>
  }

  /**
   * Once DLAB is set no access can clear it: every later store lands in the
   * divisor latch or nowhere, so LCR, RBR, THR, IER, MCR and SCR are frozen,
   * no byte ever reaches the host again, and no load consumes queued input.
   */
  lemma {:induction false} DlabSticky(s: UartState, ops: seq<Op>)
    requires Dlab(s.com)
    ensures var t := Run(s, ops).0;
      && Dlab(t.com)
      && t.com == s.com.(dll := t.com.dll, dlm := t.com.dlm)
      && t.console.output == s.console.output
      && s.console.queue <= t.console.queue
    decreases |ops|
  {
    if ops != [] {
      var s1 := Step(s, ops[0]).0;
      DlabStep(s, ops[0]);
      DlabSticky(s1, ops[1..]);
    }
  }

  /** IER holds only its four defined bits after any sequence of accesses. */
  lemma {:induction false} IerStaysMasked(s: UartState, ops: seq<Op>)
    requires IerMasked(s.com)
    ensures IerMasked(Run(s, ops).0.com)
    decreases |ops|
  {
    if ops != [] {
      IerStaysMasked(Step(s, ops[0]).0, ops[1..]);
    }
  }

  /**
   * With DLAB clear, THR stores send exactly the written bytes to the host,
   * in write order, and leave the input side alone.
   */
  lemma {:induction false} ThrWritesInOrder(s: UartState, bytes: seq<u8>)
    requires !Dlab(s.com)
    ensures var r := Run(s, ThrStores(bytes));
      && r.0.console.output == s.console.output + bytes
      && r.0.console.queue == s.console.queue
      && !Dlab(r.0.com)
      && r.1 == []
    decreases |bytes|
  {
    if bytes != [] {
      var ops := ThrStores(bytes);
      assert ops[0] == Store(RegThr, bytes[0]) && ops[1..] == ThrStores(bytes[1..]);
      ThrWrite(s, bytes[0]);
      var s1 := Store8(s, RegThr, bytes[0]);
      assert Step(s, ops[0]) == (s1, []);
      ThrWritesInOrder(s1, bytes[1..]);
      assert s.console.output + [bytes[0]] + bytes[1..] == s.console.output + bytes;
    }
  }

  /** The bytes of the THR stores in `ops`, in order. */
  function ThrBytes(ops: seq<Op>): seq<u8> {
    if ops == [] then []
    else (if ops[0].Store? && ops[0].va == RegThr then [ops[0].val] else []) + ThrBytes(ops[1..])
  }

  /** No access in `ops` stores to LCR a value with DLAB (bit 7) set. */
  predicate NoDlabSet(ops: seq<Op>) {
    forall i :: 0 <= i < |ops| ==> !(ops[i].Store? && ops[i].va == RegLcr && ops[i].val & LcrDlab != 0)
  }

  /** Any store other than to LCR leaves LCR as it was. */
  lemma StoreKeepsLcr(s: UartState, va: nat, val: u8)
    requires va != RegLcr
    ensures Store8(s, va, val).com.lcr == s.com.lcr
  {
  }

  /** One access that is not an LCR store: LCR is kept and only a THR store reaches the host. */
  lemma NonLcrStep(s: UartState, op: Op)
    requires !Dlab(s.com) && !(op.Store? && op.va == RegLcr)
    ensures Step(s, op).0.com.lcr == s.com.lcr
    ensures Step(s, op).0.console.output == s.console.output + ThrBytes([op])
  {
    assert [op][1..] == [];
    assert ThrBytes([op]) == if op.Store? && op.va == RegThr then [op.val] else [];
    match op
    case Store(va, val) =>
      StoreKeepsLcr(s, va, val);
      if va == RegThr {
        ThrWrite(s, val);
      } else if va == RegIer || va == RegMcr || va == RegScr {
        StoredWrites(s, val);
      } else {
        IgnoredWrites(s, va, val);
      }
    case Load(va, val) =>
    case _ =>
  }

  /**
   * One access that does not set DLAB, taken with DLAB clear: DLAB stays
   * clear and only a THR store reaches the host.
   */
  lemma DlabClearStep(s: UartState, op: Op)
    requires !Dlab(s.com) && !(op.Store? && op.va == RegLcr && op.val & LcrDlab != 0)
    ensures !Dlab(Step(s, op).0.com)
    ensures Step(s, op).0.console.output == s.console.output + ThrBytes([op])
  {
    if op.Store? && op.va == RegLcr {
      assert [op][1..] == [];
      assert ThrBytes([op]) == [];
      StoredWrites(s, op.val);
      var t := Step(s, op).0;
      assert t == s.(com := s.com.(lcr := op.val));
      assert t.com.lcr & LcrDlab == 0;
    } else {
      NonLcrStep(s, op);
      var t := Step(s, op).0;
      assert t.com.lcr == s.com.lcr;
    }
  }

  lemma AppendAssoc(a: seq<u8>, b: seq<u8>, c: seq<u8>)
    ensures (a + b) + c == a + (b + c)
  {
  }

  /**
   * With DLAB clear and no LCR store that sets it, any accesses whatever --
   * loads, `service`, host bytes, suspend/resume, stores to other registers,
   * LCR stores with bit 7 clear -- send to the host exactly the bytes of
   * their THR stores, in order.
   */
  lemma {:induction false} OutputIsThrBytes(s: UartState, ops: seq<Op>)
    requires !Dlab(s.com) && NoDlabSet(ops)
    ensures !Dlab(Run(s, ops).0.com)
    ensures Run(s, ops).0.console.output == s.console.output + ThrBytes(ops)
    decreases |ops|
  {
    if ops != [] {
      DlabClearStep(s, ops[0]);
      var s1 := Step(s, ops[0]).0;
      assert NoDlabSet(ops[1..]) by {
        forall i | 0 <= i < |ops[1..]|
          ensures !(ops[1..][i].Store? && ops[1..][i].va == RegLcr && ops[1..][i].val & LcrDlab != 0)
        {
          assert ops[1..][i] == ops[i + 1];
        }
      }
      OutputIsThrBytes(s1, ops[1..]);
      var head: seq<u8> := if ops[0].Store? && ops[0].va == RegThr then [ops[0].val] else [];
      assert ThrBytes([ops[0]]) == head by {
        assert [ops[0]][1..] == [];
      }
      assert ThrBytes(ops) == head + ThrBytes(ops[1..]);
      AppendAssoc(s.console.output, head, ThrBytes(ops[1..]));
    }
  }

  /**
   * Host bytes arriving while input is not suspended join the queue in
   * arrival order; while suspended the queue is left as it was.
   */
  lemma {:induction false} HostBytesQueued(s: UartState, bytes: seq<u8>)
    ensures var t := Run(s, HostBytes(bytes)).0;
      && t.com == s.com && t.console.output == s.console.output
      && t.console.suspended == s.console.suspended
      && t.console.queue == if s.console.suspended then s.console.queue else s.console.queue + bytes
    decreases |bytes|
  {
    if bytes != [] {
      var s1 := s.(console := ConsoleModel.PushHostByte(s.console, bytes[0]));
      HostBytesQueued(s1, bytes[1..]);
      assert s.console.queue + [bytes[0]] + bytes[1..] == s.console.queue + bytes;
    }
  }

  /**
   * With DLAB clear, reading RBR as many times as bytes are queued returns
   * exactly the queued bytes, oldest first, and empties the queue.
   */
  lemma {:induction false} RbrReadsInOrder(s: UartState)
    requires !Dlab(s.com)
    ensures var r := Run(s, RbrLoads(|s.console.queue|));
      && r.1 == s.console.queue
      && r.0.console.queue == []
      && r.0.console.output == s.console.output
      && !Dlab(r.0.com)
    decreases |s.console.queue|
  {
    if s.console.queue != [] {
      var s1 := Load8(s, RegRbr, 0).0;
      assert s1.console.queue == s.console.queue[1..];
      RbrReadsInOrder(s1);
      assert [s.console.queue[0]] + s.console.queue[1..] == s.console.queue;
    }
  }

  /**
   * The receive path end to end: bytes typed on the host while input is not
   * suspended come back from RBR reads after everything already queued, in
   * the order they were typed.
   */
  lemma ReceivePath(s: UartState, bytes: seq<u8>)
    requires !Dlab(s.com) && !s.console.suspended
    ensures var ops := HostBytes(bytes) + RbrLoads(|s.console.queue| + |bytes|);
      Run(s, ops).1 == s.console.queue + bytes && Run(s, ops).0.console.queue == []
  {
    var ops1 := HostBytes(bytes);
    RunAppend(s, ops1, RbrLoads(|s.console.queue| + |bytes|));
    HostBytesQueued(s, bytes);
    var t := Run(s, ops1).0;
    assert Run(s, ops1).1 == [] by { HostBytesProduceNothing(s, bytes); }
    RbrReadsInOrder(t);
  }

  lemma {:induction false} HostBytesProduceNothing(s: UartState, bytes: seq<u8>)
    ensures Run(s, HostBytes(bytes)).1 == []
    decreases |bytes|
  {
    if bytes != [] {
      HostBytesProduceNothing(s.(console := ConsoleModel.PushHostByte(s.console, bytes[0])), bytes[1..]);
    }
  }

  /**
   * The divisor-programming sequence of a 16550 driver as the code actually
   * handles it: LCR=0x83 sets DLAB, DLM=0x00 and DLL=0x01 program the divisor,
   * but the following LCR=0x03 is ignored while DLAB is set, so DLAB stays set,
   * the IER=0x01 write lands in DLM, `service` signals nothing although a byte
   * is queued, the LSR read leaves the caller's byte alone and the RBR read
   * returns DLL instead of the queued 'A'.
   */
  lemma DivisorSetupScenario(irq: nat)
    ensures var ops := [Store(RegLcr, 0x83), Store(RegDlm, 0x00), Store(RegDll, 0x01),
                        Store(RegLcr, 0x03), Store(RegIer, 0x01), HostByte(0x41), Serve,
                        Load(RegLsr, 0x00), Load(RegRbr, 0x00)];
      var r := Run(Initial(irq, []), ops);
      && r.0.com.lcr == 0x83 && Dlab(r.0.com)
      && r.0.com.dll == 0x01 && r.0.com.dlm == 0x01 && r.0.com.ier == 0
      && r.0.signals == []
      && r.0.console.queue == [0x41]
      && r.1 == [0x00, 0x01]
  {
    var ops := [Store(RegLcr, 0x83), Store(RegDlm, 0x00), Store(RegDll, 0x01),
                Store(RegLcr, 0x03), Store(RegIer, 0x01), HostByte(0x41), Serve,
                Load(RegLsr, 0x00), Load(RegRbr, 0x00)];
    var s0 := Initial(irq, []);
    var s1 := Step(s0, ops[0]).0;
    assert s1.com.lcr == 0x83 && Dlab(s1.com);
    var s2 := Step(s1, ops[1]).0;
    assert s2 == s1.(com := s1.com.(dlm := 0x00));
    var s3 := Step(s2, ops[2]).0;
    assert s3 == s2.(com := s2.com.(dll := 0x01));
    var s4 := Step(s3, ops[3]).0;
    assert s4 == s3;
    var s5 := Step(s4, ops[4]).0;
    assert s5 == s4.(com := s4.com.(dlm := 0x01));
    var s6 := Step(s5, ops[5]).0;
    assert s6.console.queue == [0x41] && s6.com == s5.com;
    var s7 := Step(s6, ops[6]).0;
    assert s7 == s6;
    assert Step(s7, ops[7]) == (s7, [0x00]);
    assert Step(s7, ops[8]) == (s7, [0x01]);
    assert ops[9..] == [];
    var none: seq<u8>, lsr: seq<u8>, rbr: seq<u8> := [], [0x00], [0x01];
    assert rbr + none == rbr && lsr + rbr == [0x00, 0x01] && none + [0x00, 0x01] == [0x00, 0x01];
    RunFrom(s7, ops, 8, s7, rbr, (s7, none));
    RunFrom(s7, ops, 7, s7, lsr, (s7, rbr));
    RunFrom(s6, ops, 6, s7, [], (s7, [0x00, 0x01]));
    RunFrom(s5, ops, 5, s6, [], (s7, [0x00, 0x01]));
    RunFrom(s4, ops, 4, s5, [], (s7, [0x00, 0x01]));
    RunFrom(s3, ops, 3, s4, [], (s7, [0x00, 0x01]));
    RunFrom(s2, ops, 2, s3, [], (s7, [0x00, 0x01]));
    RunFrom(s1, ops, 1, s2, [], (s7, [0x00, 0x01]));
    RunFrom(s0, ops, 0, s1, [], (s7, [0x00, 0x01]));
    assert ops[0..] == ops;
  }

  /** Running from the `k`-th access: its step, then the rest of the run. */
  lemma RunFrom(s: UartState, ops: seq<Op>, k: nat, t: UartState, v: seq<u8>, rest: (UartState, seq<u8>))
    requires k < |ops| && Step(s, ops[k]) == (t, v) && Run(t, ops[k + 1..]) == rest
    ensures Run(s, ops[k..]) == (rest.0, v + rest.1)
  {
    assert ops[k..][0] == ops[k] && ops[k..][1..] == ops[k + 1..];
  }
}
