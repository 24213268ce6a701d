/**
 * What the appender promises, proved about the functions of AppenderSpec:
 * the invariant every operation keeps (at most one live client), the three
 * ways a write can go, the error paths of start and append, idempotent stop,
 * and facts about whole sequences of calls.
 */
module AppenderProperties {
  import opened Wrappers
  import opened JavaInt
  import opened AppenderSpec

  // ---------------------------------------------------------------------------
  // The invariant

  /** While setSqs has not been used, at most one client is created and not shut down. */
  lemma AtMostOneLiveClient(s: State)
    requires Inv(s) && !s.injected
    ensures |Live(s)| <= 1
    ensures s.client.None? ==> Live(s) == {}
  {
  }

  lemma CloseKeepsInv(s: State)
    requires Inv(s)
    ensures Inv(Close(s))
    ensures !s.injected ==> Live(Close(s)) == {}
  {
    var t := Close(s);
    if s.client.Some? && !s.injected {
      var c := s.client.value;
      assert c in Live(s);
      forall i, j | 0 <= i < j < |t.shutDown| ensures t.shutDown[i] != t.shutDown[j] {
        if j == |s.shutDown| {
          assert t.shutDown[i] == s.shutDown[i];
        }
      }
      forall h ensures h in Live(t) <==> h in Live(s) && h != c {
        assert h in t.shutDown <==> h in s.shutDown || h == c;
        assert h in Live(s) <==> h in s.created && h !in s.shutDown;
      }
      assert Live(t) == Live(s) - {c};
    }
  }

  /** Handing a client-free appender a freshly created client keeps the invariant. */
  lemma NewClientKeepsInv(c: State)
    requires Inv(c) && c.client.None?
    ensures Inv(c.(client := Some(|c.created|), created := c.created + [|c.created|]))
  {
  }

  /** start keeps the invariant: the old client is shut down before a new one exists. */
  lemma StartKeepsInv(p: Platform, s: State, clientCreated: bool, init: EncodeRun)
    requires Inv(s)
    ensures Inv(Start(p, s, clientCreated, init))
  {
    if s.hasEncoder {
      CloseKeepsInv(s);
      var c := Close(s);
      if clientCreated {
        NewClientKeepsInv(c);
        WriteAllKeepsInv(p, c.(client := Some(|c.created|), created := c.created + [|c.created|]), init.writes);
      }
    }
  }

  lemma WriteAllKeepsInv(p: Platform, s: State, ws: seq<WriteCall>)
    requires Inv(s)
    ensures Inv(WriteAll(p, s, ws).state)
  {
  }

  lemma AppendKeepsInv(p: Platform, s: State, run: EncodeRun)
    requires Inv(s)
    ensures Inv(Append(p, s, run).state)
  {
  }

  lemma StepKeepsInv(p: Platform, s: State, op: Op)
    requires Inv(s)
    ensures Inv(Step(p, s, op))
  {
    match op
    case StartOp(c, init) => StartKeepsInv(p, s, c, init);
    case StopOp =>
      CloseKeepsInv(s);
      assert Live(Stop(s)) == Live(Close(s));
    case AppendOp(run) => AppendKeepsInv(p, s, run);
    case SendErrorOp(k, cause) =>
      if k in s.pending && k < |s.sent| {
        assert Live(SendError(s, k, cause)) == Live(s);
      }
    case SendSuccessOp(k) =>
      if k in s.pending {
        assert Live(SendSuccess(s, k)) == Live(s);
      }
    case SetMaxMessageSizeInKBOp(kb) => assert Live(s.(maxKB := kb)) == Live(s);
    case SetEncoderOp(b) => assert Live(s.(hasEncoder := b)) == Live(s);
    case SetQueueUrlOp(u) => assert Live(s.(queueUrl := u)) == Live(s);
    case SetSqsOp(c) =>
  }

  /**
   * Every sequence of calls from a state satisfying the invariant ends in one
   * that satisfies it; in particular, without setSqs, at most one client is
   * ever live and it is the one the appender holds.
   */
  lemma {:induction false} RunKeepsInv(p: Platform, s: State, ops: seq<Op>)
    requires Inv(s)
    ensures Inv(Run(p, s, ops))
    decreases |ops|
  {
    if ops != [] {
      StepKeepsInv(p, s, ops[0]);
      RunKeepsInv(p, Step(p, s, ops[0]), ops[1..]);
    }
  }

  /** Without setSqs, every reachable state has at most one live client. */
  lemma OneLiveClientAlways(p: Platform, name: string, ops: seq<Op>)
    requires forall i | 0 <= i < |ops| :: !ops[i].SetSqsOp?
    ensures |Live(Run(p, Init(name), ops))| <= 1
  {
    RunKeepsInv(p, Init(name), ops);
    NoSetSqsNotInjected(p, Init(name), ops);
    AtMostOneLiveClient(Run(p, Init(name), ops));
  }

  lemma {:induction false} NoSetSqsNotInjected(p: Platform, s: State, ops: seq<Op>)
    requires !s.injected
    requires forall i | 0 <= i < |ops| :: !ops[i].SetSqsOp?
    ensures !Run(p, s, ops).injected
    decreases |ops|
  {
    if ops != [] {
      assert !ops[0].SetSqsOp?;
      NoSetSqsNotInjected(p, Step(p, s, ops[0]), ops[1..]);
    }
  }

  // ---------------------------------------------------------------------------
  // The logs are append-only

  lemma StepExtendsLogs(p: Platform, s: State, op: Op)
    ensures s.status <= Step(p, s, op).status
    ensures s.sent <= Step(p, s, op).sent
    ensures s.created <= Step(p, s, op).created
    ensures s.shutDown <= Step(p, s, op).shutDown
  {
  }

  /** The status log, the submitted requests and the client logs only ever grow. */
  lemma {:induction false} RunExtendsLogs(p: Platform, s: State, ops: seq<Op>)
    ensures s.status <= Run(p, s, ops).status
    ensures s.sent <= Run(p, s, ops).sent
    ensures s.created <= Run(p, s, ops).created
    ensures s.shutDown <= Run(p, s, ops).shutDown
    decreases |ops|
  {
    if ops != [] {
      var t := Step(p, s, ops[0]);
      StepExtendsLogs(p, s, ops[0]);
      RunExtendsLogs(p, t, ops[1..]);
    }
  }

  /**
   * A call submits a request only as an append on a started appender with an
   * encoder, or as a start whose encoder init writes through the client the
   * start has just created (while the appender is not yet marked started).
   */
  lemma SendsOnlyThroughEncoder(p: Platform, s: State, op: Op)
    requires |Step(p, s, op).sent| > |s.sent|
    ensures (op.AppendOp? && s.started && s.hasEncoder) ||
            (op.StartOp? && s.hasEncoder && op.clientCreated)
  {
  }

  /**
   * A request's callback stays pending until that callback runs: no other
   * call, start and stop included, cancels it.
   */
  lemma PendingUntilCallback(p: Platform, s: State, op: Op, k: nat)
    requires k in s.pending
    requires !(op.SendErrorOp? && op.k == k) && !(op.SendSuccessOp? && op.k == k)
    ensures k in Step(p, s, op).pending
  {
  }

  // ---------------------------------------------------------------------------
  // The adapter's write

  /** write(int) does nothing. */
  lemma IntWriteIsNoop(p: Platform, s: State, b: int32)
    ensures Write(p, s, IntWrite(b)) == Outcome(s, false)
  {
  }

  /** A null or empty array changes nothing: no request, no status. */
  lemma EmptyWriteIsNoop(p: Platform, s: State, bytes: Option<seq<byte>>)
    requires bytes.None? || bytes.value == []
    ensures Write(p, s, ArrayWrite(bytes)) == Outcome(s, false)
  {
  }

  /** An array over the limit is never sent and adds exactly one warning naming the limit. */
  lemma OversizeIsDropped(p: Platform, s: State, bytes: seq<byte>)
    requires |bytes| > 0 && |bytes| > Limit(s.maxKB) as int
    ensures var r := Write(p, s, ArrayWrite(Some(bytes)));
      !r.threw && r.state.sent == s.sent && r.state.pending == s.pending &&
      r.state.status == s.status + [StatusEntry(Warn, Oversize(p.decode(bytes), s.maxKB))]
  {
  }

  /**
   * A non-empty array within the limit becomes exactly one request of its
   * decoded text to the queue URL, through the current client; with no
   * client the send throws a NullPointerException and nothing changes.
   */
  lemma WithinLimitIsSent(p: Platform, s: State, bytes: seq<byte>)
    requires 0 < |bytes| <= Limit(s.maxKB) as int
    ensures var r := Write(p, s, ArrayWrite(Some(bytes)));
      (s.client.Some? ==>
         !r.threw && r.state.status == s.status &&
         r.state.sent == s.sent + [Request(s.client.value, s.queueUrl, p.decode(bytes), |bytes|)] &&
         r.state.pending == s.pending + {|s.sent|}) &&
      (s.client.None? ==> r == Outcome(s, true))
  {
  }

  /** A buffer of exactly maxMessageSizeInKB * 1024 bytes is not rejected. */
  lemma ExactLimitIsSent(p: Platform, s: State, bytes: seq<byte>)
    requires 0 < s.maxKB < 0x20_0000 && |bytes| == s.maxKB as int * 1024
    requires s.client.Some?
    ensures |Write(p, s, ArrayWrite(Some(bytes))).state.sent| == |s.sent| + 1
  {
  }

  /**
   * The limit is computed in Java int arithmetic: at 2097152 KB it wraps to
   * -2147483648, so every non-empty array is dropped as oversized.
   */
  lemma LimitWrapsAround(p: Platform, s: State, bytes: seq<byte>)
    requires s.maxKB == 0x20_0000 && |bytes| > 0
    ensures Limit(s.maxKB) == -0x8000_0000
    ensures Write(p, s, ArrayWrite(Some(bytes))).state.sent == s.sent
  {
  }

  /**
   * Past 2097152 KB the wrapped limit can be anything a multiple of 1024 can
   * be: zero at 4194304 KB, a mere 1024 bytes at 4194305 KB, negative at the
   * largest setting.
   */
  lemma WrappedLimits()
    ensures Limit(0x40_0000) == 0
    ensures Limit(0x40_0001) == 1024
    ensures Limit(0x7fff_ffff) == -1024
  {
  }

  /** A failure callback adds exactly one warning naming the appender and the body; nothing else changes. */
  lemma SendErrorWarnsOnce(s: State, k: nat, cause: string)
    requires k in s.pending && k < |s.sent|
    ensures var t := SendError(s, k, cause);
      t.status == s.status + [StatusEntry(Warn, SendFailed(s.name, s.sent[k].body, cause))] &&
      t.started == s.started && t.client == s.client && t.sent == s.sent
  {
  }

  // ---------------------------------------------------------------------------
  // A sequence of writes

  /**
   * The writes of one encoder call, applied one after the other, submit
   * exactly the requests and log exactly the warnings that each write amounts
   * to on its own, in order, and throw exactly when some write meets a null
   * client (whose requests and warnings are those of the writes before it).
   */
  lemma WriteAllCollects(p: Platform, s: State, ws: seq<WriteCall>)
    ensures var r := WriteAll(p, s, ws);
      r.state.sent == s.sent + Requests(p, TargetOf(s), ws) &&
      r.state.status == s.status + Warnings(p, TargetOf(s), ws) &&
      r.threw == HitsNullClient(p, TargetOf(s), ws)
  {
    WriteAllSends(p, s, ws);
    WriteAllWarns(p, s, ws);
    WriteAllThrows(p, s, ws);
  }

  /** One write adds to the requests and the status exactly what its effect names. */
  lemma WriteApplies(p: Platform, s: State, w: WriteCall)
    ensures var e := EffectOf(p, TargetOf(s), w);
      var t := Write(p, s, w).state;
      t.sent == s.sent + (if e.Submitted? then [e.request] else []) &&
      t.status == s.status + (if e.Dropped? then [e.warning] else [])
  {
  }

  lemma {:induction false} WriteAllSends(p: Platform, s: State, ws: seq<WriteCall>)
    ensures WriteAll(p, s, ws).state.sent == s.sent + Requests(p, TargetOf(s), ws)
    decreases |ws|
  {
    if ws != [] {
      var g := TargetOf(s);
      var e := EffectOf(p, g, ws[0]);
      if !e.NullClient? {
        var t := Write(p, s, ws[0]).state;
        assert TargetOf(t) == g;
        WriteAllSends(p, t, ws[1..]);
        WriteApplies(p, s, ws[0]);
        assert Requests(p, g, ws) == (if e.Submitted? then [e.request] else []) + Requests(p, g, ws[1..]);
      }
    }
  }

  lemma {:induction false} WriteAllWarns(p: Platform, s: State, ws: seq<WriteCall>)
    ensures WriteAll(p, s, ws).state.status == s.status + Warnings(p, TargetOf(s), ws)
    decreases |ws|
  {
    if ws != [] {
      var g := TargetOf(s);
      var e := EffectOf(p, g, ws[0]);
      if !e.NullClient? {
        var t := Write(p, s, ws[0]).state;
        assert TargetOf(t) == g;
        assert WriteAll(p, s, ws) == WriteAll(p, t, ws[1..]);
        WriteAllWarns(p, t, ws[1..]);
        assert t.status == s.status + (if e.Dropped? then [e.warning] else []);
        assert Warnings(p, g, ws) == (if e.Dropped? then [e.warning] else []) + Warnings(p, g, ws[1..]);
      }
    }
  }

  lemma {:induction false} WriteAllThrows(p: Platform, s: State, ws: seq<WriteCall>)
    ensures WriteAll(p, s, ws).threw == HitsNullClient(p, TargetOf(s), ws)
    decreases |ws|
  {
    if ws != [] {
      var g := TargetOf(s);
      if !EffectOf(p, g, ws[0]).NullClient? {
        var t := Write(p, s, ws[0]).state;
        assert TargetOf(t) == g;
        assert WriteAll(p, s, ws) == WriteAll(p, t, ws[1..]);
        WriteAllThrows(p, t, ws[1..]);
        NullClientInTail(p, g, ws);
      }
    }
  }

  /** A first write that does not throw leaves the question to the rest. */
  lemma NullClientInTail(p: Platform, g: Target, ws: seq<WriteCall>)
    requires ws != [] && !EffectOf(p, g, ws[0]).NullClient?
    ensures HitsNullClient(p, g, ws) == HitsNullClient(p, g, ws[1..])
  {
  }

  // ---------------------------------------------------------------------------
  // Appending

  /**
   * An append on a started appender with an encoder submits the requests and
   * logs the warnings of the encoder's writes; an IOException after them adds
   * one error and stops the appender; a write that meets a null client lets
   * its NullPointerException out and leaves the appender started.
   */
  lemma AppendCollects(p: Platform, s: State, run: EncodeRun)
    requires s.started && s.hasEncoder
    ensures var r := Append(p, s, run);
      var g := TargetOf(s);
      r.threw == (HitsNullClient(p, g, run.writes) || run.failure == Some(Unchecked)) &&
      r.state.sent == s.sent + Requests(p, g, run.writes) &&
      r.state.status == s.status + Warnings(p, g, run.writes) +
        (if !r.threw && run.IOFails()
         then [StatusEntry(Error, EncodeIOFailure(run.failure.value.cause))] else []) &&
      PendingGainsNew(s, r.state) &&
      r.state.started == (r.threw || !run.IOFails())
  {
    WriteAllCollects(p, s, run.writes);
  }

  /**
   * One event encoded as one non-empty array within the limit, on a started
   * appender with a client: exactly one request of its decoded text, through
   * that client to the queue URL; no status, still started.
   */
  lemma AppendSendsEvent(p: Platform, s: State, bytes: seq<byte>)
    requires s.started && s.hasEncoder && s.client.Some?
    requires 0 < |bytes| <= Limit(s.maxKB) as int
    ensures var r := Append(p, s, EncodeRun([ArrayWrite(Some(bytes))], None));
      !r.threw && r.state.started && r.state.status == s.status &&
      r.state.sent == s.sent + [Request(s.client.value, s.queueUrl, p.decode(bytes), |bytes|)]
  {
    var ws := [ArrayWrite(Some(bytes))];
    assert ws[1..] == [];
    WriteAllCollects(p, s, ws);
  }

  /** Every sequence of appends on an appender that is not started leaves it exactly as it was. */
  lemma {:induction false} AppendsWhileStoppedAreNoops(p: Platform, s: State, ops: seq<Op>)
    requires !s.started
    requires forall i | 0 <= i < |ops| :: ops[i].AppendOp?
    ensures Run(p, s, ops) == s
    decreases |ops|
  {
    if ops != [] {
      assert ops[0].AppendOp?;
      assert Step(p, s, ops[0]) == s;
      AppendsWhileStoppedAreNoops(p, s, ops[1..]);
    }
  }

  /**
   * An IOException from the encoder stops the appender and adds exactly one
   * error after whatever the completed writes logged; appends after it are
   * no-ops.
   */
  lemma {:induction false} IOFailureDisables(p: Platform, s: State, run: EncodeRun, later: seq<Op>)
    requires s.started && s.hasEncoder && run.IOFails()
    requires !WriteAll(p, s, run.writes).threw
    requires forall i | 0 <= i < |later| :: later[i].AppendOp?
    ensures var w := WriteAll(p, s, run.writes).state;
      var t := Append(p, s, run).state;
      !t.started && t.client == s.client &&
      t.status == w.status + [StatusEntry(Error, EncodeIOFailure(run.failure.value.cause))] &&
      Run(p, t, later) == t
  {
    AppendsWhileStoppedAreNoops(p, Append(p, s, run).state, later);
  }

  // ---------------------------------------------------------------------------
  // Lifecycle

  /** start without an encoder adds one error and touches neither `started` nor the client. */
  lemma StartWithoutEncoder(p: Platform, s: State, clientCreated: bool, init: EncodeRun)
    requires !s.hasEncoder
    ensures var t := Start(p, s, clientCreated, init);
      t.status == s.status + [StatusEntry(Error, NoEncoder(s.name))] &&
      t.started == s.started && t.client == s.client && t.created == s.created &&
      t.shutDown == s.shutDown
  {
  }

  /**
   * A start that throws after the new client was assigned logs one error and
   * leaves `started` as it was, holding the new client.
   */
  lemma StartFailsAfterClient(p: Platform, s: State, init: EncodeRun)
    requires Inv(s) && !s.started && s.hasEncoder && EndpointHost(p, s.queueUrl).None?
    ensures var t := Start(p, s, true, init);
      !t.started && t.client.Some? && t.client.value !in s.created &&
      t.status == s.status + [StatusEntry(Error, StartFailure(NoEndpointHost))]
  {
  }

  /**
   * start on an appender that is already started, whose new client cannot be
   * constructed, logs one error and stays started with no client: the next
   * non-empty write within the limit throws a NullPointerException.
   */
  lemma FailedRestartStaysStarted(p: Platform, s: State, init: EncodeRun, bytes: seq<byte>)
    requires s.started && s.hasEncoder
    requires 0 < |bytes| <= Limit(s.maxKB) as int
    ensures var t := Start(p, s, false, init);
      t.started && t.client.None? &&
      t.status == s.status + [StatusEntry(Error, StartFailure(ClientCreationFailed))] &&
      Append(p, t, EncodeRun([ArrayWrite(Some(bytes))], None)).threw
  {
  }

  /**
   * Once start has a client and an endpoint, encoder.init's writes go out
   * through the new client exactly as an append's would; an IOException from
   * init then adds one error after their warnings.
   */
  lemma StartCollectsInitWrites(p: Platform, s: State, init: EncodeRun)
    requires s.hasEncoder && EndpointHost(p, s.queueUrl).Some?
    ensures var t := Start(p, s, true, init);
      var g := Target(Some(|s.created|), s.queueUrl, s.maxKB);
      t.client == Some(|s.created|) &&
      t.sent == s.sent + Requests(p, g, init.writes) &&
      t.status == s.status + Warnings(p, g, init.writes) +
        (if init.failure.Some? then [StatusEntry(Error, StartFailure(EncoderInitFailed))] else [])
  {
    var c := Close(s);
    var d := c.(client := Some(|c.created|), created := c.created + [|c.created|]);
    WriteAllCollects(p, d, init.writes);
  }

  /**
   * A header the encoder writes at init is submitted even though the appender
   * is not started yet, and stays submitted when init then throws and the
   * start fails.
   */
  lemma HeaderSentByFailedStart(p: Platform, s: State, header: seq<byte>, cause: string)
    requires !s.started && s.hasEncoder && EndpointHost(p, s.queueUrl).Some?
    requires 0 < |header| <= Limit(s.maxKB) as int
    ensures var t := Start(p, s, true, EncodeRun([ArrayWrite(Some(header))], Some(IOFailure(cause))));
      !t.started &&
      t.sent == s.sent + [Request(|s.created|, s.queueUrl, p.decode(header), |header|)] &&
      t.status == s.status + [StatusEntry(Error, StartFailure(EncoderInitFailed))]
  {
    var ws := [ArrayWrite(Some(header))];
    assert ws[1..] == [];
    StartCollectsInitWrites(p, s, EncodeRun(ws, Some(IOFailure(cause))));
  }

  /** stop twice is stop once: the second call shuts down nothing and logs nothing. */
  lemma StopIsIdempotent(s: State)
    ensures Stop(Stop(s)) == Stop(s)
  {
  }

  /** stop before any start shuts nothing down and logs nothing. */
  lemma StopBeforeStart(name: string)
    ensures Stop(Init(name)) == Init(name)
  {
  }

  // ---------------------------------------------------------------------------
  // Concrete scenarios

  /** With a 1 KB limit, a 2000-byte event is not sent and one warning names the 1 KB limit. */
  lemma OversizeScenario(p: Platform, s: State, bytes: seq<byte>)
    requires s.maxKB == 1 && |bytes| == 2000
    ensures var r := Write(p, s, ArrayWrite(Some(bytes)));
      r.state.sent == s.sent && |r.state.status| == |s.status| + 1 &&
      r.state.status[|s.status|] == StatusEntry(Warn, Oversize(p.decode(bytes), 1))
  {
  }

  /** Start with a usable queue URL, stop, then append: the append is a no-op. */
  lemma StartStopAppendScenario(p: Platform, name: string, url: string, run: EncodeRun)
    requires p.hostOf(url).Some?
    ensures var s0 := Init(name).(hasEncoder := true, queueUrl := Some(url));
      var s1 := Start(p, s0, true, EncodeRun([], None));
      var s2 := Stop(s1);
      s1.started && s1.client.Some? && !s2.started && s2.client.None? &&
      Live(s2) == {} && Append(p, s2, run) == Outcome(s2, false)
  {
  }
}
