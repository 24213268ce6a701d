/**
 * The observable state of an SQS log appender and what each of its operations
 * does to it, as functions on values. The class in module SqsAppender is
 * proved to follow these functions step by step; the lemmas in module
 * AppenderProperties are stated about them.
 */
module AppenderSpec {
  import opened Wrappers
  import opened JavaInt

  /** An SQS async client object, identified by the order in which start created it. */
  type HandleId = nat

  /**
   * What the model takes from the Java platform instead of computing it:
   * `new String(bytes)` with the default charset, and
   * `new URI(url).getHost()` for a non-null url, which fails (an exception or
   * a null host) with None.
   */
  datatype Platform = Platform(decode: seq<byte> -> string, hostOf: string -> Option<string>)

  /** One call the encoder makes on the output stream adapter. */
  datatype WriteCall =
    | IntWrite(b: int32)                    // write(int)
    | ArrayWrite(bytes: Option<seq<byte>>)  // write(byte[]); None is a null array

  /** How an encoder call can end other than normally. */
  datatype EncodeFailure =
    | IOFailure(cause: string)   // an IOException, with its description
    | Unchecked                  // a RuntimeException, from the layout say

  /**
   * What an encoder call (`doEncode(event)`, with the event's
   * `prepareForDeferredProcessing` before it, or `init`) does: the writes it
   * makes on the adapter, in order, and then possibly an exception.
   */
  datatype EncodeRun = EncodeRun(writes: seq<WriteCall>, failure: Option<EncodeFailure>)
  {
    predicate IOFails()
    {
      failure.Some? && failure.value.IOFailure?
    }
  }

  datatype Level = Warn | Error

  /** Which step of start threw. */
  datatype StartCause = ClientCreationFailed | NoEndpointHost | EncoderInitFailed

  /** The diagnostics the appender reports through the status manager. */
  datatype Message =
    | NoEncoder(appender: string)
    | EncodeIOFailure(cause: string)
    | Oversize(text: string, limitKB: int32)
    | SendFailed(appender: string, text: string, cause: string)
    | StartFailure(step: StartCause)

  datatype StatusEntry = StatusEntry(level: Level, msg: Message)

  /** A SendMessageRequest handed to a client, with the byte length of its payload. */
  datatype Request = Request(client: HandleId, queueUrl: Option<string>, body: string, size: nat)

  /**
   * The appender's fields, the status log, the requests submitted so far and
   * the bookkeeping of client objects: `created` lists every client start made,
   * `shutDown` every shutdown() call, `pending` the requests whose completion
   * callback has not run, and `injected` records that setSqs was ever used.
   */
  datatype State = State(
    name: string,
    started: bool,
    hasEncoder: bool,
    client: Option<HandleId>,
    queueUrl: Option<string>,
    maxKB: int32,
    status: seq<StatusEntry>,
    sent: seq<Request>,
    pending: set<nat>,
    created: seq<HandleId>,
    shutDown: seq<HandleId>,
    injected: bool)

  /** A new state, and whether the operation threw an unchecked exception out of it. */
  datatype Outcome = Outcome(state: State, threw: bool)

  const DefaultMaxKB: int32 := 256

  // ---------------------------------------------------------------------------
  // Client ownership

  function ClientSet(c: Option<HandleId>): set<HandleId>
  {
    if c.Some? then {c.value} else {}
  }

  /** Clients that were created and never shut down. */
  function Live(s: State): set<HandleId>
  {
    set h | h in s.created && h !in s.shutDown
  }

  predicate Distinct(xs: seq<HandleId>)
  {
    forall i, j | 0 <= i < j < |xs| :: xs[i] != xs[j]
  }

  /**
   * The appender owns its clients: the only live one is the one it holds,
   * and every shutdown() was on a client it created, once.
   */
  ghost predicate Owned(s: State)
  {
    Live(s) == ClientSet(s.client) &&
    (forall h | h in s.shutDown :: h in s.created) &&
    Distinct(s.shutDown)
  }

  /** The invariant every reachable state satisfies. */
  ghost predicate Inv(s: State)
  {
    (forall i | 0 <= i < |s.created| :: s.created[i] == i) &&
    (forall k | k in s.pending :: k < |s.sent|) &&
    (!s.injected ==> Owned(s))
  }

  // ---------------------------------------------------------------------------
  // Relations between two states, used in the contracts below

  /** Nothing but the status log, the submitted requests and the pending callbacks differ. */
  predicate SameLifecycle(s: State, t: State)
  {
    t.name == s.name && t.started == s.started && t.hasEncoder == s.hasEncoder &&
    t.client == s.client && t.queueUrl == s.queueUrl && t.maxKB == s.maxKB &&
    t.created == s.created && t.shutDown == s.shutDown && t.injected == s.injected
  }

  /** The settings start and stop leave alone: name, encoder, queue URL, size limit, setSqs use. */
  predicate SameConfig(s: State, t: State)
  {
    t.name == s.name && t.hasEncoder == s.hasEncoder && t.queueUrl == s.queueUrl &&
    t.maxKB == s.maxKB && t.injected == s.injected
  }

  /** Every entry t's status log adds to s's is a warning. */
  predicate WarnsOnly(s: State, t: State)
  {
    s.status <= t.status && forall i | |s.status| <= i < |t.status| :: t.status[i].level == Warn
  }

  /** t's status log adds to s's some warnings and then exactly one error. */
  predicate EndsInOneError(s: State, t: State)
  {
    |t.status| > |s.status| && t.status[..|s.status|] == s.status &&
    t.status[|t.status| - 1].level == Error &&
    forall i | |s.status| <= i < |t.status| - 1 :: t.status[i].level == Warn
  }

  /** t's status log is s's with exactly one entry of the given level appended. */
  predicate LogsOne(s: State, t: State, level: Level)
  {
    |t.status| == |s.status| + 1 && t.status[..|s.status|] == s.status &&
    t.status[|s.status|].level == level
  }

  /** A request that s would submit: non-empty, within the limit, through s's client to s's queue. */
  predicate Fits(r: Request, s: State)
  {
    0 < r.size <= Limit(s.maxKB) as int && s.client == Some(r.client) && r.queueUrl == s.queueUrl
  }

  /**
   * t's pending callbacks are s's, none dropped, plus one for each request t
   * added: every request handed to sendMessageAsync gets its callback.
   */
  ghost predicate PendingGainsNew(s: State, t: State)
  {
    forall k: nat :: k in t.pending <==> k in s.pending || |s.sent| <= k < |t.sent|
  }

  // ---------------------------------------------------------------------------
  // Construction

  /** A new appender: not started, no encoder, no client, the default size limit. */
  function Init(name: string): (s: State)
    ensures Inv(s) && Live(s) == {}
    ensures !s.started && !s.hasEncoder && s.client.None? && s.status == [] && s.sent == []
    ensures s.queueUrl.None? && s.pending == {}
    ensures Limit(s.maxKB) == 256 * 1024
  {
    State(name, false, false, None, None, DefaultMaxKB, [], [], {}, [], [], false)
  }

  // ---------------------------------------------------------------------------
  // The output stream adapter

  /** `maxMessageSizeInKB * 1024` evaluated in Java `int` arithmetic. */
  function Limit(maxKB: int32): (r: int32)
    ensures 0 <= maxKB < 0x20_0000 ==> r as int == maxKB as int * 1024
    ensures maxKB <= 0 ==> r <= 0 || maxKB < -0x20_0000
  {
    Mul(maxKB, 1024)
  }

  /**
   * Where the adapter's writes go. None of these fields changes while the
   * encoder runs, so every write of one encoder call sees the same target.
   */
  datatype Target = Target(client: Option<HandleId>, queueUrl: Option<string>, maxKB: int32)

  function TargetOf(s: State): Target
  {
    Target(s.client, s.queueUrl, s.maxKB)
  }

  /** What one write amounts to, before it is applied to the state. */
  datatype Effect =
    | Ignored                         // write(int), a null or an empty array
    | Dropped(warning: StatusEntry)   // over the limit: a warning instead of a send
    | NullClient                      // sendMessageAsync on a null client
    | Submitted(request: Request)     // one request through the client

  /**
   * The adapter's write(byte[]) decision: nothing for a null or empty array;
   * a warning for one longer than the limit; otherwise one request of the
   * decoded text to the queue URL, or a NullPointerException without a client.
   */
  function EffectOf(p: Platform, g: Target, w: WriteCall): (e: Effect)
    ensures e.Dropped? ==> e.warning.level == Warn
    ensures e.NullClient? ==> g.client.None?
    ensures e.Submitted? ==>
              0 < e.request.size <= Limit(g.maxKB) as int &&
              g.client == Some(e.request.client) && e.request.queueUrl == g.queueUrl
    ensures w.IntWrite? || w.bytes.None? || w.bytes.value == [] <==> e.Ignored?
  {
    match w
    case IntWrite(_) => Ignored
    case ArrayWrite(bytes) =>
      if bytes.None? || |bytes.value| == 0 then Ignored
      else
        var msg := p.decode(bytes.value);
        if |bytes.value| > Limit(g.maxKB) as int then Dropped(StatusEntry(Warn, Oversize(msg, g.maxKB)))
        else if g.client.None? then NullClient
        else Submitted(Request(g.client.value, g.queueUrl, msg, |bytes.value|))
  }

  /** One write on the adapter: its effect applied to the state. */
  function Write(p: Platform, s: State, w: WriteCall): (r: Outcome)
    ensures SameLifecycle(s, r.state)
    ensures s.status <= r.state.status && |r.state.status| <= |s.status| + 1
    ensures s.sent <= r.state.sent && |r.state.sent| <= |s.sent| + 1
    ensures forall i | |s.status| <= i < |r.state.status| :: r.state.status[i].level == Warn
    ensures forall i | |s.sent| <= i < |r.state.sent| :: Fits(r.state.sent[i], s)
    ensures PendingGainsNew(s, r.state)
    ensures r.threw ==> r.state == s && s.client.None?
  {
    match EffectOf(p, TargetOf(s), w)
    case Ignored => Outcome(s, false)
    case Dropped(e) => Outcome(s.(status := s.status + [e]), false)
    case NullClient => Outcome(s, true)
    case Submitted(req) => Outcome(s.(sent := s.sent + [req], pending := s.pending + {|s.sent|}), false)
  }

  /** The requests a sequence of writes submits, up to the first that throws. */
  function Requests(p: Platform, g: Target, ws: seq<WriteCall>): seq<Request>
    decreases |ws|
  {
    if ws == [] then []
    else match EffectOf(p, g, ws[0])
      case Submitted(req) => [req] + Requests(p, g, ws[1..])
      case NullClient => []
      case _ => Requests(p, g, ws[1..])
  }

  /** The warnings a sequence of writes logs, up to the first that throws. */
  function Warnings(p: Platform, g: Target, ws: seq<WriteCall>): seq<StatusEntry>
    decreases |ws|
  {
    if ws == [] then []
    else match EffectOf(p, g, ws[0])
      case Dropped(e) => [e] + Warnings(p, g, ws[1..])
      case NullClient => []
      case _ => Warnings(p, g, ws[1..])
  }

  /** Some write of the sequence throws a NullPointerException. */
  predicate HitsNullClient(p: Platform, g: Target, ws: seq<WriteCall>)
  {
    exists i | 0 <= i < |ws| :: EffectOf(p, g, ws[i]).NullClient?
  }

  /** The writes of one doEncode, in order, up to the first that throws. */
  function WriteAll(p: Platform, s: State, ws: seq<WriteCall>): (r: Outcome)
    ensures SameLifecycle(s, r.state)
    ensures s.status <= r.state.status && s.sent <= r.state.sent
    ensures forall i | |s.status| <= i < |r.state.status| :: r.state.status[i].level == Warn
    ensures forall i | |s.sent| <= i < |r.state.sent| :: Fits(r.state.sent[i], s)
    ensures PendingGainsNew(s, r.state)
    ensures r.threw ==> s.client.None?
    decreases |ws|
  {
    if ws == [] then Outcome(s, false)
    else
      var r0 := Write(p, s, ws[0]);
      if r0.threw then r0 else WriteAll(p, r0.state, ws[1..])
  }

  /** The completion callback of request k reports a failure. */
  function SendError(s: State, k: nat, cause: string): (t: State)
    requires k in s.pending && k < |s.sent|
    ensures SameLifecycle(s, t) && t.sent == s.sent && t.pending == s.pending - {k}
    ensures LogsOne(s, t, Warn)
    ensures t.status[|s.status|].msg == SendFailed(s.name, s.sent[k].body, cause)
  {
    s.(status := s.status + [StatusEntry(Warn, SendFailed(s.name, s.sent[k].body, cause))],
       pending := s.pending - {k})
  }

  /** The completion callback of request k reports success. */
  function SendSuccess(s: State, k: nat): (t: State)
    requires k in s.pending
    ensures SameLifecycle(s, t) && t.sent == s.sent && t.status == s.status
    ensures t.pending == s.pending - {k}
  {
    s.(pending := s.pending - {k})
  }

  // ---------------------------------------------------------------------------
  // Appending an event

  /**
   * subAppend: when started, encode the event through the adapter; an
   * IOException from the encoder stops the appender with one error. A null
   * encoder, a write that throws, or any other unchecked exception from the
   * encoder lets the exception out, logging nothing and keeping `started`.
   */
  function SubAppend(p: Platform, s: State, run: EncodeRun): (r: Outcome)
    ensures !s.started ==> r == Outcome(s, false)
    ensures r.state.client == s.client && r.state.created == s.created
    ensures r.state.shutDown == s.shutDown && r.state.injected == s.injected
    ensures r.state.queueUrl == s.queueUrl && r.state.maxKB == s.maxKB && r.state.name == s.name
    ensures r.state.hasEncoder == s.hasEncoder
    ensures r.state.started ==> s.started
    ensures s.status <= r.state.status && s.sent <= r.state.sent
    ensures PendingGainsNew(s, r.state)
    ensures |r.state.sent| > |s.sent| ==> s.started && s.hasEncoder
    ensures s.started && !s.hasEncoder ==> r == Outcome(s, true)
    ensures r.state.started <==> s.started && (r.threw || !run.IOFails())
    ensures s.started && run.failure == Some(Unchecked) ==> r.threw
  {
    if !s.started then Outcome(s, false)
    else if !s.hasEncoder then Outcome(s, true)
    else
      var w := WriteAll(p, s, run.writes);
      if w.threw then w
      else match run.failure
        case None => w
        case Some(Unchecked) => Outcome(w.state, true)
        case Some(IOFailure(cause)) =>
          var t := w.state;
          Outcome(t.(started := false, status := t.status + [StatusEntry(Error, EncodeIOFailure(cause))]), false)
  }

  /** append: a no-op unless started, then subAppend (which checks again). */
  function Append(p: Platform, s: State, run: EncodeRun): (r: Outcome)
    ensures !s.started ==> r.state == s && !r.threw
    ensures s.started ==> r == SubAppend(p, s, run)
  {
    if !s.started then Outcome(s, false) else SubAppend(p, s, run)
  }

  // ---------------------------------------------------------------------------
  // Lifecycle

  /** close: shut the client down if there is one, and drop it. */
  function Close(s: State): (t: State)
    ensures t.client.None? && SameConfig(s, t)
    ensures t.status == s.status && t.sent == s.sent && t.started == s.started
    ensures s.client.None? ==> t == s
    ensures s.client.Some? ==> t.shutDown == s.shutDown + [s.client.value]
    ensures t.created == s.created && t.injected == s.injected && t.pending == s.pending
  {
    match s.client
    case None => s
    case Some(h) => s.(client := None, shutDown := s.shutDown + [h])
  }

  /** stop: close, then mark the appender not started. Never logs. */
  function Stop(s: State): (t: State)
    ensures !t.started && t.client.None? && SameConfig(s, t)
    ensures t.status == s.status && t.sent == s.sent
    ensures t.created == s.created && t.pending == s.pending
    ensures t.shutDown == s.shutDown + if s.client.Some? then [s.client.value] else []
  {
    Close(s).(started := false)
  }

  /** The host `new URI(queueUrl).getHost()` yields; None when that throws or gives null. */
  function EndpointHost(p: Platform, queueUrl: Option<string>): Option<string>
  {
    if queueUrl.None? then None else p.hostOf(queueUrl.value)
  }

  /** Whether start completes: an encoder is set and none of its steps throws. */
  predicate StartSucceeds(p: Platform, s: State, clientCreated: bool, init: EncodeRun)
  {
    s.hasEncoder && clientCreated && EndpointHost(p, s.queueUrl).Some? && init.failure.None?
  }

  function StartFailed(s: State, cause: StartCause): State
  {
    s.(status := s.status + [StatusEntry(Error, StartFailure(cause))])
  }

  /**
   * encoder.init on a new adapter, once the new client and its endpoint are
   * set: its writes (a header, say) go out through the new client; if it then
   * throws, one error; otherwise the appender is marked started.
   */
  function InitEncoder(p: Platform, d: State, init: EncodeRun): (t: State)
    requires d.client.Some?
    ensures t.started == (d.started || init.failure.None?)
    ensures SameConfig(d, t) && t.client == d.client && t.created == d.created && t.shutDown == d.shutDown
    ensures d.sent <= t.sent && PendingGainsNew(d, t)
    ensures forall i | |d.sent| <= i < |t.sent| :: Fits(t.sent[i], d)
    ensures init.failure.None? ==> WarnsOnly(d, t)
    ensures init.failure.Some? ==> EndsInOneError(d, t)
  {
    var w := WriteAll(p, d, init.writes);
    if w.threw || init.failure.Some? then StartFailed(w.state, EncoderInitFailed)
    else w.state.(started := true)
  }

  /**
   * The steps of start once the new client is assigned: set its endpoint
   * from the queue URL's host (which may throw), then init the encoder.
   */
  function StartWithClient(p: Platform, d: State, init: EncodeRun): (t: State)
    requires d.client.Some?
    ensures t.started == (d.started || (EndpointHost(p, d.queueUrl).Some? && init.failure.None?))
    ensures SameConfig(d, t) && t.client == d.client && t.created == d.created && t.shutDown == d.shutDown
    ensures d.sent <= t.sent && PendingGainsNew(d, t)
    ensures forall i | |d.sent| <= i < |t.sent| :: Fits(t.sent[i], d)
    ensures EndpointHost(p, d.queueUrl).Some? && init.failure.None? ==> WarnsOnly(d, t)
    ensures !(EndpointHost(p, d.queueUrl).Some? && init.failure.None?) ==> EndsInOneError(d, t)
    ensures EndpointHost(p, d.queueUrl).None? ==> LogsOne(d, t, Error) && t.sent == d.sent && t.pending == d.pending
  {
    if EndpointHost(p, d.queueUrl).None? then StartFailed(d, NoEndpointHost)
    else InitEncoder(p, d, init)
  }

  /**
   * start. Without an encoder: one error, nothing else. Otherwise close the
   * old client, create a new one (which may throw) and go on as
   * StartWithClient. A throw logs one error and leaves `started` as it was.
   */
  function Start(p: Platform, s: State, clientCreated: bool, init: EncodeRun): (t: State)
    ensures t.started == (s.started || StartSucceeds(p, s, clientCreated, init))
    ensures SameConfig(s, t)
    ensures s.sent <= t.sent && PendingGainsNew(s, t)
    ensures StartSucceeds(p, s, clientCreated, init) ==>
              t.client.Some? && t.created == s.created + [t.client.value] && WarnsOnly(s, t)
    ensures !StartSucceeds(p, s, clientCreated, init) ==> EndsInOneError(s, t)
    ensures !(s.hasEncoder && clientCreated && EndpointHost(p, s.queueUrl).Some?) ==>
              LogsOne(s, t, Error) && t.sent == s.sent && t.pending == s.pending
    ensures |t.sent| > |s.sent| ==>
              s.hasEncoder && clientCreated && t.client.Some? && t.created == s.created + [t.client.value] &&
              forall i | |s.sent| <= i < |t.sent| :: Fits(t.sent[i], t)
    ensures !s.hasEncoder ==>
              t.client == s.client && t.created == s.created && t.shutDown == s.shutDown
    ensures s.hasEncoder ==> t.shutDown == s.shutDown + if s.client.Some? then [s.client.value] else []
    ensures s.hasEncoder && !clientCreated ==> t.client.None? && t.created == s.created
  {
    if !s.hasEncoder then
      s.(status := s.status + [StatusEntry(Error, NoEncoder(s.name))])
    else
      var c := Close(s);
      if !clientCreated then StartFailed(c, ClientCreationFailed)
      else
        var h := |c.created|;
        StartWithClient(p, c.(client := Some(h), created := c.created + [h]), init)
  }

  // ---------------------------------------------------------------------------
  // Traces

  /** Every call the outside world can make, including the two completion callbacks. */
  datatype Op =
    | StartOp(clientCreated: bool, init: EncodeRun)
    | StopOp
    | AppendOp(run: EncodeRun)
    | SendErrorOp(k: nat, cause: string)
    | SendSuccessOp(k: nat)
    | SetMaxMessageSizeInKBOp(kb: int32)
    | SetEncoderOp(present: bool)
    | SetQueueUrlOp(url: Option<string>)
    | SetSqsOp(client: Option<HandleId>)

  /** One call; a callback for a request that is not pending does not happen. */
  function Step(p: Platform, s: State, op: Op): State
  {
    match op
    case StartOp(c, init) => Start(p, s, c, init)
    case StopOp => Stop(s)
    case AppendOp(run) => Append(p, s, run).state
    case SendErrorOp(k, cause) => if k in s.pending && k < |s.sent| then SendError(s, k, cause) else s
    case SendSuccessOp(k) => if k in s.pending then SendSuccess(s, k) else s
    case SetMaxMessageSizeInKBOp(kb) => s.(maxKB := kb)
    case SetEncoderOp(present) => s.(hasEncoder := present)
    case SetQueueUrlOp(url) => s.(queueUrl := url)
    case SetSqsOp(c) => s.(client := c, injected := true)
  }

  function Run(p: Platform, s: State, ops: seq<Op>): State
    decreases |ops|
  {
    if ops == [] then s else Run(p, Step(p, s, ops[0]), ops[1..])
  }
}
