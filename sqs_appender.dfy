/**
 * The appender as the object it is: its fields are updated in place by
 * start, stop, append and the output stream adapter's writes. Every method
 * is proved to do exactly what the matching function of AppenderSpec does to
 * the abstract state Abs(), and to keep the invariant Inv.
 *
 * The adapter (an inner class in the source) reads and updates the appender's
 * own fields, so its write methods and the completion callbacks of the
 * requests it submits are methods of the appender here.
 */
module SqsAppender {
  import opened Wrappers
  import opened JavaInt
  import opened AppenderSpec
  import AppenderProperties

  class Appender {
    /** The platform's charset decoder and URI host parser. */
    const platform: Platform
    /** The appender's name, as the logging framework set it. */
    const name: string

    var started: bool
    var hasEncoder: bool
    var sqs: Option<HandleId>
    /** None is a null queue URL, the initial value. */
    var queueUrl: Option<string>
    var maxMessageSizeInKB: int32
    /** The status manager's entries about this appender. */
    var status: seq<StatusEntry>
    /** Every request handed to a client, in order. */
    var sent: seq<Request>
    /** The identity the next client object gets. */
    var nextHandle: nat

    ghost var pending: set<nat>
    ghost var created: seq<HandleId>
    ghost var shutDown: seq<HandleId>
    ghost var injected: bool

    ghost function Abs(): State
      reads this
    {
      State(name, started, hasEncoder, sqs, queueUrl, maxMessageSizeInKB, status, sent,
            pending, created, shutDown, injected)
    }

    ghost predicate Valid()
      reads this
    {
      nextHandle == |created| && Inv(Abs())
    }

    constructor (platform: Platform, name: string)
      ensures Valid() && this.platform == platform && Abs() == Init(name)
      ensures !started && sqs.None? && maxMessageSizeInKB == 256
    {
      this.platform := platform;
      this.name := name;
      started, hasEncoder, sqs := false, false, None;
      queueUrl, maxMessageSizeInKB := None, DefaultMaxKB;
      status, sent, nextHandle := [], [], 0;
      pending, created, shutDown, injected := {}, [], [], false;
    }

    // -------------------------------------------------------------------------
    // Setters

    method SetMaxMessageSizeInKB(kb: int32)
      requires Valid()
      modifies this
      ensures Valid() && Abs() == old(Abs()).(maxKB := kb)
    {
      maxMessageSizeInKB := kb;
    }

    /** setEncoder, with whether the encoder passed is non-null. */
    method SetEncoder(present: bool)
      requires Valid()
      modifies this
      ensures Valid() && Abs() == old(Abs()).(hasEncoder := present)
    {
      hasEncoder := present;
    }

    method SetQueueUrl(url: Option<string>)
      requires Valid()
      modifies this
      ensures Valid() && Abs() == old(Abs()).(queueUrl := url)
    {
      queueUrl := url;
    }

    /**
     * setSqs replaces the client without shutting the old one down, so after
     * it the appender no longer promises that it owns its only live client.
     */
    method SetSqs(client: Option<HandleId>)
      requires Valid()
      modifies this
      ensures Valid() && Abs() == old(Abs()).(client := client, injected := true)
    {
      sqs := client;
      injected := true;
    }

    // -------------------------------------------------------------------------
    // The output stream adapter and the send callbacks

    /**
     * write(int): ignored. The method has no modifies clause, so it is the
     * frame that promises no field changes; the ensures says that this is
     * what Write prescribes for write(int) in every state.
     */
    method WriteInt(b: int32)
      requires Valid()
      ensures Abs() == Write(platform, Abs(), IntWrite(b)).state
    {
    }

    /**
     * write(byte[]): nothing for a null or empty array; a warning for one over
     * the limit; otherwise one request of the decoded text to the queue URL.
     * `threw` is the NullPointerException of a send without a client.
     */
    method WriteBytes(bytes: Option<seq<byte>>) returns (threw: bool)
      requires Valid()
      modifies this
      ensures Valid()
      ensures Outcome(Abs(), threw) == Write(platform, old(Abs()), ArrayWrite(bytes))
      ensures sent == old(sent) || (|sent| == |old(sent)| + 1 && sent[..|old(sent)|] == old(sent))
      ensures started == old(started) && sqs == old(sqs)
    {
      if bytes.None? || |bytes.value| == 0 {
        return false;
      }
      var msg := platform.decode(bytes.value);
      if |bytes.value| > Limit(maxMessageSizeInKB) as int {
        status := status + [StatusEntry(Warn, Oversize(msg, maxMessageSizeInKB))];
        return false;
      }
      if sqs.None? {
        return true;
      }
      pending := pending + {|sent|};
      sent := sent + [Request(sqs.value, queueUrl, msg, |bytes.value|)];
      threw := false;
    }

    /** The completion callback of request k, on failure: one warning. */
    method OnError(k: nat, cause: string)
      requires Valid() && k in pending
      modifies this
      ensures Valid() && Abs() == SendError(old(Abs()), k, cause)
      ensures started == old(started) && sqs == old(sqs) && sent == old(sent)
      ensures status == old(status) + [StatusEntry(Warn, SendFailed(name, sent[k].body, cause))]
    {
      status := status + [StatusEntry(Warn, SendFailed(name, sent[k].body, cause))];
      pending := pending - {k};
    }

    /** The completion callback of request k, on success: nothing observable. */
    method OnSuccess(k: nat)
      requires Valid() && k in pending
      modifies this
      ensures Valid() && Abs() == SendSuccess(old(Abs()), k)
      ensures started == old(started) && sqs == old(sqs) && sent == old(sent) && status == old(status)
    {
      pending := pending - {k};
    }

    // -------------------------------------------------------------------------
    // Appending

    /**
     * append: ignored unless started. `escaped` is an unchecked exception
     * (a null encoder, a send without a client, or one the encoder raises)
     * leaving the method.
     */
    method Append(run: EncodeRun) returns (escaped: bool)
      requires Valid()
      modifies this
      ensures Valid() && Outcome(Abs(), escaped) == AppenderSpec.Append(platform, old(Abs()), run)
      ensures !old(started) ==> Abs() == old(Abs()) && !escaped
    {
      if !started {
        return false;
      }
      escaped := SubAppend(run);
    }

    /**
     * The encoder's writes go through the adapter one by one, up to the first
     * that throws; `threw` is that NullPointerException.
     */
    method Encode(ws: seq<WriteCall>) returns (threw: bool)
      requires Valid()
      modifies this
      ensures Valid() && Outcome(Abs(), threw) == WriteAll(platform, old(Abs()), ws)
    {
      ghost var s0 := Abs();
      var i := 0;
      while i < |ws|
        invariant 0 <= i <= |ws|
        invariant Valid()
        invariant WriteAll(platform, s0, ws) == WriteAll(platform, Abs(), ws[i..])
      {
        assert ws[i..][0] == ws[i] && ws[i..][1..] == ws[i + 1..];
        threw := false;
        match ws[i] {
          case IntWrite(b) => WriteInt(b);
          case ArrayWrite(bytes) => threw := WriteBytes(bytes);
        }
        if threw {
          return;
        }
        i := i + 1;
      }
      threw := false;
    }

    /**
     * subAppend: encode the event through the adapter; an IOException from
     * the encoder then stops the appender with one error, and any other
     * exception from it escapes.
     */
    method SubAppend(run: EncodeRun) returns (escaped: bool)
      requires Valid()
      modifies this
      ensures Valid() && Outcome(Abs(), escaped) == AppenderSpec.SubAppend(platform, old(Abs()), run)
      ensures sqs == old(sqs) && old(status) <= status && old(sent) <= sent
    {
      if !started {
        return false;
      }
      if !hasEncoder {
        return true;
      }
      escaped := Encode(run.writes);
      if escaped {
        return;
      }
      match run.failure {
        case None =>
        case Some(Unchecked) => escaped := true;
        case Some(IOFailure(cause)) =>
          started := false;
          status := status + [StatusEntry(Error, EncodeIOFailure(cause))];
      }
    }

    // -------------------------------------------------------------------------
    // Lifecycle

    /** close: shut the client down if there is one, then drop it. */
    method Close()
      requires Valid()
      modifies this
      ensures Valid() && Abs() == AppenderSpec.Close(old(Abs()))
      ensures sqs.None? && status == old(status) && started == old(started) && hasEncoder == old(hasEncoder)
      ensures shutDown == if old(sqs).Some? then old(shutDown) + [old(sqs).value] else old(shutDown)
    {
      AppenderProperties.CloseKeepsInv(Abs());
      if sqs.Some? {
        shutDown := shutDown + [sqs.value];
        sqs := None;
      }
    }

    /** stop: close, then not started. */
    method Stop()
      requires Valid()
      modifies this
      ensures Valid() && Abs() == AppenderSpec.Stop(old(Abs()))
      ensures !started && sqs.None? && status == old(status) && hasEncoder == old(hasEncoder)
    {
      Close();
      started := false;
    }

    /** The steps of start once the new client is assigned: endpoint, encoder init, started. */
    method StartWithClient(init: EncodeRun)
      requires Valid() && sqs.Some?
      modifies this
      ensures Valid() && Abs() == AppenderSpec.StartWithClient(platform, old(Abs()), init)
    {
      if queueUrl.None? || platform.hostOf(queueUrl.value).None? {
        status := status + [StatusEntry(Error, StartFailure(NoEndpointHost))];
        return;
      }
      var threw := Encode(init.writes);
      if threw || init.failure.Some? {
        status := status + [StatusEntry(Error, StartFailure(EncoderInitFailed))];
        return;
      }
      started := true;
    }

    /**
     * start. `clientCreated` is whether constructing the SQS client succeeds;
     * `init` is what encoder.init does on the new adapter (its writes, then
     * possibly an IOException); whether the queue URL has a host comes from
     * the platform.
     */
    method Start(clientCreated: bool, init: EncodeRun)
      requires Valid()
      modifies this
      ensures Valid() && Abs() == AppenderSpec.Start(platform, old(Abs()), clientCreated, init)
      ensures !old(hasEncoder) ==>
                sqs == old(sqs) && started == old(started) &&
                status == old(status) + [StatusEntry(Error, NoEncoder(name))]
    {
      if !hasEncoder {
        status := status + [StatusEntry(Error, NoEncoder(name))];
        return;
      }
      Close();
      ghost var c := Abs();
      if !clientCreated {
        status := status + [StatusEntry(Error, StartFailure(ClientCreationFailed))];
        return;
      }
      AppenderProperties.NewClientKeepsInv(c);
      sqs := Some(nextHandle);
      created := created + [nextHandle];
      nextHandle := nextHandle + 1;
      ghost var d := Abs();
      assert d == c.(client := Some(|c.created|), created := c.created + [|c.created|]);
      StartWithClient(init);
      assert Abs() == AppenderSpec.StartWithClient(platform, d, init);
    }
  }
}
