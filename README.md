# SQS log appender — a verified model

This project models the core of `SqsAppender`, a Logback appender that forwards
each formatted log event, as the body of one message, to an Amazon SQS queue
through the asynchronous SQS client. Two parts are modelled:

- **Lifecycle.** `start` refuses without an encoder. Otherwise it closes any
  existing client, creates a new one, sets its endpoint from the queue URL's
  host, initialises the encoder with a new output stream adapter (whatever the
  encoder writes there, a header say, is dispatched like an event), and only
  then marks the appender started. `stop` and `close` shut down the client if there
  is one and drop it. `append` does nothing unless the appender is started. An
  `IOException` from the encoder stops the appender.
- **Dispatch.** The output stream adapter's `write` does one of three things
  with each byte array. A null or empty array is ignored. An array longer than
  `maxMessageSizeInKB * 1024` is dropped with a warning. Any other array is
  submitted as exactly one request of its decoded text to the queue URL. The
  request's completion callback adds one warning on failure and does nothing
  on success.

Files and modules:

- `java_int.dfy` (`JavaInt`): Java `int` and `byte`, and `int` multiplication
  with its 32-bit wrap-around.
- `wrappers.dfy` (`Wrappers`): `Option`, which stands for a nullable reference.
- `appender_spec.dfy` (`AppenderSpec`): the appender's state as a value and one
  function per operation. It also holds the invariant `Inv`, and `Step`/`Run`,
  which apply any sequence of calls.
- `sqs_appender.dfy` (`SqsAppender`): the class `Appender`. Its fields are
  updated in place. Each method is proved to change the abstract state `Abs()`
  exactly as the matching function of `AppenderSpec` does, and to keep `Inv`.
- `appender_properties.dfy` (`AppenderProperties`): lemmas about those
  functions.

Collaborators the model does not compute:

- The platform's `new String(bytes)` is the `decode` function of a `Platform`
  value.
- `new URI(url).getHost()` is its `hostOf` function. It returns None when the
  real call would throw or return null.
- Whether the client constructor throws is a boolean input of `Start`.
- What `encoder.init` and `encoder.doEncode` do is an input `EncodeRun`: the
  writes each makes on the adapter, then possibly an `IOException` or an
  unchecked exception.
- Client objects are handle ids, numbered in creation order. The ghost logs
  `created` and `shutDown` record every client that start creates and every
  `shutdown()` call.
- Submitted requests are kept in `sent`. `pending` holds the requests whose
  callback has not yet run.
- Unchecked exceptions that leave `write` or `append` are a returned flag: a
  `NullPointerException` on a null client or a null encoder, or a runtime
  exception the encoder raises. Only an `IOException` is caught by `subAppend`.

The main invariant is `Inv`. Until `setSqs` is used, the only client that was
created and not shut down is the one the appender holds, so at most one is
ever live. Every shutdown was of a client the appender created, and no client
was shut down twice.

Behaviour of the code worth knowing:

- A failing `start` leaves `started` as it was, it does not reset it. When the
  appender was already started and the restart fails, it stays started. If
  the new client could not be constructed, it then has no client, and the next
  send throws a `NullPointerException` out of `append` (lemma
  `FailedRestartStaysStarted`).
- The payload is decoded with the platform's default charset, not
  necessarily UTF-8.
- The size limit is `maxMessageSizeInKB * 1024` in Java `int` arithmetic.
  From 2097152 KB upwards the product wraps around. At exactly 2097152 KB the
  limit is -2147483648 and every non-empty event is dropped (lemma
  `LimitWrapsAround`). Beyond that the wrapped limit may be zero, negative or
  a small positive number: 4194304 KB gives 0 and 4194305 KB gives 1024 bytes
  (lemma `WrappedLimits`).
- `encoder.init` gets an adapter while the new client is already assigned and
  the appender is not yet started, so what init writes (a header) is sent
  then. If init then throws, the start fails, but the header has already been
  submitted (lemma `HeaderSentByFailedStart`).
- A send with no client is not tolerated: it throws a `NullPointerException`
  out of `append`.

## Model

| member | source | states |
|---|---|---|
| `JavaInt.Wrap32` | src/main/java/com/github/scizeron/logback/appender/SqsAppender.java:134 | the result is congruent to its argument modulo 2^32, and equals it when it fits in an `int` |
| `JavaInt.Mul` | src/main/java/com/github/scizeron/logback/appender/SqsAppender.java:134 | Java `int` product: exact when the mathematical product fits, congruent to it modulo 2^32 otherwise |
| `AppenderSpec.Init` | src/main/java/com/github/scizeron/logback/appender/SqsAppender.java:58-76 | a new appender is not started and has no encoder, no client, no queue URL (null), no status and no pending callback; its limit is 256 KB = 262144 bytes; it satisfies the invariant with no live client |
| `AppenderSpec.Limit` | src/main/java/com/github/scizeron/logback/appender/SqsAppender.java:134 | for 0 <= maxKB < 2^21 the limit is exactly maxKB * 1024; a limit from a non-positive setting is never positive unless the product wrapped |
| `AppenderSpec.EffectOf` | src/main/java/com/github/scizeron/logback/appender/SqsAppender.java:127-154 | what one write amounts to: a write(int), null or empty array is ignored and nothing else is; a dropped array yields a warning; a throw happens only with no client; a submitted request is non-empty, within the limit, through the current client to the queue URL |
| `AppenderSpec.Write` | src/main/java/com/github/scizeron/logback/appender/SqsAppender.java:122-154 | a write never changes the lifecycle fields or config; it appends at most one status entry, always a warning, and at most one request; every new request is non-empty, within the limit, through the current client to the queue URL, and gets a pending callback while every old one stays pending; a throwing write changes nothing and happens only with no client |
| `AppenderSpec.WriteAll` | src/main/java/com/github/scizeron/logback/appender/SqsAppender.java:104 | the writes of one `doEncode` keep lifecycle and config; only extend the logs; add only warnings; every request they submit fits the limit, goes through the current client and gets a pending callback, and no old callback is dropped; they throw only with no client |
| `AppenderSpec.SubAppend` | src/main/java/com/github/scizeron/logback/appender/SqsAppender.java:90-113 | not started: nothing changes and nothing is thrown. Started without an encoder: the `NullPointerException` escapes and nothing changes. The client and its logs are untouched; the appender is started afterwards exactly when it was before and either an exception escaped or the encoder raised no `IOException`; an unchecked exception from the encoder always escapes; the logs only grow; every new request gets a pending callback and none is dropped; a request is added only when started with an encoder |
| `AppenderSpec.Append` | src/main/java/com/github/scizeron/logback/appender/SqsAppender.java:79-84 | not started: the state is unchanged and nothing is thrown; started: exactly subAppend |
| `AppenderSpec.SendError` | src/main/java/com/github/scizeron/logback/appender/SqsAppender.java:142-147 | a failure callback appends exactly one warning naming the appender, the request's body and the cause; lifecycle and requests unchanged; the request is no longer pending |
| `AppenderSpec.SendSuccess` | src/main/java/com/github/scizeron/logback/appender/SqsAppender.java:149-152 | a success callback changes nothing but marks the request completed |
| `AppenderSpec.Close` | src/main/java/com/github/scizeron/logback/appender/SqsAppender.java:194-204 | afterwards there is no client; shutdown is called on the old client exactly when there was one; status, requests, `started`, the pending callbacks and the settings (name, encoder, queue URL, limit) unchanged |
| `AppenderSpec.Stop` | src/main/java/com/github/scizeron/logback/appender/SqsAppender.java:186-189 | afterwards not started and no client; the settings, status, requests, pending callbacks and created clients unchanged; the shutdown log gains exactly the old client, if there was one |
| `AppenderSpec.Start` | src/main/java/com/github/scizeron/logback/appender/SqsAppender.java:157-183 | `started` afterwards is its old value or whether every step succeeded, encoder init included. The settings are unchanged. On success there is a new client recorded as created and only warnings are logged. On any failure the new entries are warnings followed by exactly one error; a failure before init logs exactly that error, sends nothing and leaves the pending callbacks alone. Requests are submitted only through the new client, within the limit, each with a pending callback, and no old callback is dropped. Without an encoder the client and its logs are untouched; with one the old client, if any, is shut down first and nothing else is |
| `AppenderSpec.StartWithClient` | src/main/java/com/github/scizeron/logback/appender/SqsAppender.java:170-176 | with the new client in place: started exactly when the URL has a host and init does not throw; settings and client unchanged; init's requests fit the limit, use that client and get pending callbacks, and no old callback is dropped; success logs only warnings, failure ends with exactly one error |
| `AppenderSpec.InitEncoder` | src/main/java/com/github/scizeron/logback/appender/SqsAppender.java:171-173 | encoder init with the client and endpoint set: started exactly when init does not throw; settings and client unchanged; its requests fit the limit, use that client and get pending callbacks; success logs only warnings, a throw (an `IOException` or any other) ends with exactly one error |
| `SqsAppender.Appender.constructor` | src/main/java/com/github/scizeron/logback/appender/SqsAppender.java:58-76 | the object starts in `Init`: not started, no client, limit 256 KB, invariant holds |
| `SqsAppender.Appender.SetMaxMessageSizeInKB` | src/main/java/com/github/scizeron/logback/appender/SqsAppender.java:283-285 | only the limit setting changes |
| `SqsAppender.Appender.SetEncoder` | src/main/java/com/github/scizeron/logback/appender/SqsAppender.java:255-257 | only whether an encoder is set changes |
| `SqsAppender.Appender.SetQueueUrl` | src/main/java/com/github/scizeron/logback/appender/SqsAppender.java:226-228 | only the queue URL changes |
| `SqsAppender.Appender.SetSqs` | src/main/java/com/github/scizeron/logback/appender/SqsAppender.java:247-249 | the client is replaced without any shutdown; from then on ownership is no longer claimed |
| `SqsAppender.Appender.WriteInt` | src/main/java/com/github/scizeron/logback/appender/SqsAppender.java:122-124 | `write(int)` changes nothing: the method has no modifies clause, and `AppenderSpec.Write` prescribes no change for it |
| `SqsAppender.Appender.WriteBytes` | src/main/java/com/github/scizeron/logback/appender/SqsAppender.java:127-154 | the new state and the thrown flag are exactly those of `AppenderSpec.Write`; at most one request is appended; `started` and the client are unchanged |
| `SqsAppender.Appender.OnError` | src/main/java/com/github/scizeron/logback/appender/SqsAppender.java:142-147 | exactly one warning with the appender's name, the request's body and the cause; `started`, the client and the requests unchanged |
| `SqsAppender.Appender.OnSuccess` | src/main/java/com/github/scizeron/logback/appender/SqsAppender.java:149-152 | no status, no request, no lifecycle change |
| `SqsAppender.Appender.Append` | src/main/java/com/github/scizeron/logback/appender/SqsAppender.java:79-84 | follows `AppenderSpec.Append`; when not started the whole state is unchanged and nothing escapes |
| `SqsAppender.Appender.SubAppend` | src/main/java/com/github/scizeron/logback/appender/SqsAppender.java:90-113 | the encoder's writes, then the exception handling (an `IOException` stops the appender, any other escapes), produce exactly `AppenderSpec.SubAppend`; the client is unchanged and the logs only grow |
| `SqsAppender.Appender.Encode` | src/main/java/com/github/scizeron/logback/appender/SqsAppender.java:104 | the loop over the encoder's writes, stopping at the first that throws, produces exactly `AppenderSpec.WriteAll` and keeps the invariant |
| `SqsAppender.Appender.Close` | src/main/java/com/github/scizeron/logback/appender/SqsAppender.java:194-204 | follows `AppenderSpec.Close`: no client afterwards; the old client, if any, is appended to the shutdown log; status, `started` and the encoder setting unchanged |
| `SqsAppender.Appender.Stop` | src/main/java/com/github/scizeron/logback/appender/SqsAppender.java:186-189 | follows `AppenderSpec.Stop`: not started and no client afterwards; status and the encoder setting unchanged |
| `SqsAppender.Appender.Start` | src/main/java/com/github/scizeron/logback/appender/SqsAppender.java:157-183 | follows `AppenderSpec.Start` and keeps the invariant. Without an encoder: one `NoEncoder` error, and the client and `started` untouched |
| `SqsAppender.Appender.StartWithClient` | src/main/java/com/github/scizeron/logback/appender/SqsAppender.java:170-176 | follows `AppenderSpec.StartWithClient`, running encoder init's writes through the adapter |
| `AppenderProperties.AtMostOneLiveClient` | src/main/java/com/github/scizeron/logback/appender/SqsAppender.java:166-169 | under the invariant, without setSqs, at most one client is live, and none when the appender holds none |
| `AppenderProperties.CloseKeepsInv` | src/main/java/com/github/scizeron/logback/appender/SqsAppender.java:194-204 | close keeps the invariant and, without setSqs, leaves no live client |
| `AppenderProperties.NewClientKeepsInv` | src/main/java/com/github/scizeron/logback/appender/SqsAppender.java:169 | a fresh client, numbered after every created one, given to an appender without a client keeps the invariant |
| `AppenderProperties.StartKeepsInv` | src/main/java/com/github/scizeron/logback/appender/SqsAppender.java:166-171 | start keeps the invariant: the old client is shut down before a fresh one is created, and init's writes keep it too |
| `AppenderProperties.WriteAllKeepsInv` | src/main/java/com/github/scizeron/logback/appender/SqsAppender.java:127-154 | the adapter's writes keep the invariant |
| `AppenderProperties.AppendKeepsInv` | src/main/java/com/github/scizeron/logback/appender/SqsAppender.java:79-113 | append keeps the invariant |
| `AppenderProperties.StepKeepsInv` | src/main/java/com/github/scizeron/logback/appender/SqsAppender.java:79-204 | every single call, including callbacks and setters, keeps the invariant |
| `AppenderProperties.PendingUntilCallback` | src/main/java/com/github/scizeron/logback/appender/SqsAppender.java:140-153 | a request's completion callback stays pending through every call other than that callback itself, start and stop included |
| `AppenderProperties.RunKeepsInv` | src/main/java/com/github/scizeron/logback/appender/SqsAppender.java:157-204 | every sequence of calls keeps the invariant |
| `AppenderProperties.OneLiveClientAlways` | src/main/java/com/github/scizeron/logback/appender/SqsAppender.java:166-169 | from a new appender, after any sequence of calls without setSqs, at most one client is live |
| `AppenderProperties.NoSetSqsNotInjected` | src/main/java/com/github/scizeron/logback/appender/SqsAppender.java:247-249 | only setSqs gives up ownership of the client |
| `AppenderProperties.StepExtendsLogs` | src/main/java/com/github/scizeron/logback/appender/SqsAppender.java:106-176 | one call only appends to the status log, the requests and the client logs |
| `AppenderProperties.RunExtendsLogs` | src/main/java/com/github/scizeron/logback/appender/SqsAppender.java:106-176 | any sequence of calls only appends to the status log, the requests and the client logs |
| `AppenderProperties.SendsOnlyThroughEncoder` | src/main/java/com/github/scizeron/logback/appender/SqsAppender.java:79-171 | a call that submits a request is an append on a started appender with an encoder, or a start with an encoder whose client was created (init's writes) |
| `AppenderProperties.IntWriteIsNoop` | src/main/java/com/github/scizeron/logback/appender/SqsAppender.java:122-124 | `write(int)` changes nothing and throws nothing |
| `AppenderProperties.EmptyWriteIsNoop` | src/main/java/com/github/scizeron/logback/appender/SqsAppender.java:127-130 | a null or empty array changes nothing: no request, no status |
| `AppenderProperties.OversizeIsDropped` | src/main/java/com/github/scizeron/logback/appender/SqsAppender.java:132-138 | an array over the limit is not sent and adds exactly one warning with its text and the KB limit |
| `AppenderProperties.WithinLimitIsSent` | src/main/java/com/github/scizeron/logback/appender/SqsAppender.java:140-153 | a non-empty array within the limit becomes exactly one request of its decoded text to the queue URL, with no status; with no client it throws and changes nothing |
| `AppenderProperties.ExactLimitIsSent` | src/main/java/com/github/scizeron/logback/appender/SqsAppender.java:134 | an array of exactly maxMessageSizeInKB * 1024 bytes is sent, not rejected |
| `AppenderProperties.LimitWrapsAround` | src/main/java/com/github/scizeron/logback/appender/SqsAppender.java:134 | at 2097152 KB the limit wraps to -2147483648 and no non-empty array is sent |
| `AppenderProperties.WrappedLimits` | src/main/java/com/github/scizeron/logback/appender/SqsAppender.java:134 | the wrapped limit is 0 at 4194304 KB, 1024 at 4194305 KB and -1024 at the largest setting |
| `AppenderProperties.SendErrorWarnsOnce` | src/main/java/com/github/scizeron/logback/appender/SqsAppender.java:142-147 | a failure callback adds exactly one warning and leaves `started`, the client and the requests unchanged |
| `AppenderProperties.WriteAllCollects` | src/main/java/com/github/scizeron/logback/appender/SqsAppender.java:104 | the writes of one encoder call submit exactly the requests, and log exactly the warnings, that the writes amount to one by one, in order; they throw exactly when a write meets a null client |
| `AppenderProperties.WriteApplies` | src/main/java/com/github/scizeron/logback/appender/SqsAppender.java:127-154 | one write adds exactly the request, or the warning, that its effect names, and nothing else to those logs |
| `AppenderProperties.WriteAllSends` | src/main/java/com/github/scizeron/logback/appender/SqsAppender.java:140-153 | the requests submitted by a sequence of writes are exactly those of `Requests`, in order |
| `AppenderProperties.WriteAllWarns` | src/main/java/com/github/scizeron/logback/appender/SqsAppender.java:132-138 | the warnings logged by a sequence of writes are exactly those of `Warnings`, in order |
| `AppenderProperties.WriteAllThrows` | src/main/java/com/github/scizeron/logback/appender/SqsAppender.java:140 | a sequence of writes throws exactly when one of them meets a null client |
| `AppenderProperties.NullClientInTail` | src/main/java/com/github/scizeron/logback/appender/SqsAppender.java:140 | after a first write that does not throw, whether a later one throws is decided by the rest |
| `AppenderProperties.AppendsWhileStoppedAreNoops` | src/main/java/com/github/scizeron/logback/appender/SqsAppender.java:79-93 | any sequence of appends on an appender that is not started leaves its whole state unchanged |
| `AppenderProperties.IOFailureDisables` | src/main/java/com/github/scizeron/logback/appender/SqsAppender.java:106-110 | an `IOException` from the encoder stops the appender, keeps its client, and adds exactly one error after the writes' entries; later appends change nothing |
| `AppenderProperties.AppendCollects` | src/main/java/com/github/scizeron/logback/appender/SqsAppender.java:79-113 | an append on a started appender with an encoder submits exactly the requests and logs exactly the warnings of its writes, each request with a pending callback, then one error if the encoder raised an `IOException`; it throws exactly when a write meets a null client or the encoder raises an unchecked exception; it stays started exactly when it threw or there was no `IOException` |
| `AppenderProperties.AppendSendsEvent` | src/main/java/com/github/scizeron/logback/appender/SqsAppender.java:79-153 | one event encoded as one non-empty array within the limit, on a started appender with a client: exactly one request of its decoded text through that client to the queue URL, no status, still started |
| `AppenderProperties.StartWithoutEncoder` | src/main/java/com/github/scizeron/logback/appender/SqsAppender.java:160-164 | start without an encoder adds exactly one `NoEncoder` error and touches neither `started` nor the client |
| `AppenderProperties.StartFailsAfterClient` | src/main/java/com/github/scizeron/logback/appender/SqsAppender.java:169-176 | a start that fails at the endpoint stays not started, logs one error, and keeps the freshly created client |
| `AppenderProperties.FailedRestartStaysStarted` | src/main/java/com/github/scizeron/logback/appender/SqsAppender.java:166-176 | restarting a started appender whose client cannot be constructed logs one error and stays started with no client; the next append of a sendable array throws |
| `AppenderProperties.StartCollectsInitWrites` | src/main/java/com/github/scizeron/logback/appender/SqsAppender.java:166-176 | once start has a client and an endpoint, init's writes go through the new client exactly as an append's would, followed by one error if init throws |
| `AppenderProperties.HeaderSentByFailedStart` | src/main/java/com/github/scizeron/logback/appender/SqsAppender.java:166-176 | a header written by encoder init is submitted while the appender is not yet started, and stays submitted when init then throws and the start fails |
| `AppenderProperties.StopIsIdempotent` | src/main/java/com/github/scizeron/logback/appender/SqsAppender.java:186-203 | a second stop shuts down nothing and logs nothing |
| `AppenderProperties.StopBeforeStart` | src/main/java/com/github/scizeron/logback/appender/SqsAppender.java:186-203 | stop on a new appender changes nothing |
| `AppenderProperties.OversizeScenario` | src/main/java/com/github/scizeron/logback/appender/SqsAppender.java:134-137 | with a 1 KB limit a 2000-byte event is not sent and one warning names the 1 KB limit |
| `AppenderProperties.StartStopAppendScenario` | src/main/java/com/github/scizeron/logback/appender/SqsAppender.java:157-189 | start with a usable URL, then stop, leaves no live client, and a later append is a no-op |

## Left out

- Credential resolution (`getCredentials`, the access and secret key fields with their getters and setters, `AppenderCredentials`). The first-match order belongs to the AWS provider chain, whose code is not part of this model. The client constructor's failure is an input of `Start`.
- The thread pool given to the client (`setThreadPool`, the fixed or cached pool chosen at line 169). The pool affects only how requests are delivered, which the model does not cover.
- The `ReentrantLock` and all concurrency. The model is sequential, so it does not cover the `isLocked()`-then-`unlock()` pattern in start's `finally` block, or races between `append` and `stop`.
- The AWS SDK itself. Client construction, `setEndpoint` and `sendMessageAsync` are not modelled. A client is a handle id, and a send is an entry in `sent`. `setEndpoint` is modelled only as failing when the queue URL has no host. A synchronous exception from `sendMessageAsync`, such as a rejected submission, is not modelled.
- `prepareForDeferredProcessing`, `Encoder.init` and `Encoder.doEncode`. Their effects are inputs: the writes, and the `IOException` or unchecked exception that may follow them, of an `EncodeRun`. An exception from `prepareForDeferredProcessing` is an `EncodeRun` with no writes and that exception. An encoder set after `start` is assumed to write to the adapter. The exception kinds are not told apart in `start`, which catches every `Exception` at line 175.
- Logback's `doAppend` wrapper, which decides what happens to an exception leaving `append`, and the status manager. The status log is an append-only sequence of structured messages, not formatted strings. The exceptions attached to statuses are descriptions.
- The appender's name is a constant. `setName` belongs to the Logback base class.
