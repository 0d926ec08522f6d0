# CloudWatch Logs stream writer

A model of `CloudWatchLogsWriter` from `tee_cloudwatch_logs.py`. This is the component that forwards log lines to one CloudWatch Logs stream. The writer holds two pieces of state:

- whether it is connected (`self.connection`);
- the sequence token it last received (`self.sequence_token`).

On the first `put_message` it connects and provisions its log group and stream. The group's "already exists" answer is ignored. It then puts one event per message and sends the held token only when that token is truthy. The conflict handler's decision logic is modelled as the code states it. When the caught `DataAlreadyAcceptedException` has status 400 and a truthy `expectedSequenceToken` in its body, the writer adopts that token and retries the message exactly once. See `PutMessageSpec` under "## Left out" for how the exception's fields are read.

The remote client is an oracle. `Target.respond(i, call)` is the service's answer to the request at position `i` of the writer's call log, so the log and the oracle together fix every answer the writer saw. Exceptions become the `Status` datatype (`Ok` or `Raised(error)`).

Files:

- `wrappers.dfy`: `Option`.
- `cloudwatch_logs.dfy`, module `CloudWatchLogs`:
  - the request, response and state datatypes;
  - one specification function per writer operation (`...Spec`, over a `WriterState` value);
  - the class `CloudWatchLogsWriter`, whose fields are updated in place and whose methods are proved to follow the specification functions;
  - the invariant `LogShape` that the class keeps.
- `writer_properties.dfy`, module `WriterProperties`: properties that span several calls. This includes `Run`, the effect of handing a writer a sequence of messages.
- `writer_scenarios.dfy`, module `WriterScenarios`: concrete runs against scripted services.

When `CreateLogStream` answers "already exists", the writer does not list the group's streams to recover the current token. The exception propagates (tee_cloudwatch_logs.py:49), and `WriterScenarios.StreamAlreadyExistsScenario` states this behaviour.

## Model

| member | source | states |
|---|---|---|
| `CloudWatchLogs.TokenToSend` | tee_cloudwatch_logs.py:61-71 | a put carries a sequenceToken exactly when the held token is present and non-empty, and then it is the held token |
| `CloudWatchLogs.CreateGroupAndStreamSpec` | tee_cloudwatch_logs.py:43-49 | the group is created first. On success or "already exists" the stream is created next; any other group failure stops there. The status is the last answer the service gave, so every stream failure, "already exists" included, propagates |
| `CloudWatchLogs.LazyConnectSpec` | tee_cloudwatch_logs.py:51-55 | a connected writer returns at once and sends nothing. Otherwise the writer becomes connected whatever provisioning answers, sends a group creation and at most a stream creation, and reports the last answer |
| `CloudWatchLogs.PutOnceSpec` | tee_cloudwatch_logs.py:57-72 | a connected writer sends exactly one put of this message and timestamp, carrying the held token only when it is truthy. It returns normally only after an accepted put, and then holds that answer's nextSequenceToken (None if absent). A raise leaves the token unchanged, and the status is the service's last answer |
| `CloudWatchLogs.PutMessageSpec` | tee_cloudwatch_logs.py:74-85 | the status is always the service's last answer, so nothing is swallowed. A normal return means the message was accepted and the writer holds the next token. Without a 400 conflict carrying a truthy expected token, the result is the first attempt unchanged. With one, exactly one more request follows: a put with the expected token. If that put fails, the error is raised and the adopted token is kept. A connected writer sends only puts |
| `CloudWatchLogs.CloudWatchLogsWriter.constructor` | tee_cloudwatch_logs.py:36-41 | a new writer is not connected, holds no token, has sent nothing, and its stream name is the group name, a dash and the time suffix |
| `CloudWatchLogs.CloudWatchLogsWriter.CreateGroupAndStream` | tee_cloudwatch_logs.py:43-49 | the new state and status are those of `CreateGroupAndStreamSpec` |
| `CloudWatchLogs.CloudWatchLogsWriter.LazyConnect` | tee_cloudwatch_logs.py:51-55 | the new state and status are those of `LazyConnectSpec`; `connected` is set before provisioning runs |
| `CloudWatchLogs.CloudWatchLogsWriter.PutOnce` | tee_cloudwatch_logs.py:57-72 | the new state and status are those of `PutOnceSpec` |
| `CloudWatchLogs.CloudWatchLogsWriter.PutMessage` | tee_cloudwatch_logs.py:74-85 | the new state and status are those of `PutMessageSpec`, and the call-log invariant `LogShape` is kept |
| `CloudWatchLogs.PutKeepsLogShape` | tee_cloudwatch_logs.py:62-71 | appending a put to the writer's own group and stream keeps a connected writer's log in shape |
| `CloudWatchLogs.ConnectKeepsLogShape` | tee_cloudwatch_logs.py:51-55 | _lazy_connect on a writer whose log is in shape leaves it in shape: from nothing to a group creation and at most one stream creation, or unchanged once connected |
| `CloudWatchLogs.AttemptKeepsLogShape` | tee_cloudwatch_logs.py:57-72 | one attempt keeps the log in shape |
| `CloudWatchLogs.PutMessageKeepsLogShape` | tee_cloudwatch_logs.py:74-85 | after put_message the log still reads: one group creation, at most one stream creation right after it, then only puts to the writer's own stream |
| `WriterProperties.ProvisionedAtMostOnce` | tee_cloudwatch_logs.py:51-55 | in a log of that shape, the group and the stream are each created at most once, and nothing else is created |
| `WriterProperties.RunKeepsLogShape` | tee_cloudwatch_logs.py:51-55 | any sequence of put_message calls keeps the log's shape, whether or not some of them raise |
| `WriterProperties.RunProvisionsOnce` | tee_cloudwatch_logs.py:51-55 | over a writer's whole life the group and stream creations each happen at most once, even when provisioning fails |
| `WriterProperties.AttemptPutCount` | tee_cloudwatch_logs.py:57-72 | one attempt sends at most three requests and at most one put |
| `WriterProperties.AtMostTwoPuts` | tee_cloudwatch_logs.py:74-85 | put_message sends at most four requests and at most two puts. It sends two puts only when the first attempt raised a 400 conflict carrying a truthy expected token |
| `WriterProperties.ConsecutiveMessagesThreadToken` | tee_cloudwatch_logs.py:61-72 | the message after any put_message provisions nothing. Its first put carries the token the previous call left. When the previous call succeeded, that is the nextSequenceToken the service had returned |
| `WriterProperties.FreshWriterOmitsToken` | tee_cloudwatch_logs.py:41 | the first attempt of a freshly constructed writer sends no sequenceToken |
| `WriterProperties.GroupAlreadyExistsIsAbsorbed` | tee_cloudwatch_logs.py:44-48 | two services that differ only in whether group creation answers success or "already exists" lead to identical writer behaviour |
| `WriterProperties.AttemptsAgree` | tee_cloudwatch_logs.py:44-48 | for one attempt from any state, a group "already exists" answer and a successful group creation lead to the same result |
| `WriterScenarios.FreshStreamScenario` | tee_cloudwatch_logs.py:51-72 | fresh group and stream: the first put has no token and the second carries the token the first received |
| `WriterScenarios.StaleTokenScenario` | tee_cloudwatch_logs.py:77-83 | a 400 conflict with expected token T2 leads to a retry with T2, whose success leaves T3 held |
| `WriterScenarios.MissingExpectedTokenScenario` | tee_cloudwatch_logs.py:80-85 | a 400 conflict without an expected token is raised after one put |
| `WriterScenarios.OtherStatusScenario` | tee_cloudwatch_logs.py:78-79 | a conflict with a status other than 400 is raised after one put |
| `WriterScenarios.DoubleConflictScenario` | tee_cloudwatch_logs.py:81-83 | a conflict on the retry is raised after exactly two puts, and the adopted token stays held |
| `WriterScenarios.StreamAlreadyExistsScenario` | tee_cloudwatch_logs.py:49 | "already exists" from stream creation is raised, and no listing or put follows |

## Left out

- `main` (tee_cloudwatch_logs.py:4-27) is left out. It is process I/O: reading stdin, stripping, echoing with `print`, handling `KeyboardInterrupt` and flushing stdout. `Run` stands for the writer being handed one message after another.
- The region and `boto3.client(...)` are left out, because they are a foreign library call. Connecting is the step that sets `connected`, and it always succeeds. The model has no failure of client construction itself.
- Wall-clock readings are left out. The stream-name suffix from `time.strftime` is a constructor parameter. The millisecond timestamps from `time.time()` are opaque naturals: `now` for the first attempt and `retryNow` for the retry. Float rounding is not modelled.
- The `AttributeError` Python raises when it evaluates `self.connection.exceptions` with no connection set is not modelled. In the model, connecting always succeeds before any service call can raise.
- PutMessageSpec: the model reads the conflict exception's `status` and its body's `expectedSequenceToken` as fields the exception carries, which is the exception interface of boto 2, the library the class was copied from (tee_cloudwatch_logs.py:34). The code builds its client with boto3 (tee_cloudwatch_logs.py:30, 54). boto3's exception classes keep these values under `e.response` and have no `status` or `body` attribute. With boto3, evaluating `e.status` at line 78 therefore raises `AttributeError` instead of the caught exception, and the retry at lines 80-83 never runs. The model states the decision logic the code writes down, not this `AttributeError` path.
- Only what the writer does with the service's answers is modelled, not the service itself. Which exception class the real service raises for a stale token is outside the model. The writer reacts only to `DataAlreadyAcceptedException`, as the code does.
- `create_group_and_stream` takes the group and stream names as parameters, but the writer always passes its own. The model uses the writer's names directly.
- A put sends a list holding one event. The model's `PutLogEvents` carries that one event.
