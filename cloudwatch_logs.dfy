/** The stream writer of tee_cloudwatch_logs: lazy provisioning of one log group and
    stream, sequence-token threading, and the single corrective retry of a put.

    The remote CloudWatch Logs client is an oracle: the service's answer to the call
    at position i of the writer's call log is `respond(i, call)`.  The specification
    functions below (`...Spec`) describe each operation on a `WriterState` value; the
    class `CloudWatchLogsWriter` holds the same state in mutable fields and its
    methods are proved to follow those functions. */
module CloudWatchLogs {
  import opened Wrappers

  // ----------------------------------------------------------------------------
  // The remote service, as the writer sees it
  // ----------------------------------------------------------------------------

  /** One log event: the message and its timestamp in milliseconds (read from the clock). */
  datatype Event = Event(message: string, timestamp: nat)

  /** The requests the writer sends to the service. */
  datatype Call =
    | CreateLogGroup(group: string)
    | CreateLogStream(group: string, stream: string)
    | PutLogEvents(group: string, stream: string, event: Event, sequenceToken: Option<string>)

  /** The exceptions the service client raises. */
  datatype ServiceError =
    | ResourceAlreadyExists
    | DataAlreadyAccepted(status: int, expectedSequenceToken: Option<string>)
    | OtherError(code: string)

  /** The service's answer to one call; `nextSequenceToken` is only read from puts. */
  datatype Response = Success(nextSequenceToken: Option<string>) | Failure(error: ServiceError)

  /** The service's answer to the call made at a given position of the call log. */
  type Oracle = (nat, Call) -> Response

  /** The (group, stream) a writer is bound to, and the service it talks to. */
  datatype Target = Target(group: string, stream: string, respond: Oracle)

  // ----------------------------------------------------------------------------
  // Writer state and the outcome of an operation
  // ----------------------------------------------------------------------------

  /** `connected` stands for `self.connection` being set, `token` for
      `self.sequence_token`, and `calls` for every request sent so far. */
  datatype WriterState = WriterState(connected: bool, token: Option<string>, calls: seq<Call>)

  /** An operation either returns normally or raises a service exception. */
  datatype Status = Ok | Raised(error: ServiceError)

  datatype Step = Step(state: WriterState, status: Status)

  /** A freshly constructed writer: not connected, no token, nothing sent. */
  function Fresh(): WriterState
  {
    WriterState(false, None, [])
  }

  /** Python truthiness of an optional string: present and non-empty. */
  predicate Truthy(t: Option<string>)
  {
    t.Some? && t.value != ""
  }

  /** The sequenceToken argument of a put: the held token when it is truthy, else omitted. */
  function TokenToSend(held: Option<string>): (sent: Option<string>)
    ensures sent.Some? <==> Truthy(held)
    ensures sent.Some? ==> sent == held
  {
    if Truthy(held) then held else None
  }

  /** The one exception put_message corrects: a DataAlreadyAccepted with status 400
      whose body carries a truthy expected sequence token. */
  predicate Resyncable(e: ServiceError)
  {
    e.DataAlreadyAccepted? && e.status == 400 && Truthy(e.expectedSequenceToken)
  }

  /** The status a call's answer turns into when the writer does not catch it. */
  function Reported(r: Response): Status
  {
    match r
    case Success(_) => Ok
    case Failure(e) => Raised(e)
  }

  /** The service's answer to the i-th call of a log. */
  function AnswerAt(t: Target, calls: seq<Call>, i: nat): Response
    requires i < |calls|
  {
    t.respond(i, calls[i])
  }

  /** The service's answer to the most recent call of a log. */
  function LastAnswer(t: Target, calls: seq<Call>): Response
    requires |calls| > 0
  {
    AnswerAt(t, calls, |calls| - 1)
  }

  /** A put to the writer's own group and stream. */
  predicate PutTo(t: Target, c: Call)
  {
    c.PutLogEvents? && c.group == t.group && c.stream == t.stream
  }

  /** The number of puts in a call log. */
  function PutCount(calls: seq<Call>): nat
  {
    if calls == [] then 0
    else PutCount(calls[..|calls| - 1]) + (if calls[|calls| - 1].PutLogEvents? then 1 else 0)
  }

  // ----------------------------------------------------------------------------
  // The operations, as functions of the state
  // ----------------------------------------------------------------------------

  /** create_group_and_stream: create the group, absorbing "already exists", then
      create the stream; any other failure propagates. */
  function CreateGroupAndStreamSpec(t: Target, s: WriterState): (r: Step)
    ensures r.state.connected == s.connected && r.state.token == s.token
    ensures var groupAnswer := t.respond(|s.calls|, CreateLogGroup(t.group));
      if groupAnswer.Success? || groupAnswer.error == ResourceAlreadyExists then
        r.state.calls == s.calls + [CreateLogGroup(t.group), CreateLogStream(t.group, t.stream)]
      else
        r.state.calls == s.calls + [CreateLogGroup(t.group)]
    ensures r.status == Reported(LastAnswer(t, r.state.calls))
    ensures r.status != Raised(ResourceAlreadyExists) || r.state.calls[|r.state.calls| - 1].CreateLogStream?
  {
    var group := CreateLogGroup(t.group);
    var groupAnswer := t.respond(|s.calls|, group);
    var s1 := s.(calls := s.calls + [group]);
    if groupAnswer.Failure? && groupAnswer.error != ResourceAlreadyExists then
      Step(s1, Raised(groupAnswer.error))
    else
      var stream := CreateLogStream(t.group, t.stream);
      var streamAnswer := t.respond(|s1.calls|, stream);
      Step(s1.(calls := s1.calls + [stream]), Reported(streamAnswer))
  }

  /** _lazy_connect: on the first call, mark the writer connected and then provision;
      once connected, do nothing. */
  function LazyConnectSpec(t: Target, s: WriterState): (r: Step)
    ensures r.state.connected && r.state.token == s.token
    ensures s.connected ==> r == Step(s, Ok)
    ensures !s.connected ==>
      |s.calls| < |r.state.calls| <= |s.calls| + 2 &&
      r.state.calls[..|s.calls|] == s.calls &&
      r.state.calls[|s.calls|] == CreateLogGroup(t.group) &&
      (|r.state.calls| == |s.calls| + 2 ==> r.state.calls[|s.calls| + 1] == CreateLogStream(t.group, t.stream)) &&
      r.status == Reported(LastAnswer(t, r.state.calls))
  {
    if s.connected then Step(s, Ok)
    else CreateGroupAndStreamSpec(t, s.(connected := true))
  }

  /** _put_message: connect lazily, then put one event, sending the held token only
      when it is truthy, and keep the service's next token. */
  function PutOnceSpec(t: Target, s: WriterState, message: string, now: nat): (r: Step)
    ensures r.state.connected
    ensures |s.calls| < |r.state.calls| && r.state.calls[..|s.calls|] == s.calls
    ensures r.status == Reported(LastAnswer(t, r.state.calls))
    // a connected writer sends exactly one request: the put
    ensures s.connected ==>
      r.state.calls == s.calls + [PutLogEvents(t.group, t.stream, Event(message, now), TokenToSend(s.token))]
    // every put it sends carries this message and the held token exactly when that is truthy
    ensures forall i :: |s.calls| <= i < |r.state.calls| && r.state.calls[i].PutLogEvents? ==>
      r.state.calls[i] == PutLogEvents(t.group, t.stream, Event(message, now), TokenToSend(s.token))
    // it returns normally only after a put the service accepted, whose next token it keeps
    ensures r.status.Ok? ==>
      r.state.calls[|r.state.calls| - 1] == PutLogEvents(t.group, t.stream, Event(message, now), TokenToSend(s.token)) &&
      r.state.token == LastAnswer(t, r.state.calls).nextSequenceToken
    // a raise leaves the held token alone
    ensures r.status.Raised? ==> r.state.token == s.token
  {
    var connect := LazyConnectSpec(t, s);
    if connect.status.Raised? then connect
    else
      var s1 := connect.state;
      var put := PutLogEvents(t.group, t.stream, Event(message, now), TokenToSend(s1.token));
      var answer := t.respond(|s1.calls|, put);
      var s2 := s1.(calls := s1.calls + [put]);
      match answer
      case Success(next) => Step(s2.(token := next), Ok)
      case Failure(e) => Step(s2, Raised(e))
  }

  /** put_message: one attempt; on a resyncable conflict, adopt the service's expected
      token and make exactly one more attempt, whose failure propagates. */
  function PutMessageSpec(t: Target, s: WriterState, message: string, now: nat, retryNow: nat): (r: Step)
    ensures r.state.connected
    ensures |s.calls| < |r.state.calls| && r.state.calls[..|s.calls|] == s.calls
    // the writer reports exactly the service's last answer: nothing is swallowed
    ensures r.status == Reported(LastAnswer(t, r.state.calls))
    // it returns normally only once this message was accepted, and then holds the next token
    ensures r.status.Ok? ==>
      var last := r.state.calls[|r.state.calls| - 1];
      PutTo(t, last) && last.event.message == message &&
      r.state.token == LastAnswer(t, r.state.calls).nextSequenceToken
    // a connected writer sends only puts of this message, first with the held token
    ensures s.connected ==>
      r.state.calls[|s.calls|] == PutLogEvents(t.group, t.stream, Event(message, now), TokenToSend(s.token)) &&
      forall i :: |s.calls| <= i < |r.state.calls| ==>
        PutTo(t, r.state.calls[i]) && r.state.calls[i].event.message == message
    // without a resyncable conflict, the first attempt is all there is
    ensures var first := PutOnceSpec(t, s, message, now);
      first.status.Ok? || !Resyncable(first.status.error) ==> r == first
    // after one, exactly one more request follows: a put carrying the expected token;
    // if it fails the writer raises, holding the adopted token
    ensures var first := PutOnceSpec(t, s, message, now);
      first.status.Raised? && Resyncable(first.status.error) ==>
        var n := |first.state.calls|;
        var expected := first.status.error.expectedSequenceToken;
        r.state.calls == first.state.calls + [PutLogEvents(t.group, t.stream, Event(message, retryNow), expected)] &&
        (r.status.Raised? ==> r.state.token == expected)
  {
    var first := PutOnceSpec(t, s, message, now);
    match first.status
    case Ok => first
    case Raised(e) =>
      if Resyncable(e) then
        PutOnceSpec(t, first.state.(token := e.expectedSequenceToken), message, retryNow)
      else
        first
  }

  // ----------------------------------------------------------------------------
  // The writer object
  // ----------------------------------------------------------------------------

  /** The shape every call log of one writer has: nothing before the writer connects;
      afterwards one group creation, at most one stream creation right after it, and
      then only puts to the writer's own stream. */
  predicate LogShape(t: Target, s: WriterState)
  {
    if !s.connected then s.calls == []
    else
      |s.calls| > 0 && s.calls[0] == CreateLogGroup(t.group) &&
      forall i :: 1 <= i < |s.calls| ==>
        PutTo(t, s.calls[i]) || (i == 1 && s.calls[i] == CreateLogStream(t.group, t.stream))
  }

  class CloudWatchLogsWriter {
    const logGroupName: string
    const logStreamName: string
    const respond: Oracle
    var connected: bool
    var sequenceToken: Option<string>
    var calls: seq<Call>

    function Binding(): Target
    {
      Target(logGroupName, logStreamName, respond)
    }

    function State(): WriterState
      reads this
    {
      WriterState(connected, sequenceToken, calls)
    }

    ghost predicate Valid()
      reads this
    {
      LogShape(Binding(), State())
    }

    /** The stream name is the group name, a dash and a time suffix read from the clock. */
    constructor (logGroupName: string, timeSuffix: string, respond: Oracle)
      ensures Valid() && State() == Fresh()
      ensures this.logGroupName == logGroupName && logStreamName == logGroupName + "-" + timeSuffix
      ensures this.respond == respond
    {
      this.logGroupName := logGroupName;
      this.logStreamName := logGroupName + "-" + timeSuffix;
      this.respond := respond;
      connected := false;
      sequenceToken := None;
      calls := [];
    }

    /** Send one request to the service and record it. */
    method Send(c: Call) returns (answer: Response)
      modifies this
      ensures State() == old(State()).(calls := old(calls) + [c])
      ensures answer == respond(|old(calls)|, c)
    {
      answer := respond(|calls|, c);
      calls := calls + [c];
    }

    method CreateGroupAndStream() returns (status: Status)
      modifies this
      ensures Step(State(), status) == CreateGroupAndStreamSpec(Binding(), old(State()))
    {
      var answer := Send(CreateLogGroup(logGroupName));
      if answer.Failure? && answer.error != ResourceAlreadyExists {
        return Raised(answer.error);
      }
      answer := Send(CreateLogStream(logGroupName, logStreamName));
      if answer.Failure? {
        return Raised(answer.error);
      }
      status := Ok;
    }

    method LazyConnect() returns (status: Status)
      modifies this
      ensures Step(State(), status) == LazyConnectSpec(Binding(), old(State()))
    {
      if connected {
        return Ok;
      }
      connected := true;
      status := CreateGroupAndStream();
    }

    method PutOnce(message: string, now: nat) returns (status: Status)
      modifies this
      ensures Step(State(), status) == PutOnceSpec(Binding(), old(State()), message, now)
    {
      status := LazyConnect();
      if status.Raised? {
        return;
      }
      var event := Event(message, now);
      var answer;
      if Truthy(sequenceToken) {
        answer := Send(PutLogEvents(logGroupName, logStreamName, event, sequenceToken));
      } else {
        answer := Send(PutLogEvents(logGroupName, logStreamName, event, None));
      }
      if answer.Failure? {
        return Raised(answer.error);
      }
      sequenceToken := answer.nextSequenceToken;
    }

    method PutMessage(message: string, now: nat, retryNow: nat) returns (status: Status)
      requires Valid()
      modifies this
      ensures Valid()
      ensures Step(State(), status) == PutMessageSpec(Binding(), old(State()), message, now, retryNow)
    {
      status := PutOnce(message, now);
      if status.Raised? && status.error.DataAlreadyAccepted? && status.error.status == 400 {
        var next := status.error.expectedSequenceToken;
        if Truthy(next) {
          sequenceToken := next;
          status := PutOnce(message, retryNow);
        }
      }
      PutMessageKeepsLogShape(Binding(), old(State()), message, now, retryNow);
    }
  }

  /** Appending a put to the writer's own stream keeps a connected log in shape. */
  lemma PutKeepsLogShape(t: Target, s: WriterState, c: Call)
    requires LogShape(t, s) && s.connected && PutTo(t, c)
    ensures LogShape(t, s.(calls := s.calls + [c]))
  {
    var calls := s.calls + [c];
    forall i | 1 <= i < |calls|
      ensures PutTo(t, calls[i]) || (i == 1 && calls[i] == CreateLogStream(t.group, t.stream))
    {
      if i < |s.calls| {
        assert calls[i] == s.calls[i];
      }
    }
  }

  /** _lazy_connect keeps the writer's call log in shape. */
  lemma ConnectKeepsLogShape(t: Target, s: WriterState)
    requires LogShape(t, s)
    ensures LogShape(t, LazyConnectSpec(t, s).state)
  {
    if !s.connected {
      var r := CreateGroupAndStreamSpec(t, s.(connected := true));
      assert s.calls == [];
      assert r.state.calls == [CreateLogGroup(t.group)] ||
        r.state.calls == [CreateLogGroup(t.group), CreateLogStream(t.group, t.stream)];
    }
  }

  /** _put_message keeps the writer's call log in shape. */
  lemma AttemptKeepsLogShape(t: Target, s: WriterState, message: string, now: nat)
    requires LogShape(t, s)
    ensures LogShape(t, PutOnceSpec(t, s, message, now).state)
  {
    var c := LazyConnectSpec(t, s);
    ConnectKeepsLogShape(t, s);
    if c.status.Ok? {
      var put := PutLogEvents(t.group, t.stream, Event(message, now), TokenToSend(c.state.token));
      assert PutOnceSpec(t, s, message, now).state.calls == c.state.calls + [put];
      PutKeepsLogShape(t, c.state, put);
    }
  }

  /** put_message keeps the writer's call log in shape. */
  lemma PutMessageKeepsLogShape(t: Target, s: WriterState, message: string, now: nat, retryNow: nat)
    requires LogShape(t, s)
    ensures LogShape(t, PutMessageSpec(t, s, message, now, retryNow).state)
  {
    var first := PutOnceSpec(t, s, message, now);
    AttemptKeepsLogShape(t, s, message, now);
    if first.status.Raised? && Resyncable(first.status.error) {
      var adopted := first.state.(token := first.status.error.expectedSequenceToken);
      assert LogShape(t, adopted);
      AttemptKeepsLogShape(t, adopted, message, retryNow);
    }
  }
}
