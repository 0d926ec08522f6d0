/** Worked runs of the writer against scripted services. */
module WriterScenarios {
  import opened Wrappers
  import opened CloudWatchLogs

  const Group := "app"
  const Stream := "app-2024-01-01-00_00_00"

  /** A connected writer holding token "T1" whose group and stream were created. */
  function Provisioned(): WriterState
  {
    WriterState(true, Some("T1"), [CreateLogGroup(Group), CreateLogStream(Group, Stream)])
  }

  function PutOf(message: string, now: nat, token: Option<string>): Call
  {
    PutLogEvents(Group, Stream, Event(message, now), token)
  }

  /** Fresh group and stream: the first put omits the token, the second sends the
      token the first one received. */
  lemma FreshStreamScenario()
    ensures var t := Target(Group, Stream, (i: nat, c: Call) => if i == 2 then Success(Some("T1")) else Success(Some("T2")));
      var a := PutMessageSpec(t, Fresh(), "hello", 10, 11);
      var b := PutMessageSpec(t, a.state, "world", 20, 21);
      a == Step(WriterState(true, Some("T1"), [CreateLogGroup(Group), CreateLogStream(Group, Stream), PutOf("hello", 10, None)]), Ok) &&
      b == Step(a.state.(token := Some("T2"), calls := a.state.calls + [PutOf("world", 20, Some("T1"))]), Ok)
  {
  }

  /** A stale token: the service's expected token is adopted and the retry succeeds. */
  lemma StaleTokenScenario()
    ensures var t := Target(Group, Stream, (i: nat, c: Call) =>
        if i == 2 then Failure(DataAlreadyAccepted(400, Some("T2"))) else Success(Some("T3")));
      PutMessageSpec(t, Provisioned(), "m", 30, 31) ==
        Step(WriterState(true, Some("T3"), Provisioned().calls + [PutOf("m", 30, Some("T1")), PutOf("m", 31, Some("T2"))]), Ok)
  {
  }

  /** A conflict without an expected token is raised at once, with no retry. */
  lemma MissingExpectedTokenScenario()
    ensures var e := DataAlreadyAccepted(400, None);
      var t := Target(Group, Stream, (i: nat, c: Call) => if i == 2 then Failure(e) else Success(Some("T3")));
      PutMessageSpec(t, Provisioned(), "m", 30, 31) ==
        Step(Provisioned().(calls := Provisioned().calls + [PutOf("m", 30, Some("T1"))]), Raised(e))
  {
  }

  /** A conflict whose status is not 400 is raised at once, with no retry. */
  lemma OtherStatusScenario()
    ensures var e := DataAlreadyAccepted(409, Some("T2"));
      var t := Target(Group, Stream, (i: nat, c: Call) => if i == 2 then Failure(e) else Success(Some("T3")));
      PutMessageSpec(t, Provisioned(), "m", 30, 31) ==
        Step(Provisioned().(calls := Provisioned().calls + [PutOf("m", 30, Some("T1"))]), Raised(e))
  {
  }

  /** A conflict again on the retry is raised: there is no third attempt. */
  lemma DoubleConflictScenario()
    ensures var e := DataAlreadyAccepted(400, Some("T2"));
      var t := Target(Group, Stream, (i: nat, c: Call) => if c.PutLogEvents? then Failure(e) else Success(None));
      PutMessageSpec(t, Provisioned(), "m", 30, 31) ==
        Step(WriterState(true, Some("T2"), Provisioned().calls + [PutOf("m", 30, Some("T1")), PutOf("m", 31, Some("T2"))]), Raised(e))
  {
  }

  /** The stream already exists: create_log_stream's failure is raised, and the writer
      does not look the stream up. */
  lemma StreamAlreadyExistsScenario()
    ensures var t := Target(Group, Stream, (i: nat, c: Call) =>
        if c.CreateLogStream? then Failure(ResourceAlreadyExists) else Success(Some("T5")));
      PutMessageSpec(t, Fresh(), "m", 40, 41) ==
        Step(WriterState(true, None, [CreateLogGroup(Group), CreateLogStream(Group, Stream)]), Raised(ResourceAlreadyExists))
  {
  }
}
