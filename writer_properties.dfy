/** Properties of the stream writer that relate several calls or several writers. */
module WriterProperties {
  import opened Wrappers
  import opened CloudWatchLogs

  /** One put_message call: the message and the clock readings of its two possible attempts. */
  datatype Submission = Submission(message: string, now: nat, retryNow: nat)

  /** The state after a writer is handed each submission in turn, whether or not the
      earlier ones raised. */
  function Run(t: Target, s: WriterState, subs: seq<Submission>): WriterState
    decreases |subs|
  {
    if subs == [] then s
    else
      var next := PutMessageSpec(t, s, subs[0].message, subs[0].now, subs[0].retryNow).state;
      Run(t, next, subs[1..])
  }

  /** In a log of the writer's shape, the group and the stream are each created at most
      once, and nothing else is created. */
  lemma ProvisionedAtMostOnce(t: Target, s: WriterState)
    requires LogShape(t, s)
    ensures multiset(s.calls)[CreateLogGroup(t.group)] <= 1
    ensures multiset(s.calls)[CreateLogStream(t.group, t.stream)] <= 1
    ensures forall c :: c in s.calls && !c.PutLogEvents? ==>
      c == CreateLogGroup(t.group) || c == CreateLogStream(t.group, t.stream)
  {
    var group := CreateLogGroup(t.group);
    var stream := CreateLogStream(t.group, t.stream);
    if |s.calls| >= 2 {
      var rest := s.calls[2..];
      assert s.calls == [s.calls[0], s.calls[1]] + rest;
      assert forall c :: c in rest ==> PutTo(t, c) by {
        forall c | c in rest ensures PutTo(t, c) {
          var k :| 0 <= k < |rest| && rest[k] == c;
          assert s.calls[k + 2] == c;
        }
      }
      assert group !in rest && stream !in rest;
      assert s.calls[1] != group;
    } else if |s.calls| == 1 {
      assert s.calls == [group];
    }
  }

  /** Over any sequence of put_message calls on one writer, the log keeps its shape. */
  lemma {:induction false} RunKeepsLogShape(t: Target, s: WriterState, subs: seq<Submission>)
    requires LogShape(t, s)
    ensures LogShape(t, Run(t, s, subs))
    decreases |subs|
  {
    if subs != [] {
      PutMessageKeepsLogShape(t, s, subs[0].message, subs[0].now, subs[0].retryNow);
      RunKeepsLogShape(t, PutMessageSpec(t, s, subs[0].message, subs[0].now, subs[0].retryNow).state, subs[1..]);
    }
  }

  /** A writer provisions its group and stream at most once in its whole life, even
      when provisioning or some puts fail. */
  lemma RunProvisionsOnce(t: Target, subs: seq<Submission>)
    ensures var calls := Run(t, Fresh(), subs).calls;
      multiset(calls)[CreateLogGroup(t.group)] <= 1 &&
      multiset(calls)[CreateLogStream(t.group, t.stream)] <= 1
  {
    RunKeepsLogShape(t, Fresh(), subs);
    ProvisionedAtMostOnce(t, Run(t, Fresh(), subs));
  }

  /** put_message issues at most two puts, and a second one only after a resyncable
      conflict on the first attempt. */
  lemma AtMostTwoPuts(t: Target, s: WriterState, message: string, now: nat, retryNow: nat)
    ensures var r := PutMessageSpec(t, s, message, now, retryNow);
      |r.state.calls| <= |s.calls| + 4 && PutCount(r.state.calls) <= PutCount(s.calls) + 2
    ensures var r := PutMessageSpec(t, s, message, now, retryNow);
      var first := PutOnceSpec(t, s, message, now);
      PutCount(r.state.calls) == PutCount(s.calls) + 2 ==>
        first.status.Raised? && Resyncable(first.status.error)
  {
    var first := PutOnceSpec(t, s, message, now);
    AttemptPutCount(t, s, message, now);
    if first.status.Raised? && Resyncable(first.status.error) {
      var e := first.status.error;
      AttemptPutCount(t, first.state.(token := e.expectedSequenceToken), message, retryNow);
    }
  }

  /** One attempt sends at most three requests, of which at most one is a put. */
  lemma AttemptPutCount(t: Target, s: WriterState, message: string, now: nat)
    ensures var r := PutOnceSpec(t, s, message, now);
      |r.state.calls| <= |s.calls| + 3 && PutCount(r.state.calls) <= PutCount(s.calls) + 1
  {
    var c := LazyConnectSpec(t, s);
    if !s.connected {
      var group := CreateLogGroup(t.group);
      var stream := CreateLogStream(t.group, t.stream);
      var g := CreateGroupAndStreamSpec(t, s.(connected := true));
      assert c == g;
      PutCountAppend(s.calls, group);
      if |c.state.calls| == |s.calls| + 2 {
        assert c.state.calls == (s.calls + [group]) + [stream];
        PutCountAppend(s.calls + [group], stream);
      } else {
        assert c.state.calls == s.calls + [group];
      }
    }
    assert PutCount(c.state.calls) == PutCount(s.calls);
    if c.status.Ok? {
      var put := PutLogEvents(t.group, t.stream, Event(message, now), TokenToSend(c.state.token));
      assert PutOnceSpec(t, s, message, now).state.calls == c.state.calls + [put];
      PutCountAppend(c.state.calls, put);
    }
  }

  /** Appending one request adds one to the put count exactly when it is a put. */
  lemma PutCountAppend(calls: seq<Call>, c: Call)
    ensures PutCount(calls + [c]) == PutCount(calls) + (if c.PutLogEvents? then 1 else 0)
  {
    assert (calls + [c])[..|calls|] == calls;
  }

  /** Two consecutive put_message calls: the second never provisions again, and its
      first put carries the token the first call left behind; when the first call
      succeeded, that is the next token the service returned to it. */
  lemma ConsecutiveMessagesThreadToken(t: Target, s: WriterState, first: Submission, second: Submission)
    ensures var a := PutMessageSpec(t, s, first.message, first.now, first.retryNow);
      var b := PutMessageSpec(t, a.state, second.message, second.now, second.retryNow);
      var n := |a.state.calls|;
      (forall i :: n <= i < |b.state.calls| ==> PutTo(t, b.state.calls[i])) &&
      b.state.calls[n].sequenceToken == TokenToSend(a.state.token) &&
      (a.status.Ok? ==> b.state.calls[n].sequenceToken == TokenToSend(LastAnswer(t, a.state.calls).nextSequenceToken))
  {
  }

  /** The first attempt of a fresh writer sends no sequenceToken. */
  lemma FreshWriterOmitsToken(t: Target, message: string, now: nat)
    ensures var r := PutOnceSpec(t, Fresh(), message, now);
      forall i :: 0 <= i < |r.state.calls| && r.state.calls[i].PutLogEvents? ==>
        r.state.calls[i].sequenceToken == None
  {
  }

  /** A group-creation answer that lets provisioning go on to the stream. */
  predicate GroupAvailable(a: Response)
  {
    a.Success? || a == Failure(ResourceAlreadyExists)
  }

  /** "Already exists" from group creation is absorbed: a service that answers it
      instead of a successful creation leads to exactly the same writer behaviour. */
  lemma GroupAlreadyExistsIsAbsorbed(t1: Target, t2: Target, s: WriterState, message: string, now: nat, retryNow: nat)
    requires t1.group == t2.group && t1.stream == t2.stream
    requires forall i: nat, c: Call :: c == CreateLogGroup(t1.group) || t1.respond(i, c) == t2.respond(i, c)
    requires forall i: nat :: GroupAvailable(t1.respond(i, CreateLogGroup(t1.group)))
    requires forall i: nat :: GroupAvailable(t2.respond(i, CreateLogGroup(t2.group)))
    ensures PutMessageSpec(t1, s, message, now, retryNow) == PutMessageSpec(t2, s, message, now, retryNow)
  {
    var first := PutOnceSpec(t1, s, message, now);
    AttemptsAgree(t1, t2, s, message, now);
    if first.status.Raised? && Resyncable(first.status.error) {
      AttemptsAgree(t1, t2, first.state.(token := first.status.error.expectedSequenceToken), message, retryNow);
    }
  }

  /** The same for one attempt, from any state. */
  lemma AttemptsAgree(t1: Target, t2: Target, s: WriterState, message: string, now: nat)
    requires t1.group == t2.group && t1.stream == t2.stream
    requires forall i: nat, c: Call :: c == CreateLogGroup(t1.group) || t1.respond(i, c) == t2.respond(i, c)
    requires forall i: nat :: GroupAvailable(t1.respond(i, CreateLogGroup(t1.group)))
    requires forall i: nat :: GroupAvailable(t2.respond(i, CreateLogGroup(t2.group)))
    ensures PutOnceSpec(t1, s, message, now) == PutOnceSpec(t2, s, message, now)
  {
    var c1 := LazyConnectSpec(t1, s);
    var c2 := LazyConnectSpec(t2, s);
    if !s.connected {
      var n := |s.calls|;
      var stream := CreateLogStream(t1.group, t1.stream);
      assert GroupAvailable(t1.respond(n, CreateLogGroup(t1.group)));
      assert GroupAvailable(t2.respond(n, CreateLogGroup(t2.group)));
      assert t1.respond(n + 1, stream) == t2.respond(n + 1, stream);
      assert c1 == c2;
    }
    if c1.status.Ok? {
      var put := PutLogEvents(t1.group, t1.stream, Event(message, now), TokenToSend(c1.state.token));
      assert t1.respond(|c1.state.calls|, put) == t2.respond(|c1.state.calls|, put);
    }
  }
}
