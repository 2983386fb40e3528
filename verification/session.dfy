/** A sequence of calls into the logger, run from a given storage state. It
    states what the calls together do: only `setup` writes the storage, and
    each `output` emits at most one line. */
module Session {
  import opened Wrappers
  import opened Topics
  import opened Storage
  import opened TimeFormat
  import opened Logger

  datatype Call =
    | SetupCall(topics: seq<TopicMessage>, default: Option<TopicMessage>)
    | OutputCall(payload: string, topic: Option<TopicMessage>, time: ClockTime)

  /** The storage after one call and the lines that call emits: a `setup`
      writes exactly its arguments and emits nothing; an `output` keeps the
      storage and emits one line exactly when a topic is selected. */
  function Step(s: LoggerStorage, c: Call): (r: (LoggerStorage, seq<string>))
    ensures c.SetupCall? ==> r.0 == LoggerStorage(c.topics, c.default) && r.1 == []
    ensures c.OutputCall? ==> r.0 == s && |r.1| <= 1
    ensures c.OutputCall? ==> (|r.1| == 1 <==> Select(s, c.topic).Some?)
  {
    match c
    case SetupCall(ts, d) => (Setup(s, ts, d), [])
    case OutputCall(p, t, time) =>
      match Select(s, t)
      case None => (s, [])
      case Some(topic) => (s, [Render(topic, time, p)])
  }

  /** Carries out one call with `Setup` and the `Output` method; it does what
      `Step` says a call does. */
  method Apply(s: LoggerStorage, c: Call) returns (s': LoggerStorage, lines: seq<string>)
    ensures (s', lines) == Step(s, c)
  {
    match c
    case SetupCall(ts, d) =>
      s' := Setup(s, ts, d);
      lines := [];
    case OutputCall(p, t, time) =>
      var line;
      line, s' := Output(s, p, t, time);
      lines := if line.Some? then [line.value] else [];
  }

  /** Runs the calls in order, collecting the emitted lines. */
  function Run(s: LoggerStorage, calls: seq<Call>): (LoggerStorage, seq<string>)
    decreases |calls|
  {
    if |calls| == 0 then (s, [])
    else
      var (s1, out1) := Step(s, calls[0]);
      var (s2, out2) := Run(s1, calls[1..]);
      (s2, out1 + out2)
  }

  /** The storage the last `setup` among `calls` wrote, or `s` if none did. */
  function LastSetup(s: LoggerStorage, calls: seq<Call>): LoggerStorage
    decreases |calls|
  {
    if |calls| == 0 then s
    else match calls[|calls| - 1]
      case SetupCall(ts, d) => LoggerStorage(ts, d)
      case OutputCall(_, _, _) => LastSetup(s, calls[..|calls| - 1])
  }

  /** How many calls are outputs. */
  function OutputCount(calls: seq<Call>): nat {
    if |calls| == 0 then 0 else (if calls[0].OutputCall? then 1 else 0) + OutputCount(calls[1..])
  }

  /** Running `a + b` runs `a`, then `b` from where `a` left off. */
  lemma {:induction false} RunAppend(s: LoggerStorage, a: seq<Call>, b: seq<Call>)
    ensures Run(s, a + b).0 == Run(Run(s, a).0, b).0
    ensures Run(s, a + b).1 == Run(s, a).1 + Run(Run(s, a).0, b).1
    decreases |a|
  {
    if |a| > 0 {
      assert (a + b)[1..] == a[1..] + b;
      RunAppend(Step(s, a[0]).0, a[1..], b);
    } else {
      assert a + b == b;
    }
  }

  /** After any sequence of calls the storage is what the last `setup` wrote;
      `output` calls never change it. */
  lemma {:induction false} StorageIsLastSetup(s: LoggerStorage, calls: seq<Call>)
    ensures Run(s, calls).0 == LastSetup(s, calls)
    decreases |calls|
  {
    if |calls| > 0 {
      var init := calls[..|calls| - 1];
      var last := calls[|calls| - 1];
      assert calls == init + [last];
      RunAppend(s, init, [last]);
      StorageIsLastSetup(s, init);
    }
  }

  /** A run of outputs alone leaves the storage as it was. */
  lemma OutputsKeepStorage(s: LoggerStorage, calls: seq<Call>)
    requires forall i :: 0 <= i < |calls| ==> calls[i].OutputCall?
    ensures Run(s, calls).0 == s
  {
    StorageIsLastSetup(s, calls);
    OnlyOutputsLastSetup(s, calls);
  }

  /** With no `setup` among the calls, the last setup is the starting state. */
  lemma {:induction false} OnlyOutputsLastSetup(s: LoggerStorage, calls: seq<Call>)
    requires forall i :: 0 <= i < |calls| ==> calls[i].OutputCall?
    ensures LastSetup(s, calls) == s
    decreases |calls|
  {
    if |calls| > 0 {
      OnlyOutputsLastSetup(s, calls[..|calls| - 1]);
    }
  }

  /** Each `output` emits at most one line and `setup` emits none. */
  lemma {:induction false} AtMostOneLinePerOutput(s: LoggerStorage, calls: seq<Call>)
    ensures |Run(s, calls).1| <= OutputCount(calls)
    decreases |calls|
  {
    if |calls| > 0 {
      AtMostOneLinePerOutput(Step(s, calls[0]).0, calls[1..]);
    }
  }

  /** From the initial state, outputs alone emit nothing. */
  lemma {:induction false} InitialOutputsSilent(calls: seq<Call>)
    requires forall i :: 0 <= i < |calls| ==> calls[i].OutputCall?
    ensures Run(Initial, calls).1 == []
    decreases |calls|
  {
    if |calls| > 0 {
      InitialEmitsNothing(calls[0].topic);
      InitialOutputsSilent(calls[1..]);
    }
  }
}
