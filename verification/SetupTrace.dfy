/**
 The setup of a client (src/atsq/client.py) on the wire of a session (src/atsq/connection.py), with
 keepalives between its commands and flood retries inside them.
 */
module SetupTrace {
  import opened Sequences
  import opened Protocol
  import opened Demux
  import opened Session
  import opened SessionSafety
  import opened SessionMatching
  import Client
  import EndToEnd

  /** One command of a plan: its line, and whether the server may refuse it without harm. */
  datatype Task = Task(line: Line, mayBeRefused: bool)

  type Plan = seq<Task>

  /** The setup as a plan: each command with the line that rendering gives it. */
  function PlanOf(steps: seq<Client.SetupStep>): (r: Plan)
    ensures |r| == |steps|
    ensures forall i :: 0 <= i < |steps| ==>
              r[i] == Task(EndToEnd.CommandLine(steps[i].command), steps[i].mayBeRefused)
  {
    seq(|steps|, i requires 0 <= i < |steps| => Task(EndToEnd.CommandLine(steps[i].command), steps[i].mayBeRefused))
  }

  // ----- A task that issues its commands one after the other -----

  /** The command was answered, and setup goes on after this answer. */
  predicate WentThrough(call: Call, task: Task) {
    && call.phase.Finished?
    && HasAnswer(call.phase.outcome)
    && (call.phase.outcome.Rows? || task.mayBeRefused)
  }

  /** Number `i` of the setup is call `i`; it begins once its predecessor went through. All other calls are others'. */
  predicate BeginsInTurn(s: State, plan: Plan, a: Action) {
    a.Exec? && a.move.Begin? && a.caller < |plan| ==>
      && a.move.line == plan[a.caller].line
      && (a.caller > 0 ==> a.caller - 1 in s.calls && WentThrough(s.calls[a.caller - 1], plan[a.caller - 1]))
  }

  ghost predicate InTurn(s: State, plan: Plan, actions: seq<Action>) {
    |actions| == 0 ||
    var before := actions[..|actions| - 1];
    InTurn(s, plan, before) && BeginsInTurn(Run(s, before), plan, actions[|actions| - 1])
  }

  // ----- What such a task writes -----

  /** The task's own lines on the wire, a line that is written again for a flood retry counting once. */
  function Trace(wire: seq<Sent>, n: nat): seq<Sent> {
    if |wire| == 0 then []
    else
      var before, last := Trace(wire[..|wire| - 1], n), wire[|wire| - 1];
      if last.Issued? && last.caller < n && (before == [] || before[|before| - 1] != last) then before + [last]
      else before
  }

  function Wanted(plan: Plan, m: nat): (r: seq<Sent>)
    requires m <= |plan|
    ensures |r| == m
    ensures forall i :: 0 <= i < m ==> r[i] == Issued(i, plan[i].line)
  {
    seq(m, i requires 0 <= i < m => Issued(i, plan[i].line))
  }

  /** Each command of the setup stands behind those before it, which all went through. */
  ghost predicate Chained(calls: Calls, plan: Plan) {
    && (forall c :: c in calls && c < |plan| ==> calls[c].line == plan[c].line)
    && (forall b: nat, c: nat :: c < b < |plan| && b in calls ==> c in calls && WentThrough(calls[c], plan[c]))
  }

  /** The first `m` commands, and no others, have been written. */
  ghost predicate Written(calls: Calls, plan: Plan, m: nat) {
    forall c :: 0 <= c < |plan| ==> (c < m <==> c in calls && |calls[c].attempts| > 0)
  }

  /** Only what was written is answered. */
  ghost predicate AnsweredHaveWritten(calls: Calls) {
    forall c :: c in calls && calls[c].phase.Finished? && HasAnswer(calls[c].phase.outcome) ==> |calls[c].attempts| > 0
  }

  ghost predicate TraceOk(trace: seq<Sent>, calls: Calls, plan: Plan) {
    && |trace| <= |plan|
    && trace == Wanted(plan, |trace|)
    && Chained(calls, plan)
    && Written(calls, plan, |trace|)
  }

  // ----- Each step keeps it -----

  lemma {:induction false} TraceNext(wire: seq<Sent>, x: Sent, n: nat)
    ensures Trace(wire + [x], n) ==
            var before := Trace(wire, n);
            if x.Issued? && x.caller < n && (before == [] || before[|before| - 1] != x) then before + [x] else before
  {
    assert (wire + [x])[..|wire|] == wire;
  }

  /** What a step that writes no command leaves of a call. */
  predicate IsKept(before: Call, after: Call) {
    && after.line == before.line
    && |after.attempts| == |before.attempts|
    && (before.phase.Finished? ==> after == before)
  }

  ghost predicate AreKept(before: Calls, after: Calls) {
    forall d :: d in before ==> d in after && IsKept(before[d], after[d])
  }

  predicate WritesCommand(s: State, a: Action) {
    Enabled(s, a) && a.Exec? && a.move == Acquire(true) && !s.closed && !s.transportClosed
  }

  lemma {:induction false} SettleKeepsCalls(calls: Calls, pending: Option<nat>, future: Future)
    ensures AreKept(calls, Settle(calls, pending, future)) && Settle(calls, pending, future).Keys == calls.Keys
  {
  }

  lemma {:induction false} LineKeepsCalls(s: State, line: Line, kind: Kind, parsed: Result<ErrorLine, ParseError>)
    ensures AreKept(s.calls, OnLine(s, line, kind, parsed).calls)
    ensures OnLine(s, line, kind, parsed).calls.Keys == s.calls.Keys && OnLine(s, line, kind, parsed).wire == s.wire
  {
  }

  lemma {:induction false} OneCallMoves(s: State, c: nat, m: Move)
    requires CanMove(s, c, m) && !WritesCommand(s, Exec(c, m)) && !m.Begin? && !m.CloseAfterTimeout?
    ensures var t := MakeMove(s, c, m);
            t.wire == s.wire && c in t.calls && t.calls == s.calls[c := t.calls[c]] && IsKept(s.calls[c], t.calls[c])
  {
  }

  lemma {:induction false} MoveKeepsCalls(s: State, c: nat, m: Move)
    requires CanMove(s, c, m) && !WritesCommand(s, Exec(c, m)) && !m.Begin?
    ensures var t := MakeMove(s, c, m);
            && AreKept(s.calls, t.calls) && t.calls.Keys == s.calls.Keys
            && (t.wire == s.wire || t.wire == s.wire + [Quit])
  {
    if m.CloseAfterTimeout? {
      TimeoutKeepsCalls(s, c, m.quitOk);
    } else {
      OneCallMoves(s, c, m);
    }
  }

  lemma {:induction false} TimeoutKeepsCalls(s: State, c: nat, quitOk: bool)
    requires CanMove(s, c, CloseAfterTimeout(quitOk))
    ensures var t := MakeMove(s, c, CloseAfterTimeout(quitOk));
            && AreKept(s.calls, t.calls) && t.calls.Keys == s.calls.Keys
            && (t.wire == s.wire || t.wire == s.wire + [Quit])
  {
    SettleKeepsCalls(SetPhase(s.calls, c, Closing), s.pending, Failed);
  }

  lemma {:induction false} KeptTrace(trace: seq<Sent>, before: Calls, after: Calls, plan: Plan)
    requires TraceOk(trace, before, plan) && AreKept(before, after) && after.Keys == before.Keys
    ensures TraceOk(trace, after, plan)
  {
  }

  lemma {:induction false} BegunTrace(trace: seq<Sent>, calls: Calls, c: nat, call: Call, plan: Plan)
    requires TraceOk(trace, calls, plan) && c !in calls && call.attempts == []
    requires c < |plan| ==> call.line == plan[c].line
    requires 0 < c < |plan| ==> c - 1 in calls && WentThrough(calls[c - 1], plan[c - 1])
    ensures TraceOk(trace, calls[c := call], plan)
  {
    forall b: nat | c < b < |plan| ensures b !in calls {
    }
    forall d: nat | d < c < |plan| ensures d in calls && WentThrough(calls[d], plan[d]) {
      assert c - 1 in calls;
    }
  }

  lemma {:induction false} EarlierWentThrough(m: nat, calls: Calls, c: nat, plan: Plan)
    requires m <= |plan| && Chained(calls, plan) && Written(calls, plan, m) && c + 1 < m
    ensures c in calls && WentThrough(calls[c], plan[c])
  {
    assert m - 1 in calls;
  }

  /** The call that writes is the last one of the plan that has begun. */
  lemma {:induction false} WriterIsLast(m: nat, calls: Calls, c: nat, plan: Plan)
    requires m <= |plan| && Chained(calls, plan) && Written(calls, plan, m)
    requires c in calls && c < |plan| && calls[c].phase.Queued?
    requires AnsweredHaveWritten(calls)
    ensures if |calls[c].attempts| > 0 then m == c + 1 else m == c
  {
    if c + 1 < m {
      EarlierWentThrough(m, calls, c, plan);
      assert false;
    }
    if c > 0 {
      assert WentThrough(calls[c - 1], plan[c - 1]);
    }
  }

  /** Its line is a new one of the trace, or the last one again. */
  lemma {:induction false} WrittenTrace(trace: seq<Sent>, calls: Calls, c: nat, call: Call, plan: Plan)
    requires TraceOk(trace, calls, plan) && c in calls && calls[c].phase.Queued? && !call.phase.Finished?
    requires call.line == calls[c].line && |call.attempts| == |calls[c].attempts| + 1
    requires c < |plan| ==> |trace| == if |calls[c].attempts| > 0 then c + 1 else c
    ensures c < |plan| && |calls[c].attempts| > 0 ==> |trace| > 0 && trace[|trace| - 1] == Issued(c, call.line)
    ensures c < |plan| && |calls[c].attempts| == 0 && |trace| > 0 ==> trace[|trace| - 1] != Issued(c, call.line)
    ensures TraceOk(if c < |plan| && |calls[c].attempts| == 0 then trace + [Issued(c, call.line)] else trace,
                    calls[c := call], plan)
  {
    if c < |plan| && |calls[c].attempts| == 0 {
      assert trace + [Issued(c, call.line)] == Wanted(plan, c + 1);
    }
  }

  lemma {:induction false} CallsOkHaveWritten(config: Config, now: real, wire: seq<Sent>, calls: Calls)
    requires CallsOk(config, now, wire, calls)
    ensures AnsweredHaveWritten(calls)
  {
    forall c | c in calls && calls[c].phase.Finished? && HasAnswer(calls[c].phase.outcome)
      ensures |calls[c].attempts| > 0
    {
      assert CallOk(config, now, wire, c, calls[c]);
    }
  }

  lemma {:induction false} WriteKeepsTrace(s: State, c: nat, plan: Plan)
    requires TraceOk(Trace(s.wire, |plan|), s.calls, plan)
    requires c in s.calls && s.calls[c].phase.Queued? && !s.closed && !s.transportClosed
    requires AnsweredHaveWritten(s.calls)
    ensures var t := AcquireLock(s, c, true); TraceOk(Trace(t.wire, |plan|), t.calls, plan)
  {
    var t, trace := AcquireLock(s, c, true), Trace(s.wire, |plan|);
    TraceNext(s.wire, Issued(c, s.calls[c].line), |plan|);
    if c < |plan| {
      WriterIsLast(|trace|, s.calls, c, plan);
    }
    WrittenTrace(trace, s.calls, c, t.calls[c], plan);
  }

  lemma {:induction false} QuietStepKeepsTrace(s: State, t: State, plan: Plan)
    requires TraceOk(Trace(s.wire, |plan|), s.calls, plan) && (t.wire == s.wire || t.wire == s.wire + [Quit])
    requires AreKept(s.calls, t.calls) && t.calls.Keys == s.calls.Keys
    ensures TraceOk(Trace(t.wire, |plan|), t.calls, plan)
  {
    TraceNext(s.wire, Quit, |plan|);
    KeptTrace(Trace(s.wire, |plan|), s.calls, t.calls, plan);
  }

  lemma {:induction false} MoveKeepsTrace(s: State, c: nat, m: Move, plan: Plan)
    requires TraceOk(Trace(s.wire, |plan|), s.calls, plan)
    requires CanMove(s, c, m) && BeginsInTurn(s, plan, Exec(c, m)) && !WritesCommand(s, Exec(c, m))
    ensures TraceOk(Trace(MakeMove(s, c, m).wire, |plan|), MakeMove(s, c, m).calls, plan)
  {
    if m.Begin? {
      BegunTrace(Trace(s.wire, |plan|), s.calls, c, MakeMove(s, c, m).calls[c], plan);
    } else {
      MoveKeepsCalls(s, c, m);
      QuietStepKeepsTrace(s, MakeMove(s, c, m), plan);
    }
  }

  lemma {:induction false} LineKeepsTrace(s: State, line: Line, plan: Plan)
    requires TraceOk(Trace(s.wire, |plan|), s.calls, plan)
    ensures TraceOk(Trace(ReceiveLine(s, line).wire, |plan|), ReceiveLine(s, line).calls, plan)
  {
    LineKeepsCalls(s.(received := s.received + [line]), line, KindOf(line), ParsedError(line));
    QuietStepKeepsTrace(s, ReceiveLine(s, line), plan);
  }

  lemma {:induction false} StepKeepsTrace(s: State, a: Action, plan: Plan)
    requires TraceOk(Trace(s.wire, |plan|), s.calls, plan) && AnsweredHaveWritten(s.calls)
    requires Enabled(s, a) && BeginsInTurn(s, plan, a)
    ensures TraceOk(Trace(Step(s, a).wire, |plan|), Step(s, a).calls, plan)
  {
    if WritesCommand(s, a) {
      WriteKeepsTrace(s, a.caller, plan);
    } else if a.Exec? {
      MoveKeepsTrace(s, a.caller, a.move, plan);
    } else if a.Receive? {
      LineKeepsTrace(s, a.line, plan);
    } else {
      SettleKeepsCalls(s.calls, s.pending, Failed);
      QuietStepKeepsTrace(s, Step(s, a), plan);
    }
  }

  lemma {:induction false} RunHasWritten(config: Config, now: real, actions: seq<Action>)
    ensures AnsweredHaveWritten(Run(Initial(config, now), actions).calls)
  {
    var s := Run(Initial(config, now), actions);
    RunIsSafe(config, now, actions);
    CallsOkHaveWritten(s.config, s.now, s.wire, s.calls);
  }

  lemma {:induction false} RunKeepsTrace(config: Config, now: real, actions: seq<Action>, plan: Plan)
    requires InTurn(Initial(config, now), plan, actions)
    ensures var s := Run(Initial(config, now), actions); TraceOk(Trace(s.wire, |plan|), s.calls, plan)
  {
    if |actions| == 0 {
    } else {
      var before, a := actions[..|actions| - 1], actions[|actions| - 1];
      RunKeepsTrace(config, now, before, plan);
      RunHasWritten(config, now, before);
      if Enabled(Run(Initial(config, now), before), a) {
        StepKeepsTrace(Run(Initial(config, now), before), a, plan);
      }
    }
  }

  // ----- The setup transaction -----

  /**
   In every run in which a task issues the setup in turn, whatever keepalives and other callers write in
   between and however often a flooded line is written again, the task's trace on the wire is the
   beginning of the setup, line by line; it is the whole setup once every command went through.
   */
  lemma {:induction false} SetupIsTheTrace(
      config: Config, now: real, actions: seq<Action>, s: State, setup: Client.Config, plan: Plan)
    requires plan == PlanOf(Client.SetupSteps(setup))
    requires InTurn(Initial(config, now), plan, actions) && s == Run(Initial(config, now), actions)
    ensures Trace(s.wire, |plan|) <= Wanted(plan, |plan|)
    ensures (forall i :: 0 <= i < |plan| ==> i in s.calls && WentThrough(s.calls[i], plan[i])) ==>
              Trace(s.wire, |plan|) == Wanted(plan, |plan|)
  {
    RunKeepsTrace(config, now, actions, plan);
    RunHasWritten(config, now, actions);
    WholePlanWritten(s, plan);
  }

  lemma {:induction false} WholePlanWritten(s: State, plan: Plan)
    requires TraceOk(Trace(s.wire, |plan|), s.calls, plan) && AnsweredHaveWritten(s.calls)
    ensures Trace(s.wire, |plan|) <= Wanted(plan, |plan|)
    ensures (forall i :: 0 <= i < |plan| ==> i in s.calls && WentThrough(s.calls[i], plan[i])) ==>
              Trace(s.wire, |plan|) == Wanted(plan, |plan|)
  {
    var last := |plan| - 1;
    assert last >= 0 && last in s.calls && WentThrough(s.calls[last], plan[last]) ==> |s.calls[last].attempts| > 0;
  }
}
