/**
 The keepalive loop (src/atsq/connection.py) in real time. Sleeps wake on time, sends take no time but
 may fail, and a command may take up to the command timeout. A keepalive may be answered with success,
 refused, or flooded and tried again later; a refusal and a failed send end the loop, and so does the
 closing of the connection, which cancels the loop's task.
 */
module Keepalive {
  import opened Sequences

  datatype Loop =
    | Deciding               // about to look at the clock
    | Asleep(until: real)
    | WantsLock(again: bool) // a keepalive waits for the command lock, for the first time or after a flood
    | InFlight               // its `whoami` is on the wire
    | Flooded(until: real)   // between flood retries, inside `exec`
    | Ended

  /** `broken` is a transport that a failed send has closed; `deadline` is when the command in flight times out. */
  datatype State = State(
    interval: real,
    timeout: real,
    now: real,
    lastActivity: real,
    closed: bool,
    broken: bool,
    deadline: Option<real>,
    loop: Loop)

  datatype Action =
    | Elapse(time: real)
    | Decide
    | WakeUp
    | SendKeepalive
    | KeepaliveSendFails
    | SendOther
    | OtherSendFails
    | Answered                        // of a keepalive: with success
    | KeepaliveRefused
    | KeepaliveFlooded(wait: real)    // and tries are left
    | TimesOut
    | Close

  function Initial(interval: real, timeout: real, now: real): State {
    State(interval, timeout, now, now, false, false, None, Deciding)
  }

  function Max(a: real, b: real): real {
    if a < b then b else a
  }

  /** When a command sent now times out; a timeout that is not positive fires at once. */
  function DeadlineFrom(s: State): real {
    s.now + Max(s.timeout, 0.0)
  }

  /** Time passes only while nothing is due: no decision, no wake-up, no timeout, no free lock to take. */
  predicate MayElapse(s: State, time: real) {
    && time >= 0.0
    && !s.loop.Deciding?
    && (s.loop.Asleep? || s.loop.Flooded? ==> s.now + time <= s.loop.until)
    && (s.loop.WantsLock? ==> s.deadline.Some?)
    && (s.deadline.Some? ==> s.now + time <= s.deadline.value)
  }

  /** The command lock of an open connection is free. */
  predicate IsFree(s: State) {
    !s.closed && s.deadline.None?
  }

  predicate Enabled(s: State, a: Action) {
    match a
    case Elapse(time) => s.closed || MayElapse(s, time)
    case Decide => s.loop.Deciding?
    case WakeUp => (s.loop.Asleep? || s.loop.Flooded?) && s.now >= s.loop.until
    case SendKeepalive => IsFree(s) && s.loop.WantsLock? && !s.broken
    case KeepaliveSendFails => IsFree(s) && s.loop.WantsLock?
    case SendOther => IsFree(s) && !s.broken
    case OtherSendFails => IsFree(s)
    case Answered => !s.closed && s.deadline.Some?
    case KeepaliveRefused => !s.closed && s.deadline.Some? && s.loop.InFlight?
    case KeepaliveFlooded(wait) => !s.closed && s.deadline.Some? && s.loop.InFlight? && wait > 0.0
    case TimesOut => !s.closed && s.deadline.Some? && s.now >= s.deadline.value
    case Close => true
  }

  /** Seconds until a keepalive is due. */
  function DueIn(s: State): real {
    s.interval - (s.now - s.lastActivity)
  }

  function Step(s: State, a: Action): State
    requires Enabled(s, a)
  {
    match a
    case Elapse(time) => s.(now := s.now + time)
    case Decide =>
      s.(loop := if s.closed then Ended
                 else if DueIn(s) > 0.0 then Asleep(s.now + DueIn(s))
                 else WantsLock(false))
    case WakeUp => s.(loop := if s.loop.Flooded? then WantsLock(true) else Deciding)
    case SendKeepalive => s.(lastActivity := s.now, deadline := Some(DeadlineFrom(s)), loop := InFlight)
    case KeepaliveSendFails => s.(broken := true, loop := Ended)
    case SendOther => s.(lastActivity := s.now, deadline := Some(DeadlineFrom(s)))
    case OtherSendFails => s.(broken := true)
    case Answered => s.(lastActivity := s.now, deadline := None, loop := if s.loop.InFlight? then Deciding else s.loop)
    case KeepaliveRefused => s.(lastActivity := s.now, deadline := None, loop := Ended)
    case KeepaliveFlooded(wait) => s.(lastActivity := s.now, deadline := None, loop := Flooded(s.now + wait))
    case TimesOut => s.(closed := true, deadline := None, loop := Ended)
    case Close => s.(closed := true, loop := Ended)
  }

  function Next(s: State, a: Action): State {
    if Enabled(s, a) then Step(s, a) else s
  }

  function Run(s: State, actions: seq<Action>): State {
    if |actions| == 0 then s else Next(Run(s, actions[..|actions| - 1]), actions[|actions| - 1])
  }

  lemma {:induction false} RunNext(s: State, actions: seq<Action>, a: Action)
    ensures Run(s, actions + [a]) == Next(Run(s, actions), a)
  {
    assert (actions + [a])[..|actions|] == actions;
  }

  function Idle(s: State): real {
    s.now - s.lastActivity
  }

  /** The loop lives and does not stand behind a flooded keepalive. */
  predicate IsOnTime(loop: Loop) {
    !loop.Ended? && !loop.Flooded? && loop != WantsLock(true)
  }

  /** While open, no command outlives its timeout; while the loop is on time, it never sleeps past the interval. */
  predicate Timed(s: State) {
    !s.closed ==>
      && s.interval > 0.0
      && 0.0 <= Idle(s)
      && (s.deadline.Some? ==> s.now <= s.deadline.value <= s.lastActivity + Max(s.timeout, 0.0))
      && (s.loop.InFlight? ==> s.deadline.Some?)
      && (IsOnTime(s.loop) ==>
            && Idle(s) <= Max(s.interval, s.timeout)
            && (s.deadline.None? ==> Idle(s) <= s.interval)
            && (s.loop.Asleep? ==> s.now <= s.loop.until <= s.lastActivity + s.interval)
            && (s.loop.Deciding? ==> Idle(s) <= s.interval))
  }

  lemma {:induction false} StepKeepsTimed(s: State, a: Action)
    requires Timed(s) && Enabled(s, a)
    ensures Timed(Step(s, a))
  {
  }

  lemma {:induction false} RunIsTimed(interval: real, timeout: real, now: real, actions: seq<Action>)
    requires interval > 0.0
    ensures Timed(Run(Initial(interval, timeout, now), actions))
    ensures var s := Run(Initial(interval, timeout, now), actions); s.interval == interval && s.timeout == timeout
  {
    if |actions| == 0 {
    } else {
      var before, a := actions[..|actions| - 1], actions[|actions| - 1];
      RunIsTimed(interval, timeout, now, before);
      var s := Run(Initial(interval, timeout, now), before);
      if Enabled(s, a) {
        StepKeepsTimed(s, a);
      }
    }
  }

  /** A keepalive goes wrong: its send fails, or it is refused, or it is flooded. */
  predicate GoesWrong(a: Action) {
    a.KeepaliveSendFails? || a.KeepaliveRefused? || a.KeepaliveFlooded?
  }

  /** Every keepalive that is due is sent, and answered with success if the connection lives to see the answer. */
  predicate KeepalivesGoWell(actions: seq<Action>) {
    forall i :: 0 <= i < |actions| ==> !GoesWrong(actions[i])
  }

  /** While the connection is open, only a keepalive that goes wrong takes the loop off its time. */
  lemma {:induction false} OnlyKeepalivesStrayTheLoop(interval: real, timeout: real, now: real, actions: seq<Action>)
    requires KeepalivesGoWell(actions)
    ensures var s := Run(Initial(interval, timeout, now), actions); !s.closed ==> IsOnTime(s.loop)
  {
    if |actions| == 0 {
    } else {
      OnlyKeepalivesStrayTheLoop(interval, timeout, now, actions[..|actions| - 1]);
    }
  }

  /** As long as all keepalives go well, no open connection is idle for longer than the interval and the timeout. */
  lemma {:induction false} IdleIsBounded(interval: real, timeout: real, now: real, actions: seq<Action>)
    requires interval > 0.0 && KeepalivesGoWell(actions)
    ensures var s := Run(Initial(interval, timeout, now), actions);
            !s.closed ==> 0.0 <= Idle(s) <= Max(interval, timeout)
  {
    RunIsTimed(interval, timeout, now, actions);
    OnlyKeepalivesStrayTheLoop(interval, timeout, now, actions);
  }

  /**
   A keepalive is decided only after a full idle interval. With a command timeout below the interval
   it is decided exactly then, and the command lock is free for it.
   */
  lemma {:induction false} KeepaliveIsDecidedWhenIdle(interval: real, timeout: real, now: real, actions: seq<Action>)
    requires interval > 0.0
    ensures var s := Run(Initial(interval, timeout, now), actions);
            s.loop.Deciding? && !s.closed && Step(s, Decide).loop.WantsLock? ==>
              && Idle(s) == interval
              && (timeout < interval ==> IsFree(s) && Enabled(Step(s, Decide), KeepaliveSendFails)
                                         && (!s.broken ==> Enabled(Step(s, Decide), SendKeepalive)))
  {
    RunIsTimed(interval, timeout, now, actions);
  }

  // ----- When keepalives go wrong -----

  /** A loop that has ended stays so: in every continuation no keepalive is sent, or even due. */
  lemma {:induction false} EndedForGood(s: State, actions: seq<Action>)
    requires s.loop.Ended?
    ensures Run(s, actions).loop.Ended?
    ensures !Enabled(Run(s, actions), SendKeepalive) && !Enabled(Run(s, actions), Decide)
  {
    if |actions| == 0 {
    } else {
      EndedForGood(s, actions[..|actions| - 1]);
    }
  }

  /** Closing the connection, also by a timeout, ends the loop: no closed connection has one. */
  lemma {:induction false} ClosedHasNoLoop(interval: real, timeout: real, now: real, actions: seq<Action>)
    ensures var s := Run(Initial(interval, timeout, now), actions);
            s.closed ==> s.loop.Ended?
    ensures var s := Run(Initial(interval, timeout, now), actions);
            (exists i :: 0 <= i < |actions| && actions[i].Close?) ==> s.closed
  {
    if |actions| == 0 {
    } else {
      ClosedHasNoLoop(interval, timeout, now, actions[..|actions| - 1]);
    }
  }

  /** A failed send is the last one: in every continuation nothing can be sent on that transport. */
  lemma {:induction false} FailedSendIsLast(s: State, a: Action, actions: seq<Action>)
    requires Enabled(s, a) && (a.KeepaliveSendFails? || a.OtherSendFails?)
    ensures var t := Run(Next(s, a), actions); t.broken && !Enabled(t, SendKeepalive) && !Enabled(t, SendOther)
  {
    if |actions| == 0 {
    } else {
      FailedSendIsLast(s, a, actions[..|actions| - 1]);
    }
  }

  /** The first keepalive comes due on a connection where nothing else happens. */
  function UntilDue(interval: real): seq<Action> {
    [Decide, Elapse(interval), WakeUp, Decide]
  }

  lemma {:induction false} FirstIsDue(interval: real, timeout: real, now: real)
    requires interval > 0.0
    ensures Run(Initial(interval, timeout, now), UntilDue(interval)) ==
            Initial(interval, timeout, now).(now := now + interval, loop := WantsLock(false))
  {
    var s, a := Initial(interval, timeout, now), UntilDue(interval);
    RunNext(s, [], a[0]);
    RunNext(s, [a[0]], a[1]);
    RunNext(s, [a[0], a[1]], a[2]);
    RunNext(s, [a[0], a[1], a[2]], a[3]);
    assert [] + [a[0]] == [a[0]] && [a[0]] + [a[1]] == [a[0], a[1]];
    assert [a[0], a[1]] + [a[2]] == [a[0], a[1], a[2]] && [a[0], a[1], a[2]] + [a[3]] == a;
  }

  /** After a refused keepalive the connection stays open and may be idle for any time. */
  lemma {:induction false} RefusedKeepaliveIsLast(interval: real, timeout: real, now: real, time: real)
    requires interval > 0.0 && time >= 0.0
    ensures var s := Run(Initial(interval, timeout, now),
                         UntilDue(interval) + [SendKeepalive, KeepaliveRefused, Elapse(time)]);
            !s.closed && s.loop.Ended? && Idle(s) == time
  {
    var s, a := Initial(interval, timeout, now), UntilDue(interval);
    FirstIsDue(interval, timeout, now);
    RunNext(s, a, SendKeepalive);
    RunNext(s, a + [SendKeepalive], KeepaliveRefused);
    RunNext(s, a + [SendKeepalive] + [KeepaliveRefused], Elapse(time));
    assert a + [SendKeepalive, KeepaliveRefused, Elapse(time)] ==
           a + [SendKeepalive] + [KeepaliveRefused] + [Elapse(time)];
  }

  /** So may it after a keepalive whose send fails: the loop is over, and nothing has closed the connection. */
  lemma {:induction false} UnsentKeepaliveIsLast(interval: real, timeout: real, now: real, time: real)
    requires interval > 0.0 && time >= 0.0
    ensures var s := Run(Initial(interval, timeout, now), UntilDue(interval) + [KeepaliveSendFails, Elapse(time)]);
            !s.closed && s.loop.Ended? && Idle(s) == interval + time
  {
    var s, a := Initial(interval, timeout, now), UntilDue(interval);
    FirstIsDue(interval, timeout, now);
    RunNext(s, a, KeepaliveSendFails);
    RunNext(s, a + [KeepaliveSendFails], Elapse(time));
    assert a + [KeepaliveSendFails, Elapse(time)] == a + [KeepaliveSendFails] + [Elapse(time)];
  }

  /** And a flooded keepalive is not tried again before the wait the server asks for, however long that is. */
  lemma {:induction false} FloodedKeepaliveIsLate(interval: real, timeout: real, now: real, wait: real)
    requires interval > 0.0 && wait > 0.0
    ensures var s := Run(Initial(interval, timeout, now),
                         UntilDue(interval) + [SendKeepalive, KeepaliveFlooded(wait), Elapse(wait)]);
            !s.closed && s.loop.Flooded? && Idle(s) == wait && Enabled(s, WakeUp)
  {
    var s, a := Initial(interval, timeout, now), UntilDue(interval);
    FirstIsDue(interval, timeout, now);
    RunNext(s, a, SendKeepalive);
    RunNext(s, a + [SendKeepalive], KeepaliveFlooded(wait));
    RunNext(s, a + [SendKeepalive] + [KeepaliveFlooded(wait)], Elapse(wait));
    assert a + [SendKeepalive, KeepaliveFlooded(wait), Elapse(wait)] ==
           a + [SendKeepalive] + [KeepaliveFlooded(wait)] + [Elapse(wait)];
  }

  // ----- The interval and the command timeout -----

  /** A command sent at once and never answered, while the keepalive comes due behind it. */
  function SlowCommand(interval: real, timeout: real): seq<Action> {
    [Decide, SendOther, Elapse(interval), WakeUp, Decide, Elapse(timeout - interval)]
  }

  lemma {:induction false} SlowCommandIsIdle(interval: real, timeout: real, now: real)
    requires 0.0 < interval < timeout
    ensures var s := Run(Initial(interval, timeout, now), SlowCommand(interval, timeout));
            !s.closed && Idle(s) == timeout
  {
    var a := SlowCommand(interval, timeout);
    var s0 := Initial(interval, timeout, now);
    assert a[..6][..5] == a[..5] && a[..5][..4] == a[..4] && a[..4][..3] == a[..3];
    assert a[..3][..2] == a[..2] && a[..2][..1] == a[..1] && a[..1][..0] == a[..0];
    assert a[..6] == a;
    var s1 := Next(s0, Decide);
    assert Run(s0, a[..1]) == s1 == s0.(loop := Asleep(now + interval));
    var s2 := Next(s1, SendOther);
    assert Run(s0, a[..2]) == s2 == s1.(deadline := Some(now + timeout));
    var s3 := Next(s2, Elapse(interval));
    assert Run(s0, a[..3]) == s3 == s2.(now := now + interval);
    var s4 := Next(s3, WakeUp);
    assert Run(s0, a[..4]) == s4 == s3.(loop := Deciding);
    var s5 := Next(s4, Decide);
    assert Run(s0, a[..5]) == s5 == s4.(loop := WantsLock(false));
    assert Run(s0, a) == Next(s5, Elapse(timeout - interval));
  }

  /**
   As long as all keepalives go well, the interval alone bounds the idle time of every run exactly when
   the command timeout does not exceed it.
   */
  lemma {:induction false} IntervalBoundsIdleIff(interval: real, timeout: real, now: real)
    requires interval > 0.0
    ensures (forall actions :: KeepalivesGoWell(actions) ==>
                                 var s := Run(Initial(interval, timeout, now), actions);
                                 !s.closed ==> Idle(s) <= interval)
            <==> timeout <= interval
  {
    if timeout <= interval {
      forall actions | KeepalivesGoWell(actions)
        ensures var s := Run(Initial(interval, timeout, now), actions); !s.closed ==> Idle(s) <= interval
      {
        IdleIsBounded(interval, timeout, now, actions);
      }
    } else {
      SlowCommandIsIdle(interval, timeout, now);
      assert KeepalivesGoWell(SlowCommand(interval, timeout));
    }
  }

  /** How the `exec` of a keepalive comes back to its task. */
  datatype Answer = Success | Refusal | Flood(wait: real)

  function ReturnOf(answer: Answer): Action {
    match answer
    case Success => Answered
    case Refusal => KeepaliveRefused
    case Flood(wait) => KeepaliveFlooded(wait)
  }

  /** The loop's task, with the clock and the command in flight that it sees. */
  class KeepaliveTask {
    const interval: real
    const timeout: real
    var now: real
    var lastActivity: real
    var closed: bool
    var broken: bool
    var deadline: Option<real>
    var loop: Loop

    function View(): State
      reads this
    {
      State(interval, timeout, now, lastActivity, closed, broken, deadline, loop)
    }

    ghost predicate Valid()
      reads this
    {
      Timed(View())
    }

    /** The task is started only for an interval that is positive. */
    constructor (interval: real, timeout: real, now: real)
      requires interval > 0.0
      ensures Valid() && View() == Initial(interval, timeout, now)
    {
      this.interval, this.timeout, this.now, lastActivity := interval, timeout, now, now;
      closed, broken, deadline, loop := false, false, None, Deciding;
    }

    /** From the loop's head to its first await: it asks for the lock exactly after a full idle interval. */
    method Pass()
      requires Valid() && loop.Deciding?
      modifies this`loop
      ensures Valid() && View() == Step(old(View()), Decide)
      ensures !closed ==> (loop.WantsLock? <==> now - lastActivity == interval)
      ensures !closed && !loop.WantsLock? ==> loop == Asleep(lastActivity + interval) && now < loop.until
    {
      if closed {
        loop := Ended;
        return;
      }
      var dueIn := interval - (now - lastActivity);
      if dueIn > 0.0 {
        loop := Asleep(now + dueIn);
      } else {
        loop := WantsLock(false);
      }
    }

    /** With the lock: the keepalive is on its way and restarts the idle clock, or the loop is over. */
    method Send(ok: bool)
      requires Valid() && loop.WantsLock? && IsFree(View()) && (ok ==> !broken)
      modifies this`lastActivity, this`deadline, this`broken, this`loop
      ensures Valid() && View() == Step(old(View()), if ok then SendKeepalive else KeepaliveSendFails)
      ensures if ok then now == lastActivity && deadline.Some? else loop.Ended? && lastActivity == old(lastActivity)
    {
      if ok {
        lastActivity := now;
        deadline := Some(now + Max(timeout, 0.0));
        loop := InFlight;
      } else {
        broken := true;
        loop := Ended;
      }
    }

    /** The keepalive is back: the loop goes on, waits for a retry, or ends for good. */
    method Return(answer: Answer)
      requires Valid() && loop.InFlight? && !closed && (answer.Flood? ==> answer.wait > 0.0)
      modifies this`lastActivity, this`deadline, this`loop
      ensures Valid() && View() == Step(old(View()), ReturnOf(answer))
      ensures loop.Ended? <==> answer.Refusal?
      ensures IsOnTime(loop) <==> answer.Success?
      ensures now == lastActivity
    {
      lastActivity := now;
      deadline := None;
      match answer {
        case Success => loop := Deciding;
        case Refusal => loop := Ended;
        case Flood(wait) => loop := Flooded(now + wait);
      }
    }
  }
}
