/** Booting a simulator and waiting until it is really usable, with one retry. */
module BootWait {
  const POLL := 500           // milliseconds, as every time below
  const MIN_RETRY := 2 * POLL
  const SETTLE := 1000

  datatype Event = Booted(at: int, ok: bool) | Looked(booted: bool) | Probed(began: int, at: int, ready: bool) | ShutDown(at: int, ok: bool)

  datatype Wait = Ready | TimedOut | Failed

  function Max(a: int, b: int): int {
    if a < b then b else a
  }

  /** Go's integer division truncates. */
  function FirstShare(timeout: int): int {
    if timeout >= 0 then timeout * 2 / 3 else -((-timeout) * 2 / 3)
  }

  /** Two thirds, rounded towards zero. */
  lemma FirstShareMeans(timeout: int)
    ensures timeout >= 0 ==> 3 * FirstShare(timeout) <= 2 * timeout < 3 * FirstShare(timeout) + 3
    ensures timeout <= 0 ==> 3 * FirstShare(timeout) - 3 < 2 * timeout <= 3 * FirstShare(timeout)
  {
  }

  // ---------------------------------------------------------------- how an attempt and a call go

  /** Probes, each half a second after the one before it, none answered but the
      last, which is how the wait ends; or none at all, and then at the deadline
      or with the last probe, when there was no half second left for another. */
  ghost predicate Probing(ps: seq<Event>, w: Wait, deadline: int, ended: int) {
    && |ps| > 0
    && Unanswered(ps[..|ps| - 1], deadline)
    && ps[|ps| - 1].Probed?
    && (|ps| > 1 ==> ps[|ps| - 1].began == ps[|ps| - 2].at + 500)
    && if ps[|ps| - 1].ready then w == Ready && ended == ps[|ps| - 1].at
       else w == TimedOut && ps[|ps| - 1].at + 500 >= deadline && ended == Max(ps[|ps| - 1].at, deadline)
  }

  ghost predicate Unanswered(ps: seq<Event>, deadline: int) {
    && (forall k :: 0 <= k < |ps| ==> ps[k].Probed? && !ps[k].ready && ps[k].at < deadline)
    && forall k :: 0 <= k < |ps| - 1 ==> ps[k + 1].began == ps[k].at + 500
  }

  /** One attempt: bootstatus; if that fails, a look at the device, which ends it
      unless it is booted all the same; then the probes. */
  ghost predicate Attempt(log: seq<Event>, w: Wait, began: int, deadline: int, ended: int) {
    && log != [] && log[0].Booted? && log[0].at == began
    && if log[0].ok then Probing(log[1..], w, deadline, ended)
       else
         && |log| >= 2 && log[1].Looked?
         && if log[1].booted then Probing(log[2..], w, deadline, ended) else |log| == 2 && w == Failed
  }

  /** A call: one attempt; and if that timed out with a second or more of the
      whole budget left, a shutdown and one more, with what is left. */
  ghost predicate Course(log: seq<Event>, w: Wait, start: int, timeout: int, end: int) {
    exists one: seq<Event>, w1: Wait, t1: int :: FirstThen(one, w1, t1, log, w, start, timeout, end)
  }

  ghost predicate FirstThen(one: seq<Event>, w1: Wait, t1: int, log: seq<Event>, w: Wait, start: int, timeout: int, end: int) {
    && Attempt(one, w1, start, start + FirstShare(timeout), t1)
    && if w1.TimedOut? && start + timeout - t1 >= 1000 then Retry(one, t1, log, w, start + timeout - t1, end)
       else log == one && w == w1 && end == t1 + if w.Ready? then 1000 else 0
  }

  ghost predicate Retry(one: seq<Event>, t1: int, log: seq<Event>, w: Wait, remaining: int, end: int) {
    || (log == one + [ShutDown(t1, false)] && w.Failed?)
    || exists two: seq<Event>, t2: int, t3: int :: SecondThen(one, t1, two, t2, t3, log, w, remaining, end)
  }

  ghost predicate SecondThen(one: seq<Event>, t1: int, two: seq<Event>, t2: int, t3: int, log: seq<Event>, w: Wait, remaining: int, end: int) {
    && t1 <= t2 && Attempt(two, w, t2, t2 + remaining, t3)
    && log == one + [ShutDown(t1, true)] + two && end == t3 + if w.Ready? then 1000 else 0
  }

  // ---------------------------------------------------------------- the calls

  /** The simulator and the clock.  What each primitive answers is arbitrary;
      with `honours`, bootstatus and the readiness probe return by their
      deadline, and time passes only inside a primitive or a wait. */
  class Simulator {
    const honours: bool
    var now: int
    ghost var log: seq<Event>
    ghost var finding: nat    // time spent in Find, which takes no deadline
    ghost var shutting: nat   // and in Shutdown

    constructor (honours: bool, now: int)
      ensures this.honours == honours && this.now == now && log == [] && finding == 0 && shutting == 0
    {
      this.honours, this.now, log, finding, shutting := honours, now, [], 0, 0;
    }

    method Spend(deadline: int)
      modifies `now
      ensures now >= old(now) && (honours ==> now <= Max(old(now), deadline))
    {
      var d: int := *;
      if d > 0 && (!honours || now + d <= deadline) {
        now := now + d;
      }
    }

    method Bootstatus(deadline: int) returns (ok: bool)
      modifies `now, `log
      ensures now >= old(now) && (honours ==> now <= Max(old(now), deadline))
      ensures log == old(log) + [Booted(old(now), ok)]
    {
      ghost var began := now;
      Spend(deadline);
      ok := *;
      log := log + [Booted(began, ok)];
    }

    method SpringBoardReady(deadline: int) returns (ready: bool)
      modifies `now, `log
      ensures now >= old(now) && (honours ==> now <= Max(old(now), deadline))
      ensures log == old(log) + [Probed(old(now), now, ready)]
    {
      ghost var began := now;
      Spend(deadline);
      ready := *;
      log := log + [Probed(began, now, ready)];
    }

    /** Whether the device was found, and found booted. */
    method FindBooted() returns (booted: bool)
      modifies `now, `log, `finding
      ensures now - old(now) == finding - old(finding) && finding >= old(finding) && log == old(log) + [Looked(booted)]
    {
      var d: int := *;
      if d > 0 { now, finding := now + d, finding + d; }
      booted := *;
      log := log + [Looked(booted)];
    }

    method Shutdown() returns (ok: bool)
      modifies `now, `log, `shutting
      ensures now - old(now) == shutting - old(shutting) && shutting >= old(shutting) && log == old(log) + [ShutDown(old(now), ok)]
    {
      ghost var began := now;
      var d: int := *;
      if d > 0 { now, shutting := now + d, shutting + d; }
      ok := *;
      log := log + [ShutDown(began, ok)];
    }

    /** One attempt, until its own deadline. */
    method WaitForReadyOnce(deadline: int) returns (w: Wait, ghost more: seq<Event>)
      modifies `now, `log, `finding
      ensures log == old(log) + more && Attempt(more, w, old(now), deadline, now)
      ensures finding >= old(finding) && now >= old(now)
      ensures honours ==> now <= Max(old(now), deadline) + (finding - old(finding))
    {
      hide Probing;
      ghost var before := log;
      var ok := Bootstatus(deadline);
      more := [Booted(old(now), ok)];
      if !ok {
        var booted := FindBooted();
        more := more + [Looked(booted)];
        assert log == before + more;
        if !booted {
          return Failed, more;
        }
      }
      ghost var ps, head := [], more;
      w, ps := Poll(deadline);
      more := head + ps;
      assert more[|head|..] == ps && log == before + head + ps == before + more;
    }

    /** Polls for the readiness signal until the attempt's deadline. */
    method Poll(deadline: int) returns (w: Wait, ghost ps: seq<Event>)
      modifies `now, `log
      ensures log == old(log) + ps && Probing(ps, w, deadline, now) && now >= old(now)
      ensures honours ==> now <= Max(old(now), deadline)
    {
      hide Probing, Unanswered;
      ps := [];
      ghost var before := log;
      assert before + [] == before;
      NoProbe(deadline);
      while true
        invariant log == before + ps && now >= old(now)
        invariant Unanswered(ps, deadline) && (ps != [] ==> ps[|ps| - 1].Probed? && now == ps[|ps| - 1].at + 500)
        invariant honours ==> now <= Max(old(now), deadline)
        decreases deadline - now
      {
        ghost var began := now;
        var ready := SpringBoardReady(deadline);
        ghost var more := ps + [Probed(began, now, ready)];
        assert log == before + more;
        OneProbe(ps, began, now, ready, deadline);
        ps := more;
        if ready {
          return Ready, ps;
        }
        // the context's deadline against the poll timer; a tie may go either way
        if now >= deadline {
          return TimedOut, ps;
        }
        var timerWins: bool := *;
        if now + POLL > deadline || (now + POLL == deadline && !timerWins) {
          now := deadline;
          return TimedOut, ps;
        }
        now := now + POLL;
      }
    }

    /** nil exactly when this returns Ready. */
    method BootAndWait(timeout: int) returns (w: Wait)
      requires log == [] && finding == 0 && shutting == 0
      modifies this
      ensures Course(log, w, old(now), timeout, now)
      ensures honours ==> now - old(now) <= Max(timeout, 0) + 1000 + shutting + finding
    {
      hide Attempt;
      var deadline := now + timeout;
      var first := now + FirstShare(timeout);
      ghost var one, two;
      w, one := WaitForReadyOnce(first);
      assert log == one;
      ghost var t1 := now;
      FirstIs(one, w, old(now), timeout, t1);
      if w.Ready? {
        now := now + SETTLE;
        return;
      }
      if w.Failed? {
        return;
      }
      var remaining := deadline - now;
      if remaining < MIN_RETRY {
        return;
      }
      FirstShareMeans(timeout);
      var ok := Shutdown();
      if !ok {
        w := Failed;
        RetryIs(one, t1, [], now, w, old(now), timeout, now, now, log);
        return;
      }
      ghost var t2 := now;
      w, two := WaitForReadyOnce(now + remaining);
      RetryIs(one, t1, two, t2, w, old(now), timeout, now, if w.Ready? then now + 1000 else now, log);
      if w.Ready? {
        now := now + SETTLE;
      }
    }
  }

  lemma NoProbe(deadline: int)
    ensures Unanswered([], deadline)
  {
  }

  lemma OneProbe(ps: seq<Event>, began: int, at: int, ready: bool, deadline: int)
    requires Unanswered(ps, deadline) && (ps != [] ==> ps[|ps| - 1].Probed? && began == ps[|ps| - 1].at + 500)
    ensures var more := ps + [Probed(began, at, ready)];
            && (ready ==> Probing(more, Ready, deadline, at))
            && (!ready && at + 500 >= deadline ==> Probing(more, TimedOut, deadline, Max(at, deadline)))
            && (!ready && at < deadline ==> Unanswered(more, deadline))
  {
    assert (ps + [Probed(began, at, ready)])[..|ps|] == ps;
  }

  lemma FirstIs(one: seq<Event>, w: Wait, start: int, timeout: int, t1: int)
    requires Attempt(one, w, start, start + FirstShare(timeout), t1)
    ensures w.Ready? ==> Course(one, w, start, timeout, t1 + 1000)
    ensures w.Failed? || (w.TimedOut? && start + timeout - t1 < 1000) ==> Course(one, w, start, timeout, t1)
  {
    hide Attempt, FirstShare;
    if w.Ready? {
      assert FirstThen(one, w, t1, one, w, start, timeout, t1 + 1000);
    } else if w.Failed? || start + timeout - t1 < 1000 {
      assert FirstThen(one, w, t1, one, w, start, timeout, t1);
    }
  }

  lemma RetryIs(one: seq<Event>, t1: int, two: seq<Event>, t2: int, w: Wait, start: int, timeout: int, t3: int, end: int, log: seq<Event>)
    requires Attempt(one, TimedOut, start, start + FirstShare(timeout), t1) && start + timeout - t1 >= 1000
    requires (log == one + [ShutDown(t1, false)] && w.Failed?) || SecondThen(one, t1, two, t2, t3, log, w, start + timeout - t1, end)
    ensures Course(log, w, start, timeout, end)
  {
    hide Attempt, FirstShare, SecondThen;
    assert FirstThen(one, TimedOut, t1, log, w, start, timeout, end);
  }

  // ---------------------------------------------------------------- what a course comes to

  ghost function Boots(log: seq<Event>): nat {
    if log == [] then 0 else Boots(log[..|log| - 1]) + if log[|log| - 1].Booted? then 1 else 0
  }

  ghost function Shuts(log: seq<Event>): nat {
    if log == [] then 0 else Shuts(log[..|log| - 1]) + if log[|log| - 1].ShutDown? then 1 else 0
  }

  lemma {:induction false} CountsAdd(a: seq<Event>, b: seq<Event>)
    ensures Boots(a + b) == Boots(a) + Boots(b) && Shuts(a + b) == Shuts(a) + Shuts(b)
    decreases |b|
  {
    if b == [] {
      assert a + b == a;
    } else {
      CountsAdd(a, b[..|b| - 1]);
      assert (a + b)[..|a + b| - 1] == a + b[..|b| - 1];
    }
  }

  lemma {:induction false} ProbesDoNotCount(ps: seq<Event>)
    requires forall k :: 0 <= k < |ps| ==> ps[k].Probed?
    ensures Boots(ps) == Shuts(ps) == 0
  {
    if ps != [] { ProbesDoNotCount(ps[..|ps| - 1]); }
  }

  lemma AttemptCounts(log: seq<Event>, w: Wait, began: int, deadline: int, ended: int)
    requires Attempt(log, w, began, deadline, ended)
    ensures Boots(log) == 1 && Shuts(log) == 0
    ensures w.Ready? <==> log[|log| - 1].Probed? && log[|log| - 1].ready
  {
    hide Probing;
    var k := if log[0].ok then 1 else 2;
    var head, ps := log[..k], log[k..];
    assert log == head + ps;
    CountsAdd(head, ps);
    HeadCounts(head);
    if log[0].ok || log[1].booted {
      ProbingIs(ps, w, deadline, ended);
      assert log[|log| - 1] == ps[|ps| - 1];
    }
    ProbesDoNotCount(ps);
  }

  lemma ProbingIs(ps: seq<Event>, w: Wait, deadline: int, ended: int)
    requires Probing(ps, w, deadline, ended)
    ensures ps != [] && forall k :: 0 <= k < |ps| ==> ps[k].Probed?
    ensures w.Ready? <==> ps[|ps| - 1].ready
  {
    assert forall k :: 0 <= k < |ps| - 1 ==> ps[k] == ps[..|ps| - 1][k];
  }

  lemma HeadCounts(head: seq<Event>)
    requires 1 <= |head| <= 2 && head[0].Booted? && (|head| == 2 ==> head[1].Looked?)
    ensures Boots(head) == 1 && Shuts(head) == 0
  {
    assert [head[0]][..0] == [];
    assert head[..1] == [head[0]];
  }

  /** Success comes only right after a probe that answered; bootstatus runs at
      most twice, and Shutdown at most once, between the two. */
  lemma CourseMeans(log: seq<Event>, w: Wait, start: int, timeout: int, end: int)
    requires Course(log, w, start, timeout, end)
    ensures log != [] && (w.Ready? <==> log[|log| - 1].Probed? && log[|log| - 1].ready)
    ensures 1 <= Boots(log) <= 2 && Boots(log) - 1 <= Shuts(log) <= 1
    ensures w.TimedOut? ==> Boots(log) == Shuts(log) + 1
  {
    hide Attempt, Boots, Shuts;
    var one, w1, t1 :| FirstThen(one, w1, t1, log, w, start, timeout, end);
    AttemptCounts(one, w1, start, start + FirstShare(timeout), t1);
    AttemptIsSome(one, w1, start, start + FirstShare(timeout), t1);
    OneShutDown(t1, false);
    OneShutDown(t1, true);
    CountsAdd(one, [ShutDown(t1, false)]);
    CountsAdd(one, [ShutDown(t1, true)]);
    if w1.TimedOut? && start + timeout - t1 >= 1000 && log != one + [ShutDown(t1, false)] {
      var two, t2, t3 :| SecondThen(one, t1, two, t2, t3, log, w, start + timeout - t1, end);
      AttemptCounts(two, w, t2, t2 + (start + timeout - t1), t3);
      AttemptIsSome(two, w, t2, t2 + (start + timeout - t1), t3);
      CountsAdd(one + [ShutDown(t1, true)], two);
    }
  }

  lemma OneShutDown(at: int, ok: bool)
    ensures Boots([ShutDown(at, ok)]) == 0 && Shuts([ShutDown(at, ok)]) == 1
  {
    assert [ShutDown(at, ok)][..0] == [];
  }

  lemma AttemptIsSome(log: seq<Event>, w: Wait, began: int, deadline: int, ended: int)
    requires Attempt(log, w, began, deadline, ended)
    ensures log != []
  {
  }
}
