/** When the approval protocol's tokens are validated and consumed, measured against their expiry. */
module ApprovalTiming {
  import opened Wrappers
  import opened ApprovalProtocol
  import opened ApprovalSafety
  import opened ApprovalTheorems
  import opened ApprovalFrames

  // ----- along a whole run -----

  /** The state after the first `n` steps. */
  function At(bind: Binder, steps: seq<Step>, n: nat): State
    requires n <= |steps|
  {
    After(bind, steps[..n])
  }

  lemma NextState(bind: Binder, steps: seq<Step>, n: nat)
    requires n < |steps|
    ensures At(bind, steps, n + 1) == Do(bind, At(bind, steps, n), steps[n])
  {
    assert steps[..n + 1][..n] == steps[..n];
  }

  lemma StepTimesAt(bind: Binder, steps: seq<Step>, n: nat, t: Id, run: Id, decider: Id)
    requires n < |steps|
    ensures Timed(At(bind, steps, n), steps[n], At(bind, steps, n + 1), t, run, decider)
  {
    NextState(bind, steps, n);
    StepTimes(bind, At(bind, steps, n), steps[n], t, run, decider);
  }

  function Elapsed(steps: seq<Step>): nat {
    if steps == [] then 0 else Elapsed(steps[..|steps| - 1]) + Ticks(steps[|steps| - 1])
  }

  lemma {:induction false} ElapsedBetween(steps: seq<Step>, m: nat, n: nat)
    requires m <= n <= |steps|
    ensures Elapsed(steps[..n]) == Elapsed(steps[..m]) + Elapsed(steps[m..n])
  {
    if m < n {
      ElapsedBetween(steps, m, n - 1);
      assert steps[..n][..n - 1] == steps[..n - 1];
      assert steps[m..n][..n - 1 - m] == steps[m..n - 1];
    }
  }

  lemma {:induction false} ClockIsElapsed(bind: Binder, steps: seq<Step>, n: nat)
    requires n <= |steps|
    ensures At(bind, steps, n).now == Elapsed(steps[..n])
  {
    if n > 0 {
      ClockIsElapsed(bind, steps, n - 1);
      StepTimesAt(bind, steps, n - 1, 0, 0, 0);
      assert steps[..n][..n - 1] == steps[..n - 1];
    }
  }

  lemma {:induction false} TokenStaysOn(bind: Binder, steps: seq<Step>, m: nat, n: nat, t: Id)
    requires m <= n <= |steps|
    ensures TokenStays(At(bind, steps, m), At(bind, steps, n), t)
  {
    if m < n {
      TokenStaysOn(bind, steps, m, n - 1, t);
      StepTimesAt(bind, steps, n - 1, t, 0, 0);
    }
  }

  lemma {:induction false} ConsumptionsStay(bind: Binder, steps: seq<Step>, m: nat, n: nat)
    requires m <= n <= |steps|
    ensures At(bind, steps, m).consumptions <= At(bind, steps, n).consumptions
  {
    if m < n {
      ConsumptionsStay(bind, steps, m, n - 1);
      StepTimesAt(bind, steps, n - 1, 0, 0, 0);
    }
  }

  /** Whoever holds a validated token validated it at a step, at the time recorded. */
  lemma {:induction false} ValidationHappened(bind: Binder, steps: seq<Step>, n: nat, r: Id) returns (m: nat)
    requires n <= |steps| && r in At(bind, steps, n).runs && At(bind, steps, n).runs[r].pc.Validated?
    ensures var pc := At(bind, steps, n).runs[r].pc;
            m < n && Validating(At(bind, steps, m), steps[m], r, pc.token) && At(bind, steps, m).now == pc.validatedAt
  {
    assert n > 0 by {
      assert steps[..0] == [];
    }
    StepTimesAt(bind, steps, n - 1, 0, r, 0);
    var before, pc := At(bind, steps, n - 1), At(bind, steps, n).runs[r].pc;
    if r in before.runs && before.runs[r].pc == pc {
      m := ValidationHappened(bind, steps, n - 1, r);
    } else {
      m := n - 1;
    }
  }

  /** Every consumption was recorded by a consume step. */
  lemma {:induction false} ConsumptionHappened(bind: Binder, steps: seq<Step>, n: nat, i: nat) returns (k: nat)
    requires n <= |steps| && i < |At(bind, steps, n).consumptions|
    ensures k < n && Consuming(At(bind, steps, k), steps[k])
    ensures At(bind, steps, n).consumptions[i] == ConsumptionBy(At(bind, steps, k), steps[k])
  {
    assert n > 0 by {
      assert steps[..0] == [];
    }
    StepTimesAt(bind, steps, n - 1, 0, 0, 0);
    if i < |At(bind, steps, n - 1).consumptions| {
      k := ConsumptionHappened(bind, steps, n - 1, i);
    } else {
      k := n - 1;
    }
  }

  // ----- in time -----

  predicate InTime(s: State, c: Consumption) {
    c.token in s.tokens && c.at < s.tokens[c.token].expiresAt
  }

  /** What a test of the expiry at the consume call, which the code does not make, would refuse. */
  predicate GuardRefuses(s: State, step: Step) {
    Consuming(s, step) && s.now >= s.tokens[s.runs[step.run].pc.token].expiresAt
  }

  /** The m-th step validated what the n-th consumed, and how the times between them decide. */
  ghost predicate SpentBetween(bind: Binder, steps: seq<Step>, c: Consumption, m: nat, n: nat)
    requires m < n < |steps|
  {
    && Validating(At(bind, steps, m), steps[m], c.run, c.token) && c.validatedAt == At(bind, steps, m).now
    && Consuming(At(bind, steps, n), steps[n]) && c == ConsumptionBy(At(bind, steps, n), steps[n])
  }

  lemma Spending(bind: Binder, steps: seq<Step>, i: nat) returns (m: nat, n: nat)
    requires i < |After(bind, steps).consumptions|
    ensures m < n < |steps| && SpentBetween(bind, steps, After(bind, steps).consumptions[i], m, n)
  {
    assert steps[..|steps|] == steps;
    n := ConsumptionHappened(bind, steps, |steps|, i);
    m := ValidationHappened(bind, steps, n, steps[n].run);
  }

  lemma InTimeAt(bind: Binder, steps: seq<Step>, c: Consumption, m: nat, n: nat)
    requires m < n < |steps| && SpentBetween(bind, steps, c, m, n)
    ensures var s := After(bind, steps);
            && c.token in s.tokens
            && (InTime(s, c) <==> Elapsed(steps[m..n]) < s.tokens[c.token].expiresAt - c.validatedAt)
            && (InTime(s, c) <==> !GuardRefuses(At(bind, steps, n), steps[n]))
  {
    assert steps[..|steps|] == steps;
    TokenStaysOn(bind, steps, n, |steps|, c.token);
    ClockIsElapsed(bind, steps, m);
    ClockIsElapsed(bind, steps, n);
    ElapsedBetween(steps, m, n);
  }

  /**
    A token is consumed before its expiry exactly if the clock moves on, between its
    validation and its consumption, by less than was left of its life; that is, exactly
    if a test of the expiry at the consume call would have let it pass.
   */
  lemma ConsumedInTimeIff(bind: Binder, steps: seq<Step>, i: nat)
    requires i < |After(bind, steps).consumptions|
    ensures var s := After(bind, steps);
            var c := s.consumptions[i];
            && c.token in s.tokens
            && exists m: nat, n: nat :: m < n < |steps| && SpentBetween(bind, steps, c, m, n)
                 && (InTime(s, c) <==> Elapsed(steps[m..n]) < s.tokens[c.token].expiresAt - c.validatedAt)
                 && (InTime(s, c) <==> !GuardRefuses(At(bind, steps, n), steps[n]))
  {
    var m, n := Spending(bind, steps, i);
    InTimeAt(bind, steps, After(bind, steps).consumptions[i], m, n);
  }

  ghost predicate AllInTime(s: State) {
    forall i :: 0 <= i < |s.consumptions| ==> InTime(s, s.consumptions[i])
  }

  ghost predicate NoneRefused(bind: Binder, steps: seq<Step>) {
    forall n :: 0 <= n < |steps| ==> !GuardRefuses(At(bind, steps, n), steps[n])
  }

  /** A run consumes every token in time exactly if the test would refuse none of its steps. */
  lemma AllInTimeIff(bind: Binder, steps: seq<Step>)
    ensures AllInTime(After(bind, steps)) <==> NoneRefused(bind, steps)
  {
    var s := After(bind, steps);
    if NoneRefused(bind, steps) {
      forall i | 0 <= i < |s.consumptions|
        ensures InTime(s, s.consumptions[i])
      {
        var m, n := Spending(bind, steps, i);
        InTimeAt(bind, steps, s.consumptions[i], m, n);
      }
    }
    if !NoneRefused(bind, steps) {
      var n: nat :| n < |steps| && GuardRefuses(At(bind, steps, n), steps[n]);
      RefusedIsLate(bind, steps, n);
    }
  }

  lemma RefusedIsLate(bind: Binder, steps: seq<Step>, n: nat)
    requires n < |steps| && GuardRefuses(At(bind, steps, n), steps[n])
    ensures !AllInTime(After(bind, steps))
  {
    var s, c := After(bind, steps), ConsumptionBy(At(bind, steps, n), steps[n]);
    var i := |At(bind, steps, n).consumptions|;
    assert steps[..|steps|] == steps;
    var m := ValidationHappened(bind, steps, n, steps[n].run);
    InTimeAt(bind, steps, c, m, n);
    StepTimesAt(bind, steps, n, 0, 0, 0);
    ConsumptionsStay(bind, steps, n + 1, |steps|);
    assert s.consumptions[i] == At(bind, steps, n + 1).consumptions[i] == c;
  }

  // ----- with the test added -----

  function DoGuarded(bind: Binder, s: State, step: Step): State {
    if GuardRefuses(s, step) then s else Do(bind, s, step)
  }

  function AllGuarded(bind: Binder, steps: seq<Step>): State {
    if steps == [] then Init() else DoGuarded(bind, AllGuarded(bind, steps[..|steps| - 1]), steps[|steps| - 1])
  }

  /** The steps the test lets through. */
  function Passed(bind: Binder, steps: seq<Step>): seq<Step> {
    if steps == [] then []
    else
      var before, step := steps[..|steps| - 1], steps[|steps| - 1];
      Passed(bind, before) + if GuardRefuses(AllGuarded(bind, before), step) then [] else [step]
  }

  /** With the test, a run is a run of the protocol as it is, over the steps let through, of which the test refuses none. */
  lemma {:induction false} GuardedIsRun(bind: Binder, steps: seq<Step>)
    ensures AllGuarded(bind, steps) == After(bind, Passed(bind, steps)) && NoneRefused(bind, Passed(bind, steps))
  {
    if steps == [] {
    } else {
      var before, step := steps[..|steps| - 1], steps[|steps| - 1];
      GuardedIsRun(bind, before);
      if GuardRefuses(AllGuarded(bind, before), step) {
        assert Passed(bind, steps) == Passed(bind, before);
      } else {
        OneMorePassed(bind, Passed(bind, before), step);
      }
    }
  }

  lemma OneMorePassed(bind: Binder, steps: seq<Step>, step: Step)
    requires NoneRefused(bind, steps) && !GuardRefuses(After(bind, steps), step)
    ensures After(bind, steps + [step]) == Do(bind, After(bind, steps), step) && NoneRefused(bind, steps + [step])
  {
    var longer := steps + [step];
    assert longer[..|steps|] == steps;
    forall n | 0 <= n < |longer|
      ensures !GuardRefuses(At(bind, longer, n), longer[n])
    {
      if n < |steps| {
        assert longer[..n] == steps[..n];
      }
    }
  }

  /** With the test, every token is consumed in time in every run. */
  lemma GuardedIsInTime(bind: Binder, steps: seq<Step>)
    ensures AllInTime(AllGuarded(bind, steps))
  {
    GuardedIsRun(bind, steps);
    AllInTimeIff(bind, Passed(bind, steps));
  }

  // ----- the order of times -----

  lemma {:induction false} ChecksArePast(bind: Binder, steps: seq<Step>, n: nat, d: Id)
    requires n <= |steps|
    ensures var s := At(bind, steps, n); d in s.deciders ==> s.deciders[d].checkedAt <= s.now
  {
    if n == 0 {
      assert steps[..0] == [];
    } else {
      ChecksArePast(bind, steps, n - 1, d);
      StepTimesAt(bind, steps, n - 1, 0, 0, d);
    }
  }

  lemma {:induction false} IssuesArePast(bind: Binder, steps: seq<Step>, n: nat, t: Id)
    requires n <= |steps|
    ensures var s := At(bind, steps, n); t in s.issues ==> s.issues[t].checkedAt <= s.now
  {
    if n == 0 {
      assert steps[..0] == [];
    } else {
      IssuesArePast(bind, steps, n - 1, t);
      StepTimesAt(bind, steps, n - 1, t, 0, 0);
      if steps[n - 1].CreateToken? {
        ChecksArePast(bind, steps, n - 1, steps[n - 1].decider);
      }
    }
  }

  /** The approval was found unexpired no later than its token was validated, and that no later than it was consumed. */
  lemma TimesAreOrdered(bind: Binder, steps: seq<Step>, i: nat)
    requires i < |After(bind, steps).consumptions|
    ensures var s := After(bind, steps);
            var c := s.consumptions[i];
            c.token in s.issues && s.issues[c.token].checkedAt <= c.validatedAt <= c.at
  {
    var c := After(bind, steps).consumptions[i];
    var m, n := Spending(bind, steps, i);
    IssuesArePast(bind, steps, m, c.token);
    InvAlways(bind, steps[..m]);
    OpenInv(bind, At(bind, steps, m));
    assert TokenOk(bind, At(bind, steps, m), c.token);
    assert steps[..|steps|] == steps;
    TokenStaysOn(bind, steps, m, |steps|, c.token);
    ConsumptionIsAuthorised(bind, steps, i);
  }
}
