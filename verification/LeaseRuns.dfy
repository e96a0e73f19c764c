/** Continuations: what can follow a state of the lease protocol without late writes. */
module LeaseRuns {
  import opened Options
  import opened TaskRows
  import opened LeaseInvariant
  import opened LeaseProtocol

  /** The main loop of the worker `still`, if there is one, does nothing. Its renewals go on. */
  predicate Rests(e: Event, still: Option<WorkerId>) {
    still.Some? && ActsFor(e, still.value) ==> e.Renew?
  }

  /** One event that is no late write, while `still` rests. */
  ghost predicate CleanStep(duration: nat, still: Option<WorkerId>, s: State, z: State) {
    exists e :: Enabled(s, e) && Clean(s, e) && Rests(e, still) && z == Apply(duration, s, e)
  }

  ghost predicate CleanAt(duration: nat, still: Option<WorkerId>, c: seq<State>, i: nat)
    requires 0 < i < |c|
  {
    CleanStep(duration, still, c[i - 1], c[i])
  }

  ghost predicate Continues(duration: nat, still: Option<WorkerId>, c: seq<State>) {
    && |c| > 0
    && forall i {:trigger CleanAt(duration, still, c, i)} :: 0 < i < |c| ==> CleanAt(duration, still, c, i)
  }

  /** Some continuation of `s` ends in `z`. */
  ghost predicate Leads(duration: nat, still: Option<WorkerId>, s: State, z: State) {
    exists c :: Continues(duration, still, c) && c[0] == s && c[|c| - 1] == z
  }

  lemma EventAt(duration: nat, still: Option<WorkerId>, c: seq<State>, i: nat) returns (e: Event)
    requires Continues(duration, still, c) && 0 < i < |c|
    ensures Enabled(c[i - 1], e) && Clean(c[i - 1], e) && Rests(e, still) && c[i] == Apply(duration, c[i - 1], e)
  {
    assert CleanAt(duration, still, c, i);
    e :| Enabled(c[i - 1], e) && Clean(c[i - 1], e) && Rests(e, still) && c[i] == Apply(duration, c[i - 1], e);
  }

  lemma Stay(duration: nat, still: Option<WorkerId>, s: State)
    ensures Leads(duration, still, s, s)
  {
    assert Continues(duration, still, [s]);
  }

  lemma Join(duration: nat, still: Option<WorkerId>, c: seq<State>, d: seq<State>)
    requires Continues(duration, still, c) && Continues(duration, still, d) && c[|c| - 1] == d[0]
    ensures Continues(duration, still, c + d[1..])
  {
    var a := c + d[1..];
    forall i | 0 < i < |a| ensures CleanAt(duration, still, a, i) {
      if i < |c| {
        assert CleanAt(duration, still, c, i);
        assert a[i - 1] == c[i - 1] && a[i] == c[i];
      } else {
        assert CleanAt(duration, still, d, i - |c| + 1);
        assert a[i - 1] == d[i - |c|] && a[i] == d[i - |c| + 1];
      }
    }
  }

  lemma LeadsOn(duration: nat, still: Option<WorkerId>, s: State, y: State, z: State)
    requires Leads(duration, still, s, y) && Leads(duration, still, y, z)
    ensures Leads(duration, still, s, z)
  {
    var c :| Continues(duration, still, c) && c[0] == s && c[|c| - 1] == y;
    var d :| Continues(duration, still, d) && d[0] == y && d[|d| - 1] == z;
    Join(duration, still, c, d);
    var a := c + d[1..];
    assert a[0] == s && a[|a| - 1] == z;
  }

  /** One event as a continuation. */
  lemma Step(duration: nat, still: Option<WorkerId>, s: State, e: Event)
    requires Enabled(s, e) && Clean(s, e) && Rests(e, still)
    ensures Leads(duration, still, s, Apply(duration, s, e))
  {
    var c := [s, Apply(duration, s, e)];
    assert CleanAt(duration, still, c, 1) by {
      assert CleanStep(duration, still, s, Apply(duration, s, e));
    }
    assert Continues(duration, still, c);
  }

  /** The states between two states of a run are a continuation, if none of them is the work of a late write. */
  lemma RunContinues(duration: nat, b: seq<State>, i: nat, j: nat)
    requires IsRun(duration, b) && i <= j < |b| && !b[j].overrun
    ensures Continues(duration, None, b[i..j + 1]) && !b[i].overrun && Inv(duration, b[i])
  {
    var c := b[i..j + 1];
    SoundFrom(duration, b, i, j);
    forall k | 0 < k < |c| ensures CleanAt(duration, None, c, k) {
      CleanInRun(duration, b, i + k, j);
      assert c[k - 1] == b[i + k - 1] && c[k] == b[i + k];
    }
  }

  lemma SoundFrom(duration: nat, b: seq<State>, i: nat, j: nat)
    requires IsRun(duration, b) && i <= j < |b| && !b[j].overrun
    ensures !b[i].overrun && Inv(duration, b[i])
  {
    if b[i].overrun {
      OverrunStaysInRun(duration, b, i, j);
    }
    RunsKeepInv(duration, b, i);
  }

  lemma CleanInRun(duration: nat, b: seq<State>, k: nat, j: nat)
    requires IsRun(duration, b) && 0 < k <= j < |b| && !b[j].overrun
    ensures CleanStep(duration, None, b[k - 1], b[k])
  {
    if b[k].overrun {
      OverrunStaysInRun(duration, b, k, j);
    }
    var e := StepOf(duration, b, k - 1);
    assert Rests(e, None);
  }

  lemma SoundAt(duration: nat, still: Option<WorkerId>, c: seq<State>, i: nat)
    requires Continues(duration, still, c) && 0 < i < |c| && Inv(duration, c[i - 1])
    ensures Inv(duration, c[i]) && !c[i].overrun
  {
    var e := EventAt(duration, still, c, i);
    StepKeepsInv(duration, c[i - 1], e);
    CleanIffNotOverrun(duration, c[i - 1], e);
  }

  /** What every step of a continuation keeps, the whole continuation keeps. */
  lemma {:induction false} Along(duration: nat, still: Option<WorkerId>, c: seq<State>, k: nat, p: State -> bool)
    requires Continues(duration, still, c) && k < |c| && Inv(duration, c[0]) && !c[0].overrun && p(c[0])
    requires forall i {:trigger CleanAt(duration, still, c, i)} ::
      0 < i <= k && CleanAt(duration, still, c, i) && Inv(duration, c[i - 1]) && p(c[i - 1]) ==> p(c[i])
    ensures Inv(duration, c[k]) && !c[k].overrun && p(c[k])
  {
    if k > 0 {
      Along(duration, still, c, k - 1, p);
      assert CleanAt(duration, still, c, k);
      SoundAt(duration, still, c, k);
    }
  }
}
