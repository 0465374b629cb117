/** Exactly when increments of a TV variable are lost: when another write falls between the reading
    and the writing of one. */
module TvLostUpdates {
  import opened Upnp
  import opened TvText
  import opened TvDevice
  import opened TvInterleavings

  /** The state after the first n steps of a run. */
  ghost function At(steps: seq<Step>, n: nat): (s: State)
    requires n <= |steps|
    ensures Full(s.vals)
  {
    Run(Init(), steps[..n])
  }

  /** Step i is the one in which thread t reads v to change it. */
  ghost predicate ReadsAt(steps: seq<Step>, i: nat, t: nat, v: Var) {
    && i < |steps| && steps[i].Go? && steps[i].t == t && t < |At(steps, i).threads|
    && At(steps, i).threads[t].Running? && At(steps, i).threads[t].kind.StepVar? && At(steps, i).threads[t].kind.v == v
    && t < |At(steps, i + 1).threads| && At(steps, i + 1).threads[t].Writing?
  }

  /** Step j is the one in which thread t writes v. */
  ghost predicate WritesAt(steps: seq<Step>, j: nat, t: nat, v: Var) {
    && j < |steps| && steps[j].Go? && steps[j].t == t && t < |At(steps, j).threads|
    && At(steps, j).threads[t].Writing? && At(steps, j).threads[t].v == v && Fits(At(steps, j).threads[t].value)
  }

  /** Some write of v falls between the reading and the writing of another thread. */
  ghost predicate Overtaken(steps: seq<Step>, v: Var, i: nat, m: nat, j: nat, t: nat, u: nat) {
    i < m < j < |steps| && ReadsAt(steps, i, t, v) && WritesAt(steps, m, u, v) && WritesAt(steps, j, t, v)
  }

  ghost predicate Lost(steps: seq<Step>, v: Var) {
    exists i: nat, m: nat, j: nat, t: nat, u: nat :: Overtaken(steps, v, i, m, j, t, u)
  }

  ghost function Count(steps: seq<Step>, n: nat, v: Var): nat
    requires n <= |steps|
  {
    Writes(At(steps, n).notices, v)
  }

  ghost function Value(steps: seq<Step>, n: nat, v: Var): int
    requires n <= |steps|
  {
    Atoi(At(steps, n).vals[v])
  }

  lemma AtStep(steps: seq<Step>, n: nat)
    requires n < |steps|
    ensures At(steps, n + 1) == Apply(At(steps, n), steps[n])
  {
    assert steps[..n + 1][..n] == steps[..n];
  }

  lemma AtPrefix(steps: seq<Step>, k: nat, n: nat)
    requires n <= k <= |steps|
    ensures At(steps[..k], n) == At(steps, n)
  {
    assert steps[..k][..n] == steps[..n];
  }

  lemma OneWrite(s: State, step: Step, v: Var)
    requires Full(s.vals)
    ensures var e := Apply(s, step);
            var writes := step.Go? && step.t < |s.threads| && s.threads[step.t].Writing?
                          && s.threads[step.t].v == v && Fits(s.threads[step.t].value);
            && Writes(e.notices, v) == Writes(s.notices, v) + (if writes then 1 else 0)
            && e.vals[v] == if writes then s.threads[step.t].value else s.vals[v]
  {
    hide Atoi, Known, Dispatch, Decide, Writes;
    if step.Go? && step.t < |s.threads| && s.threads[step.t].Writing? {
      WriteEffect(s, step.t, step.sent, v);
      hide Apply;
    }
  }

  /** Between two moments without a write nothing changes, and a write is counted. */
  lemma {:induction false} Unwritten(steps: seq<Step>, i: nat, n: nat, v: Var)
    requires i <= n <= |steps|
    ensures Count(steps, i, v) <= Count(steps, n, v)
    ensures (forall m: nat, u: nat :: i <= m < n ==> !WritesAt(steps, m, u, v)) ==>
              Count(steps, i, v) == Count(steps, n, v) && Value(steps, i, v) == Value(steps, n, v)
  {
    hide Atoi, Run, Writes, Apply;
    if i < n {
      Unwritten(steps, i, n - 1, v);
      AtStep(steps, n - 1);
      OneWrite(At(steps, n - 1), steps[n - 1], v);
      if steps[n - 1].Go? {
        assert !WritesAt(steps, n - 1, steps[n - 1].t, v) ==> Count(steps, n, v) == Count(steps, n - 1, v);
      }
    }
  }

  lemma WriteCounts(steps: seq<Step>, m: nat, u: nat, v: Var)
    requires WritesAt(steps, m, u, v)
    ensures Count(steps, m + 1, v) == Count(steps, m, v) + 1
    ensures Value(steps, m + 1, v) == Atoi(At(steps, m).threads[u].value)
  {
    hide Atoi, Run, Writes, Apply;
    AtStep(steps, m);
    OneWrite(At(steps, m), steps[m], v);
  }

  /** Where a thread is after it has read. */
  lemma GoMoves(s: State, step: Step, t: nat)
    requires Full(s.vals) && t < |s.threads|
    ensures var e := Apply(s, step);
            && t < |e.threads|
            && (step != Go(t, true) && step != Go(t, false) ==> e.threads[t] == s.threads[t])
            && (s.threads[t].Writing? ==> e.threads[t] == s.threads[t] || e.threads[t].Answered?)
            && (s.threads[t].Answered? ==> e.threads[t] == s.threads[t])
  {
    hide Atoi, Known, Dispatch, Decide;
  }

  lemma {:induction false} AfterReading(steps: seq<Step>, i: nat, n: nat, t: nat, v: Var)
    requires ReadsAt(steps, i, t, v) && i < n <= |steps|
    ensures t < |At(steps, n).threads| && (At(steps, n).threads[t].Writing? || At(steps, n).threads[t].Answered?)
    ensures At(steps, n).threads[t].Writing? ==> At(steps, n).threads[t] == At(steps, i + 1).threads[t]
  {
    hide Run, Apply, Atoi;
    if i + 1 < n {
      AfterReading(steps, i, n - 1, t, v);
      AtStep(steps, n - 1);
      GoMoves(At(steps, n - 1), steps[n - 1], t);
    } else {
      AtStep(steps, i);
      GoMoves(At(steps, i), steps[i], t);
    }
  }

  ghost predicate OnlyRaised(steps: seq<Step>, v: Var) {
    forall i :: 0 <= i < |steps| ==> RaisingStep(steps[i], v)
  }

  lemma Raised(steps: seq<Step>, n: nat, v: Var)
    requires OnlyRaised(steps, v) && n <= |steps|
    ensures RaisingInv(At(steps, n), v, Atoi(Default(v)))
  {
    IncreasesKeep(steps[..n], v);
  }

  /** A thread about to write v has read it before, and adds one to what it has read. */
  lemma {:induction false} WriterHasRead(steps: seq<Step>, n: nat, t: nat, v: Var) returns (i: nat)
    requires OnlyRaised(steps, v) && n <= |steps| && t < |At(steps, n).threads|
    requires At(steps, n).threads[t].Writing? && At(steps, n).threads[t].v == v
    ensures i < n && ReadsAt(steps, i, t, v)
    ensures Atoi(At(steps, n).threads[t].value) == Value(steps, i, v) + 1
  {
    hide Run, Apply, Atoi, Inv;
    StartsEmpty(steps);
    var m := n - 1;
    AtStep(steps, m);
    var s, step := At(steps, m), steps[m];
    Raised(steps, m, v);
    if t < |s.threads| && s.threads[t] == At(steps, n).threads[t] {
      i := WriterHasRead(steps, m, t, v);
    } else {
      JustRead(s, step, t, v);
      i := m;
    }
  }

  lemma StartsEmpty(steps: seq<Step>)
    ensures At(steps, 0).threads == []
  {
    assert steps[..0] == [];
  }

  lemma JustRead(s: State, step: Step, t: nat, v: Var)
    requires RaisingInv(s, v, Atoi(Default(v))) && t < |Apply(s, step).threads|
    requires Apply(s, step).threads[t].Writing? && Apply(s, step).threads[t].v == v
    requires !(t < |s.threads| && s.threads[t] == Apply(s, step).threads[t])
    ensures step.Go? && step.t == t < |s.threads| && s.threads[t].Running?
    ensures s.threads[t].kind == StepVar(v, 1)
    ensures Atoi(Apply(s, step).threads[t].value) == Atoi(s.vals[v]) + 1
  {
    InvParts(s);
    hide Inv, Atoi, Known, Actions;
    var th := s.threads[t];
    assert RaisingPc(th, v, Atoi(Default(v)), Writes(s.notices, v)) && PcOk(th);
    DecideExact(s.vals, th.r, th.kind);
  }

  lemma LostLater(steps: seq<Step>, n: nat, v: Var)
    requires n <= |steps| && Lost(steps[..n], v)
    ensures Lost(steps, v)
  {
    var i: nat, m: nat, j: nat, t: nat, u: nat :| Overtaken(steps[..n], v, i, m, j, t, u);
    assert j < n;
    hide At, ReadsAt, WritesAt;
    InPrefix(steps, n, i, t, v);
    InPrefix(steps, n, m, u, v);
    InPrefix(steps, n, j, t, v);
    assert Overtaken(steps, v, i, m, j, t, u);
  }

  lemma InPrefix(steps: seq<Step>, n: nat, i: nat, t: nat, v: Var)
    requires i < n <= |steps|
    ensures ReadsAt(steps[..n], i, t, v) <==> ReadsAt(steps, i, t, v)
    ensures WritesAt(steps[..n], i, t, v) <==> WritesAt(steps, i, t, v)
  {
    AtPrefix(steps, n, i);
    AtPrefix(steps, n, i + 1);
    hide At;
  }

  lemma LostEarlier(steps: seq<Step>, n: nat, v: Var, i: nat, m: nat, j: nat, t: nat, u: nat)
    requires Overtaken(steps, v, i, m, j, t, u) && j < n <= |steps|
    ensures Lost(steps[..n], v)
  {
    hide At, ReadsAt, WritesAt;
    InPrefix(steps, n, i, t, v);
    InPrefix(steps, n, m, u, v);
    InPrefix(steps, n, j, t, v);
    assert Overtaken(steps[..n], v, i, m, j, t, u);
  }

  /** A loss that is not one of the prefix is made by the last step. */
  lemma LostNow(steps: seq<Step>, v: Var) returns (i: nat, m: nat, u: nat)
    requires Lost(steps, v) && steps != [] && !Lost(steps[..|steps| - 1], v)
    ensures steps[|steps| - 1].Go? && WritesAt(steps, |steps| - 1, steps[|steps| - 1].t, v)
    ensures Overtaken(steps, v, i, m, |steps| - 1, steps[|steps| - 1].t, u)
  {
    hide At, ReadsAt;
    var n := |steps| - 1;
    var j: nat, t: nat;
    i, m, j, t, u :| Overtaken(steps, v, i, m, j, t, u);
    if j < n {
      LostEarlier(steps, n, v, i, m, j, t, u);
      assert false;
    }
  }

  /** A write that was overtaken, and one that was not. */
  lemma OvertakenLoses(steps: seq<Step>, v: Var, i: nat, m: nat, j: nat, t: nat, u: nat)
    requires OnlyRaised(steps, v) && Overtaken(steps, v, i, m, j, t, u)
    ensures Value(steps, j + 1, v) < Atoi(Default(v)) + Count(steps, j + 1, v)
  {
    hide Run, Apply, Atoi, Writes, Inv;
    WriteCounts(steps, j, t, v);
    WriteCounts(steps, m, u, v);
    var k := WriterHasRead(steps, j, t, v);
    ReadsOnce(steps, i, k, t, v);
    Raised(steps, i, v);
    Unwritten(steps, i, m, v);
    Unwritten(steps, m + 1, j, v);
  }

  lemma ReadsOnce(steps: seq<Step>, i: nat, k: nat, t: nat, v: Var)
    requires ReadsAt(steps, i, t, v) && ReadsAt(steps, k, t, v)
    ensures i == k
  {
    if i < k {
      AfterReading(steps, i, k, t, v);
      assert false;
    } else if k < i {
      AfterReading(steps, k, i, t, v);
      assert false;
    }
  }

  lemma AloneAdds(steps: seq<Step>, v: Var, j: nat, t: nat)
    requires OnlyRaised(steps, v) && WritesAt(steps, j, t, v)
    requires forall i: nat, m: nat, u: nat :: !Overtaken(steps, v, i, m, j, t, u)
    ensures Value(steps, j + 1, v) == Value(steps, j, v) + 1
  {
    hide Run, Apply, Atoi, Writes;
    WriteCounts(steps, j, t, v);
    var i := WriterHasRead(steps, j, t, v);
    forall m: nat, u: nat | i <= m < j ensures !WritesAt(steps, m, u, v) {
      assert !Overtaken(steps, v, i, m, j, t, u);
    }
    Unwritten(steps, i, j, v);
  }

  /** In every run in which the requests for a variable only increase it, its value is the start value
      plus the number of writes if and only if no write falls between the reading and the writing of
      another increment. */
  lemma {:induction false} IncreasesAddUpIff(steps: seq<Step>, v: Var)
    requires OnlyRaised(steps, v)
    ensures var s := Run(Init(), steps);
            Atoi(s.vals[v]) == Atoi(Default(v)) + Writes(s.notices, v) <==> !Lost(steps, v)
  {
    assert steps[..|steps|] == steps;
    if steps == [] {
      NothingLost(v);
    } else {
      var n := |steps| - 1;
      IncreasesAddUpIff(steps[..n], v);
      AtPrefix(steps, n, n);
      LastStep(steps, v);
    }
  }

  lemma NothingLost(v: Var)
    ensures !Lost([], v)
    ensures Atoi(Run(Init(), []).vals[v]) == Atoi(Default(v)) + Writes(Run(Init(), []).notices, v)
  {
  }

  lemma LastStep(steps: seq<Step>, v: Var)
    requires OnlyRaised(steps, v) && steps != []
    requires var n := |steps| - 1;
             Value(steps, n, v) == Atoi(Default(v)) + Count(steps, n, v) <==> !Lost(steps[..n], v)
    ensures Value(steps, |steps|, v) == Atoi(Default(v)) + Count(steps, |steps|, v) <==> !Lost(steps, v)
  {
    hide Run, Apply, Atoi, Writes;
    var n := |steps| - 1;
    if steps[n].Go? && WritesAt(steps, n, steps[n].t, v) {
      LastWrite(steps, v);
    } else {
      Unwritten(steps, n, n + 1, v);
      if Lost(steps[..n], v) {
        LostLater(steps, n, v);
      } else if Lost(steps, v) {
        var i, m, u := LostNow(steps, v);
        assert false;
      }
    }
  }

  lemma LastWrite(steps: seq<Step>, v: Var)
    requires OnlyRaised(steps, v) && steps != [] && steps[|steps| - 1].Go?
    requires WritesAt(steps, |steps| - 1, steps[|steps| - 1].t, v)
    requires var n := |steps| - 1;
             Value(steps, n, v) == Atoi(Default(v)) + Count(steps, n, v) <==> !Lost(steps[..n], v)
    ensures Value(steps, |steps|, v) == Atoi(Default(v)) + Count(steps, |steps|, v) <==> !Lost(steps, v)
  {
    hide Run, Apply, Atoi, Writes;
    var n, t := |steps| - 1, steps[|steps| - 1].t;
    WriteCounts(steps, n, t, v);
    if i: nat, m: nat, u: nat :| Overtaken(steps, v, i, m, n, t, u) {
      OvertakenLoses(steps, v, i, m, n, t, u);
    } else {
      AloneAdds(steps, v, n, t);
      if Lost(steps[..n], v) {
        LostLater(steps, n, v);
      } else if Lost(steps, v) {
        var i, m, u := LostNow(steps, v);
        assert false;
      }
    }
  }
}
