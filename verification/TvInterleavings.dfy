/** What interleaving does to the TV device's read-then-write actions: how far increments can be
    lost, and what a request does when it is left alone. */
module TvInterleavings {
  import opened Upnp
  import opened TvText
  import opened TvDevice

  ghost function KindOf(r: Request): Option<Kind> {
    Lookup(Actions(r.service), r.name)
  }

  // ---------------------------------------------------------------- left alone

  /** A request whose steps nothing interrupts does what the sequential handler does. */
  lemma AloneIsHandled(s: State, r: Request, sent: bool)
    requires Inv(s) && ParsedOk(r)
    ensures var t := |s.threads|;
            var e := Run(s, [Arrive(r), Go(t, sent), Go(t, sent), Go(t, sent)]);
            && Inv(e) && |e.threads| == t + 1 && e.threads[..t] == s.threads && e.threads[t].Answered?
            && Handled(s.vals, e.vals, r, sent, e.threads[t].code)
  {
    var t := |s.threads|;
    var go := Go(t, sent);
    hide Actions, Atoi, Format4, Known, Inv, Run, Apply, Dispatch, Decide, Handled;
    Run4(s, Arrive(r), go, go, go);
    var s1 := Apply(s, Arrive(r));
    StepKeepsInv(s, Arrive(r));
    var s2 := Apply(s1, go);
    StepKeepsInv(s1, go);
    var s3 := Apply(s2, go);
    StepKeepsInv(s2, go);
    StepKeepsInv(s3, go);
    AloneSteps(s, r, sent);
    AloneCase(s.vals, r, sent);
  }

  /** The state after each step of the last thread, when it moves alone. */
  lemma AloneSteps(s: State, r: Request, sent: bool)
    requires Full(s.vals)
    ensures var go := Go(|s.threads|, sent);
            var e := Apply(Apply(Apply(Apply(s, Arrive(r)), go), go), go);
            e.threads == s.threads + [AloneEnd(s.vals, r, sent)] && e.vals == AloneTable(s.vals, r)
  {
    var others, go := s.threads, Go(|s.threads|, sent);
    var pc := Dispatch(s.vals, r);
    hide Dispatch, Decide;
    var s1, s2 := s.(threads := others + [Arrived(r)]), s.(threads := others + [pc]);
    assert Apply(s, Arrive(r)) == s1;
    LastMoves(s1, others, Arrived(r), sent);
    LastMoves(s2, others, pc, sent);
    if pc.Running? {
      var pc' := Decide(s.vals, r, pc.kind);
      LastMoves(s.(threads := others + [pc']), others, pc', sent);
    }
  }

  lemma LastMoves(s: State, others: seq<Pc>, pc: Pc, sent: bool)
    requires Full(s.vals) && s.threads == others + [pc]
    ensures var e := Apply(s, Go(|others|, sent));
            match pc
            case Arrived(r) => e == s.(threads := others + [Dispatch(s.vals, r)])
            case Running(r, kind) => e == s.(threads := others + [Decide(s.vals, r, kind)])
            case Writing(v, value) =>
              && e.threads == others + [Answered(if Fits(value) && sent then UPNP_E_SUCCESS else ACTION_FAILED)]
              && e.vals == if Fits(value) then s.vals[v := value] else s.vals
            case Answered(_) => e == s
  {
    hide Dispatch, Decide;
    assert forall to :: s.threads[|others| := to] == others + [to];
  }

  ghost function AloneTable(vals: Table, r: Request): Table
    requires Full(vals)
  {
    var pc := Dispatch(vals, r);
    if !pc.Running? then vals else
    var w := Decide(vals, r, pc.kind);
    if w.Writing? && Fits(w.value) then vals[w.v := w.value] else vals
  }

  ghost function AloneEnd(vals: Table, r: Request, sent: bool): Pc
    requires Full(vals)
  {
    var pc := Dispatch(vals, r);
    if !pc.Running? then pc else
    var w := Decide(vals, r, pc.kind);
    if w.Writing? then Answered(if Fits(w.value) && sent then UPNP_E_SUCCESS else ACTION_FAILED) else w
  }

  lemma AloneCase(vals: Table, r: Request, sent: bool)
    requires TableOk(vals) && ParsedOk(r)
    ensures AloneEnd(vals, r, sent).Answered?
    ensures Handled(vals, AloneTable(vals, r), r, sent, AloneEnd(vals, r, sent).code)
  {
    KindIsOk(r);
    hide Actions, Atoi, Format4, Means;
    var kind := KindOf(r);
    if kind.Some? {
      DecideOk(vals, r, kind.value);
      if kind.value.StepVar? && Decide(vals, r, kind.value).Writing? {
        DecideExact(vals, r, kind.value);
      }
    }
    HandledByKind(vals, AloneTable(vals, r), r, sent, AloneEnd(vals, r, sent).code);
  }

  lemma Run4(s: State, a: Step, b: Step, c: Step, d: Step)
    requires Full(s.vals)
    ensures Run(s, [a, b, c, d]) == Apply(Apply(Apply(Apply(s, a), b), c), d)
  {
    assert [a, b, c, d][..3] == [a, b, c] && [a, b, c][..2] == [a, b] && [a, b][..1] == [a] && [a][..0] == [];
    assert Run(s, [a]) == Apply(s, a);
    assert Run(s, [a, b]) == Apply(Run(s, [a]), b);
    assert Run(s, [a, b, c]) == Apply(Run(s, [a, b]), c);
  }

  // ---------------------------------------------------------------- lost increments

  lemma {:induction false} RunConcat(s: State, a: seq<Step>, b: seq<Step>)
    requires Full(s.vals)
    ensures Run(s, a + b) == Run(Run(s, a), b)
  {
    if b == [] {
      assert a + b == a;
    } else {
      var n := |b| - 1;
      RunConcat(s, a, b[..n]);
      assert (a + b)[..|a + b| - 1] == a + b[..n];
    }
  }

  lemma Run2(s: State, a: Step, b: Step)
    requires Full(s.vals)
    ensures Run(s, [a, b]) == Apply(Apply(s, a), b)
  {
    assert [a, b][..1] == [a] && [a][..0] == [];
    assert Run(s, [a]) == Apply(s, a);
  }

  /** Two increments that both read before either writes count as one, though both succeed. */
  lemma IncrementLost(s: State, r: Request, v: Var)
    requires Inv(s) && ParsedOk(r) && KindOf(r) == Some(StepVar(v, 1)) && s.vals[Power] == "1"
    requires Atoi(s.vals[v]) < Max(v)
    ensures var both := [Go(|s.threads|, true), Go(|s.threads| + 1, true)];
            var e := Run(s, [Arrive(r), Arrive(r)] + both + both + both);
            && e.threads == s.threads + [Answered(UPNP_E_SUCCESS), Answered(UPNP_E_SUCCESS)]
            && Atoi(e.vals[v]) == Atoi(s.vals[v]) + 1
  {
    hide *;
    InvFull(s);
    var t, n := |s.threads|, Atoi(s.vals[v]) + 1;
    IncreaseGoes(s, r, v);
    var value := Format4(n);
    var arrive, both := [Arrive(r), Arrive(r)], [Go(t, true), Go(t + 1, true)];
    var a, b, w := Arrived(r), Running(r, StepVar(v, 1)), Writing(v, value);
    var s0, s1, s2 := s.(threads := s.threads + [a, a]), s.(threads := s.threads + [b, b]),
        s.(threads := s.threads + [w, w]);
    BothArrive(s, r);
    RunConcat(s, arrive, both);
    BothGo(s0, s.threads, a, b);
    RunConcat(s, arrive + both, both);
    BothGo(s1, s.threads, b, w);
    RunConcat(s, arrive + both + both, both);
    BothWrite(s2, s.threads, v, value);
  }

  lemma InvFull(s: State)
    requires Inv(s)
    ensures Full(s.vals) && forall v: Var :: v in s.vals
  {
  }

  lemma IncreaseGoes(s: State, r: Request, v: Var)
    requires Inv(s) && KindOf(r) == Some(StepVar(v, 1)) && s.vals[Power] == "1" && Atoi(s.vals[v]) < Max(v)
    ensures var n := Atoi(s.vals[v]) + 1;
            && 0 <= n <= 9999 && Fits(Format4(n)) && Atoi(Format4(n)) == n
            && Dispatch(s.vals, r) == Running(r, StepVar(v, 1))
            && Decide(s.vals, r, StepVar(v, 1)) == Writing(v, Format4(n))
  {
    AtoiFormat4(Atoi(s.vals[v]) + 1);
    hide Actions, Atoi, Format4, Known;
  }

  lemma BothArrive(s: State, r: Request)
    requires Full(s.vals)
    ensures Run(s, [Arrive(r), Arrive(r)]) == s.(threads := s.threads + [Arrived(r), Arrived(r)])
  {
    Run2(s, Arrive(r), Arrive(r));
    assert s.threads + [Arrived(r)] + [Arrived(r)] == s.threads + [Arrived(r), Arrived(r)];
  }

  /** Two threads in the same place that move on without touching the table. */
  lemma BothGo(s: State, others: seq<Pc>, from: Pc, to: Pc)
    requires Full(s.vals) && s.threads == others + [from, from]
    requires match from
             case Arrived(r) => to == Dispatch(s.vals, r)
             case Running(r, kind) => to == Decide(s.vals, r, kind)
             case _ => false
    ensures var both := [Go(|others|, true), Go(|others| + 1, true)];
            Run(s, both) == s.(threads := others + [to, to])
  {
    Run2(s, Go(|others|, true), Go(|others| + 1, true));
    assert s.threads[|others| := to] == others + [to, from];
    assert (others + [to, from])[|others| + 1 := to] == others + [to, to];
  }

  lemma BothWrite(s: State, others: seq<Pc>, v: Var, value: string)
    requires Full(s.vals) && s.threads == others + [Writing(v, value), Writing(v, value)] && Fits(value)
    ensures var both := [Go(|others|, true), Go(|others| + 1, true)];
            var k := Answered(UPNP_E_SUCCESS);
            var e := Run(s, both);
            e.vals == s.vals[v := value] && e.threads == others + [k, k]
  {
    var w, k := Writing(v, value), Answered(UPNP_E_SUCCESS);
    Run2(s, Go(|others|, true), Go(|others| + 1, true));
    assert s.threads[|others| := k] == others + [k, w];
    assert (others + [k, w])[|others| + 1 := k] == others + [k, k];
  }

  /** The action does not lower v and does not set it outright. */
  ghost predicate OnlyRaises(kind: Kind, v: Var) {
    match kind
    case SetPower(_) => v != Power
    case SetVar(w) => w != v
    case StepVar(w, incr) => w == v ==> incr == 1
  }

  ghost predicate RaisingRequest(r: Request, v: Var) {
    KindOf(r).Some? ==> OnlyRaises(KindOf(r).value, v)
  }

  ghost predicate RaisingStep(step: Step, v: Var) {
    step.Arrive? ==> ParsedOk(step.r) && RaisingRequest(step.r, v)
  }

  /** How often v has been written. */
  ghost function Writes(notices: seq<Notice>, v: Var): nat {
    if notices == [] then 0 else
    Writes(notices[..|notices| - 1], v) + if notices[|notices| - 1].v == v then 1 else 0
  }

  /** With k writes done since v was `start`. */
  ghost predicate RaisingPc(pc: Pc, v: Var, start: int, k: nat) {
    match pc
    case Arrived(r) => RaisingRequest(r, v)
    case Running(_, kind) => OnlyRaises(kind, v)
    case Writing(w, value) => w == v ==> start + 1 <= Atoi(value) <= start + k + 1
    case Answered(_) => true
  }

  ghost predicate Between(vals: Table, v: Var, start: int, k: nat)
    requires Full(vals)
  {
    start + (if k > 0 then 1 else 0) <= Atoi(vals[v]) <= start + k
  }

  ghost predicate RaisingInv(s: State, v: Var, start: int) {
    var k := Writes(s.notices, v);
    && Inv(s) && Between(s.vals, v, start, k)
    && forall t :: 0 <= t < |s.threads| ==> RaisingPc(s.threads[t], v, start, k)
  }

  lemma DecideRaises(vals: Table, r: Request, kind: Kind, v: Var, start: int, k: nat)
    requires TableOk(vals) && KindOk(kind) && OnlyRaises(kind, v) && Between(vals, v, start, k)
    ensures RaisingPc(Decide(vals, r, kind), v, start, k)
  {
    if kind.StepVar? && InRange(kind.v, Atoi(vals[kind.v]) + kind.incr) {
      DecideExact(vals, r, kind);
    }
  }

  lemma DispatchRaises(vals: Table, r: Request, v: Var, start: int, k: nat)
    requires Full(vals) && RaisingRequest(r, v)
    ensures RaisingPc(Dispatch(vals, r), v, start, k)
  {
  }

  lemma StepRaises(s: State, step: Step, v: Var, start: int)
    requires RaisingInv(s, v, start) && RaisingStep(step, v)
    ensures RaisingInv(Apply(s, step), v, start)
  {
    StepKeepsInv(s, step);
    InvParts(s);
    var k := Writes(s.notices, v);
    hide Inv, Known, Actions, Atoi, Decide, Dispatch, TableOk, Between;
    if step.Go? && step.t < |s.threads| {
      match s.threads[step.t]
      case Arrived(r) => DispatchRaises(s.vals, r, v, start, k);
      case Running(r, kind) => DecideRaises(s.vals, r, kind, v, start, k);
      case Writing(w, value) => WriteRaises(s, step.t, step.sent, v, start);
      case Answered(_) =>
    }
  }

  lemma WriteRaises(s: State, t: nat, sent: bool, v: Var, start: int)
    requires RaisingInv(s, v, start) && t < |s.threads| && s.threads[t].Writing?
    requires Inv(Apply(s, Go(t, sent)))
    ensures RaisingInv(Apply(s, Go(t, sent)), v, start)
  {
    hide Inv, Atoi, RaisingPc, Between, Apply, Writes;
    InvFull(s);
    var pc, k := s.threads[t], Writes(s.notices, v);
    WriteEffect(s, t, sent, v);
    WrittenBetween(s.vals, pc, v, start, k);
    RaisingThreads(s.threads, t, Answered(if Fits(pc.value) && sent then UPNP_E_SUCCESS else ACTION_FAILED), v, start,
                   k, if Fits(pc.value) && pc.v == v then k + 1 else k);
  }

  lemma WriteEffect(s: State, t: nat, sent: bool, v: Var)
    requires Full(s.vals) && t < |s.threads| && s.threads[t].Writing?
    ensures var e, pc := Apply(s, Go(t, sent)), s.threads[t];
            && e.threads == s.threads[t := Answered(if Fits(pc.value) && sent then UPNP_E_SUCCESS else ACTION_FAILED)]
            && e.vals == (if Fits(pc.value) then s.vals[pc.v := pc.value] else s.vals)
            && Writes(e.notices, v) == Writes(s.notices, v) + if Fits(pc.value) && pc.v == v then 1 else 0
  {
    hide Dispatch, Decide;
    var after := s.notices + [Notice(s.threads[t].v, s.threads[t].value)];
    assert after[..|after| - 1] == s.notices;
  }

  lemma WrittenBetween(vals: Table, pc: Pc, v: Var, start: int, k: nat)
    requires Full(vals) && Between(vals, v, start, k) && pc.Writing? && RaisingPc(pc, v, start, k)
    ensures pc.v == v ==> Between(vals[pc.v := pc.value], v, start, k + 1)
    ensures pc.v != v ==> Between(vals[pc.v := pc.value], v, start, k)
  {
    hide Atoi;
  }

  lemma RaisingThreads(threads: seq<Pc>, t: nat, to: Pc, v: Var, start: int, k: nat, k': nat)
    requires t < |threads| && to.Answered? && k <= k'
    requires forall u :: 0 <= u < |threads| ==> RaisingPc(threads[u], v, start, k)
    ensures var after := threads[t := to];
            forall u :: 0 <= u < |after| ==> RaisingPc(after[u], v, start, k')
  {
    hide Atoi;
  }

  lemma InvParts(s: State)
    requires Inv(s)
    ensures TableOk(s.vals) && forall t :: 0 <= t < |s.threads| ==> PcOk(s.threads[t])
  {
  }

  lemma {:induction false} IncreasesKeep(steps: seq<Step>, v: Var)
    requires forall i :: 0 <= i < |steps| ==> RaisingStep(steps[i], v)
    ensures RaisingInv(Run(Init(), steps), v, Atoi(Default(v)))
  {
    if steps == [] {
      DefaultsOk();
    } else {
      IncreasesKeep(steps[..|steps| - 1], v);
      StepRaises(Run(Init(), steps[..|steps| - 1]), steps[|steps| - 1], v, Atoi(Default(v)));
    }
  }

  /** If a variable is only ever increased, then after k successful writes, however interleaved, it
      has risen by at least one (if k > 0) and by at most k. */
  lemma IncreasesAddUpTo(steps: seq<Step>, v: Var)
    requires forall i :: 0 <= i < |steps| ==> RaisingStep(steps[i], v)
    ensures var s := Run(Init(), steps);
            var k := Writes(s.notices, v);
            Atoi(Default(v)) + (if k > 0 then 1 else 0) <= Atoi(s.vals[v]) <= Atoi(Default(v)) + k
  {
    IncreasesKeep(steps, v);
  }

  // ---------------------------------------------------------------- switched off

  /** The request is, or has become, a PowerOn. */
  predicate WakesUp(pc: Pc) {
    match pc
    case Arrived(r) => r.name == "PowerOn"
    case Running(_, kind) => kind == SetPower(true)
    case Writing(v, value) => v == Power && value == "1"
    case Answered(_) => false
  }

  /** The set is off and no request is about to turn it on. */
  ghost predicate Off(s: State) {
    && Inv(s) && s.vals[Power] != "1"
    && forall t :: 0 <= t < |s.threads| ==> !WakesUp(s.threads[t])
  }

  /** How many requests have passed the power check and have not been answered. */
  ghost function Passed(threads: seq<Pc>): nat {
    if threads == [] then 0 else
    Passed(threads[..|threads| - 1])
    + if threads[|threads| - 1].Running? || threads[|threads| - 1].Writing? then 1 else 0
  }

  ghost function One(pc: Pc): nat {
    if pc.Running? || pc.Writing? then 1 else 0
  }

  lemma {:induction false} PassedUpdate(threads: seq<Pc>, t: nat, pc: Pc)
    requires t < |threads|
    ensures Passed(threads[t := pc]) == Passed(threads) - One(threads[t]) + One(pc)
  {
    var last := |threads| - 1;
    if t < last {
      PassedUpdate(threads[..last], t, pc);
      assert threads[t := pc][..last] == threads[..last][t := pc];
    } else {
      assert threads[t := pc][..last] == threads[..last];
    }
  }

  lemma PassedArrive(threads: seq<Pc>, r: Request)
    ensures Passed(threads + [Arrived(r)]) == Passed(threads)
  {
    assert (threads + [Arrived(r)])[..|threads|] == threads;
  }

  ghost predicate NotPowerOn(step: Step) {
    StepOk(step) && (step.Arrive? ==> step.r.name != "PowerOn")
  }

  lemma GoStaysOff(s: State, t: nat, sent: bool)
    requires Off(s) && t < |s.threads|
    ensures var e := Apply(s, Go(t, sent));
            && e.vals[Power] != "1" && !WakesUp(e.threads[t])
            && (|e.notices| == |s.notices| ==> e.vals == s.vals)
            && |e.notices| + One(e.threads[t]) <= |s.notices| + One(s.threads[t])
            && |s.notices| <= |e.notices|
  {
    assert PcOk(s.threads[t]) && !WakesUp(s.threads[t]);
    hide Known, Actions, Atoi, Format4;
  }

  lemma StepStaysOff(s: State, step: Step)
    requires Off(s) && NotPowerOn(step)
    ensures var e := Apply(s, step);
            && Off(e) && |s.notices| <= |e.notices| && (|e.notices| == |s.notices| ==> e.vals == s.vals)
            && |e.notices| + Passed(e.threads) <= |s.notices| + Passed(s.threads)
  {
    StepKeepsInv(s, step);
    InvFull(s);
    hide Inv, Dispatch, Decide;
    if step.Arrive? {
      PassedArrive(s.threads, step.r);
    } else if step.t < |s.threads| {
      GoChangesOne(s, step.t, step.sent);
      GoStaysOff(s, step.t, step.sent);
      PassedUpdate(s.threads, step.t, Apply(s, step).threads[step.t]);
      hide Apply, WakesUp;
    }
  }

  lemma GoChangesOne(s: State, t: nat, sent: bool)
    requires Full(s.vals) && t < |s.threads|
    ensures var e := Apply(s, Go(t, sent));
            |e.threads| == |s.threads| && e.threads == s.threads[t := e.threads[t]]
  {
    hide Dispatch, Decide;
  }

  /** While the set is off and no PowerOn is on its way, the requests that had passed the power check
      before may still finish, but nothing else is ever written or announced: there are at most as many
      more writes as there were such requests.  Without any the table stays as it is. */
  lemma {:induction false} OffIsInert(s: State, steps: seq<Step>)
    requires Off(s) && forall i :: 0 <= i < |steps| ==> NotPowerOn(steps[i])
    ensures var e := Run(s, steps);
            && Off(e) && |s.notices| <= |e.notices|
            && |e.notices| + Passed(e.threads) <= |s.notices| + Passed(s.threads)
            && (Passed(s.threads) == 0 ==> e.vals == s.vals && |e.notices| == |s.notices|)
  {
    InvFull(s);
    hide Inv, Apply;
    if steps != [] {
      OffIsInert(s, steps[..|steps| - 1]);
      StepStaysOff(Run(s, steps[..|steps| - 1]), steps[|steps| - 1]);
    }
  }
}
