/** From the steps of single threads to all interleavings: the invariant of the whole system holds
    in every state of every run. */
module GenaSystem {
  import opened Upnp
  import opened GenaModel
  import opened GenaLocks
  import opened GenaData
  import opened GenaInvariant

  /** No two auto-renewals own the same argument. */
  ghost predicate JobsDistinct(s: State) {
    forall t, u :: t in s.threads && u in s.threads && t != u && JobOf(s.threads[t]).Some? ==>
      JobOf(s.threads[t]) != JobOf(s.threads[u])
  }

  /** While a scheduler has not yet read the event id from its new argument, no other thread
      knows that id, and a job that the timer has already started has not taken a step. */
  ghost predicate FreshArgs(s: State) {
    forall t, u :: t in s.threads && u in s.threads && t != u && NewArg(s.threads[t]).Some? ==>
      ArgSafeFrom(s.d, NewArg(s.threads[t]).value, s.threads[u])
  }

  ghost predicate ArgSafeFrom(d: Data, a: ArgId, th: Thread) {
    a in d.args ==>
      && (CopyOf(th).Some? ==> CopyOf(th).value.renewId != d.args[a].eventId)
      && (JobOf(th) == Some(a) ==> th.rpc.RenStart?)
  }

  /** Every allocated argument belongs to a pending timer or to a running auto-renewal. */
  ghost predicate ArgsOwned(s: State) {
    forall a :: a in s.d.args ==> Pending(s.d, a) || exists t :: Owns(s, t, a)
  }

  ghost predicate Pending(d: Data, a: ArgId) {
    a in d.args && d.args[a].eventId in d.timers && d.timers[d.args[a].eventId] == a
  }

  ghost predicate Owns(s: State, t: Tid, a: ArgId) {
    t in s.threads && JobOf(s.threads[t]) == Some(a)
  }

  /** A reported failure is final: the SID is in no list any more. */
  ghost predicate LogOk(s: State) {
    forall i :: 0 <= i < |s.log| && s.log[i].AutoRenewalFailed? ==> Gone(s.d, s.log[i].sid)
  }

  ghost predicate ThreadsOk(s: State) {
    forall t :: t in s.threads ==> ThreadOk(s.d, s.threads[t])
  }

  ghost predicate OwnerInv(s: State) {
    JobsDistinct(s) && FreshArgs(s) && ArgsOwned(s)
  }

  ghost predicate SysInv(s: State) {
    LockInv(s) && DataInv(s.d) && ThreadsOk(s) && OwnerInv(s) && LogOk(s)
  }

  /** What one thread knows is not disturbed by a change that leaves its argument alone and,
      if it owns the write lock, leaves the lists alone. */
  lemma OtherStaysOk(d: Data, e: Data, mine: Option<ArgId>, th: Thread)
    requires DataInv(d) && DataInv(e) && Evolves(d, e, mine) && ThreadOk(d, th)
    requires JobOf(th).Some? ==> JobOf(th) != mine
    requires HoldsWrite(th) ==> e.clients == d.clients
    requires NewArg(th).Some? && NewArg(th).value in d.args ==>
               NewArg(th).value in e.args || NewArg(th).value in e.dropped
    ensures ThreadOk(e, th)
  {
    match th
    case Renewing(_, _, _, _) => RenewingStaysOk(d, e, mine, th);
    case Subscribing(_, _, _) => SubscribingStaysOk(d, e, mine, th);
    case UnSubscribing(_, _, pc) =>
      if pc.UnsRequest? || pc.UnsFreeCopy? {
        SubStaysOk(d, e, pc.copy, mine);
      }
    case Unregistering(_, pc) =>
      if pc.UnrRequest? || pc.UnrFreeCopy? {
        SubStaysOk(d, e, pc.copy, mine);
      }
    case Notifying(_, _, _) =>
  }

  lemma SubscribingStaysOk(d: Data, e: Data, mine: Option<ArgId>, th: Thread)
    requires th.Subscribing? && DataInv(d) && DataInv(e) && Evolves(d, e, mine) && ThreadOk(d, th)
    requires HoldsWrite(th) ==> e.clients == d.clients
    requires NewArg(th).Some? && NewArg(th).value in d.args ==>
               NewArg(th).value in e.args || NewArg(th).value in e.dropped
    ensures ThreadOk(e, th)
  {
    if th.spc.SubCopyId? {
      ReadyStays(d, e, mine, th.h, th.spc.sid, th.spc.arg);
      hide ArgReady, DataInv, Evolves;
    }
  }

  lemma RenewingStaysOk(d: Data, e: Data, mine: Option<ArgId>, th: Thread)
    requires th.Renewing? && DataInv(d) && DataInv(e) && Evolves(d, e, mine) && ThreadOk(d, th)
    requires JobOf(th).Some? ==> JobOf(th) != mine
    requires HoldsWrite(th) ==> e.clients == d.clients
    requires NewArg(th).Some? && NewArg(th).value in d.args ==>
               NewArg(th).value in e.args || NewArg(th).value in e.dropped
    ensures ThreadOk(e, th)
  {
    if th.rpc.RenCopyId? {
      ReadyStays(d, e, mine, th.h, th.sid, th.rpc.arg);
    }
    hide ArgReady, ListOk;
  }

  lemma ReadyStays(d: Data, e: Data, mine: Option<ArgId>, h: Handle, sid: string, a: ArgId)
    requires DataInv(d) && DataInv(e) && Evolves(d, e, mine) && e.clients == d.clients && ArgReady(d, h, sid, a)
    requires a in d.args ==> a in e.args || a in e.dropped
    ensures ArgReady(e, h, sid, a)
  {
    hide ListOk, Gone;
  }

  /** A step outside the write lock leaves a fresh argument of another thread alone. */
  lemma FreshArgStep(d: Data, th: Thread, e: Effect<Thread>, a: ArgId)
    requires DataInv(d) && Keeps(d, th, e) && !HoldsWrite(th)
    requires a in d.args || a in d.dropped
    requires ArgSafeFrom(d, a, th) && JobOf(th) != Some(a)
    ensures a in d.args ==> a in e.d.args
    ensures ArgSafeFrom(e.d, a, e.pc)
  {
    hide ThreadOk, ListOk, Gone, HoldsWrite, CopyOf;
  }

  /** A scheduler's fresh argument survives the steps of the other threads: those that work
      without the write lock do not know its id, and its own job waits for that lock. */
  lemma FreshArgSurvives(s: State, t: Tid, e: Effect<Thread>, u: Tid)
    requires SysInv(s) && t in s.threads && u in s.threads && t != u
    requires Disciplined(s.d, s.threads[t], e) && Keeps(s.d, s.threads[t], e)
    requires LockReady(s.hlock, e.hl) && NewArg(s.threads[u]).Some?
    ensures NewArg(s.threads[u]).value in s.d.args ==> NewArg(s.threads[u]).value in e.d.args
    ensures ArgSafeFrom(e.d, NewArg(s.threads[u]).value, e.pc)
  {
    var a := NewArg(s.threads[u]).value;
    assert HoldsWrite(s.threads[u]) && !HoldsWrite(s.threads[t]);
    assert ThreadOk(s.d, s.threads[u]);
    assert a in s.d.args || a in s.d.dropped;
    assert ArgSafeFrom(s.d, a, s.threads[t]);
    assert JobOf(s.threads[t]) != Some(a) by {
      assert ThreadOk(s.d, s.threads[t]);
      assert !AtStart(s.threads[t]);
    }
    FreshArgStep(s.d, s.threads[t], e, a);
  }

  lemma EffectKeepsThreads(s: State, t: Tid, e: Effect<Thread>)
    requires SysInv(s) && t in s.threads && Disciplined(s.d, s.threads[t], e) && Keeps(s.d, s.threads[t], e)
    requires LockReady(s.hlock, e.hl)
    ensures ThreadsOk(After(s, t, e))
  {
    var s' := After(s, t, e);
    forall u | u in s'.threads ensures ThreadOk(s'.d, s'.threads[u]) {
      if u != t {
        assert u in s.threads;
        if NewArg(s.threads[u]).Some? {
          FreshArgSurvives(s, t, e, u);
        }
        OtherStaysOk(s.d, e.d, Frees(s.threads[t]), s.threads[u]);
      }
    }
  }

  lemma EffectKeepsOwnership(s: State, t: Tid, e: Effect<Thread>)
    requires SysInv(s) && t in s.threads && Keeps(s.d, s.threads[t], e)
    ensures ArgsOwned(After(s, t, e))
  {
    hide ThreadOk, ListOk, Gone, LockInv, CopyOf;
    var s' := After(s, t, e);
    forall a | a in s'.d.args ensures Pending(s'.d, a) || exists u :: Owns(s', u, a) {
      if a in s.d.args && !Pending(s.d, a) {
        var u :| Owns(s, u, a);
        assert Owns(s', u, a);
      }
    }
  }

  lemma EffectKeepsJobs(s: State, t: Tid, e: Effect<Thread>)
    requires SysInv(s) && t in s.threads && Keeps(s.d, s.threads[t], e)
    ensures JobsDistinct(After(s, t, e)) && LogOk(After(s, t, e))
  {
    hide DataInv, ThreadOk, LockInv;
  }

  /** The event id of an argument that a step has just scheduled is new to every other thread. */
  lemma NewArgSafe(d: Data, th: Thread, e: Effect<Thread>, other: Thread)
    requires DataInv(d) && Keeps(d, th, e) && NewArg(e.pc).Some? && ThreadOk(d, other)
    ensures ArgSafeFrom(e.d, NewArg(e.pc).value, other)
  {
    assert TimersOk(d);
    assert CopyOf(other).Some? ==> CopyOf(other).value.renewId < d.nextEvent;
    assert JobOf(other).Some? ==> JobOf(other).value in d.args;
    assert NewArg(e.pc).value == d.nextArg && d.nextArg in e.d.args && e.d.args[d.nextArg].eventId == d.nextEvent;
    hide DataInv, ThreadOk, Keeps, JobOf, CopyOf, NewArg;
  }

  /** Two other threads: their views of the argument do not change. */
  lemma OldArgSafe(d: Data, e: Data, mine: Option<ArgId>, a: ArgId, th: Thread)
    requires Evolves(d, e, mine) && a < d.nextArg && ArgSafeFrom(d, a, th)
    ensures ArgSafeFrom(e, a, th)
  {
    hide CopyOf, JobOf, Gone;
  }

  lemma EffectKeepsFreshArgs(s: State, t: Tid, e: Effect<Thread>)
    requires SysInv(s) && t in s.threads && Disciplined(s.d, s.threads[t], e) && Keeps(s.d, s.threads[t], e)
    requires LockReady(s.hlock, e.hl)
    ensures FreshArgs(After(s, t, e))
  {
    var s' := After(s, t, e);
    forall v, u | v in s'.threads && u in s'.threads && v != u && NewArg(s'.threads[v]).Some?
      ensures ArgSafeFrom(s'.d, NewArg(s'.threads[v]).value, s'.threads[u])
    {
      OneKeepsFreshArgs(s, t, e, v, u);
    }
  }

  lemma OneKeepsFreshArgs(s: State, t: Tid, e: Effect<Thread>, v: Tid, u: Tid)
    requires SysInv(s) && t in s.threads && Disciplined(s.d, s.threads[t], e) && Keeps(s.d, s.threads[t], e)
    requires LockReady(s.hlock, e.hl)
    requires var s' := After(s, t, e); v in s'.threads && u in s'.threads && v != u && NewArg(s'.threads[v]).Some?
    ensures var s' := After(s, t, e); ArgSafeFrom(s'.d, NewArg(s'.threads[v]).value, s'.threads[u])
  {
    hide DataInv, ThreadOk, LockInv, Disciplined, ArgSafeFrom, Gone;
    if v == t {
      assert ThreadOk(s.d, s.threads[u]);
      hide Keeps;
      NewArgSafe(s.d, s.threads[t], e, s.threads[u]);
    } else if u == t {
      hide Keeps;
      FreshArgSurvives(s, t, e, v);
    } else {
      var a := NewArg(s.threads[v]).value;
      assert ArgSafeFrom(s.d, a, s.threads[u]);
      FreshArgIssued(s, v);
      OldArgSafe(s.d, e.d, Frees(s.threads[t]), a, s.threads[u]);
    }
  }

  lemma FreshArgIssued(s: State, v: Tid)
    requires SysInv(s) && v in s.threads && NewArg(s.threads[v]).Some?
    ensures NewArg(s.threads[v]).value < s.d.nextArg
  {
    assert ThreadOk(s.d, s.threads[v]) && ArgsOk(s.d) && TimersOk(s.d);
  }

  /** Changes that touch no thread, and no argument except by releasing a pending one. */
  lemma OwnersCarryOver(s: State, s': State)
    requires OwnerInv(s) && s'.threads == s.threads
    requires forall a :: a in s'.d.args ==>
               a in s.d.args && s'.d.args[a] == s.d.args[a] && (Pending(s.d, a) ==> Pending(s'.d, a))
    ensures OwnerInv(s')
  {
    forall a | a in s'.d.args ensures Pending(s'.d, a) || exists u :: Owns(s', u, a) {
      if !Pending(s.d, a) {
        var u :| Owns(s, u, a);
        assert Owns(s', u, a);
      }
    }
    forall t, u | t in s'.threads && u in s'.threads && t != u && NewArg(s'.threads[t]).Some?
      ensures ArgSafeFrom(s'.d, NewArg(s'.threads[t]).value, s'.threads[u])
    {
      assert ArgSafeFrom(s.d, NewArg(s.threads[t]).value, s.threads[u]);
    }
  }

  lemma RegisterKeeps(s: State, h: Handle)
    requires SysInv(s) && Enabled(s, Register(h))
    ensures var s' := Apply(s, Register(h)); DataInv(s'.d) && ThreadsOk(s') && OwnerInv(s') && LogOk(s')
  {
    var s' := Apply(s, Register(h));
    var d, e := s.d, s'.d;
    assert forall sid :: HasSub(e, h, sid) ==> false;
    assert forall sid :: Gone(d, sid) ==> Gone(e, sid);
    forall k | k in e.clients ensures ListOk(e, k) {
      assert k != h ==> ListOk(d, k);
    }
    assert Evolves(d, e, None);
    forall u | u in s'.threads ensures ThreadOk(e, s'.threads[u]) {
      OtherStaysOk(d, e, None, s.threads[u]);
    }
    OwnersCarryOver(s, s');
  }

  lemma StartKeeps(s: State, t: Tid, th: Thread)
    requires SysInv(s) && Enabled(s, Start(t, th))
    ensures var s' := Apply(s, Start(t, th)); DataInv(s'.d) && ThreadsOk(s') && OwnerInv(s') && LogOk(s')
  {
    var s' := Apply(s, Start(t, th));
    assert ThreadOk(s.d, th) && CopyOf(th).None? && JobOf(th).None? && NewArg(th).None?;
    hide DataInv, Gone, LockInv, ThreadOk, CopyOf, JobOf, NewArg;
    forall a | a in s'.d.args ensures Pending(s'.d, a) || exists u :: Owns(s', u, a) {
      if !Pending(s.d, a) {
        var u :| Owns(s, u, a);
        assert Owns(s', u, a);
      }
    }
    forall v, u | v in s'.threads && u in s'.threads && v != u && NewArg(s'.threads[v]).Some?
      ensures ArgSafeFrom(s'.d, NewArg(s'.threads[v]).value, s'.threads[u])
    {
      assert u != t ==> ArgSafeFrom(s.d, NewArg(s.threads[v]).value, s.threads[u]);
    }
  }

  lemma FireKeeps(s: State, id: int, t: Tid)
    requires SysInv(s) && Enabled(s, Fire(id, t))
    ensures var s' := Apply(s, Fire(id, t)); DataInv(s'.d) && ThreadsOk(s') && OwnerInv(s') && LogOk(s')
  {
    FiredTimer(s.d, id);
    FireKeepsThreads(s, id, t);
    FireKeepsOwnership(s, id, t);
    hide DataInv, ThreadOk;
  }

  /** A job that has been taken from the timer is like an argument that nobody owns. */
  lemma FiredTimer(d: Data, id: int)
    requires DataInv(d) && id in d.timers
    ensures var e := d.(timers := d.timers - {id});
            && DataInv(e)
            && (forall sid :: Gone(d, sid) ==> Gone(e, sid))
            && (forall th :: ThreadOk(d, th) ==> ThreadOk(e, th))
  {
    var e := d.(timers := d.timers - {id});
    assert forall sid :: Gone(d, sid) <==> Gone(e, sid);
    forall k | k in e.clients ensures ListOk(e, k) {
      assert ListOk(d, k);
    }
    assert ArgsOk(d);
    assert ArgsOk(e);
  }

  lemma FireKeepsThreads(s: State, id: int, t: Tid)
    requires SysInv(s) && Enabled(s, Fire(id, t))
    ensures ThreadsOk(Apply(s, Fire(id, t)))
  {
    FiredTimer(s.d, id);
    var s' := Apply(s, Fire(id, t));
    assert ThreadOk(s'.d, s'.threads[t]);
    hide ThreadOk, DataInv;
  }

  lemma FireKeepsOwnership(s: State, id: int, t: Tid)
    requires SysInv(s) && Enabled(s, Fire(id, t))
    ensures OwnerInv(Apply(s, Fire(id, t)))
  {
    var s' := Apply(s, Fire(id, t));
    var a := s.d.timers[id];
    assert TimersOk(s.d);
    assert forall u :: u in s.threads ==> JobOf(s.threads[u]) != Some(a) by {
      forall u | u in s.threads ensures JobOf(s.threads[u]) != Some(a) {
        assert ThreadOk(s.d, s.threads[u]);
      }
    }
    hide DataInv, ThreadOk, Gone, ListOk, LockInv;
    forall b | b in s'.d.args ensures Pending(s'.d, b) || exists u :: Owns(s', u, b) {
      if b == a {
        assert Owns(s', t, b);
      } else if !Pending(s.d, b) {
        var u :| Owns(s, u, b);
        assert Owns(s', u, b);
      }
    }
    forall v, u | v in s'.threads && u in s'.threads && v != u && NewArg(s'.threads[v]).Some?
      ensures ArgSafeFrom(s'.d, NewArg(s'.threads[v]).value, s'.threads[u])
    {
      assert u != t ==> ArgSafeFrom(s.d, NewArg(s.threads[v]).value, s.threads[u]);
    }
  }

  lemma DropKeeps(s: State, id: int)
    requires SysInv(s) && Enabled(s, Drop(id))
    ensures var s' := Apply(s, Drop(id)); DataInv(s'.d) && ThreadsOk(s') && OwnerInv(s') && LogOk(s')
  {
    var s' := Apply(s, Drop(id));
    DroppedTimer(s.d, id);
    forall u | u in s'.threads ensures ThreadOk(s'.d, s'.threads[u]) {
      OtherStaysOk(s.d, s'.d, None, s.threads[u]);
    }
    hide ThreadOk, DataInv, LockInv, Gone;
    OwnersCarryOver(s, s');
  }

  lemma DroppedTimer(d: Data, id: int)
    requires DataInv(d) && id in d.timers
    ensures var e := DropTimer(d, id);
            && DataInv(e) && Evolves(d, e, None)
            && (forall a :: a in d.args ==> a in e.args || a in e.dropped)
            && (forall a :: a in e.args ==>
                  a in d.args && e.args[a] == d.args[a] && (Pending(d, a) ==> Pending(e, a)))
  {
    CancelKeeps(d, id);
    var c, e := Cancel(d, id), DropTimer(d, id);
    assert forall sid :: Gone(c, sid) <==> Gone(e, sid);
    forall k | k in e.clients ensures ListOk(e, k) {
      assert ListOk(c, k);
    }
  }

  lemma StepKeepsInv(s: State, l: Step)
    requires SysInv(s) && Enabled(s, l)
    ensures SysInv(Apply(s, l))
  {
    StepKeepsLocks(s, l);
    hide DataInv, ThreadOk, LockInv, Disciplined, Keeps, Gone;
    match l
    case Register(h) => RegisterKeeps(s, h);
    case Start(t, th) => StartKeeps(s, t, th);
    case Fire(id, t) => FireKeeps(s, id, t);
    case Drop(id) => DropKeeps(s, id);
    case Run(t, c) =>
      var e := ThreadStep(s.d, t, s.threads[t], c);
      LocalDiscipline(s.d, t, s.threads[t], c);
      LocalKeeps(s.d, t, s.threads[t], c);
      EffectKeepsThreads(s, t, e);
      EffectKeepsOwnership(s, t, e);
      EffectKeepsJobs(s, t, e);
      EffectKeepsFreshArgs(s, t, e);
      assert OwnerInv(Apply(s, l));
  }

  lemma {:induction false} RunKeepsInv(ss: seq<State>, ls: seq<Step>, i: nat)
    requires IsRun(ss, ls) && i < |ss|
    ensures SysInv(ss[i])
  {
    hide IsPath, Enabled, Apply;
    if i > 0 {
      StepOf(ss, ls, i - 1);
      RunKeepsInv(ss, ls, i - 1);
      StepKeepsInv(ss[i - 1], ls[i - 1]);
    }
  }
}
