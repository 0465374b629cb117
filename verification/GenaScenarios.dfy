/** What can go wrong: from every reachable state of the given kind a path leads to the bad one. */
module GenaScenarios {
  import opened Upnp
  import opened GenaModel
  import opened GenaData
  import opened GenaInvariant
  import opened GenaSystem
  import opened GenaTimers
  import GenaUnregister

  // ---------------------------------------------------------------- paths

  /** Some steps lead from s to e. */
  ghost predicate Leads(s: State, e: State) {
    exists ss, ls :: IsPath(ss, ls) && ss[0] == s && ss[|ls|] == e
  }

  ghost predicate Reachable(s: State) {
    Leads(INITIAL, s)
  }

  /** A path to a state in which the invariant holds. */
  ghost predicate Led(s: State, e: State) {
    Leads(s, e) && SysInv(e)
  }

  lemma LedFrom(s: State)
    requires Reachable(s)
    ensures Led(s, s)
  {
    var ss, ls :| IsPath(ss, ls) && ss[0] == INITIAL && ss[|ls|] == s;
    RunKeepsInv(ss, ls, |ls|);
    assert IsPath([s], []);
  }

  lemma Extend(s: State, m: State, l: Step)
    requires Led(s, m) && Enabled(m, l)
    ensures Led(s, Apply(m, l))
  {
    hide Enabled, Apply, SysInv;
    StepKeepsInv(m, l);
    var ss, ls :| IsPath(ss, ls) && ss[0] == s && ss[|ls|] == m;
    LongerPath(ss, ls, l);
  }

  lemma LongerPath(ss: seq<State>, ls: seq<Step>, l: Step)
    requires IsPath(ss, ls) && Enabled(ss[|ls|], l)
    ensures Leads(ss[0], Apply(ss[|ls|], l))
  {
    hide Enabled, Apply;
    var e := Apply(ss[|ls|], l);
    var ss', ls' := ss + [e], ls + [l];
    forall i | 0 <= i < |ls'| ensures Enabled(ss'[i], ls'[i]) && ss'[i + 1] == Apply(ss'[i], ls'[i]) {
      assert i < |ls| ==> Enabled(ss[i], ls[i]) && ss[i + 1] == Apply(ss[i], ls[i]);
    }
    assert IsPath(ss', ls');
  }

  /** A step of a subscribing, a renewing and a notifying thread. */
  lemma ExtendSub(s: State, m: State, t: Tid, c: Choice, e: Effect<SubPc>)
    requires Led(s, m) && t in m.threads && m.threads[t].Subscribing? && Permitted(m.d, m.threads[t], c)
    requires var th := m.threads[t]; e == SubscribeStep(m.d, th.h, th.url, th.spc, c)
    requires LockReady(m.hlock, e.hl) && (e.sl.TakeMutex? ==> m.slock.None?)
    ensures var th := m.threads[t]; Led(s, After(m, t, e.At(Subscribing(th.h, th.url, e.pc))))
  {
    hide Led, SubscribeStep;
    Extend(s, m, Run(t, c));
  }

  lemma ExtendRen(s: State, m: State, t: Tid, c: Choice, e: Effect<RenPc>)
    requires Led(s, m) && t in m.threads && m.threads[t].Renewing? && Permitted(m.d, m.threads[t], c)
    requires var th := m.threads[t]; e == RenewStep(m.d, t, th.h, th.sid, th.job, th.rpc, c)
    requires LockReady(m.hlock, e.hl) && (e.sl.TakeMutex? ==> m.slock.None?)
    ensures var th := m.threads[t]; Led(s, After(m, t, e.At(Renewing(th.h, th.sid, th.job, e.pc))))
  {
    hide Led, RenewStep;
    Extend(s, m, Run(t, c));
  }

  lemma ExtendNot(s: State, m: State, t: Tid, e: Effect<NotPc>)
    requires Led(s, m) && t in m.threads && m.threads[t].Notifying? && !m.threads[t].npc.NotDone?
    requires var th := m.threads[t]; e == NotifyStep(m.d, t, th.key, th.seqNo, th.npc)
    requires LockReady(m.hlock, e.hl) && (e.sl.TakeMutex? ==> m.slock.None?)
    ensures var th := m.threads[t]; Led(s, After(m, t, e.At(Notifying(th.key, th.seqNo, e.pc))))
  {
    hide Led, NotifyStep;
    Extend(s, m, Run(t, Plain));
  }

  /** A client can always register in the empty system. */
  lemma LedRegistered(h: Handle)
    requires 1 <= h < NUM_HANDLE
    ensures Led(INITIAL, INITIAL.(d := NO_DATA.(clients := map[h := []])))
  {
    assert IsPath([INITIAL], []);
    assert Reachable(INITIAL);
    LedFrom(INITIAL);
    hide Led;
    Extend(INITIAL, INITIAL, Register(h));
  }

  lemma RegisteredReachable(h: Handle)
    requires 1 <= h < NUM_HANDLE
    ensures Reachable(INITIAL.(d := NO_DATA.(clients := map[h := []])))
  {
    LedRegistered(h);
  }

  lemma LedLeads(s: State, e: State)
    ensures Led(s, e) ==> Leads(s, e) && SysInv(e)
  {
  }

  // ---------------------------------------------------------------- subscribing

  ghost predicate Idle(s: State) {
    s.hlock.Free? && s.slock.None?
  }

  /** State s with thread t of its own at pc, and the given data and locks. */
  ghost function With(s: State, t: Tid, th: Thread, d: Data, hlock: RwLock, slock: Option<Tid>): State {
    State(d, s.threads[t := th], hlock, slock, s.log)
  }

  lemma SubMoves(s0: State, s: State, t: Tid, h: Handle, url: string, pc: SubPc, d: Data, hlock: RwLock,
                 slock: Option<Tid>, c: Choice, e: Effect<SubPc>)
    requires Led(s0, With(s, t, Subscribing(h, url, pc), d, hlock, slock))
    requires Permitted(d, Subscribing(h, url, pc), c) && e == SubscribeStep(d, h, url, pc, c) && e.cb.None?
    requires LockReady(hlock, e.hl) && (e.sl.TakeMutex? ==> slock.None?)
    ensures Led(s0, With(s, t, Subscribing(h, url, e.pc), e.d, LockAfter(hlock, t, e.hl), MutexAfter(slock, t, e.sl)))
  {
    hide Led, SubscribeStep;
    var m := With(s, t, Subscribing(h, url, pc), d, hlock, slock);
    ExtendSub(s0, m, t, c, e);
    assert m.threads[t := Subscribing(h, url, e.pc)] == s.threads[t := Subscribing(h, url, e.pc)];
    assert s.log + [] == s.log;
  }

  lemma ToRequest(s0: State, s: State, t: Tid, h: Handle, url: string)
    requires Led(s0, s) && Idle(s) && t !in s.threads && h in s.d.clients
    ensures Led(s0, With(s, t, Subscribing(h, url, SubRequest), s.d, Free, Some(t)))
  {
    hide Led;
    assert {} + {t} == {t} && {t} - {t} == {};
    Extend(s0, s, Start(t, Subscribing(h, url, SubStart)));
    SubMoves(s0, s, t, h, url, SubStart, s.d, Free, None, Plain, Move(s.d, SubCheck, TakeRead, KeepMutex));
    SubMoves(s0, s, t, h, url, SubCheck, s.d, Read({t}), None, Plain, Move(s.d, SubWantMutex, DropRead, KeepMutex));
    SubMoves(s0, s, t, h, url, SubWantMutex, s.d, Free, None, Plain, Move(s.d, SubRequest, Keep, TakeMutex));
  }

  /** A granted subscription, entered in the list, before its renewal is scheduled. */
  lemma ToSchedule(s0: State, s: State, t: Tid, h: Handle, url: string, sub: Sub, timeout: int)
    requires Led(s0, s) && Idle(s) && t !in s.threads && h in s.d.clients
    requires sub.sid !in s.d.home && sub.url == url && sub.renewId == -1
    ensures Led(s0, With(s, t, Subscribing(h, url, SubSchedule(sub.sid, timeout)), Link(s.d, h, sub), Write(t),
                         Some(t)))
  {
    hide Led;
    ToRequest(s0, s, t, h, url);
    var ans := Granted(sub.actual, timeout);
    SubMoves(s0, s, t, h, url, SubRequest, s.d, Free, Some(t), Answered(ans),
             Move(s.d, SubAnswered(ans), Keep, KeepMutex));
    SubMoves(s0, s, t, h, url, SubAnswered(ans), s.d, Free, Some(t), Plain,
             Move(s.d, SubLink(ans), TakeWrite, KeepMutex));
    SubMoves(s0, s, t, h, url, SubLink(ans), s.d, Write(t), Some(t), Uuid(sub.sid),
             Move(Link(s.d, h, sub), SubSchedule(sub.sid, timeout), Keep, KeepMutex));
  }

  /** A subscription for an infinite time goes through without a timer. */
  lemma SubscribesForever(s0: State, s: State, t: Tid, h: Handle, url: string, sub: Sub)
    requires Led(s0, s) && Idle(s) && t !in s.threads && h in s.d.clients
    requires sub.sid !in s.d.home && sub.url == url && sub.renewId == -1
    ensures Led(s0, With(s, t, Subscribing(h, url, SubDone(UPNP_E_SUCCESS, sub.sid)),
                         Link(s.d, h, sub).(unlimited := s.d.unlimited + {sub.sid}), Free, None))
  {
    hide Led;
    ToSchedule(s0, s, t, h, url, sub, INFINITE);
    var sid, d := sub.sid, Link(s.d, h, sub);
    var d' := d.(unlimited := s.d.unlimited + {sid});
    var rc := UPNP_E_SUCCESS;
    SubMoves(s0, s, t, h, url, SubSchedule(sid, INFINITE), d, Write(t), Some(t), Plain,
             Move(d', SubUnlock(rc, sid), Keep, KeepMutex));
    Unlocks(s0, s, t, h, url, d', rc, sid);
  }

  lemma Unlocks(s0: State, s: State, t: Tid, h: Handle, url: string, d: Data, rc: int, sid: string)
    requires Led(s0, With(s, t, Subscribing(h, url, SubUnlock(rc, sid)), d, Write(t), Some(t)))
    ensures Led(s0, With(s, t, Subscribing(h, url, SubDone(rc, sid)), d, Free, None))
  {
    hide Led;
    SubMoves(s0, s, t, h, url, SubUnlock(rc, sid), d, Write(t), Some(t), Plain,
             Move(d, SubUnlockMutex(rc, sid), DropWrite, KeepMutex));
    SubMoves(s0, s, t, h, url, SubUnlockMutex(rc, sid), d, Free, Some(t), Plain,
             Move(d, SubDone(rc, sid), Keep, DropMutex));
  }

  /** A subscription for a finite time goes through with its timer. */
  lemma SubscribesWithTimer(s0: State, s: State, t: Tid, h: Handle, sub: Sub) returns (e: State)
    requires Led(s0, s) && Idle(s) && t !in s.threads && h in s.d.clients
    requires sub.sid !in s.d.home && sub.renewId == -1
    ensures Led(s0, e) && Idle(e) && e.threads.Keys == s.threads.Keys + {t}
    ensures HasSub(e.d, h, sub.sid) && TimerFor(e.d, s.d.nextEvent, sub.sid)
  {
    hide Led, Link, Schedule, CopyEventId, With;
    ToSchedule(s0, s, t, h, sub.url, sub, 1800);
    var sid, url, rc := sub.sid, sub.url, UPNP_E_SUCCESS;
    var d := Link(s.d, h, sub);
    var d1 := Schedule(d, h, sid);
    LinkedAndScheduled(s.d, h, sub);
    SubMoves(s0, s, t, h, url, SubSchedule(sid, 1800), d, Write(t), Some(t), Plain,
             Move(d1, SubCopyId(sid, d.nextArg), Keep, KeepMutex));
    var d2 := CopyEventId(d1, h, sid, d.nextArg);
    SubMoves(s0, s, t, h, url, SubCopyId(sid, d.nextArg), d1, Write(t), Some(t), Plain,
             Move(d2, SubUnlock(rc, sid), Keep, KeepMutex));
    Unlocks(s0, s, t, h, url, d2, rc, sid);
    e := With(s, t, Subscribing(h, url, SubDone(rc, sid)), d2, Free, None);
    WithIs(s, t, Subscribing(h, url, SubDone(rc, sid)), d2);
  }

  lemma WithIs(s: State, t: Tid, th: Thread, d: Data)
    ensures var e := With(s, t, th, d, Free, None);
            Idle(e) && e.d == d && e.threads.Keys == s.threads.Keys + {t}
  {
  }

  lemma LinkedAndScheduled(d: Data, h: Handle, sub: Sub)
    requires h in d.clients
    ensures var d1 := Schedule(Link(d, h, sub), h, sub.sid);
            var a := Link(d, h, sub).nextArg;
            && a in d1.args && HasSub(CopyEventId(d1, h, sub.sid, a), h, sub.sid)
            && TimerFor(CopyEventId(d1, h, sub.sid, a), d.nextEvent, sub.sid)
  {
    var d1 := Schedule(Link(d, h, sub), h, sub.sid);
    assert d1.clients[h][0] == sub;
    RecordedKeepsTimer(d1, h, sub.sid, Link(d, h, sub).nextArg);
    hide CopyEventId;
  }

  /** A state with a listed subscription, its timer pending and both locks free is reachable. */
  lemma SubscribedReachable(h: Handle, sub: Sub) returns (e: State, id: int)
    requires 1 <= h < NUM_HANDLE && sub.renewId == -1
    ensures Reachable(e) && Idle(e) && HasSub(e.d, h, sub.sid) && TimerFor(e.d, id, sub.sid) && e.threads.Keys == {0}
  {
    var s := INITIAL.(d := NO_DATA.(clients := map[h := []]));
    LedRegistered(h);
    hide Led;
    e := SubscribesWithTimer(INITIAL, s, 0, h, sub);
    id := 0;
    LedLeads(INITIAL, e);
  }

  /** Whenever client h can subscribe, the thread pool can refuse the job of the event set for it; then
      the scheduler is left to read the event id out of an argument that has been freed. */
  lemma RefusedJobIsReadAfterFree(s: State, t: Tid, h: Handle, sub: Sub) returns (e: State)
    requires Reachable(s) && Idle(s) && t !in s.threads && h in s.d.clients
    requires sub.sid !in s.d.home && sub.renewId == -1
    ensures Leads(s, e) && t in e.threads && NewArg(e.threads[t]) == Some(s.d.nextArg)
    ensures s.d.nextArg !in e.d.args && e.d.freed[s.d.nextArg] == 1
  {
    LedFrom(s);
    ToSchedule(s, s, t, h, sub.url, sub, 1800);
    var d := Link(s.d, h, sub);
    var d' := Schedule(d, h, sub.sid);
    assert d.nextArg == s.d.nextArg && d.nextEvent == s.d.nextEvent;
    assert s.d.freed[s.d.nextArg] == 0 by {
      FreshArgUnfreed(s);
    }
    hide Led;
    SubMoves(s, s, t, h, sub.url, SubSchedule(sub.sid, 1800), d, Write(t), Some(t), Plain,
             Move(d', SubCopyId(sub.sid, d.nextArg), Keep, KeepMutex));
    var m := With(s, t, Subscribing(h, sub.url, SubCopyId(sub.sid, d.nextArg)), d', Write(t), Some(t));
    Extend(s, m, Drop(d.nextEvent));
    e := Apply(m, Drop(d.nextEvent));
    LedLeads(s, e);
  }

  lemma FreshArgUnfreed(s: State)
    requires Led(s, s)
    ensures s.d.freed[s.d.nextArg] == 0
  {
    assert ArgsOk(s.d);
  }

  /** Whenever client h can subscribe, the scheduling can fail; then genaSubscribe is left to delete a
      subscription that is still in the client's list. */
  lemma FailedScheduleDeletesLinked(s: State, t: Tid, h: Handle, sub: Sub) returns (e: State)
    requires Reachable(s) && Idle(s) && t !in s.threads && h in s.d.clients
    requires sub.sid !in s.d.home && sub.renewId == -1
    ensures Leads(s, e) && t in e.threads && AtLinkedDelete(e.threads[t])
    ensures e.threads[t].spc.sid == sub.sid && HasSub(e.d, h, sub.sid)
  {
    LedFrom(s);
    hide Led;
    ToSchedule(s, s, t, h, sub.url, sub, 1800);
    var d := Link(s.d, h, sub);
    var code := UPNP_E_OUTOF_MEMORY;
    SubMoves(s, s, t, h, sub.url, SubSchedule(sub.sid, 1800), d, Write(t), Some(t), ScheduleFailed(code, false),
             Move(ScheduleFails(d, false), SubFailed(sub.sid, code), Keep, KeepMutex));
    e := With(s, t, Subscribing(h, sub.url, SubFailed(sub.sid, code)), ScheduleFails(d, false), Write(t), Some(t));
    LedLeads(s, e);
    assert e.d.clients[h][0] == sub;
  }

  // ---------------------------------------------------------------- two renewals

  lemma RenMoves(s0: State, s: State, t: Tid, th: Thread, pc: RenPc, d: Data, hlock: RwLock, c: Choice,
                 e: Effect<RenPc>)
    requires th.Renewing? && Led(s0, With(s, t, th.(rpc := pc), d, hlock, s.slock))
    requires Permitted(d, th.(rpc := pc), c) && e == RenewStep(d, t, th.h, th.sid, th.job, pc, c) && e.cb.None?
    requires LockReady(hlock, e.hl) && e.sl.KeepMutex?
    ensures Led(s0, With(s, t, th.(rpc := e.pc), e.d, LockAfter(hlock, t, e.hl), s.slock))
  {
    hide Led, RenewStep;
    var m := With(s, t, th.(rpc := pc), d, hlock, s.slock);
    ExtendRen(s0, m, t, c, e);
    assert m.threads[t := th.(rpc := e.pc)] == s.threads[t := th.(rpc := e.pc)];
    assert s.log + [] == s.log;
  }

  /** A renewal that has just been called or fired takes over the subscription. */
  lemma ToRenewRequest(s0: State, s: State, t: Tid) returns (copy: Sub)
    requires Led(s0, s) && s.hlock.Free? && t in s.threads && s.threads[t].Renewing? && s.threads[t].rpc.RenStart?
    requires HasSub(s.d, s.threads[t].h, s.threads[t].sid)
    ensures var th := s.threads[t];
            var d := TakeTimer(s.d, th.h, th.sid);
            HasSub(d, th.h, th.sid) && Led(s0, With(s, t, th.(rpc := RenRequest(copy)), d, Free, s.slock))
  {
    hide Led;
    var th := s.threads[t];
    copy := SubOf(s.d, th.h, th.sid).(renewId := -1);
    LookerTakesOver(s.d, t, th.(rpc := RenCheck), Plain);
    assert With(s, t, th, s.d, Free, s.slock) == s by {
      assert s.threads[t := th] == s.threads;
    }
    RenMoves(s0, s, t, th, RenStart, s.d, Free, Plain, Move(s.d, RenCheck, TakeWrite, KeepMutex));
    RenMoves(s0, s, t, th, RenCheck, s.d, Write(t), Plain,
             Move(TakeTimer(s.d, th.h, th.sid), RenRequest(copy), DropWrite, KeepMutex));
  }

  /** A renewal whose request is granted under the old publisher SID sets a new timer. */
  lemma ToNewTimer(s0: State, s: State, t: Tid)
    requires Led(s0, s) && s.hlock.Free? && t in s.threads && s.threads[t].Renewing? && s.threads[t].rpc.RenRequest?
    requires HasSub(s.d, s.threads[t].h, s.threads[t].sid)
    ensures var th := s.threads[t];
            Led(s0, With(s, t, th.(rpc := RenCopyId(th.rpc.copy, s.d.nextArg)), Schedule(s.d, th.h, th.sid), Write(t),
                         s.slock))
  {
    hide Led;
    var th, copy := s.threads[t], s.threads[t].rpc.copy;
    var sub := SubOf(s.d, th.h, th.sid);
    var ans := Granted(sub.actual, 1800);
    assert With(s, t, th, s.d, Free, s.slock) == s by {
      assert s.threads[t := th] == s.threads;
    }
    assert ReplaceSub(s.d, th.h, th.sid, sub.(actual := sub.actual)) == s.d by {
      var list := s.d.clients[th.h];
      assert list[IndexOf(list, th.sid) := sub] == list;
      assert s.d.clients[th.h := list] == s.d.clients;
    }
    RenMoves(s0, s, t, th, RenRequest(copy), s.d, Free, Answered(ans),
             Move(s.d, RenAnswered(copy, ans), Keep, KeepMutex));
    RenMoves(s0, s, t, th, RenAnswered(copy, ans), s.d, Free, Plain,
             Move(s.d, RenApply(copy, ans), TakeWrite, KeepMutex));
    RenMoves(s0, s, t, th, RenApply(copy, ans), s.d, Write(t), Plain,
             Move(s.d, RenSchedule(copy, 1800), Keep, KeepMutex));
    RenMoves(s0, s, t, th, RenSchedule(copy, 1800), s.d, Write(t), Plain,
             Move(Schedule(s.d, th.h, th.sid), RenCopyId(copy, s.d.nextArg), Keep, KeepMutex));
  }

  lemma CopyHasNoTimer(s0: State, s: State, t: Tid)
    requires Led(s0, s) && t in s.threads && s.threads[t].Renewing? && s.threads[t].rpc.RenCopyId?
    ensures s.threads[t].rpc.copy.renewId == -1
  {
    assert ThreadOk(s.d, s.threads[t]);
  }

  /** It then records the timer and lets go of the lock. */
  lemma ToRecorded(s0: State, s: State, t: Tid)
    requires Led(s0, s) && s.hlock == Write(t) && t in s.threads && s.threads[t].Renewing?
             && s.threads[t].rpc.RenCopyId?
    requires s.threads[t].rpc.arg in s.d.args
    ensures var th := s.threads[t];
            var d := CopyEventId(s.d, th.h, th.sid, th.rpc.arg);
            Led(s0, With(s, t, th.(rpc := AfterRenew(th.job, UPNP_E_SUCCESS)), d, Free, s.slock))
  {
    hide Led, CopyEventId, With, TakeTimer, Unlink, ReplaceSub, Schedule, ScheduleFails, FreeArg, SubOf, HasSid,
         Leads, SysInv;
    var th, copy := s.threads[t], s.threads[t].rpc.copy;
    CopyHasNoTimer(s0, s, t);
    Records(s0, s, t);
    var d := CopyEventId(s.d, th.h, th.sid, th.rpc.arg);
    RenMoves(s0, s, t, th, RenFreeCopy(copy, UPNP_E_SUCCESS), d, Write(t), Plain,
             Move(d, AfterRenew(th.job, UPNP_E_SUCCESS), DropWrite, KeepMutex));
  }

  lemma Records(s0: State, s: State, t: Tid)
    requires Led(s0, s) && s.hlock == Write(t) && t in s.threads && s.threads[t].Renewing?
             && s.threads[t].rpc.RenCopyId?
    requires s.threads[t].rpc.arg in s.d.args
    ensures var th := s.threads[t];
            var d := CopyEventId(s.d, th.h, th.sid, th.rpc.arg);
            Led(s0, With(s, t, th.(rpc := RenFreeCopy(th.rpc.copy, UPNP_E_SUCCESS)), d, Write(t), s.slock))
  {
    hide Led, CopyEventId;
    var th, copy := s.threads[t], s.threads[t].rpc.copy;
    var d := CopyEventId(s.d, th.h, th.sid, th.rpc.arg);
    assert With(s, t, th, s.d, Write(t), s.slock) == s by {
      assert s.threads[t := th] == s.threads;
    }
    RenMoves(s0, s, t, th, RenCopyId(copy, th.rpc.arg), s.d, Write(t), Plain,
             Move(d, RenFreeCopy(copy, UPNP_E_SUCCESS), Keep, KeepMutex));
  }

  /** Thread t renews the listed subscription sid of client h; it has not begun, or waits for its answer. */
  ghost predicate Renews(s: State, t: Tid, h: Handle, sid: string) {
    && t in s.threads && s.threads[t].Renewing? && s.threads[t].h == h && s.threads[t].sid == sid
    && (s.threads[t].rpc.RenStart? || s.threads[t].rpc.RenRequest?)
    && HasSub(s.d, h, sid)
  }

  lemma AsksPublisher(s0: State, s: State, t: Tid, u: Tid, h: Handle, sid: string) returns (e: State)
    requires Led(s0, s) && s.hlock.Free? && Renews(s, t, h, sid) && Renews(s, u, h, sid) && t != u
    ensures Led(s0, e) && e.hlock.Free? && Renews(e, t, h, sid) && Renews(e, u, h, sid)
    ensures e.threads[t].rpc.RenRequest? && e.threads[u] == s.threads[u]
  {
    if s.threads[t].rpc.RenRequest? {
      e := s;
    } else {
      var copy := ToRenewRequest(s0, s, t);
      hide Led, TakeTimer;
      e := With(s, t, s.threads[t].(rpc := RenRequest(copy)), TakeTimer(s.d, h, sid), Free, s.slock);
    }
  }

  /** The first of two renewals sets and records its timer; the second still waits. */
  lemma FirstFinishes(s0: State, s: State, t: Tid, u: Tid, h: Handle, sid: string) returns (e: State)
    requires Led(s0, s) && s.hlock.Free? && Renews(s, t, h, sid) && Renews(s, u, h, sid) && t != u
    requires s.threads[t].rpc.RenRequest?
    ensures Led(s0, e) && e.hlock.Free? && Renews(e, u, h, sid) && e.threads[u] == s.threads[u]
    ensures TimerFor(e.d, s.d.nextEvent, sid)
  {
    hide Led, CopyEventId, AfterRenew, HasSid, Leads, SysInv;
    ToNewTimer(s0, s, t);
    var th := s.threads[t];
    var d := Schedule(s.d, h, sid);
    var m := With(s, t, th.(rpc := RenCopyId(th.rpc.copy, s.d.nextArg)), d, Write(t), s.slock);
    ToRecorded(s0, m, t);
    RecordedKeepsTimer(d, h, sid, s.d.nextArg);
    e := With(m, t, m.threads[t].(rpc := AfterRenew(th.job, UPNP_E_SUCCESS)), CopyEventId(d, h, sid, s.d.nextArg),
              Free, s.slock);
  }

  lemma RecordedKeepsTimer(d: Data, h: Handle, sid: string, arg: ArgId)
    requires HasSub(d, h, sid) && arg in d.args
    ensures var e := CopyEventId(d, h, sid, arg);
            e.timers == d.timers && e.args == d.args && HasSub(e, h, sid)
  {
    var e := CopyEventId(d, h, sid, arg);
    assert e.clients[h][IndexOf(d.clients[h], sid)].sid == sid;
  }

  /** From every reachable state in which two renewals of one listed subscription have been called or
      fired, or wait for their answers, and the handle lock is free: both can be granted, and then two
      timers are pending for it. */
  lemma TwoRenewalsTwoTimers(s: State, t: Tid, u: Tid, h: Handle, sid: string) returns (e: State, a: int, b: int)
    requires Reachable(s) && s.hlock.Free? && t != u && Renews(s, t, h, sid) && Renews(s, u, h, sid)
    ensures Leads(s, e) && a != b && TimerFor(e.d, a, sid) && TimerFor(e.d, b, sid)
  {
    LedFrom(s);
    e, a, b := BothGranted(s, s, t, u, h, sid);
    LedLeads(s, e);
  }

  lemma BothGranted(s0: State, s: State, t: Tid, u: Tid, h: Handle, sid: string) returns (e: State, a: int, b: int)
    requires Led(s0, s) && s.hlock.Free? && t != u && Renews(s, t, h, sid) && Renews(s, u, h, sid)
    ensures Led(s0, e) && a != b && TimerFor(e.d, a, sid) && TimerFor(e.d, b, sid)
  {
    hide Led, TimerFor;
    var s1 := AsksPublisher(s0, s, t, u, h, sid);
    var s2 := AsksPublisher(s0, s1, u, t, h, sid);
    var s3 := FirstFinishes(s0, s2, t, u, h, sid);
    ToNewTimer(s0, s3, u);
    a, b := s2.d.nextEvent, s3.d.nextEvent;
    var th := s3.threads[u];
    e := With(s3, u, th.(rpc := RenCopyId(th.rpc.copy, s3.d.nextArg)), Schedule(s3.d, h, sid), Write(u), s3.slock);
    ScheduleKeepsTimer(s0, s3, h, sid, a);
  }

  lemma ScheduleKeepsTimer(s0: State, s: State, h: Handle, sid: string, id: int)
    requires Led(s0, s) && TimerFor(s.d, id, sid)
    ensures id != s.d.nextEvent && TimerFor(Schedule(s.d, h, sid), id, sid)
            && TimerFor(Schedule(s.d, h, sid), s.d.nextEvent, sid)
  {
    assert TimersOk(s.d);
  }

  /** In particular the application need only ask for two renewals of a listed subscription at once. */
  lemma TwoApplicationRenewals(s: State, t: Tid, u: Tid, h: Handle, sid: string) returns (e: State, a: int, b: int)
    requires Reachable(s) && s.hlock.Free? && t != u && t !in s.threads && u !in s.threads && HasSub(s.d, h, sid)
    ensures Leads(s, e) && a != b && TimerFor(e.d, a, sid) && TimerFor(e.d, b, sid)
  {
    LedFrom(s);
    hide Led;
    var th := Renewing(h, sid, None, RenStart);
    Extend(s, s, Start(t, th));
    var s1 := s.(threads := s.threads[t := th]);
    Extend(s, s1, Start(u, th));
    var s2 := s1.(threads := s1.threads[u := th]);
    e, a, b := BothGranted(s, s2, t, u, h, sid);
    LedLeads(s, e);
  }

  /** ... or for one while the timer of the subscription fires. */
  lemma RenewalRacesTimer(s: State, t: Tid, u: Tid, id: int, h: Handle, sid: string) returns (e: State, a: int, b: int)
    requires Reachable(s) && s.hlock.Free? && t != u && t !in s.threads && u !in s.threads
    requires HasSub(s.d, h, sid) && TimerFor(s.d, id, sid)
    ensures Leads(s, e) && a != b && TimerFor(e.d, a, sid) && TimerFor(e.d, b, sid)
  {
    LedFrom(s);
    var arg := s.d.args[s.d.timers[id]];
    assert arg.handle == h by {
      assert TimersOk(s.d);
      SidHasHome(s.d, h, sid);
    }
    hide Led, SysInv;
    var th := Renewing(h, sid, None, RenStart);
    Extend(s, s, Start(t, th));
    var s1 := s.(threads := s.threads[t := th]);
    Extend(s, s1, Fire(id, u));
    var s2 := Apply(s1, Fire(id, u));
    e, a, b := BothGranted(s, s2, t, u, h, sid);
    LedLeads(s, e);
  }

  // ---------------------------------------------------------------- an event for another subscription

  lemma NotMoves(s0: State, s: State, n: Tid, key: string, seqNo: int, pc: NotPc, hlock: RwLock, e: Effect<NotPc>)
    requires Led(s0, With(s, n, Notifying(key, seqNo, pc), s.d, hlock, s.slock)) && !pc.NotDone?
    requires e == NotifyStep(s.d, n, key, seqNo, pc) && e.d == s.d && e.cb.None?
    requires LockReady(hlock, e.hl) && e.sl.KeepMutex?
    ensures Led(s0, With(s, n, Notifying(key, seqNo, e.pc), s.d, LockAfter(hlock, n, e.hl), s.slock))
  {
    hide Led, NotifyStep;
    var m := With(s, n, Notifying(key, seqNo, pc), s.d, hlock, s.slock);
    ExtendNot(s0, m, n, e);
    assert m.threads[n := Notifying(key, seqNo, e.pc)] == s.threads[n := Notifying(key, seqNo, e.pc)];
    assert s.log + [] == s.log;
  }

  lemma OnlyClient(d: Data, h: Handle, k: Handle)
    requires d.clients.Keys == {h} && 1 <= k <= h < NUM_HANDLE
    ensures FirstClient(d, k) == h
    decreases h - k
  {
    if k < h {
      OnlyClient(d, h, k + 1);
    }
  }

  /** A NOTIFY is delivered to the only client under the first entry that its header is a prefix of. */
  lemma NotifyGoesToFirst(s0: State, s: State, n: Tid, h: Handle, key: string, seqNo: int) returns (e: State)
    requires Led(s0, s) && Idle(s) && n !in s.threads && s.d.clients.Keys == {h} && 1 <= h < NUM_HANDLE
    requires Found(s.d, h, key)
    ensures Led(s0, e) && e.d == s.d && e.log == s.log + [EventReceived(n, h, SubFor(s.d, h, key).sid)]
  {
    hide Led;
    var sid := SubFor(s.d, h, key).sid;
    OnlyClient(s.d, h, 1);
    hide FirstClient;
    Extend(s0, s, Start(n, Notifying(key, seqNo, NotStart)));
    NotMoves(s0, s, n, key, seqNo, NotStart, Free, Move(s.d, NotFirst, TakeWrite, KeepMutex));
    NotMoves(s0, s, n, key, seqNo, NotFirst, Write(n), Move(s.d, NotLoop(h, false), DropWrite, KeepMutex));
    NotMoves(s0, s, n, key, seqNo, NotLoop(h, false), Free, Move(s.d, NotLook(h, false), TakeWrite, KeepMutex));
    NotMoves(s0, s, n, key, seqNo, NotLook(h, false), Write(n), Move(s.d, NotCallback(h, sid), DropWrite, KeepMutex));
    var m := With(s, n, Notifying(key, seqNo, NotCallback(h, sid)), s.d, Free, s.slock);
    var f := Effect(s.d, NotLoop(h + 1, true), Keep, KeepMutex, Some(EventReceived(n, h, sid)));
    ExtendNot(s0, m, n, f);
    e := After(m, n, f.At(Notifying(key, seqNo, f.pc)));
  }

  /** Whenever the only client can subscribe, it can subscribe twice so that the SID of the first
      subscription is a proper prefix of that of the second; an event for the first is then delivered
      under the second. */
  lemma EventForAnother(s: State, t: Tid, u: Tid, n: Tid, h: Handle, first: Sub, second: Sub) returns (e: State)
    requires Reachable(s) && Idle(s) && s.d.clients.Keys == {h} && 1 <= h < NUM_HANDLE
    requires t !in s.threads && u !in s.threads && n !in s.threads && t != u && t != n && u != n
    requires first.sid !in s.d.home && second.sid !in s.d.home && first.sid != second.sid
    requires first.renewId == second.renewId == -1 && first.actual < second.actual
    ensures Leads(s, e) && HasSub(e.d, h, first.sid) && SubOf(e.d, h, first.sid) == first
    ensures HasSub(e.d, h, second.sid) && SubOf(e.d, h, second.sid) == second
    ensures e.log == s.log + [EventReceived(n, h, second.sid)]
  {
    LedFrom(s);
    hide Led;
    var s2 := SubscribesTwice(s, s, t, u, h, first, second);
    ListedBehind(s2.d.clients[h], first, second);
    e := NotifyGoesToFirst(s, s2, n, h, first.actual, 1);
    LedLeads(s, e);
  }

  lemma SubscribesTwice(s0: State, s: State, t: Tid, u: Tid, h: Handle, first: Sub, second: Sub) returns (e: State)
    requires Led(s0, s) && Idle(s) && h in s.d.clients && t !in s.threads && u !in s.threads && t != u
    requires first.sid !in s.d.home && second.sid !in s.d.home && first.sid != second.sid
    requires first.renewId == second.renewId == -1
    ensures Led(s0, e) && Idle(e) && e.log == s.log && e.threads.Keys == s.threads.Keys + {t, u}
    ensures e.d.clients == s.d.clients[h := [second, first] + s.d.clients[h]]
  {
    hide Led;
    SubscribesForever(s0, s, t, h, first.url, first);
    var s1 := With(s, t, Subscribing(h, first.url, SubDone(UPNP_E_SUCCESS, first.sid)),
                   Link(s.d, h, first).(unlimited := s.d.unlimited + {first.sid}), Free, None);
    SubscribesForever(s0, s1, u, h, second.url, second);
    e := With(s1, u, Subscribing(h, second.url, SubDone(UPNP_E_SUCCESS, second.sid)),
              Link(s1.d, h, second).(unlimited := s1.d.unlimited + {second.sid}), Free, None);
    assert [second] + ([first] + s.d.clients[h]) == [second, first] + s.d.clients[h];
  }

  lemma ListedBehind(list: seq<Sub>, first: Sub, second: Sub)
    requires |list| >= 2 && list[0] == second && list[1] == first
    requires first.sid != second.sid && first.actual < second.actual
    ensures IndexOfActual(list, first.actual) == 0 && IndexOf(list, second.sid) == 0 && IndexOf(list, first.sid) == 1
    ensures HasSid(list, first.sid) && HasSid(list, second.sid)
  {
    assert list[1..][0] == first;
  }

  // ---------------------------------------------------------------- unregistering alone

  lemma UnrMoves(s0: State, s: State, t: Tid, h: Handle, pc: UnrPc, d: Data, hlock: RwLock, c: Choice, e: Effect<UnrPc>)
    requires Led(s0, With(s, t, Unregistering(h, pc), d, hlock, s.slock))
    requires Permitted(d, Unregistering(h, pc), c) && e == UnregisterStep(d, h, pc, c) && e.cb.None?
    requires LockReady(hlock, e.hl) && e.sl.KeepMutex?
    ensures Led(s0, With(s, t, Unregistering(h, e.pc), e.d, LockAfter(hlock, t, e.hl), s.slock))
  {
    hide Led, UnregisterStep;
    var m := With(s, t, Unregistering(h, pc), d, hlock, s.slock);
    Extend(s0, m, Run(t, c));
    assert m.threads[t := Unregistering(h, e.pc)] == s.threads[t := Unregistering(h, e.pc)];
    assert s.log + [] == s.log;
  }

  /** One round of the loop: the first entry goes, its request is sent and its copy released. */
  lemma UnregisterRound(s0: State, s: State, t: Tid, h: Handle, d0: Data, d: Data, n: nat, code: int)
    requires Led(s0, With(s, t, Unregistering(h, UnrStart), d, Free, s.slock))
    requires GenaUnregister.Progress(d0, d, h, n) && h in d.clients && d.clients[h] != []
    ensures var e := Unlink(d, h, d.clients[h][0].sid);
            && Led(s0, With(s, t, Unregistering(h, UnrStart), e, Free, s.slock))
            && GenaUnregister.Progress(d0, e, h, n + 1) && h in e.clients && |e.clients[h]| < |d.clients[h]|
            && n < |d0.clients[h]| && d.clients[h][0] == d0.clients[h][n]
  {
    hide Led, With, Unlink, FreeSub, GenaUnregister.Progress;
    var head := d.clients[h][0];
    var e := Unlink(d, h, head.sid);
    GenaUnregister.ProgressStep(d0, d, h, n);
    ShorterByOne(d0, d, e, h, n);
    UnrMoves(s0, s, t, h, UnrStart, d, Free, Plain, Move(d, UnrTake, TakeWrite, KeepMutex));
    UnrMoves(s0, s, t, h, UnrTake, d, Write(t), Plain, Move(e, UnrRequest(head), DropWrite, KeepMutex));
    UnrMoves(s0, s, t, h, UnrRequest(head), e, Free, Replied(code), Move(e, UnrFreeCopy(head), Keep, KeepMutex));
    UnrMoves(s0, s, t, h, UnrFreeCopy(head), e, Free, Plain, Move(e, UnrStart, Keep, KeepMutex));
  }

  lemma ShorterByOne(d0: Data, d: Data, e: Data, h: Handle, n: nat)
    requires GenaUnregister.Progress(d0, d, h, n) && GenaUnregister.Progress(d0, e, h, n + 1)
    ensures h in d.clients && h in e.clients && |e.clients[h]| < |d.clients[h]|
  {
    hide DataInv, Evolves;
  }

  /** The rounds up to the empty list. */
  lemma {:induction false} UnregisterLoop(s0: State, s: State, t: Tid, h: Handle, d0: Data, d: Data, n: nat, code: int)
    returns (e: Data)
    requires Led(s0, With(s, t, Unregistering(h, UnrStart), d, Free, s.slock))
    requires GenaUnregister.Progress(d0, d, h, n) && h in d.clients
    ensures Led(s0, With(s, t, Unregistering(h, UnrWantFree), e, Free, s.slock))
    ensures h in e.clients && e.clients[h] == []
    ensures h in d0.clients && GenaUnregister.Progress(d0, e, h, |d0.clients[h]|)
    decreases |d.clients[h]|
  {
    hide Led, With, GenaUnregister.Progress, Unlink;
    if d.clients[h] != [] {
      UnregisterRound(s0, s, t, h, d0, d, n, code);
      e := UnregisterLoop(s0, s, t, h, d0, Unlink(d, h, d.clients[h][0].sid), n + 1, code);
    } else {
      e := d;
      GenaUnregister.ProgressEnd(d0, d, h, n);
      UnrMoves(s0, s, t, h, UnrStart, d, Free, Plain, Move(d, UnrTake, TakeWrite, KeepMutex));
      UnrMoves(s0, s, t, h, UnrTake, d, Write(t), Plain, Move(d, UnrWantFree, DropWrite, KeepMutex));
    }
  }

  /** A thread of genaUnregisterClient that runs alone, from any reachable state with the handle lock free,
      leaves exactly what the loop on its own leaves: an empty list, and of the timers all but those of the
      client's subscriptions. */
  lemma UnregistersAlone(s: State, t: Tid, h: Handle, code: int) returns (e: State)
    requires Reachable(s) && s.hlock.Free? && t !in s.threads && h in s.d.clients
    ensures Leads(s, e) && e.hlock.Free? && t in e.threads && e.threads[t] == Unregistering(h, UnrWantFree)
    ensures e.d.clients == s.d.clients[h := []]
    ensures forall id :: id in e.d.timers <==>
              id in s.d.timers && forall i :: 0 <= i < |s.d.clients[h]| ==> s.d.clients[h][i].renewId != id
  {
    LedFrom(s);
    var m := s.(threads := s.threads[t := Unregistering(h, UnrStart)]);
    assert m == With(s, t, Unregistering(h, UnrStart), s.d, Free, s.slock);
    GenaUnregister.ProgressStart(s.d, h);
    hide Led, GenaUnregister.Progress, SysInv;
    Extend(s, s, Start(t, Unregistering(h, UnrStart)));
    var d := UnregisterLoop(s, s, t, h, s.d, s.d, 0, code);
    e := With(s, t, Unregistering(h, UnrWantFree), d, Free, s.slock);
    LedLeads(s, e);
    GenaUnregister.ProgressEnd(s.d, d, h, |s.d.clients[h]|);
  }
}
