/** Renewal timers.  As long as no renewal looks at a subscription while another one of it is in
    flight, each subscription with a finite time has exactly one carrier of its next renewal: a
    pending timer or a thread on its way to set one. */
module GenaTimers {
  import opened Upnp
  import opened GenaModel
  import opened GenaLocks
  import opened GenaData
  import opened GenaInvariant
  import opened GenaSystem

  datatype Carrier = TimerCarrier(id: int) | ThreadCarrier(t: Tid)

  /** The SID for which a thread has still to set a timer: a job from its start, a renewal asked for
      by the application from the moment it has taken the timer. */
  function Carried(th: Thread): Option<string> {
    match th
    case Subscribing(_, _, pc) => if pc.SubSchedule? then Some(pc.sid) else None
    case Renewing(_, sid, job, pc) =>
      if (job.Some? && (pc.RenStart? || pc.RenCheck?))
         || pc.RenRequest? || pc.RenAnswered? || pc.RenApply? || pc.RenSchedule?
      then Some(sid) else None
    case _ => None
  }

  /** The thread is a renewal about to look at a listed subscription. */
  predicate LooksAt(d: Data, th: Thread) {
    th.Renewing? && th.rpc.RenCheck? && HasSub(d, th.h, th.sid)
  }

  /** The condition: a renewal that looks at a subscription finds no other one of it in flight. */
  ghost predicate Exclusive(s: State, l: Step) {
    l.Run? && l.t in s.threads && LooksAt(s.d, s.threads[l.t]) ==>
      forall u :: u in s.threads && u != l.t ==> Carried(s.threads[u]) != Some(s.threads[l.t].sid)
  }

  ghost predicate TimerFor(d: Data, id: int, sid: string) {
    id in d.timers && d.timers[id] in d.args && d.args[d.timers[id]].sid == sid
  }

  ghost predicate Carries(s: State, c: Carrier, sid: string) {
    match c
    case TimerCarrier(id) => TimerFor(s.d, id, sid)
    case ThreadCarrier(t) => t in s.threads && Carried(s.threads[t]) == Some(sid)
  }

  /** An unsubscribe that has already cancelled the timer and is about to remove the entry, or a
      subscribe whose timer could not be set. */
  ghost predicate Cancelled(s: State, t: Tid, sid: string) {
    t in s.threads && LeavesUncovered(s.threads[t], sid)
  }

  predicate LeavesUncovered(th: Thread, sid: string) {
    || (th.UnSubscribing? && th.sid == sid && (th.upc.UnsWantWrite? || th.upc.UnsRemove?))
    || (th.Subscribing? && th.spc.SubFailed? && th.spc.sid == sid)
  }

  ghost predicate InList(d: Data, h: Handle, i: int) {
    h in d.clients && 0 <= i < |d.clients[h]|
  }

  /** At most one carrier. */
  ghost predicate Unique(s: State) {
    forall sid, b, c :: Carries(s, b, sid) && Carries(s, c, sid) ==> b == c
  }

  /** A subscription of client h whose time is finite. */
  ghost predicate Finite(d: Data, h: Handle, sid: string) {
    HasSub(d, h, sid) && sid !in d.unlimited
  }

  /** At least one carrier, unless it has been cancelled. */
  ghost predicate IsCovered(s: State, sid: string) {
    (exists c :: Carries(s, c, sid)) || exists t :: Cancelled(s, t, sid)
  }

  /** A pending timer is the one recorded in the subscription, or its id is about to be. */
  ghost predicate IdsMatch(s: State) {
    forall h, i, id :: InList(s.d, h, i) && TimerFor(s.d, id, s.d.clients[h][i].sid) ==>
      s.d.clients[h][i].renewId == id || BeingRecorded(s, s.d.timers[id])
  }

  ghost predicate BeingRecorded(s: State, a: ArgId) {
    exists t :: Scheduling(s, t, a)
  }

  ghost predicate Scheduling(s: State, t: Tid, a: ArgId) {
    t in s.threads && NewArg(s.threads[t]) == Some(a)
  }

  ghost predicate TimerInv(s: State) {
    Unique(s) && IdsMatch(s)
  }

  // ---------------------------------------------------------------- one thread's step

  /** The subscription was there before, with the same recorded timer. */
  ghost predicate Kept(d: Data, h: Handle, sub: Sub) {
    && h in d.clients
    && exists j :: 0 <= j < |d.clients[h]| && d.clients[h][j].sid == sub.sid && d.clients[h][j].renewId == sub.renewId
  }

  /** ... or its record was changed by the thread that is renewing it, ... */
  ghost predicate Rewritten(d: Data, th: Thread, h: Handle, sub: Sub) {
    && HasSub(d, h, sub.sid)
    && ((LooksAt(d, th) && th.h == h && th.sid == sub.sid)
        || (NewArg(th).Some? && NewArg(th).value in d.args && d.args[NewArg(th).value].sid == sub.sid
            && sub.renewId == d.args[NewArg(th).value].eventId))
  }

  /** ... or it is new and its creator carries it. */
  ghost predicate Created(d: Data, next: Thread, sub: Sub) {
    sub.sid !in d.home && Carried(next) == Some(sub.sid)
  }

  /** The thread that has scheduled a timer records it. */
  ghost predicate Recorded(d: Data, th: Thread, sub: Sub) {
    NewArg(th).Some? && NewArg(th).value in d.args && d.args[NewArg(th).value].sid == sub.sid ==>
      sub.renewId == d.args[NewArg(th).value].eventId
  }

  ghost predicate ListsPass(d: Data, th: Thread, e: Effect<Thread>) {
    forall h, i :: InList(e.d, h, i) ==>
      && (Kept(d, h, e.d.clients[h][i]) || Rewritten(d, th, h, e.d.clients[h][i])
          || Created(d, e.pc, e.d.clients[h][i]))
      && Recorded(d, th, e.d.clients[h][i])
  }

  /** A renewal takes over a listed subscription and cancels the timer that it records. */
  ghost predicate TakesOver(d: Data, th: Thread, e: Effect<Thread>) {
    && LooksAt(d, th) && Carried(e.pc) == Some(th.sid)
    && SubOf(d, th.h, th.sid).renewId !in e.d.timers
  }

  /** How a step hands on the duty to renew. */
  ghost predicate DutyPasses(d: Data, th: Thread, e: Effect<Thread>) {
    && (Carried(e.pc).Some? ==> Carried(e.pc) == Carried(th) || Carried(e.pc).value !in d.home || TakesOver(d, th, e))
    && (LooksAt(d, th) ==> TakesOver(d, th, e))
    && (Carried(th).Some? && Carried(e.pc) != Carried(th) ==>
          || TimerFor(e.d, d.nextEvent, Carried(th).value)
          || Gone(e.d, Carried(th).value) || Carried(th).value in e.d.unlimited
          || LeavesUncovered(e.pc, Carried(th).value))
    && (forall id :: id in e.d.timers && id !in d.timers ==>
          && id == d.nextEvent && Carried(th).Some? && TimerFor(e.d, id, Carried(th).value) && Carried(e.pc).None?
          && NewArg(e.pc) == Some(e.d.timers[id]))
    && (forall id, sid :: TimerFor(d, id, sid) && id !in e.d.timers ==>
          Gone(e.d, sid) || LeavesUncovered(e.pc, sid) || Carried(e.pc) == Some(sid))
    && (forall sid :: sid in d.unlimited && sid !in e.d.unlimited ==> TimerFor(e.d, d.nextEvent, sid))
    && (forall sid :: LeavesUncovered(th, sid) ==> LeavesUncovered(e.pc, sid) || Gone(e.d, sid))
    && (NewArg(th).Some? ==> NewArg(e.pc).None?)
  }

  lemma SameListsKept(d: Data, e: Data)
    requires e.clients == d.clients
    ensures forall h, i :: InList(e, h, i) ==> Kept(d, h, e.clients[h][i])
  {
  }

  lemma UnlinkLists(d: Data, h: Handle, sid: string)
    ensures var e := Unlink(d, h, sid); forall k, i :: InList(e, k, i) ==> Kept(d, k, e.clients[k][i])
  {
    var e := Unlink(d, h, sid);
    forall k, i | InList(e, k, i) ensures Kept(d, k, e.clients[k][i]) {
      assert HasSub(d, h, sid) && k == h ==>
          e.clients[k][i] == d.clients[h][if i < IndexOf(d.clients[h], sid) then i else i + 1];
    }
  }

  lemma ReplaceLists(d: Data, h: Handle, sid: string, sub: Sub)
    requires HasSub(d, h, sid) && sub.sid == sid
    ensures var e := ReplaceSub(d, h, sid, sub);
            forall k, i :: InList(e, k, i) ==> Kept(d, k, e.clients[k][i]) || (k == h && e.clients[k][i] == sub)
  {
  }

  lemma SubscribingLists(d: Data, t: Tid, th: Thread, c: Choice)
    requires th.Subscribing? && Permitted(d, th, c) && DataInv(d) && ThreadOk(d, th)
    ensures ListsPass(d, th, ThreadStep(d, t, th, c))
  {
    assert ArgsOk(d);
    hide DataInv;
    var e := ThreadStep(d, t, th, c);
    if th.spc.SubLink? && th.spc.ans.Granted? && th.h in d.clients {
      forall h, i | InList(e.d, h, i)
        ensures Kept(d, h, e.d.clients[h][i]) || Created(d, e.pc, e.d.clients[h][i])
        ensures Recorded(d, th, e.d.clients[h][i])
      {
        assert h == th.h && i > 0 ==> e.d.clients[h][i] == d.clients[h][i - 1];
      }
    } else if th.spc.SubCopyId? {
      SidHasHome(d, th.h, th.spc.sid);
      CopyLists(d, th, th.h, th.spc.sid, th.spc.arg);
    } else {
      SameListsKept(d, e.d);
    }
  }

  lemma CopyLists(d: Data, th: Thread, h: Handle, sid: string, arg: ArgId)
    requires NewArg(th) == Some(arg) && arg in d.args && d.args[arg].sid == sid && HasSub(d, h, sid) && DataInv(d)
    ensures var e := CopyEventId(d, h, sid, arg);
            forall k, i :: InList(e, k, i) ==>
              && (Kept(d, k, e.clients[k][i]) || Rewritten(d, th, k, e.clients[k][i]))
              && Recorded(d, th, e.clients[k][i])
  {
    var e := CopyEventId(d, h, sid, arg);
    ReplaceLists(d, h, sid, SubOf(d, h, sid).(renewId := d.args[arg].eventId));
    SidHasHome(d, h, sid);
    forall k, i | InList(e, k, i) ensures Recorded(d, th, e.clients[k][i]) {
      assert ListOk(d, k);
    }
  }

  lemma RenewingLists(d: Data, t: Tid, th: Thread, c: Choice)
    requires th.Renewing? && Permitted(d, th, c) && DataInv(d) && ThreadOk(d, th)
    ensures ListsPass(d, th, ThreadStep(d, t, th, c))
  {
    hide DataInv, ListsPass, ThreadStep;
    match th.rpc
    case RenCheck => RenCheckLists(d, t, th, c);
    case RenApply(_, _) => RenApplyLists(d, t, th, c);
    case RenCopyId(_, _) => RenCopyIdLists(d, t, th, c);
    case _ => RenOtherLists(d, t, th, c);
  }

  lemma RenCheckLists(d: Data, t: Tid, th: Thread, c: Choice)
    requires th.Renewing? && th.rpc.RenCheck? && Permitted(d, th, c)
    ensures ListsPass(d, th, ThreadStep(d, t, th, c))
  {
    if HasSub(d, th.h, th.sid) {
      var sub := SubOf(d, th.h, th.sid);
      ReplaceLists(Cancel(d, sub.renewId), th.h, th.sid, sub.(renewId := -1));
    } else {
      SameListsKept(d, d);
    }
  }

  lemma RenApplyLists(d: Data, t: Tid, th: Thread, c: Choice)
    requires th.Renewing? && th.rpc.RenApply? && Permitted(d, th, c)
    ensures ListsPass(d, th, ThreadStep(d, t, th, c))
  {
    hide Unlink;
    var h, sid := th.h, th.sid;
    if h in d.clients && th.rpc.ans.Refused? {
      UnlinkLists(d, h, sid);
    } else if HasSub(d, h, sid) {
      ReplaceLists(d, h, sid, SubOf(d, h, sid).(actual := th.rpc.ans.actual));
      assert Kept(d, h, SubOf(d, h, sid).(actual := th.rpc.ans.actual));
    } else {
      SameListsKept(d, d);
    }
  }

  lemma RenCopyIdLists(d: Data, t: Tid, th: Thread, c: Choice)
    requires th.Renewing? && th.rpc.RenCopyId? && Permitted(d, th, c) && DataInv(d) && ThreadOk(d, th)
    ensures ListsPass(d, th, ThreadStep(d, t, th, c))
  {
    assert ArgsOk(d);
    hide DataInv;
    CopyLists(d, th, th.h, th.sid, th.rpc.arg);
  }

  lemma RenOtherLists(d: Data, t: Tid, th: Thread, c: Choice)
    requires th.Renewing? && !th.rpc.RenCheck? && !th.rpc.RenApply? && !th.rpc.RenCopyId? && Permitted(d, th, c)
    ensures ListsPass(d, th, ThreadStep(d, t, th, c))
  {
    hide Unlink;
    if th.rpc.RenSchedule? && c.ScheduleFailed? {
      UnlinkLists(ScheduleFails(d, c.burnsId), th.h, th.sid);
    } else {
      SameListsKept(d, ThreadStep(d, t, th, c).d);
    }
  }

  lemma OtherLists(d: Data, t: Tid, th: Thread, c: Choice)
    requires !th.Subscribing? && !th.Renewing? && Permitted(d, th, c)
    ensures ListsPass(d, th, ThreadStep(d, t, th, c))
  {
    var e := ThreadStep(d, t, th, c);
    if th.UnSubscribing? && th.upc.UnsRemove? {
      UnlinkLists(d, th.h, th.sid);
    } else if th.Unregistering? && th.gpc.UnrTake? && th.h in d.clients && d.clients[th.h] != [] {
      UnlinkLists(d, th.h, d.clients[th.h][0].sid);
    } else if th.Unregistering? && th.gpc.UnrFree? {
      assert forall h, i :: InList(e.d, h, i) ==> InList(d, h, i) && e.d.clients[h][i] == d.clients[h][i];
    } else {
      SameListsKept(d, e.d);
    }
  }

  lemma ListsDo(d: Data, t: Tid, th: Thread, c: Choice)
    requires Permitted(d, th, c) && DataInv(d) && ThreadOk(d, th)
    ensures ListsPass(d, th, ThreadStep(d, t, th, c))
  {
    hide ListsPass, ThreadStep, DataInv, ThreadOk;
    match th
    case Subscribing(_, _, _) => SubscribingLists(d, t, th, c);
    case Renewing(_, _, _, _) => RenewingLists(d, t, th, c);
    case _ => OtherLists(d, t, th, c);
  }

  /** A removed timer belonged to the SID of the subscription that recorded it. */
  lemma CancelLoses(d: Data, sub: Sub)
    requires DataInv(d) && SubOk(d, sub)
    ensures var e := FreeSub(d, sub);
            && (forall id :: id in e.timers ==> id in d.timers)
            && (forall id, sid :: TimerFor(d, id, sid) && id !in e.timers ==> sid == sub.sid)
            && e.unlimited == d.unlimited
  {
  }

  lemma UnlinkLoses(d: Data, h: Handle, sid: string)
    requires DataInv(d)
    ensures var e := Unlink(d, h, sid);
            && (forall id :: id in e.timers ==> id in d.timers)
            && (forall id, s :: TimerFor(d, id, s) && id !in e.timers ==> s == sid && Gone(e, sid))
            && (sid in d.home && d.home[sid] == h ==> Gone(e, sid))
            && e.unlimited == d.unlimited
  {
    UnlinkKeeps(d, h, sid);
    if HasSub(d, h, sid) {
      SidHasHome(d, h, sid);
    }
  }

  lemma SubScheduleDuty(d: Data, t: Tid, th: Thread, c: Choice)
    requires th.Subscribing? && th.spc.SubSchedule? && Permitted(d, th, c) && TimersOk(d)
    ensures DutyPasses(d, th, ThreadStep(d, t, th, c))
  {
    hide Gone, SubOf;
  }

  lemma SubscribingDuty(d: Data, t: Tid, th: Thread, c: Choice)
    requires th.Subscribing? && !th.spc.SubSchedule? && Permitted(d, th, c)
    ensures DutyPasses(d, th, ThreadStep(d, t, th, c))
  {
    hide Gone, SubOf, Schedule, ScheduleFails;
  }

  lemma RenCheckDuty(d: Data, t: Tid, th: Thread, c: Choice)
    requires th.Renewing? && th.rpc.RenCheck?
    requires Permitted(d, th, c) && DataInv(d) && ThreadOk(d, th)
    ensures DutyPasses(d, th, ThreadStep(d, t, th, c))
  {
    if HasSub(d, th.h, th.sid) {
      SidHasHome(d, th.h, th.sid);
    }
    hide ThreadOk, ListOk;
  }

  lemma RenApplyDuty(d: Data, t: Tid, th: Thread, c: Choice)
    requires th.Renewing? && th.rpc.RenApply?
    requires Permitted(d, th, c) && DataInv(d) && ThreadOk(d, th)
    ensures DutyPasses(d, th, ThreadStep(d, t, th, c))
  {
    hide DataInv, Unlink, Schedule, ScheduleFails, TakeTimer, ArgReady;
    UnlinkLoses(d, th.h, th.sid);
  }

  lemma RenScheduleDuty(d: Data, t: Tid, th: Thread, c: Choice)
    requires th.Renewing? && th.rpc.RenSchedule? && c.Plain?
    requires Permitted(d, th, c) && DataInv(d)
    ensures DutyPasses(d, th, ThreadStep(d, t, th, c))
  {
    assert TimersOk(d);
    hide DataInv, Gone, Unlink, TakeTimer;
  }

  lemma RenScheduleFailsDuty(d: Data, t: Tid, th: Thread, c: Choice)
    requires th.Renewing? && th.rpc.RenSchedule? && c.ScheduleFailed?
    requires Permitted(d, th, c) && DataInv(d) && ThreadOk(d, th)
    ensures DutyPasses(d, th, ThreadStep(d, t, th, c))
  {
    hide DataInv, Unlink, Evolves;
    ScheduleFailsKeeps(d, c.burnsId);
    UnlinkLoses(ScheduleFails(d, c.burnsId), th.h, th.sid);
    assert forall id, s :: TimerFor(d, id, s) <==> TimerFor(ScheduleFails(d, c.burnsId), id, s);
  }

  lemma RenewingDuty(d: Data, t: Tid, th: Thread, c: Choice)
    requires th.Renewing? && !th.rpc.RenCheck? && !th.rpc.RenApply? && !th.rpc.RenSchedule?
    requires Permitted(d, th, c) && ThreadOk(d, th)
    ensures DutyPasses(d, th, ThreadStep(d, t, th, c))
  {
    hide Gone, SubOf, Schedule, ScheduleFails, TakeTimer, Unlink, ArgReady;
  }

  lemma UnSubscribingDuty(d: Data, t: Tid, th: Thread, c: Choice)
    requires th.UnSubscribing? && Permitted(d, th, c) && DataInv(d) && ThreadOk(d, th)
    ensures DutyPasses(d, th, ThreadStep(d, t, th, c))
  {
    hide DataInv, Unlink, FreeSub;
    if th.upc.UnsFreeCopy? {
      CancelLoses(d, th.upc.copy);
    } else if th.upc.UnsRemove? {
      UnlinkLoses(d, th.h, th.sid);
    }
  }

  lemma UnregisteringDuty(d: Data, t: Tid, th: Thread, c: Choice)
    requires th.Unregistering? && Permitted(d, th, c) && DataInv(d) && ThreadOk(d, th)
    ensures DutyPasses(d, th, ThreadStep(d, t, th, c))
  {
    hide DataInv, Unlink, FreeSub;
    if th.gpc.UnrFreeCopy? {
      CancelLoses(d, th.gpc.copy);
      FreedCopyStaysGone(d, th.gpc.copy);
    } else if th.gpc.UnrTake? && th.h in d.clients && d.clients[th.h] != [] {
      UnlinkLoses(d, th.h, d.clients[th.h][0].sid);
    }
  }

  lemma FreedCopyStaysGone(d: Data, copy: Sub)
    requires Gone(d, copy.sid)
    ensures Gone(FreeSub(d, copy), copy.sid)
  {
  }

  lemma NotifyingDuty(d: Data, t: Tid, th: Thread, c: Choice)
    requires th.Notifying? && Permitted(d, th, c)
    ensures DutyPasses(d, th, ThreadStep(d, t, th, c))
  {
  }

  lemma DutyDoes(d: Data, t: Tid, th: Thread, c: Choice)
    requires Permitted(d, th, c) && DataInv(d) && ThreadOk(d, th)
    ensures DutyPasses(d, th, ThreadStep(d, t, th, c))
  {
    assert TimersOk(d);
    hide DutyPasses, ThreadStep, DataInv, ThreadOk;
    match th
    case Subscribing(_, _, pc) =>
      if pc.SubSchedule? { SubScheduleDuty(d, t, th, c); } else { SubscribingDuty(d, t, th, c); }
    case Renewing(_, _, _, pc) =>
      if pc.RenCheck? { RenCheckDuty(d, t, th, c); }
      else if pc.RenApply? { RenApplyDuty(d, t, th, c); }
      else if pc.RenSchedule? && c.Plain? { RenScheduleDuty(d, t, th, c); }
      else if pc.RenSchedule? { RenScheduleFailsDuty(d, t, th, c); }
      else { RenewingDuty(d, t, th, c); }
    case UnSubscribing(_, _, _) => UnSubscribingDuty(d, t, th, c);
    case Unregistering(_, _) => UnregisteringDuty(d, t, th, c);
    case Notifying(_, _, _) => NotifyingDuty(d, t, th, c);
  }

  // ---------------------------------------------------------------- all threads

  /** Every SID that is carried has been issued. */
  lemma CarriedIsIssued(s: State, c: Carrier, sid: string)
    requires SysInv(s) && Carries(s, c, sid)
    ensures sid in s.d.home
  {
    match c
    case TimerCarrier(id) => assert TimersOk(s.d);
    case ThreadCarrier(t) =>
      assert ThreadOk(s.d, s.threads[t]);
      if s.threads[t].Subscribing? {
        SidHasHome(s.d, s.threads[t].h, sid);
      }
  }

  /** The carrier in the state before the step of t from which a carrier after it descends. */
  ghost function Ancestor(s: State, t: Tid, c: Carrier): Carrier {
    if c.TimerCarrier? && c.id !in s.d.timers then ThreadCarrier(t) else c
  }

  lemma CarrierDescends(s: State, t: Tid, e: Effect<Thread>, c: Carrier, sid: string)
    requires SysInv(s) && t in s.threads && DutyPasses(s.d, s.threads[t], e) && Evolves(s.d, e.d, Frees(s.threads[t]))
    requires Carries(After(s, t, e), c, sid) && sid in s.d.home
    requires !(TakesOver(s.d, s.threads[t], e) && sid == s.threads[t].sid)
    ensures Carries(s, Ancestor(s, t, c), sid)
  {
    assert TimersOk(s.d);
    hide DataInv, SysInv, Gone, SubOf;
  }

  /** After a renewal has taken over a subscription, it is its only carrier. */
  lemma TakenOver(s: State, t: Tid, e: Effect<Thread>, c: Carrier)
    requires SysInv(s) && IdsMatch(s) && t in s.threads && TakesOver(s.d, s.threads[t], e)
    requires DutyPasses(s.d, s.threads[t], e) && Evolves(s.d, e.d, Frees(s.threads[t]))
    requires forall u :: u in s.threads && u != t ==> Carried(s.threads[u]) != Some(s.threads[t].sid)
    requires Carries(After(s, t, e), c, s.threads[t].sid)
    ensures c == ThreadCarrier(t)
  {
    if c.TimerCarrier? {
      assert TimersOk(s.d) && c.id in s.d.timers && TimerFor(s.d, c.id, s.threads[t].sid);
      LookerFindsItsTimer(s, t, c.id);
      assert false;
    }
  }

  /** A pending timer of the subscription that a renewal looks at is the recorded one: a thread that
      has yet to record another would hold the write lock. */
  lemma LookerFindsItsTimer(s: State, t: Tid, id: int)
    requires SysInv(s) && IdsMatch(s) && t in s.threads && LooksAt(s.d, s.threads[t])
    requires TimerFor(s.d, id, s.threads[t].sid)
    ensures SubOf(s.d, s.threads[t].h, s.threads[t].sid).renewId == id
  {
    var h, sid := s.threads[t].h, s.threads[t].sid;
    var i := IndexOf(s.d.clients[h], sid);
    assert InList(s.d, h, i) && s.d.clients[h][i].sid == sid;
    assert s.hlock == Write(t);
  }

  lemma EffectKeepsUnique(s: State, t: Tid, e: Effect<Thread>)
    requires SysInv(s) && Unique(s) && IdsMatch(s) && t in s.threads
    requires DutyPasses(s.d, s.threads[t], e) && Keeps(s.d, s.threads[t], e)
    requires LooksAt(s.d, s.threads[t]) ==>
               forall u :: u in s.threads && u != t ==> Carried(s.threads[u]) != Some(s.threads[t].sid)
    ensures Unique(After(s, t, e))
  {
    var s' := After(s, t, e);
    forall sid, b, c | Carries(s', b, sid) && Carries(s', c, sid) ensures b == c {
      if TakesOver(s.d, s.threads[t], e) && sid == s.threads[t].sid {
        TakenOver(s, t, e, b);
        TakenOver(s, t, e, c);
      } else if sid in s.d.home {
        CarrierDescends(s, t, e, b, sid);
        CarrierDescends(s, t, e, c, sid);
        assert Ancestor(s, t, b) == Ancestor(s, t, c);
      } else {
        NewSidHasOneCarrier(s, t, e, b, sid);
        NewSidHasOneCarrier(s, t, e, c, sid);
      }
    }
  }

  lemma NewSidHasOneCarrier(s: State, t: Tid, e: Effect<Thread>, c: Carrier, sid: string)
    requires SysInv(s) && t in s.threads && sid !in s.d.home
    requires DutyPasses(s.d, s.threads[t], e) && Keeps(s.d, s.threads[t], e)
    requires Carries(After(s, t, e), c, sid)
    ensures c == ThreadCarrier(t)
  {
    match c
    case TimerCarrier(id) =>
      if id in s.d.timers {
        assert TimersOk(s.d);
        CarriedIsIssued(s, c, sid);
        assert false;
      } else {
        CarriedIsIssued(s, ThreadCarrier(t), sid);
        assert false;
      }
    case ThreadCarrier(u) =>
      if u != t {
        CarriedIsIssued(s, c, sid);
        assert false;
      }
  }

  /** A step of a thread leaves a finite subscription covered if it was, or is new or newly finite. */
  lemma EffectCovers(s: State, t: Tid, e: Effect<Thread>, h: Handle, sid: string)
    requires SysInv(s) && Unique(s) && t in s.threads && Finite(e.d, h, sid)
    requires DutyPasses(s.d, s.threads[t], e) && ListsPass(s.d, s.threads[t], e) && Keeps(s.d, s.threads[t], e)
    ensures IsCovered(After(s, t, e), sid) || (Finite(s.d, h, sid) && !IsCovered(s, sid))
  {
    var s' := After(s, t, e);
    var i := IndexOf(e.d.clients[h], sid);
    assert InList(e.d, h, i) && e.d.clients[h][i].sid == sid;
    ListedIsNotGone(e.d, h, i);
    assert TimersOk(s.d) && TimersOk(e.d);
    if Created(s.d, e.pc, e.d.clients[h][i]) {
      assert Carries(s', ThreadCarrier(t), sid);
    } else if sid in s.d.unlimited {
      assert Carries(s', TimerCarrier(s.d.nextEvent), sid);
    } else {
      ListedBefore(s.d, s.threads[t], h, e.d.clients[h][i]);
      hide SysInv, DataInv;
      if IsCovered(s, sid) {
        CoverCarriesOver(s, t, e, sid);
      }
    }
  }

  lemma ListedIsNotGone(d: Data, h: Handle, i: int)
    requires DataInv(d) && InList(d, h, i)
    ensures !Gone(d, d.clients[h][i].sid)
  {
    assert HasSid(d.clients[h], d.clients[h][i].sid);
    SidHasHome(d, h, d.clients[h][i].sid);
  }

  lemma ListedBefore(d: Data, th: Thread, h: Handle, sub: Sub)
    requires Kept(d, h, sub) || Rewritten(d, th, h, sub)
    ensures HasSub(d, h, sub.sid)
  {
  }

  lemma CoverCarriesOver(s: State, t: Tid, e: Effect<Thread>, sid: string)
    requires Unique(s) && t in s.threads && IsCovered(s, sid) && TimersOk(s.d) && TimersOk(e.d)
    requires DutyPasses(s.d, s.threads[t], e) && Evolves(s.d, e.d, Frees(s.threads[t]))
    requires !Gone(e.d, sid) && sid !in e.d.unlimited
    ensures IsCovered(After(s, t, e), sid)
  {
    hide Gone, LooksAt, TakesOver;
    var s' := After(s, t, e);
    assert Carried(s.threads[t]) == Some(sid) ==> Carries(s, ThreadCarrier(t), sid);
    if c :| Carries(s, c, sid) {
      if Carries(s', c, sid) {
      } else if LeavesUncovered(e.pc, sid) {
        assert Cancelled(s', t, sid);
      } else if Carried(e.pc) == Some(sid) {
        assert Carries(s', ThreadCarrier(t), sid);
      } else if c == ThreadCarrier(t) {
        assert Carries(s', TimerCarrier(s.d.nextEvent), sid);
      } else {
        assert false;
      }
    } else {
      var u :| Cancelled(s, u, sid);
      assert Cancelled(s', u, sid);
    }
  }

  /** The event of a freshly scheduled argument is the only carrier of its SID, pending or
      just fired; so any pending timer of that SID is that event. */
  lemma ScheduledIsTheTimer(s: State, t: Tid, id: int, a: ArgId)
    requires SysInv(s) && Unique(s) && Scheduling(s, t, a)
    requires a in s.d.args && TimerFor(s.d, id, s.d.args[a].sid)
    ensures s.d.timers[id] == a && s.d.args[a].eventId == id
  {
    var sid := s.d.args[a].sid;
    assert TimersOk(s.d);
    assert Carries(s, TimerCarrier(id), sid);
    if Pending(s.d, a) {
      assert Carries(s, TimerCarrier(s.d.args[a].eventId), sid);
    } else {
      var u :| Owns(s, u, a);
      OwnerCarries(s, t, u, a);
      assert false;
    }
  }

  /** The job of a freshly scheduled argument has not begun, so it still carries the SID. */
  lemma OwnerCarries(s: State, t: Tid, u: Tid, a: ArgId)
    requires SysInv(s) && Scheduling(s, t, a) && Owns(s, u, a)
    ensures a in s.d.args && Carries(s, ThreadCarrier(u), s.d.args[a].sid)
  {
    assert ThreadOk(s.d, s.threads[t]) && ThreadOk(s.d, s.threads[u]);
    assert t != u;
    assert ArgSafeFrom(s.d, a, s.threads[u]);
  }

  lemma EffectKeepsIds(s: State, t: Tid, e: Effect<Thread>)
    requires SysInv(s) && Unique(s) && IdsMatch(s) && t in s.threads
    requires DutyPasses(s.d, s.threads[t], e) && ListsPass(s.d, s.threads[t], e) && Keeps(s.d, s.threads[t], e)
    ensures IdsMatch(After(s, t, e))
  {
    var s' := After(s, t, e);
    forall h, i, id | InList(s'.d, h, i) && TimerFor(s'.d, id, s'.d.clients[h][i].sid)
      ensures s'.d.clients[h][i].renewId == id || BeingRecorded(s', s'.d.timers[id])
    {
      if id !in s.d.timers {
        assert Scheduling(s', t, s'.d.timers[id]);
      } else {
        OldTimerMatches(s, t, e, h, s'.d.clients[h][i], id);
      }
    }
  }

  lemma OldTimerMatches(s: State, t: Tid, e: Effect<Thread>, h: Handle, sub: Sub, id: int)
    requires SysInv(s) && Unique(s) && IdsMatch(s) && t in s.threads
    requires DutyPasses(s.d, s.threads[t], e) && Keeps(s.d, s.threads[t], e)
    requires Kept(s.d, h, sub) || Rewritten(s.d, s.threads[t], h, sub) || Created(s.d, e.pc, sub)
    requires Recorded(s.d, s.threads[t], sub) && id in s.d.timers && TimerFor(e.d, id, sub.sid)
    ensures sub.renewId == id || BeingRecorded(After(s, t, e), e.d.timers[id])
  {
    assert TimersOk(s.d) && TimersOk(e.d);
    assert TimerFor(s.d, id, sub.sid);
    var th := s.threads[t];
    assert Created(s.d, e.pc, sub) ==> false by {
      CarriedIsIssued(s, TimerCarrier(id), sub.sid);
    }
    hide DataInv, Gone, Keeps, DutyPasses, TimersOk;
    if NewArg(th).Some? && NewArg(th).value in s.d.args && s.d.args[NewArg(th).value].sid == sub.sid {
      hide SysInv;
      ScheduledIsTheTimer(s, t, id, NewArg(th).value);
    } else if Kept(s.d, h, sub) {
      KeptTimerMatches(s, t, e, h, sub, id);
    } else {
      assert TimerFor(e.d, id, sub.sid) && LooksAt(s.d, th) && th.sid == sub.sid;
      LookerFindsItsTimer(s, t, id);
      assert false;
    }
  }

  lemma KeptTimerMatches(s: State, t: Tid, e: Effect<Thread>, h: Handle, sub: Sub, id: int)
    requires IdsMatch(s) && t in s.threads && Kept(s.d, h, sub) && TimerFor(s.d, id, sub.sid)
    requires id in e.d.timers && e.d.timers[id] == s.d.timers[id]
    requires NewArg(s.threads[t]) == Some(s.d.timers[id]) ==> sub.renewId == id
    ensures sub.renewId == id || BeingRecorded(After(s, t, e), e.d.timers[id])
  {
    var j :| 0 <= j < |s.d.clients[h]| && s.d.clients[h][j].sid == sub.sid && s.d.clients[h][j].renewId == sub.renewId;
    assert InList(s.d, h, j);
    if sub.renewId != id {
      var u :| Scheduling(s, u, s.d.timers[id]);
      assert Scheduling(After(s, t, e), u, e.d.timers[id]);
    }
  }

  // ---------------------------------------------------------------- the other steps

  /** A timer that fires hands its duty to the job that it starts. */
  lemma FireKeepsTimers(s: State, id: int, t: Tid)
    requires TimerInv(s) && Enabled(s, Fire(id, t))
    ensures TimerInv(Apply(s, Fire(id, t)))
  {
    hide Unique, IdsMatch;
    FireKeepsUnique(s, id, t);
    FireKeepsIds(s, id, t);
  }

  lemma FireKeepsUnique(s: State, id: int, t: Tid)
    requires Enabled(s, Fire(id, t)) && Unique(s)
    ensures Unique(Apply(s, Fire(id, t)))
  {
    var s' := Apply(s, Fire(id, t));
    forall sid, b, c | Carries(s', b, sid) && Carries(s', c, sid) ensures b == c {
      assert Carries(s, if b == ThreadCarrier(t) then TimerCarrier(id) else b, sid);
      assert Carries(s, if c == ThreadCarrier(t) then TimerCarrier(id) else c, sid);
    }
  }

  lemma FireKeepsCover(s: State, id: int, t: Tid, sid: string)
    requires Enabled(s, Fire(id, t)) && IsCovered(s, sid)
    ensures IsCovered(Apply(s, Fire(id, t)), sid)
  {
    var s' := Apply(s, Fire(id, t));
    if c :| Carries(s, c, sid) {
      assert Carries(s', if c == TimerCarrier(id) then ThreadCarrier(t) else c, sid);
    } else {
      var u :| Cancelled(s, u, sid);
      assert Cancelled(s', u, sid);
    }
  }

  lemma FireKeepsIds(s: State, id: int, t: Tid)
    requires Enabled(s, Fire(id, t)) && IdsMatch(s)
    ensures IdsMatch(Apply(s, Fire(id, t)))
  {
    var s' := Apply(s, Fire(id, t));
    forall h, i, k | InList(s'.d, h, i) && TimerFor(s'.d, k, s'.d.clients[h][i].sid)
      ensures s'.d.clients[h][i].renewId == k || BeingRecorded(s', s'.d.timers[k])
    {
      assert InList(s.d, h, i) && TimerFor(s.d, k, s.d.clients[h][i].sid);
      if s'.d.clients[h][i].renewId != k {
        var u :| Scheduling(s, u, s.d.timers[k]);
        assert Scheduling(s', u, s'.d.timers[k]);
      }
    }
  }

  lemma QuietStepKeepsTimers(s: State, l: Step)
    requires TimerInv(s) && Enabled(s, l) && (l.Register? || l.Start?)
    ensures TimerInv(Apply(s, l))
  {
    var s' := Apply(s, l);
    QuietCarriers(s, l);
    assert forall t, a :: Scheduling(s, t, a) ==> Scheduling(s', t, a);
    forall h, i | InList(s'.d, h, i)
      ensures InList(s.d, h, i) && s'.d.clients[h][i] == s.d.clients[h][i]
    {
    }
    assert forall id, sid :: TimerFor(s'.d, id, sid) <==> TimerFor(s.d, id, sid);
  }

  lemma QuietCarriers(s: State, l: Step)
    requires Enabled(s, l) && (l.Register? || l.Start?)
    ensures forall c, sid :: Carries(Apply(s, l), c, sid) <==> Carries(s, c, sid)
    ensures forall t, sid :: Cancelled(s, t, sid) ==> Cancelled(Apply(s, l), t, sid)
  {
    assert l.Start? ==> Carried(l.th).None?;
  }

  /** A refused job takes a carrier away. */
  lemma DropKeepsTimers(s: State, id: int)
    requires SysInv(s) && TimerInv(s) && Enabled(s, Drop(id))
    ensures TimerInv(Apply(s, Drop(id)))
  {
    var s' := Apply(s, Drop(id));
    DropCarriers(s, id);
    hide SysInv;
    assert forall c, sid :: Carries(s', c, sid) ==> Carries(s, c, sid);
    forall h, i, k | InList(s'.d, h, i) && TimerFor(s'.d, k, s'.d.clients[h][i].sid)
      ensures s'.d.clients[h][i].renewId == k || BeingRecorded(s', s'.d.timers[k])
    {
      var sid := s.d.clients[h][i].sid;
      assert InList(s.d, h, i) && Carries(s', TimerCarrier(k), sid);
      if s'.d.clients[h][i].renewId != k {
        var u :| Scheduling(s, u, s.d.timers[k]);
        assert Scheduling(s', u, s'.d.timers[k]);
      }
    }
  }

  lemma DropCarriers(s: State, id: int)
    requires SysInv(s) && Enabled(s, Drop(id))
    ensures forall c, sid :: Carries(Apply(s, Drop(id)), c, sid) <==> Carries(s, c, sid) && c != TimerCarrier(id)
  {
    assert TimersOk(s.d);
    hide DataInv;
  }

  lemma StepKeepsTimers(s: State, l: Step)
    requires SysInv(s) && TimerInv(s) && Enabled(s, l) && Exclusive(s, l)
    ensures TimerInv(Apply(s, l))
  {
    match l
    case Fire(id, t) => FireKeepsTimers(s, id, t);
    case Drop(id) => DropKeepsTimers(s, id);
    case Run(t, c) =>
      var e := ThreadStep(s.d, t, s.threads[t], c);
      LocalKeeps(s.d, t, s.threads[t], c);
      ListsDo(s.d, t, s.threads[t], c);
      DutyDoes(s.d, t, s.threads[t], c);
      hide ThreadStep, Keeps, ListsPass, SysInv;
      EffectKeepsUnique(s, t, e);
      EffectKeepsIds(s, t, e);
    case _ => QuietStepKeepsTimers(s, l);
  }

  ghost predicate ExclusiveUpTo(ss: seq<State>, ls: seq<Step>, n: nat)
    requires n <= |ls| <= |ss|
  {
    forall i :: 0 <= i < n ==> Exclusive(ss[i], ls[i])
  }

  lemma {:induction false} RunKeepsTimers(ss: seq<State>, ls: seq<Step>, i: nat)
    requires IsRun(ss, ls) && i < |ss| && ExclusiveUpTo(ss, ls, i)
    ensures TimerInv(ss[i])
  {
    hide IsPath, Enabled, Apply, SysInv, Exclusive;
    if i > 0 {
      StepOf(ss, ls, i - 1);
      RunKeepsTimers(ss, ls, i - 1);
      RunKeepsInv(ss, ls, i - 1);
      StepKeepsTimers(ss[i - 1], ls[i - 1]);
    } else {
      NothingToCarry();
    }
  }

  lemma NothingToCarry()
    ensures TimerInv(INITIAL)
  {
  }

  /** At most one timer pending or renewal in flight for each listed subscription. */
  ghost predicate OneAtMost(s: State) {
    forall h, i, b, c ::
      InList(s.d, h, i) && Carries(s, b, s.d.clients[h][i].sid) && Carries(s, c, s.d.clients[h][i].sid) ==> b == c
  }

  /** In every run no subscription ever has two carriers if and only if no renewal, whoever asked for
      it, looks at a subscription while another one is in flight. */
  lemma OneAtMostIff(ss: seq<State>, ls: seq<Step>)
    requires IsRun(ss, ls)
    ensures (forall m :: 0 <= m < |ss| ==> OneAtMost(ss[m])) <==> ExclusiveUpTo(ss, ls, |ls|)
  {
    if ExclusiveUpTo(ss, ls, |ls|) {
      forall m | 0 <= m < |ss| ensures OneAtMost(ss[m]) {
        RunKeepsTimers(ss, ls, m);
      }
    } else {
      var i :| 0 <= i < |ls| && !Exclusive(ss[i], ls[i]);
      TwoInFlight(ss, ls, i);
      assert !OneAtMost(ss[i + 1]);
    }
  }

  lemma TwoInFlight(ss: seq<State>, ls: seq<Step>, i: nat)
    requires IsRun(ss, ls) && i < |ls| && !Exclusive(ss[i], ls[i])
    ensures !OneAtMost(ss[i + 1])
  {
    var s, s', t := ss[i], ss[i + 1], ls[i].t;
    var th := s.threads[t];
    var u :| u in s.threads && u != t && Carried(s.threads[u]) == Some(th.sid);
    LookerTakesOver(s.d, t, th, ls[i].c);
    hide ThreadStep, TakeTimer, Permitted;
    assert Carries(s', ThreadCarrier(t), th.sid) && Carries(s', ThreadCarrier(u), th.sid);
    assert InList(s'.d, th.h, IndexOf(s'.d.clients[th.h], th.sid));
  }

  lemma LookerTakesOver(d: Data, t: Tid, th: Thread, c: Choice)
    requires Permitted(d, th, c) && LooksAt(d, th)
    ensures var e := ThreadStep(d, t, th, c);
            && e.d == TakeTimer(d, th.h, th.sid) && Carried(e.pc) == Some(th.sid) && HasSub(e.d, th.h, th.sid)
  {
    var e := TakeTimer(d, th.h, th.sid);
    var i := IndexOf(d.clients[th.h], th.sid);
    assert e.clients[th.h][i].sid == th.sid;
  }

  /** Renewals that come only from the timer meet the condition of themselves. */
  lemma {:induction false} TimerOnlyIsExclusive(ss: seq<State>, ls: seq<Step>, n: nat)
    requires IsRun(ss, ls) && n <= |ls|
    requires forall i :: 0 <= i < |ls| ==> !(ls[i].Start? && ls[i].th.Renewing?)
    ensures ExclusiveUpTo(ss, ls, n)
  {
    hide IsPath, Enabled, Apply, Exclusive;
    if n > 0 {
      TimerOnlyIsExclusive(ss, ls, n - 1);
      RunKeepsTimers(ss, ls, n - 1);
      if ls[n - 1].Run? && ls[n - 1].t in ss[n - 1].threads && ss[n - 1].threads[ls[n - 1].t].Renewing? {
        RenewalsAreJobs(ss, ls, n - 1, ls[n - 1].t);
      }
      JobIsExclusive(ss[n - 1], ls[n - 1]);
    }
  }

  /** A job that looks is the carrier of its subscription. */
  lemma JobIsExclusive(s: State, l: Step)
    requires Unique(s)
    requires l.Run? && l.t in s.threads && s.threads[l.t].Renewing? ==> s.threads[l.t].job.Some?
    ensures Exclusive(s, l)
  {
    if l.Run? && l.t in s.threads && LooksAt(s.d, s.threads[l.t]) {
      var sid := s.threads[l.t].sid;
      assert Carries(s, ThreadCarrier(l.t), sid);
      forall u | u in s.threads && u != l.t ensures Carried(s.threads[u]) != Some(sid) {
        assert Carried(s.threads[u]) == Some(sid) ==> Carries(s, ThreadCarrier(u), sid);
      }
    }
  }

  lemma {:induction false} RenewalsAreJobs(ss: seq<State>, ls: seq<Step>, i: nat, t: Tid)
    requires IsRun(ss, ls) && i < |ss| && t in ss[i].threads && ss[i].threads[t].Renewing?
    requires forall i :: 0 <= i < |ls| ==> !(ls[i].Start? && ls[i].th.Renewing?)
    ensures ss[i].threads[t].job.Some?
  {
    hide IsPath, Enabled, Apply;
    if i > 0 {
      StepOf(ss, ls, i - 1);
      RenewerBefore(ss[i - 1], ls[i - 1], t);
      if t in ss[i - 1].threads {
        RenewalsAreJobs(ss, ls, i - 1, t);
      }
    }
  }

  lemma RenewerBefore(s: State, l: Step, t: Tid)
    requires Enabled(s, l) && t in Apply(s, l).threads && Apply(s, l).threads[t].Renewing?
    ensures t in s.threads ==> s.threads[t].Renewing? && Apply(s, l).threads[t].job == s.threads[t].job
    ensures t !in s.threads ==>
              (l.Start? && l.th == Apply(s, l).threads[t]) || (l.Fire? && Apply(s, l).threads[t].job.Some?)
  {
    hide SubscribeStep, RenewStep, UnSubscribeStep, UnregisterStep, NotifyStep, Permitted;
  }

  // ---------------------------------------------------------------- refused jobs

  /** The step is the refusal of the subscription's job. */
  ghost predicate Refuses(s: State, l: Step, sid: string) {
    l.Drop? && TimerFor(s.d, l.id, sid)
  }

  ghost predicate NoCarrier(s: State, sid: string) {
    forall c :: !Carries(s, c, sid)
  }

  /** Step m refused the job of the subscription, and nothing has carried its renewal since. */
  ghost predicate Stranded(ss: seq<State>, ls: seq<Step>, m: nat, k: nat, sid: string) {
    m < k < |ss| && m < |ls| && Refuses(ss[m], ls[m], sid) && forall p :: m < p <= k ==> NoCarrier(ss[p], sid)
  }

  /** What a step does to the cover of a finite subscription. */
  lemma StepCovers(s: State, l: Step, h: Handle, sid: string)
    requires SysInv(s) && Unique(s) && Enabled(s, l) && Finite(Apply(s, l).d, h, sid)
    ensures IsCovered(Apply(s, l), sid) || (Finite(s.d, h, sid) && (!IsCovered(s, sid) || Refuses(s, l, sid)))
  {
    var s' := Apply(s, l);
    match l
    case Run(t, c) =>
      var e := ThreadStep(s.d, t, s.threads[t], c);
      LocalKeeps(s.d, t, s.threads[t], c);
      ListsDo(s.d, t, s.threads[t], c);
      DutyDoes(s.d, t, s.threads[t], c);
      hide ThreadStep, Keeps, ListsPass, SysInv;
      EffectCovers(s, t, e, h, sid);
    case Fire(id, t) =>
      if IsCovered(s, sid) {
        FireKeepsCover(s, id, t, sid);
      }
    case Drop(id) =>
      DropCarriers(s, id);
      hide SysInv;
      if u :| Cancelled(s, u, sid) {
        assert Cancelled(s', u, sid);
      }
    case Register(k) =>
      QuietCarriers(s, l);
      hide SysInv, Carries;
    case Start(t, th) =>
      QuietCarriers(s, l);
      hide SysInv, Carries;
  }

  /** In a run that meets the condition a finite subscription always has a carrier or has been cancelled,
      unless the thread pool has refused its job and nothing has carried its renewal since. */
  lemma {:induction false} CoveredUnlessRefused(ss: seq<State>, ls: seq<Step>, k: nat, h: Handle, sid: string)
    requires IsRun(ss, ls) && k < |ss| && ExclusiveUpTo(ss, ls, k) && Finite(ss[k].d, h, sid)
    ensures IsCovered(ss[k], sid) || exists m :: Stranded(ss, ls, m, k, sid)
  {
    hide IsPath, Enabled, Apply, SysInv, Exclusive, TimerFor, Carries, Cancelled;
    if k > 0 && !IsCovered(ss[k], sid) {
      StepOf(ss, ls, k - 1);
      RunKeepsInv(ss, ls, k - 1);
      RunKeepsTimers(ss, ls, k - 1);
      StepCovers(ss[k - 1], ls[k - 1], h, sid);
      if Refuses(ss[k - 1], ls[k - 1], sid) {
        assert Stranded(ss, ls, k - 1, k, sid);
      } else {
        CoveredUnlessRefused(ss, ls, k - 1, h, sid);
        var m :| Stranded(ss, ls, m, k - 1, sid);
        assert Stranded(ss, ls, m, k, sid);
      }
    }
  }

  /** Without a carrier a subscription gets one only if a renewal looks at it. */
  lemma NoCarrierStays(s: State, l: Step, sid: string)
    requires SysInv(s) && Enabled(s, l) && NoCarrier(s, sid) && sid in s.d.home
    requires !LooksFor(s, l, sid)
    ensures NoCarrier(Apply(s, l), sid)
  {
    match l
    case Run(t, c) =>
      var e := ThreadStep(s.d, t, s.threads[t], c);
      LocalKeeps(s.d, t, s.threads[t], c);
      DutyDoes(s.d, t, s.threads[t], c);
      hide ThreadStep, SysInv;
      forall c | Carries(Apply(s, l), c, sid) ensures false {
        CarrierDescends(s, t, e, c, sid);
        assert false;
      }
    case Fire(id, t) =>
      assert !Carries(s, TimerCarrier(id), sid);
      hide SysInv;
      forall c ensures !Carries(Apply(s, l), c, sid) {
        assert !Carries(s, c, sid);
      }
    case Drop(id) => DropCarriers(s, id);
    case _ => QuietCarriers(s, l);
  }

  lemma RefusalTakesCarrier(s: State, l: Step, sid: string)
    requires SysInv(s) && Unique(s) && Enabled(s, l) && Refuses(s, l, sid)
    ensures NoCarrier(Apply(s, l), sid) && sid in Apply(s, l).d.home
  {
    DropCarriers(s, l.id);
    assert Carries(s, TimerCarrier(l.id), sid);
    CarriedIsIssued(s, TimerCarrier(l.id), sid);
    HomeStays(s, l, sid);
    hide SysInv, Apply;
  }

  /** Nobody has been told that the renewal of a listed subscription failed. */
  ghost predicate Untold(s: State, sid: string) {
    forall a :: 0 <= a < |s.log| && s.log[a].AutoRenewalFailed? ==> s.log[a].sid != sid
  }

  lemma ListedIsUntold(s: State, h: Handle, sid: string)
    requires SysInv(s) && HasSub(s.d, h, sid)
    ensures Untold(s, sid)
  {
    SidHasHome(s.d, h, sid);
    hide DataInv;
  }

  /** The step is a renewal's look at the subscription. */
  ghost predicate LooksFor(s: State, l: Step, sid: string) {
    l.Run? && l.t in s.threads && LooksAt(s.d, s.threads[l.t]) && s.threads[l.t].sid == sid
  }

  /** In a run that meets the condition a refused job leaves the subscription without any carrier until a
      renewal asked for by the application looks at it; as long as it is listed, nobody is told. */
  lemma {:induction false} RefusedStrands(ss: seq<State>, ls: seq<Step>, m: nat, k: nat, h: Handle, sid: string)
    requires IsRun(ss, ls) && m < k < |ss| && ExclusiveUpTo(ss, ls, m) && Refuses(ss[m], ls[m], sid)
    requires forall p :: m < p < k ==> !LooksFor(ss[p], ls[p], sid)
    ensures Stranded(ss, ls, m, k, sid) && sid in ss[k].d.home
    ensures HasSub(ss[k].d, h, sid) ==> Untold(ss[k], sid)
  {
    hide IsPath, SysInv, Enabled, Apply, NoCarrier, Exclusive, Untold, LooksFor, Refuses;
    StepOf(ss, ls, k - 1);
    RunKeepsInv(ss, ls, k - 1);
    RunKeepsInv(ss, ls, k);
    if k == m + 1 {
      RunKeepsTimers(ss, ls, m);
      RefusalTakesCarrier(ss[m], ls[m], sid);
    } else {
      RefusedStrands(ss, ls, m, k - 1, h, sid);
      NoCarrierStays(ss[k - 1], ls[k - 1], sid);
      HomeStays(ss[k - 1], ls[k - 1], sid);
    }
    if HasSub(ss[k].d, h, sid) {
      ListedIsUntold(ss[k], h, sid);
    }
  }

  lemma HomeStays(s: State, l: Step, sid: string)
    requires SysInv(s) && Enabled(s, l) && sid in s.d.home
    ensures sid in Apply(s, l).d.home
  {
    if l.Run? {
      LocalKeeps(s.d, l.t, s.threads[l.t], l.c);
    }
  }

  /** In every state of a run that meets the condition, for every subscription in a client's list:
      at most one timer is pending or renewal in flight for it; at least one, if its time is finite
      and neither an unsubscribe is about to remove it nor its subscribe or its job has failed; and a
      pending timer is the one the subscription records, except while its scheduler holds the write
      lock to record it. */
  lemma OneRenewalPerSubscription(ss: seq<State>, ls: seq<Step>, m: nat, h: Handle, i: int)
    requires IsRun(ss, ls) && m < |ss| && ExclusiveUpTo(ss, ls, m) && InList(ss[m].d, h, i)
    ensures var s, sub := ss[m], ss[m].d.clients[h][i];
            && (forall b, c :: Carries(s, b, sub.sid) && Carries(s, c, sub.sid) ==> b == c)
            && (sub.sid !in s.d.unlimited ==>
                  || (exists c :: Carries(s, c, sub.sid)) || (exists t :: Cancelled(s, t, sub.sid))
                  || exists k :: Stranded(ss, ls, k, m, sub.sid))
            && (forall id :: TimerFor(s.d, id, sub.sid) ==>
                  sub.renewId == id || exists t :: Scheduling(s, t, s.d.timers[id]) && s.hlock == Write(t))
  {
    RunKeepsTimers(ss, ls, m);
    RunKeepsInv(ss, ls, m);
    var s, sub := ss[m], ss[m].d.clients[h][i];
    assert HasSid(s.d.clients[h], sub.sid);
    if sub.sid !in s.d.unlimited {
      CoveredUnlessRefused(ss, ls, m, h, sub.sid);
    }
    forall id | TimerFor(s.d, id, sub.sid)
      ensures sub.renewId == id || exists t :: Scheduling(s, t, s.d.timers[id]) && s.hlock == Write(t)
    {
      if sub.renewId != id {
        var t :| Scheduling(s, t, s.d.timers[id]);
        assert HoldsWrite(s.threads[t]);
      }
    }
  }
}
