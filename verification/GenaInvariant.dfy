/** What each thread knows about the shared data at each of its program points, and that every step
    of its own keeps it. */
module GenaInvariant {
  import opened Upnp
  import opened GenaModel
  import opened GenaLocks
  import opened GenaData

  /** The scratch copy of a subscription that a thread works with. */
  function CopyOf(th: Thread): Option<Sub> {
    match th
    case Renewing(_, _, _, pc) =>
      if pc.RenRequest? || pc.RenAnswered? || pc.RenApply? || pc.RenSchedule? || pc.RenCopyId? || pc.RenFreeCopy?
      then Some(pc.copy) else None
    case UnSubscribing(_, _, pc) => if pc.UnsRequest? || pc.UnsFreeCopy? then Some(pc.copy) else None
    case Unregistering(_, pc) => if pc.UnrRequest? || pc.UnrFreeCopy? then Some(pc.copy) else None
    case _ => None
  }

  /** The argument that a running auto-renewal still owns. */
  function JobOf(th: Thread): Option<ArgId> {
    if th.Renewing? && !th.rpc.RenDone? then th.job else None
  }

  /** The argument that the thread's next step frees. */
  function Frees(th: Thread): Option<ArgId> {
    if th.Renewing? && th.rpc.JobFree? then th.job else None
  }

  /** A freshly scheduled argument, before its event id has been copied: nobody else knows
      that id yet.  The thread pool may have released it already. */
  ghost predicate ArgReady(d: Data, h: Handle, sid: string, arg: ArgId) {
    arg in d.dropped ||
    (&& arg in d.args && d.args[arg].handle == h && d.args[arg].sid == sid
     && (d.args[arg].eventId in d.timers ==> d.timers[d.args[arg].eventId] == arg)
     && forall k, i :: k in d.clients && 0 <= i < |d.clients[k]| ==>
          d.clients[k][i].renewId != d.args[arg].eventId)
  }

  predicate Reports(rc: int) {
    rc != UPNP_E_SUCCESS && rc != UPNP_E_INVALID_SID && rc != UPNP_E_INVALID_HANDLE
  }

  /** What a thread knows about the data at each of its program points. */
  ghost predicate ThreadOk(d: Data, th: Thread) {
    match th
    case Subscribing(h, _, pc) =>
      && (pc.SubSchedule? || pc.SubFailed? ==> HasSub(d, h, pc.sid))
      && (pc.SubCopyId? ==> HasSub(d, h, pc.sid) && ArgReady(d, h, pc.sid, pc.arg))
    case Renewing(h, sid, job, pc) =>
      && (JobOf(th).Some? ==>
            && job.value in d.args && d.args[job.value].eventId !in d.timers
            && d.args[job.value].handle == h && d.args[job.value].sid == sid)
      && (pc.JobWantRead? || pc.JobCheck? || pc.JobCallback? ==>
            job.Some? && sid in d.home && Gone(d, sid))
      && (pc.JobFree? ==> job.Some?)
      && (CopyOf(th).Some? ==> pc.copy.sid == sid && pc.copy.renewId == -1 && sid in d.home && d.home[sid] == h)
      && (pc.RenSchedule? ==> HasSub(d, h, sid))
      && (pc.RenCopyId? ==> HasSub(d, h, sid) && ArgReady(d, h, sid, pc.arg) && job != Some(pc.arg))
      && (pc.RenFreeCopy? && Reports(pc.rc) ==> Gone(d, sid))
      && ((pc.RenAnswered? || pc.RenApply?) && pc.ans.Refused? ==> pc.ans.code != UPNP_E_SUCCESS)
    case UnSubscribing(h, sid, pc) =>
      && (CopyOf(th).Some? ==> pc.copy.sid == sid && SubOk(d, pc.copy))
      && (CopyOf(th).Some? || pc.UnsWantWrite? || pc.UnsRemove? ==> sid in d.home && d.home[sid] == h)
    case Unregistering(h, pc) =>
      CopyOf(th).Some? ==> Gone(d, pc.copy.sid) && SubOk(d, pc.copy)
    case Notifying(_, _, _) => true
  }

  /** What a step of one thread gives to the others. */
  ghost predicate Keeps(d: Data, th: Thread, e: Effect<Thread>) {
    && DataInv(e.d) && ThreadOk(e.d, e.pc) && Evolves(d, e.d, Frees(th))
    && JobOf(e.pc) == (if Frees(th).Some? then None else JobOf(th))
    && (Frees(th).Some? ==> Frees(th).value !in e.d.args)
    && (CopyOf(e.pc).Some? ==>
          CopyOf(e.pc) == CopyOf(th) || CopyOf(e.pc).value.renewId == -1 || HoldsWrite(th))
    && (!HoldsWrite(th) ==> forall id :: id in d.timers && id !in e.d.timers ==>
          CopyOf(th).Some? && CopyOf(th).value.renewId == id)
    && (NewArg(e.pc).Some? ==>
          && HoldsWrite(th) && NewArg(e.pc).value == d.nextArg
          && d.nextArg in e.d.args && e.d.args[d.nextArg].eventId == d.nextEvent)
    && (e.cb.Some? && e.cb.value.AutoRenewalFailed? ==> Gone(e.d, e.cb.value.sid))
  }

  lemma EvolvesSelf(d: Data)
    ensures Evolves(d, d, None)
  {
  }

  lemma SubScheduleKeeps(d: Data, t: Tid, th: Thread, c: Choice)
    requires th.Subscribing? && th.spc.SubSchedule? && Permitted(d, th, c) && DataInv(d) && ThreadOk(d, th)
    ensures Keeps(d, th, ThreadStep(d, t, th, c))
  {
    hide DataInv, Evolves;
    var sid := th.spc.sid;
    SidHasHome(d, th.h, sid);
    ScheduleKeeps(d, th.h, sid);
    FreshIdUnknown(d, th.h, sid);
    GrantUnlimitedKeeps(d, sid);
    if c.ScheduleFailed? {
      ScheduleFailsKeeps(d, c.burnsId);
    }
  }

  lemma SubscribingKeeps(d: Data, t: Tid, th: Thread, c: Choice)
    requires th.Subscribing? && !th.spc.SubSchedule? && Permitted(d, th, c) && DataInv(d) && ThreadOk(d, th)
    ensures Keeps(d, th, ThreadStep(d, t, th, c))
  {
    hide DataInv, Evolves;
    var h, pc := th.h, th.spc;
    EvolvesSelf(d);
    if pc.SubLink? && pc.ans.Granted? && h in d.clients {
      LinkKeeps(d, h, Sub(c.sid, pc.ans.actual, th.url, -1));
    } else if pc.SubCopyId? {
      CopyIdKeeps(d, h, pc.sid, pc.arg);
    }
  }

  lemma SidHasHome(d: Data, h: Handle, sid: string)
    requires DataInv(d) && HasSub(d, h, sid)
    ensures sid in d.home && d.home[sid] == h && SubOk(d, SubOf(d, h, sid)) && !Gone(d, sid)
  {
    assert ListOk(d, h);
  }

  lemma GrantUnlimitedKeeps(d: Data, sid: string)
    requires DataInv(d)
    ensures var e := d.(unlimited := d.unlimited + {sid}); DataInv(e) && Evolves(d, e, None)
  {
    var e := d.(unlimited := d.unlimited + {sid});
    assert forall s :: Gone(d, s) <==> Gone(e, s);
    forall k | k in e.clients ensures ListOk(e, k) {
      assert ListOk(d, k);
    }
  }

  lemma FreshIdUnknown(d: Data, h: Handle, sid: string)
    requires DataInv(d)
    ensures ArgReady(Schedule(d, h, sid), h, sid, d.nextArg)
  {
    forall k, i | k in d.clients && 0 <= i < |d.clients[k]|
      ensures d.clients[k][i].renewId != d.nextEvent
    {
      assert ListOk(d, k);
    }
  }

  lemma CopyIdKeeps(d: Data, h: Handle, sid: string, arg: ArgId)
    requires DataInv(d) && HasSub(d, h, sid) && arg in d.args && ArgReady(d, h, sid, arg)
    ensures DataInv(CopyEventId(d, h, sid, arg)) && Evolves(d, CopyEventId(d, h, sid, arg), None)
  {
    ReplaceKeeps(d, h, sid, SubOf(d, h, sid).(renewId := d.args[arg].eventId));
  }

  lemma TakeTimerKeeps(d: Data, h: Handle, sid: string)
    requires DataInv(d) && HasSub(d, h, sid)
    ensures DataInv(TakeTimer(d, h, sid)) && Evolves(d, TakeTimer(d, h, sid), None)
  {
    var sub := SubOf(d, h, sid);
    CancelKeeps(d, sub.renewId);
    ReplaceKeeps(Cancel(d, sub.renewId), h, sid, sub.(renewId := -1));
    EvolvesTwice(d, Cancel(d, sub.renewId), TakeTimer(d, h, sid));
  }

  lemma RenCheckKeeps(d: Data, t: Tid, th: Thread, c: Choice)
    requires th.Renewing? && th.rpc.RenCheck? && Permitted(d, th, c) && DataInv(d) && ThreadOk(d, th)
    ensures Keeps(d, th, ThreadStep(d, t, th, c))
  {
    hide DataInv, Evolves;
    EvolvesSelf(d);
    if HasSub(d, th.h, th.sid) {
      SidHasHome(d, th.h, th.sid);
      TakeTimerKeeps(d, th.h, th.sid);
      JobSurvives(d, TakeTimer(d, th.h, th.sid), th);
    }
  }

  lemma RenApplyKeeps(d: Data, t: Tid, th: Thread, c: Choice)
    requires th.Renewing? && th.rpc.RenApply? && Permitted(d, th, c) && DataInv(d) && ThreadOk(d, th)
    ensures Keeps(d, th, ThreadStep(d, t, th, c))
  {
    hide DataInv, Evolves;
    EvolvesSelf(d);
    if th.h in d.clients && th.rpc.ans.Refused? {
      UnlinkKeeps(d, th.h, th.sid);
      JobSurvives(d, Unlink(d, th.h, th.sid), th);
    } else if HasSub(d, th.h, th.sid) {
      SidHasHome(d, th.h, th.sid);
      ReplaceKeeps(d, th.h, th.sid, SubOf(d, th.h, th.sid).(actual := th.rpc.ans.actual));
    }
  }

  lemma RenScheduleFailsKeeps(d: Data, t: Tid, th: Thread, c: Choice)
    requires th.Renewing? && th.rpc.RenSchedule? && c.ScheduleFailed? && Permitted(d, th, c) && DataInv(d)
             && ThreadOk(d, th)
    ensures Keeps(d, th, ThreadStep(d, t, th, c))
  {
    hide DataInv, Evolves;
    FailedUnlinkKeeps(d, c.burnsId, th.h, th.sid);
    JobSurvives(d, Unlink(ScheduleFails(d, c.burnsId), th.h, th.sid), th);
  }

  lemma FailedUnlinkKeeps(d: Data, burnsId: bool, h: Handle, sid: string)
    requires DataInv(d) && sid in d.home && d.home[sid] == h
    ensures var f := Unlink(ScheduleFails(d, burnsId), h, sid);
            DataInv(f) && Evolves(d, f, None) && Gone(f, sid)
  {
    hide DataInv, Evolves;
    var e := ScheduleFails(d, burnsId);
    ScheduleFailsKeeps(d, burnsId);
    UnlinkKeeps(e, h, sid);
    EvolvesTwice(d, e, Unlink(e, h, sid));
  }

  lemma RenScheduleKeeps(d: Data, t: Tid, th: Thread, c: Choice)
    requires th.Renewing? && th.rpc.RenSchedule? && c.Plain? && Permitted(d, th, c) && DataInv(d) && ThreadOk(d, th)
    ensures Keeps(d, th, ThreadStep(d, t, th, c))
  {
    hide DataInv, Evolves, Unlink, Gone;
    GrantUnlimitedKeeps(d, th.sid);
    ScheduleKeeps(d, th.h, th.sid);
    FreshIdUnknown(d, th.h, th.sid);
    JobSurvives(d, Schedule(d, th.h, th.sid), th);
  }

  /** A running job keeps its argument through every change that is not its own release. */
  lemma JobSurvives(d: Data, e: Data, th: Thread)
    requires th.Renewing? && DataInv(d) && ThreadOk(d, th) && Evolves(d, e, None)
    ensures JobOf(th).Some? ==>
              && th.job.value in e.args && e.args[th.job.value] == d.args[th.job.value]
              && e.args[th.job.value].eventId !in e.timers
  {
  }

  lemma RenCopyIdKeeps(d: Data, t: Tid, th: Thread, c: Choice)
    requires th.Renewing? && th.rpc.RenCopyId? && Permitted(d, th, c) && DataInv(d) && ThreadOk(d, th)
    ensures Keeps(d, th, ThreadStep(d, t, th, c))
  {
    CopyIdKeeps(d, th.h, th.sid, th.rpc.arg);
    hide DataInv, Evolves;
  }

  lemma JobFreeKeeps(d: Data, t: Tid, th: Thread, c: Choice)
    requires th.Renewing? && th.rpc.JobFree? && Permitted(d, th, c) && DataInv(d) && ThreadOk(d, th)
    ensures Keeps(d, th, ThreadStep(d, t, th, c))
  {
    FreeArgKeeps(d, th.job.value);
    hide DataInv, Evolves;
  }

  lemma RenControlKeeps(d: Data, t: Tid, th: Thread, c: Choice)
    requires th.Renewing? && (th.rpc.RenStart? || th.rpc.RenRequest? || th.rpc.RenAnswered?
      || th.rpc.RenFreeCopy? || th.rpc.JobWantRead? || th.rpc.JobCheck? || th.rpc.JobCallback?)
    requires Permitted(d, th, c) && DataInv(d) && ThreadOk(d, th)
    ensures Keeps(d, th, ThreadStep(d, t, th, c))
  {
    EvolvesSelf(d);
    hide DataInv, Evolves;
  }

  lemma RenewingKeeps(d: Data, t: Tid, th: Thread, c: Choice)
    requires th.Renewing? && Permitted(d, th, c) && DataInv(d) && ThreadOk(d, th)
    ensures Keeps(d, th, ThreadStep(d, t, th, c))
  {
    hide Keeps, DataInv, ThreadOk, ThreadStep;
    match th.rpc
    case RenCheck => RenCheckKeeps(d, t, th, c);
    case RenApply(_, _) => RenApplyKeeps(d, t, th, c);
    case RenSchedule(_, _) =>
      if c.Plain? { RenScheduleKeeps(d, t, th, c); } else { RenScheduleFailsKeeps(d, t, th, c); }
    case RenCopyId(_, _) => RenCopyIdKeeps(d, t, th, c);
    case JobFree(_) => JobFreeKeeps(d, t, th, c);
    case _ => RenControlKeeps(d, t, th, c);
  }

  lemma UnSubscribingKeeps(d: Data, t: Tid, th: Thread, c: Choice)
    requires th.UnSubscribing? && Permitted(d, th, c) && DataInv(d) && ThreadOk(d, th)
    ensures Keeps(d, th, ThreadStep(d, t, th, c))
  {
    hide DataInv, Evolves, Unlink, Gone;
    var h, sid, pc := th.h, th.sid, th.upc;
    EvolvesSelf(d);
    if pc.UnsCheck? && HasSub(d, h, sid) {
      SidHasHome(d, h, sid);
    } else if pc.UnsFreeCopy? {
      CancelKeeps(d, pc.copy.renewId);
    } else if pc.UnsRemove? {
      UnlinkKeeps(d, h, sid);
    }
  }

  lemma UnregisteringKeeps(d: Data, t: Tid, th: Thread, c: Choice)
    requires th.Unregistering? && Permitted(d, th, c) && DataInv(d) && ThreadOk(d, th)
    ensures Keeps(d, th, ThreadStep(d, t, th, c))
  {
    hide DataInv, Evolves, Unlink, Gone;
    var h, pc := th.h, th.gpc;
    EvolvesSelf(d);
    if pc.UnrTake? && h in d.clients && d.clients[h] != [] {
      var head := d.clients[h][0];
      assert HasSid(d.clients[h], head.sid);
      SidHasHome(d, h, head.sid);
      UnlinkKeeps(d, h, head.sid);
      SubStaysOk(d, Unlink(d, h, head.sid), head, None);
    } else if pc.UnrFreeCopy? {
      CancelKeeps(d, pc.copy.renewId);
    } else if pc.UnrFree? {
      FreeHandleKeeps(d, h);
    }
  }

  lemma FreeHandleKeeps(d: Data, h: Handle)
    requires DataInv(d)
    ensures var e := d.(clients := d.clients - {h}); DataInv(e) && Evolves(d, e, None)
  {
    var e := d.(clients := d.clients - {h});
    assert forall s :: Gone(d, s) ==> Gone(e, s);
    forall k | k in e.clients ensures ListOk(e, k) {
      assert ListOk(d, k);
    }
  }

  lemma SubStaysOk(d: Data, e: Data, sub: Sub, mine: Option<ArgId>)
    requires DataInv(d) && DataInv(e) && Evolves(d, e, mine) && SubOk(d, sub)
    ensures SubOk(e, sub)
  {
  }

  lemma LocalKeeps(d: Data, t: Tid, th: Thread, c: Choice)
    requires Permitted(d, th, c) && DataInv(d) && ThreadOk(d, th)
    ensures Keeps(d, th, ThreadStep(d, t, th, c))
  {
    EvolvesSelf(d);
    assert th.Notifying? ==> Keeps(d, th, ThreadStep(d, t, th, c));
    hide Keeps, DataInv, ThreadOk, ThreadStep, Evolves;
    match th
    case Subscribing(_, _, pc) =>
      if pc.SubSchedule? { SubScheduleKeeps(d, t, th, c); } else { SubscribingKeeps(d, t, th, c); }
    case Renewing(_, _, _, _) => RenewingKeeps(d, t, th, c);
    case UnSubscribing(_, _, _) => UnSubscribingKeeps(d, t, th, c);
    case Unregistering(_, _) => UnregisteringKeeps(d, t, th, c);
    case Notifying(_, _, _) =>
  }
}
