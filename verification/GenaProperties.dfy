/** Properties of whole runs: life of the renewal arguments, finality of removals, and
    delivery of events. */
module GenaProperties {
  import opened Upnp
  import opened GenaModel
  import opened GenaLocks
  import opened GenaData
  import opened GenaInvariant
  import opened GenaSystem

  // ---------------------------------------------------------------- renewal arguments

  /** A renewal argument is never freed twice.  It is unfreed exactly as long as its timer is
      pending or its job is running, never both; so it has been freed exactly once as soon as
      the job has finished or the timer was removed. */
  lemma ArgumentsFreedOnce(ss: seq<State>, ls: seq<Step>, i: nat, a: ArgId)
    requires IsRun(ss, ls) && i < |ss| && a < ss[i].d.nextArg
    ensures ss[i].d.freed[a] <= 1
    ensures ss[i].d.freed[a] == 0 <==> Pending(ss[i].d, a) || exists t :: Owns(ss[i], t, a)
    ensures Pending(ss[i].d, a) ==> forall t :: !Owns(ss[i], t, a)
  {
    RunKeepsInv(ss, ls, i);
    var s := ss[i];
    assert ArgsOk(s.d);
    forall t | Owns(s, t, a) ensures a in s.d.args && !Pending(s.d, a) {
      assert ThreadOk(s.d, s.threads[t]);
    }
  }

  /** When ScheduleGenaAutoRenew reads the event id out of the argument it has scheduled, the
      argument is still allocated, even if the timer has fired in the meantime - unless the
      thread pool refused the job, in which case it is not. */
  lemma ArgumentAliveWhenRead(ss: seq<State>, ls: seq<Step>, i: nat, t: Tid)
    requires IsRun(ss, ls) && i < |ss|
    requires t in ss[i].threads && NewArg(ss[i].threads[t]).Some?
    ensures var a := NewArg(ss[i].threads[t]).value; a in ss[i].d.args <==> a !in ss[i].d.dropped
  {
    RunKeepsInv(ss, ls, i);
    assert ThreadOk(ss[i].d, ss[i].threads[t]);
    assert ArgsOk(ss[i].d);
  }

  // ---------------------------------------------------------------- what is gone stays gone

  /** The SID was issued and client h has no subscription under it. */
  predicate Absent(d: Data, h: Handle, sid: string) {
    sid in d.home && !HasSub(d, h, sid)
  }

  lemma StepKeepsGone(s: State, l: Step, sid: string)
    requires SysInv(s) && Enabled(s, l) && sid in s.d.home
    ensures sid in Apply(s, l).d.home && Apply(s, l).d.home[sid] == s.d.home[sid]
    ensures Gone(s.d, sid) ==> Gone(Apply(s, l).d, sid)
  {
    match l
    case Run(t, c) => LocalKeeps(s.d, t, s.threads[t], c);
    case Drop(id) => DroppedTimer(s.d, id);
    case _ =>
  }

  lemma StepKeepsAbsent(s: State, l: Step, h: Handle, sid: string)
    requires SysInv(s) && Enabled(s, l) && Absent(s.d, h, sid)
    ensures Absent(Apply(s, l).d, h, sid)
  {
    StepKeepsGone(s, l, sid);
    StepKeepsInv(s, l);
    var d := Apply(s, l).d;
    if HasSub(d, h, sid) {
      SidHasHome(d, h, sid);
      assert false;
    }
  }

  lemma {:induction false} AbsentForGood(ss: seq<State>, ls: seq<Step>, i: nat, j: nat, h: Handle, sid: string)
    requires IsRun(ss, ls) && i <= j < |ss| && Absent(ss[i].d, h, sid)
    ensures Absent(ss[j].d, h, sid)
  {
    hide IsPath, Enabled, Apply, SysInv, Absent;
    if i < j {
      StepOf(ss, ls, j - 1);
      AbsentForGood(ss, ls, i, j - 1, h, sid);
      RunKeepsInv(ss, ls, j - 1);
      StepKeepsAbsent(ss[j - 1], ls[j - 1], h, sid);
    }
  }

  lemma StepLogs(s: State, l: Step)
    requires Enabled(s, l)
    ensures s.log <= Apply(s, l).log
  {
    hide ThreadStep, Permitted;
  }

  lemma {:induction false} LogGrows(ss: seq<State>, ls: seq<Step>, i: nat, j: nat)
    requires IsRun(ss, ls) && i <= j < |ss|
    ensures ss[i].log <= ss[j].log
  {
    hide IsPath, Enabled, Apply;
    if i < j {
      StepOf(ss, ls, j - 1);
      LogGrows(ss, ls, i, j - 1);
      StepLogs(ss[j - 1], ls[j - 1]);
    }
  }

  /** UPNP_EVENT_AUTORENEWAL_FAILED is final: from its delivery on, no client ever has a
      subscription under that SID again. */
  lemma AutoRenewalFailedIsFinal(ss: seq<State>, ls: seq<Step>, i: nat, j: nat, n: nat, h: Handle)
    requires IsRun(ss, ls) && i <= j < |ss|
    requires n < |ss[i].log| && ss[i].log[n].AutoRenewalFailed?
    ensures Absent(ss[j].d, h, ss[i].log[n].sid)
  {
    LogGrows(ss, ls, i, j);
    RunKeepsInv(ss, ls, j);
    var d, sid := ss[j].d, ss[i].log[n].sid;
    assert ss[j].log[n] == ss[i].log[n];
    if HasSub(d, h, sid) {
      SidHasHome(d, h, sid);
      assert false;
    }
  }

  /** The job thread of a timer that fired for a SID already removed: it finds out and ends. */
  ghost predicate Silent(s: State, t: Tid) {
    && t in s.threads && s.threads[t].Renewing?
    && s.threads[t].sid in s.d.home && Gone(s.d, s.threads[t].sid)
    && QuietPc(s.threads[t].rpc)
  }

  predicate QuietPc(pc: RenPc) {
    pc.RenStart? || pc.RenCheck? || ((pc.JobFree? || pc.RenDone?) && !Reports(pc.rc))
  }

  lemma SilentStep(d: Data, t: Tid, th: Thread, c: Choice)
    requires DataInv(d) && Permitted(d, th, c) && th.Renewing? && Gone(d, th.sid) && QuietPc(th.rpc)
    ensures var e := ThreadStep(d, t, th, c);
            e.cb.None? && e.pc.Renewing? && e.pc.sid == th.sid && QuietPc(e.pc.rpc)
  {
    if HasSub(d, th.h, th.sid) {
      SidHasHome(d, th.h, th.sid);
      assert false;
    }
  }

  lemma CallbackNamesItsThread(d: Data, t: Tid, th: Thread, c: Choice)
    requires Permitted(d, th, c)
    ensures var e := ThreadStep(d, t, th, c); e.cb.Some? ==> e.cb.value.who == t
  {
  }

  lemma StepKeepsSilent(s: State, l: Step, t: Tid)
    requires SysInv(s) && Enabled(s, l) && Silent(s, t)
    ensures Silent(Apply(s, l), t)
    ensures forall h, sid :: AutoRenewalFailed(t, h, sid) in Apply(s, l).log ==> AutoRenewalFailed(t, h, sid) in s.log
  {
    StepKeepsGone(s, l, s.threads[t].sid);
    if l.Run? {
      if l.t == t {
        SilentStep(s.d, t, s.threads[t], l.c);
      }
      CallbackNamesItsThread(s.d, l.t, s.threads[l.t], l.c);
      hide ThreadStep, SysInv, Gone, Permitted;
    }
  }

  /** From the moment its SID is gone, a job that has not yet looked makes no callback: it does not
      matter whether the removal came before the timer fired or after. */
  lemma {:induction false} SilentForGood(ss: seq<State>, ls: seq<Step>, i: nat, j: nat, t: Tid)
    requires IsRun(ss, ls) && i <= j < |ss| && Silent(ss[i], t)
    ensures Silent(ss[j], t)
    ensures forall h, sid :: AutoRenewalFailed(t, h, sid) in ss[j].log ==> AutoRenewalFailed(t, h, sid) in ss[i].log
  {
    hide IsPath, Enabled, Apply, SysInv, Silent;
    if i < j {
      StepOf(ss, ls, j - 1);
      SilentForGood(ss, ls, i, j - 1, t);
      RunKeepsInv(ss, ls, j - 1);
      StepKeepsSilent(ss[j - 1], ls[j - 1], t);
    }
  }

  /** In particular a timer that fires for a SID that has been removed makes no callback. */
  lemma LateTimerIsSilent(ss: seq<State>, ls: seq<Step>, i: nat, j: nat, id: int, t: Tid)
    requires IsRun(ss, ls) && i < j < |ss| && ls[i] == Fire(id, t)
    requires Gone(ss[i].d, ss[i].d.args[ss[i].d.timers[id]].sid)
    ensures Silent(ss[j], t)
    ensures forall h, sid :: AutoRenewalFailed(t, h, sid) in ss[j].log ==> AutoRenewalFailed(t, h, sid) in ss[i].log
  {
    RunKeepsInv(ss, ls, i);
    StepKeepsGone(ss[i], ls[i], ss[i].d.args[ss[i].d.timers[id]].sid);
    SilentForGood(ss, ls, i + 1, j, t);
  }

  // ---------------------------------------------------------------- what subscribing leaves behind

  /** Step m is the one in which thread t enters its subscription in the list under that SID. */
  ghost predicate EntersAt(ss: seq<State>, ls: seq<Step>, m: nat, t: Tid, sid: string) {
    && m < |ls| < |ss| && ls[m] == Run(t, Uuid(sid)) && t in ss[m].threads && t in ss[m + 1].threads
    && ss[m].threads[t].Subscribing? && ss[m].threads[t].spc.SubLink?
    && ss[m + 1].threads[t].Subscribing? && ss[m + 1].threads[t].spc.SubSchedule?
  }

  ghost predicate Entered(ss: seq<State>, ls: seq<Step>, k: nat, t: Tid, sid: string) {
    exists m :: 0 <= m < k && EntersAt(ss, ls, m, t, sid)
  }

  ghost predicate NeverEntered(ss: seq<State>, ls: seq<Step>, k: nat, t: Tid) {
    forall m, sid :: 0 <= m < k ==> !EntersAt(ss, ls, m, t, sid)
  }

  /** What a genaSubscribe at each of its program points has entered in the list so far: nothing ever, or
      the given SIDs. */
  ghost predicate PcKnows(pc: SubPc, never: bool, entered: iset<string>) {
    match pc
    case SubAnswered(ans) => never && (ans.Refused? ==> ans.code != UPNP_E_SUCCESS)
    case SubLink(ans) => never && (ans.Refused? ==> ans.code != UPNP_E_SUCCESS)
    case SubSchedule(sid, _) => sid in entered
    case SubCopyId(sid, _) => sid in entered
    case SubFailed(sid, rc) => sid in entered && rc != UPNP_E_SUCCESS
    case SubUnlock(rc, out) => Returns(never, entered, rc, out)
    case SubUnlockMutex(rc, out) => Returns(never, entered, rc, out)
    case SubDone(rc, out) => Returns(never, entered, rc, out)
    case _ => never
  }

  /** A success has entered a subscription under the SID it returns, an error has entered nothing. */
  ghost predicate Returns(never: bool, entered: iset<string>, rc: int, out: string) {
    if rc == UPNP_E_SUCCESS then out in entered else never && out == ""
  }

  lemma PcStepKnows(d: Data, h: Handle, url: string, pc: SubPc, c: Choice, never: bool, entered: iset<string>)
    requires Permitted(d, Subscribing(h, url, pc), c) && PcKnows(pc, never, entered)
    ensures var pc' := SubscribeStep(d, h, url, pc, c).pc;
            && (pc'.SubSchedule? ==> pc.SubLink? && c == Uuid(pc'.sid))
            && (!pc'.SubSchedule? ==> PcKnows(pc', never, entered))
  {
    hide Link, Schedule, ScheduleFails, CopyEventId;
  }

  ghost function EnteredSids(ss: seq<State>, ls: seq<Step>, k: nat, t: Tid): iset<string> {
    iset sid | Entered(ss, ls, k, t, sid)
  }

  ghost predicate SubscribeKnows(ss: seq<State>, ls: seq<Step>, k: nat, t: Tid, pc: SubPc) {
    PcKnows(pc, NeverEntered(ss, ls, k, t), EnteredSids(ss, ls, k, t))
  }

  lemma EnteredStays(ss: seq<State>, ls: seq<Step>, k: nat, t: Tid)
    ensures EnteredSids(ss, ls, k, t) <= EnteredSids(ss, ls, k + 1, t)
    ensures NeverEntered(ss, ls, k, t) && (forall sid :: !EntersAt(ss, ls, k, t, sid)) ==>
            NeverEntered(ss, ls, k + 1, t)
  {
  }

  /** What was known stays known after a step that enters nothing for t. */
  lemma KnownStays(ss: seq<State>, ls: seq<Step>, k: nat, t: Tid, pc: SubPc)
    requires SubscribeKnows(ss, ls, k, t, pc) && forall sid :: !EntersAt(ss, ls, k, t, sid)
    ensures SubscribeKnows(ss, ls, k + 1, t, pc)
  {
    EnteredStays(ss, ls, k, t);
    hide EnteredSids, NeverEntered, EntersAt;
  }

  lemma SubscribesTo(s: State, l: Step, t: Tid)
    requires Enabled(s, l) && l.Run? && l.t == t && s.threads[t].Subscribing?
    ensures t in s.threads && t in Apply(s, l).threads
    ensures var th := s.threads[t];
            && Permitted(s.d, th, l.c)
            && Apply(s, l).threads[t] == Subscribing(th.h, th.url, SubscribeStep(s.d, th.h, th.url, th.spc, l.c).pc)
  {
    hide SubscribeStep, RenewStep, UnSubscribeStep, UnregisterStep, NotifyStep, Permitted;
  }

  lemma SubscribeStepKnows(ss: seq<State>, ls: seq<Step>, k: nat, t: Tid)
    requires IsRun(ss, ls) && k < |ls| && ls[k].Run? && ls[k].t == t && ss[k].threads[t].Subscribing?
    requires SubscribeKnows(ss, ls, k, t, ss[k].threads[t].spc)
    ensures ss[k + 1].threads[t].Subscribing? && SubscribeKnows(ss, ls, k + 1, t, ss[k + 1].threads[t].spc)
  {
    hide Enabled, Apply, PcKnows, NeverEntered, EnteredSids, Permitted;
    SubscribesTo(ss[k], ls[k], t);
    var th, pc := ss[k].threads[t], ss[k + 1].threads[t].spc;
    PcStepKnows(ss[k].d, th.h, th.url, th.spc, ls[k].c, NeverEntered(ss, ls, k, t), EnteredSids(ss, ls, k, t));
    hide SubscribeStep;
    if pc.SubSchedule? {
      EntersNow(ss, ls, k, t, pc.sid);
    } else {
      KnownStays(ss, ls, k, t, pc);
    }
  }

  lemma EntersNow(ss: seq<State>, ls: seq<Step>, k: nat, t: Tid, sid: string)
    requires EntersAt(ss, ls, k, t, sid) && ss[k + 1].threads[t].spc.sid == sid
    ensures SubscribeKnows(ss, ls, k + 1, t, ss[k + 1].threads[t].spc)
  {
  }

  lemma {:induction false} RunSubscribeKnows(ss: seq<State>, ls: seq<Step>, k: nat, t: Tid)
    requires IsRun(ss, ls) && k < |ss|
    ensures t !in ss[k].threads ==> NeverEntered(ss, ls, k, t)
    ensures t in ss[k].threads && ss[k].threads[t].Subscribing? ==> SubscribeKnows(ss, ls, k, t, ss[k].threads[t].spc)
  {
    hide IsPath, Enabled, Apply, SubscribeKnows, NeverEntered;
    if k > 0 {
      StepOf(ss, ls, k - 1);
      RunSubscribeKnows(ss, ls, k - 1, t);
      if ls[k - 1].Run? && ls[k - 1].t == t && t in ss[k - 1].threads && ss[k - 1].threads[t].Subscribing? {
        SubscribeStepKnows(ss, ls, k - 1, t);
        SubscribesTo(ss[k - 1], ls[k - 1], t);
      } else {
        OtherStepKnows(ss, ls, k - 1, t);
      }
    } else {
      NeverAtFirst(ss, ls, t);
    }
  }

  lemma NeverAtFirst(ss: seq<State>, ls: seq<Step>, t: Tid)
    ensures NeverEntered(ss, ls, 0, t)
  {
  }

  lemma OtherStepKnows(ss: seq<State>, ls: seq<Step>, k: nat, t: Tid)
    requires IsRun(ss, ls) && k < |ls|
    requires !(ls[k].Run? && ls[k].t == t && t in ss[k].threads && ss[k].threads[t].Subscribing?)
    requires t !in ss[k].threads ==> NeverEntered(ss, ls, k, t)
    requires t in ss[k].threads && ss[k].threads[t].Subscribing? ==> SubscribeKnows(ss, ls, k, t, ss[k].threads[t].spc)
    ensures t !in ss[k + 1].threads ==> NeverEntered(ss, ls, k + 1, t)
    ensures t in ss[k + 1].threads && ss[k + 1].threads[t].Subscribing? ==>
              SubscribeKnows(ss, ls, k + 1, t, ss[k + 1].threads[t].spc)
  {
    hide IsPath, Enabled, Apply, PcKnows, EnteredSids, NeverEntered;
    StepOf(ss, ls, k);
    OthersStay(ss[k], ls[k], t);
    EnteredStays(ss, ls, k, t);
    assert forall sid :: !EntersAt(ss, ls, k, t, sid);
    if t in ss[k].threads && ss[k].threads[t].Subscribing? {
      KnownStays(ss, ls, k, t, ss[k].threads[t].spc);
    } else if t in ss[k + 1].threads && ss[k + 1].threads[t].Subscribing? {
      BeginnerKnows(ss, ls, k + 1, t);
    }
  }

  lemma BeginnerKnows(ss: seq<State>, ls: seq<Step>, k: nat, t: Tid)
    requires NeverEntered(ss, ls, k, t)
    ensures SubscribeKnows(ss, ls, k, t, SubStart)
  {
    hide NeverEntered, EnteredSids;
  }

  lemma OthersStay(s: State, l: Step, t: Tid)
    requires Enabled(s, l) && !(l.Run? && l.t == t && t in s.threads && s.threads[t].Subscribing?)
    ensures t in Apply(s, l).threads && Apply(s, l).threads[t].Subscribing? ==>
              if t in s.threads then Apply(s, l).threads[t] == s.threads[t] else Apply(s, l).threads[t].spc.SubStart?
    ensures t in s.threads ==> t in Apply(s, l).threads
  {
  }

  /** Every genaSubscribe that returns success has entered its subscription under the SID it returns, and
      every one that returns an error has entered nothing, in every run. */
  lemma SubscribeOutcome(ss: seq<State>, ls: seq<Step>, k: nat, t: Tid)
    requires IsRun(ss, ls) && k < |ss| && t in ss[k].threads && ss[k].threads[t].Subscribing?
    requires ss[k].threads[t].spc.SubDone?
    ensures var pc := ss[k].threads[t].spc;
            && (pc.rc == UPNP_E_SUCCESS ==> Entered(ss, ls, k, t, pc.out))
            && (pc.rc != UPNP_E_SUCCESS ==> NeverEntered(ss, ls, k, t) && pc.out == "")
  {
    RunSubscribeKnows(ss, ls, k, t);
  }

  /** A genaSubscribe comes to delete a subscription that is in the list if and only if its renewal cannot
      be scheduled. */
  lemma LinkedDeleteIff(ss: seq<State>, ls: seq<Step>, i: nat, t: Tid)
    requires IsRun(ss, ls) && i < |ls| && ls[i].Run? && ls[i].t == t && ss[i].threads[t].Subscribing?
    ensures AtLinkedDelete(ss[i + 1].threads[t]) <==> ls[i].c.ScheduleFailed?
    ensures ls[i].c.ScheduleFailed? ==>
              var th := ss[i + 1].threads[t];
              Entered(ss, ls, i + 1, t, th.spc.sid) && HasSub(ss[i + 1].d, th.h, th.spc.sid)
  {
    hide SysInv, Entered, NeverEntered;
    SubscribesTo(ss[i], ls[i], t);
    RunSubscribeKnows(ss, ls, i + 1, t);
    FailedIsListed(ss, ls, i + 1, t);
    hide Enabled, Apply, Link, Schedule, ScheduleFails, CopyEventId;
  }

  lemma FailedIsListed(ss: seq<State>, ls: seq<Step>, k: nat, t: Tid)
    requires IsRun(ss, ls) && k < |ss|
    ensures t in ss[k].threads && AtLinkedDelete(ss[k].threads[t]) ==>
              HasSub(ss[k].d, ss[k].threads[t].h, ss[k].threads[t].spc.sid)
  {
    RunKeepsInv(ss, ls, k);
    hide Enabled, Apply, DataInv, OwnerInv, LockInv, LogOk;
  }

  // ---------------------------------------------------------------- unsubscribing

  /** Step i is the one with which thread t returns from genaUnSubscribe(h, sid). */
  ghost predicate ReturnsFromUnSubscribe(ss: seq<State>, ls: seq<Step>, i: nat, t: Tid, h: Handle, sid: string)
    requires IsRun(ss, ls)
  {
    && i < |ls| && ls[i].Run? && ls[i].t == t
    && ss[i].threads[t].UnSubscribing? && ss[i].threads[t].h == h && ss[i].threads[t].sid == sid
    && ss[i + 1].threads[t].upc.UnsDone?
  }

  lemma AbsentOnReturn(ss: seq<State>, ls: seq<Step>, i: nat, t: Tid, h: Handle, sid: string)
    requires IsRun(ss, ls) && ReturnsFromUnSubscribe(ss, ls, i, t, h, sid) && sid in ss[i].d.home
    ensures Absent(ss[i + 1].d, h, sid)
  {
    RunKeepsInv(ss, ls, i);
    var d := ss[i].d;
    if ss[i].threads[t].upc.UnsRemove? && HasSub(d, h, sid) {
      SidHasHome(d, h, sid);
      UnlinkKeeps(d, h, sid);
    }
  }

  /** While client h has no subscription under an SID, no NOTIFY handler comes to deliver
      one: a handler found about to do so was there already. */
  lemma {:induction false} NoLateDelivery(ss: seq<State>, ls: seq<Step>, i: nat, j: nat,
                                          h: Handle, sid: string, n: Tid)
    requires IsRun(ss, ls) && i <= j < |ss| && Absent(ss[i].d, h, sid)
    requires n in ss[j].threads && ss[j].threads[n].Notifying? && ss[j].threads[n].npc == NotCallback(h, sid)
    ensures n in ss[i].threads && ss[i].threads[n] == ss[j].threads[n]
  {
    hide IsPath, Enabled, Apply, Absent;
    if i < j {
      StepOf(ss, ls, j - 1);
      AbsentForGood(ss, ls, i, j - 1, h, sid);
      LookupFindsListed(ss[j - 1], ls[j - 1], h, sid, n);
      NoLateDelivery(ss, ls, i, j - 1, h, sid, n);
    }
  }

  /** Once genaUnSubscribe has returned for an issued SID - with whatever result, and whatever
      renewals were running - the client never has that subscription again, and no NOTIFY
      looked up later is delivered to it under that SID: a handler found about to deliver was
      so already when the unsubscribe returned. */
  lemma UnsubscribedForGood(ss: seq<State>, ls: seq<Step>, i: nat, j: nat, t: Tid, h: Handle, sid: string, n: Tid)
    requires IsRun(ss, ls) && ReturnsFromUnSubscribe(ss, ls, i, t, h, sid) && sid in ss[i].d.home
    requires i < j < |ss|
    ensures !HasSub(ss[j].d, h, sid)
    ensures n in ss[j].threads && ss[j].threads[n].Notifying? && ss[j].threads[n].npc == NotCallback(h, sid)
            ==> n in ss[i + 1].threads && ss[i + 1].threads[n] == ss[j].threads[n]
  {
    AbsentOnReturn(ss, ls, i, t, h, sid);
    AbsentForGood(ss, ls, i + 1, j, h, sid);
    if n in ss[j].threads && ss[j].threads[n].Notifying? && ss[j].threads[n].npc == NotCallback(h, sid) {
      NoLateDelivery(ss, ls, i + 1, j, h, sid, n);
    }
  }

  lemma LookupFindsListed(s: State, l: Step, h: Handle, sid: string, n: Tid)
    requires Enabled(s, l) && Absent(s.d, h, sid)
    requires n in Apply(s, l).threads && Apply(s, l).threads[n].Notifying?
    requires Apply(s, l).threads[n].npc == NotCallback(h, sid)
    ensures n in s.threads && s.threads[n] == Apply(s, l).threads[n]
  {
    if l.Run? && l.t == n && Found(s.d, h, s.threads[n].key) {
      assert HasSid(s.d.clients[h], SubFor(s.d, h, s.threads[n].key).sid);
    }
  }

  // ---------------------------------------------------------------- whose event it is

  /** The list has an entry with exactly the SID of the header, before any other entry that the header
      is a prefix of. */
  ghost predicate ExactFirst(list: seq<Sub>, key: string) {
    exists i :: 0 <= i < |list| && list[i].actual == key && forall j :: 0 <= j < i ==> !Matches(key, list[j])
  }

  lemma ExactFirstIs(list: seq<Sub>, key: string)
    requires IndexOfActual(list, key) < |list|
    ensures ExactFirst(list, key) <==> list[IndexOfActual(list, key)].actual == key
  {
    var k := IndexOfActual(list, key);
    if ExactFirst(list, key) {
      var i :| 0 <= i < |list| && list[i].actual == key && forall j :: 0 <= j < i ==> !Matches(key, list[j]);
      assert Matches(key, list[i]);
    }
  }

  /** A handler comes to deliver to client k under a SID that k has, of a subscription whose publisher
      SID extends the header.  It is the subscription of exactly that header if and only if the list
      has it before any other that the header is a prefix of. */
  lemma DeliversExactlyIff(ss: seq<State>, ls: seq<Step>, i: nat, n: Tid)
    requires IsRun(ss, ls) && i < |ls| && ls[i].Run? && ls[i].t == n && ss[i].threads[n].Notifying?
    requires ss[i + 1].threads[n].npc.NotCallback?
    ensures var d, key, pc := ss[i].d, ss[i].threads[n].key, ss[i + 1].threads[n].npc;
            && HasSub(d, pc.k, pc.sid) && Matches(key, SubOf(d, pc.k, pc.sid))
            && (SubOf(d, pc.k, pc.sid).actual == key <==> ExactFirst(d.clients[pc.k], key))
  {
    var d, key, pc := ss[i].d, ss[i].threads[n].key, ss[i + 1].threads[n].npc;
    var list := d.clients[pc.k];
    var j := IndexOfActual(list, key);
    assert j < |list| && pc.sid == list[j].sid;
    ExactFirstIs(list, key);
    RunKeepsInv(ss, ls, i);
    assert ListOk(d, pc.k);
    hide SysInv, DataInv, Apply, Enabled;
    assert IndexOf(list, pc.sid) == j;
  }

  /** The clients that handler n has yet to deliver to, from the next one on. */
  function NextClient(pc: NotPc): Handle {
    match pc
    case NotStart => 0
    case NotFirst => 0
    case NotLoop(k, _) => k
    case NotLook(k, _) => k
    case NotWantMutex(k, _) => k
    case NotWantWrite(k, _) => k
    case NotLook2(k, _) => k
    case NotCallback(k, _) => k
    case NotDone(_) => NUM_HANDLE
  }

  predicate InTable(pc: NotPc) {
    NextClient(pc) < NUM_HANDLE || (NextClient(pc) == NUM_HANDLE && (pc.NotLoop? || pc.NotDone?))
  }

  /** The events that thread n has delivered: to clients in ascending order, all before the next. */
  ghost predicate InOrder(s: State, n: Tid) {
    && (forall a :: 0 <= a < |s.log| && s.log[a].who == n ==> n in s.threads)
    && (n in s.threads && s.threads[n].Notifying? ==>
          && InTable(s.threads[n].npc)
          && (forall a :: 0 <= a < |s.log| && s.log[a].who == n ==>
                s.log[a].EventReceived? && s.log[a].h < NextClient(s.threads[n].npc))
          && (forall a, b :: 0 <= a < b < |s.log| && s.log[a].who == n && s.log[b].who == n ==>
                s.log[a].h < s.log[b].h))
  }

  lemma NotifyAdvances(d: Data, n: Tid, th: Thread, c: Choice)
    requires Permitted(d, th, c) && th.Notifying? && InTable(th.npc)
    ensures var e := ThreadStep(d, n, th, c);
            && e.pc.Notifying? && NextClient(th.npc) <= NextClient(e.pc.npc) && InTable(e.pc.npc)
            && (e.cb.Some? ==> e.cb.value.EventReceived? && e.cb.value.h == NextClient(th.npc) < NextClient(e.pc.npc))
  {
  }

  lemma StepKeepsOrder(s: State, l: Step, n: Tid)
    requires Enabled(s, l) && InOrder(s, n)
    ensures InOrder(Apply(s, l), n)
  {
    if l.Run? {
      CallbackNamesItsThread(s.d, l.t, s.threads[l.t], l.c);
      if l.t == n && s.threads[n].Notifying? {
        NotifyAdvances(s.d, n, s.threads[n], l.c);
      } else {
        KindStays(s.d, l.t, s.threads[l.t], l.c);
      }
      hide ThreadStep, Permitted;
    }
  }

  lemma KindStays(d: Data, t: Tid, th: Thread, c: Choice)
    requires Permitted(d, th, c)
    ensures ThreadStep(d, t, th, c).pc.Notifying? <==> th.Notifying?
  {
  }

  lemma {:induction false} RunKeepsOrder(ss: seq<State>, ls: seq<Step>, i: nat, n: Tid)
    requires IsRun(ss, ls) && i < |ss|
    ensures InOrder(ss[i], n)
  {
    hide IsPath, Enabled, Apply;
    if i > 0 {
      StepOf(ss, ls, i - 1);
      RunKeepsOrder(ss, ls, i - 1, n);
      StepKeepsOrder(ss[i - 1], ls[i - 1], n);
    }
  }

  ghost predicate HasDelivered(s: State, n: Tid) {
    exists a :: 0 <= a < |s.log| && s.log[a].who == n
  }

  /** What a handler knows about its success so far, and what it answers in the end. */
  ghost predicate StatusOk(s: State, n: Tid) {
    && (HasDelivered(s, n) ==> n in s.threads)
    && (n in s.threads && s.threads[n].Notifying? ==> KnowsSuccess(s.threads[n].npc, HasDelivered(s, n)))
  }

  predicate KnowsSuccess(pc: NotPc, delivered: bool) {
    match pc
    case NotStart => !delivered
    case NotFirst => !delivered
    case NotLoop(_, ok) => ok == delivered
    case NotLook(_, ok) => ok == delivered
    case NotWantMutex(_, ok) => ok == delivered
    case NotWantWrite(_, ok) => ok == delivered
    case NotLook2(_, ok) => ok == delivered
    case NotCallback(_, _) => true
    case NotDone(status) => status == if delivered then HTTP_OK else HTTP_PRECONDITION_FAILED
  }

  lemma NotifyKnows(d: Data, n: Tid, th: Thread, c: Choice, delivered: bool)
    requires Permitted(d, th, c) && th.Notifying? && KnowsSuccess(th.npc, delivered)
    ensures var e := ThreadStep(d, n, th, c);
            e.pc.Notifying? && KnowsSuccess(e.pc.npc, delivered || e.cb.Some?)
  {
  }

  lemma StepKeepsStatus(s: State, l: Step, n: Tid)
    requires Enabled(s, l) && StatusOk(s, n)
    ensures StatusOk(Apply(s, l), n)
  {
    var s' := Apply(s, l);
    if l.Run? {
      CallbackNamesItsThread(s.d, l.t, s.threads[l.t], l.c);
      if l.t == n && s.threads[n].Notifying? {
        NotifyKnows(s.d, n, s.threads[n], l.c, HasDelivered(s, n));
      } else {
        KindStays(s.d, l.t, s.threads[l.t], l.c);
      }
      hide ThreadStep, Permitted;
      var e := ThreadStep(s.d, l.t, s.threads[l.t], l.c);
      assert e.cb.Some? ==> s'.log[|s.log|] == e.cb.value;
    }
    if HasDelivered(s, n) {
      var a :| 0 <= a < |s.log| && s.log[a].who == n;
      assert s'.log[a] == s.log[a];
    }
  }

  /** In every run a NOTIFY is answered with HTTP_OK if and only if it was delivered to some client, and
      otherwise with HTTP_PRECONDITION_FAILED. */
  lemma {:induction false} AnswerTellsDelivery(ss: seq<State>, ls: seq<Step>, i: nat, n: Tid)
    requires IsRun(ss, ls) && i < |ss|
    ensures StatusOk(ss[i], n)
  {
    hide IsPath, Enabled, Apply;
    if i > 0 {
      StepOf(ss, ls, i - 1);
      AnswerTellsDelivery(ss, ls, i - 1, n);
      StepKeepsStatus(ss[i - 1], ls[i - 1], n);
    }
  }

  /** One NOTIFY is delivered to a client at most once, so under at most one SID. */
  lemma OncePerClient(ss: seq<State>, ls: seq<Step>, i: nat, n: Tid, a: nat, b: nat)
    requires IsRun(ss, ls) && i < |ss| && n in ss[i].threads && ss[i].threads[n].Notifying?
    requires a < |ss[i].log| && b < |ss[i].log| && ss[i].log[a].who == n && ss[i].log[b].who == n
    ensures ss[i].log[a].h == ss[i].log[b].h ==> a == b
  {
    RunKeepsOrder(ss, ls, i, n);
  }

  // ---------------------------------------------------------------- the first event

  /** Thread t is a genaSubscribe of client h whose SUBSCRIBE was granted under `actual`: it
      has not yet entered the subscription in the list, or the subscription it entered is
      still there under that publisher SID. */
  ghost predicate Standing(s: State, t: Tid, h: Handle, actual: string) {
    && t in s.threads && s.threads[t].Subscribing? && s.threads[t].h == h
    && match s.threads[t].spc
       case SubAnswered(ans) => ans.Granted? && ans.actual == actual
       case SubLink(ans) => ans.Granted? && ans.actual == actual
       case SubSchedule(sid, _) => Listed(s.d, h, sid, actual)
       case SubCopyId(sid, _) => Listed(s.d, h, sid, actual)
       case SubUnlock(_, sid) => Listed(s.d, h, sid, actual)
       case SubUnlockMutex(_, sid) => Listed(s.d, h, sid, actual)
       case SubDone(_, sid) => Listed(s.d, h, sid, actual)
       case _ => false
  }

  /** The SID under which a genaSubscribe has entered its subscription. */
  function OwnSid(th: Thread): Option<string> {
    match th
    case Subscribing(_, _, SubSchedule(sid, _)) => Some(sid)
    case Subscribing(_, _, SubCopyId(sid, _)) => Some(sid)
    case Subscribing(_, _, SubUnlock(_, sid)) => Some(sid)
    case Subscribing(_, _, SubUnlockMutex(_, sid)) => Some(sid)
    case Subscribing(_, _, SubDone(_, sid)) => Some(sid)
    case _ => None
  }

  ghost predicate Listed(d: Data, h: Handle, sid: string, actual: string) {
    && h in d.clients
    && exists i :: 0 <= i < |d.clients[h]| && d.clients[h][i].sid == sid && d.clients[h][i].actual == actual
  }

  lemma ListedIsFound(d: Data, h: Handle, sid: string, actual: string, key: string)
    requires Listed(d, h, sid, actual) && key <= actual
    ensures Found(d, h, key)
  {
    var i :| 0 <= i < |d.clients[h]| && d.clients[h][i].sid == sid && d.clients[h][i].actual == actual;
    assert Matches(key, d.clients[h][i]);
  }

  /** How far a NOTIFY handler is with client h: not done with it, or it has delivered. */
  predicate OnWay(pc: NotPc, h: Handle, delivered: bool) {
    match pc
    case NotStart => true
    case NotFirst => true
    case NotDone(_) => delivered
    case NotLoop(k, _) => k <= h || delivered
    case NotLook(k, _) => k <= h || delivered
    case NotWantMutex(k, _) => k <= h || delivered
    case NotWantWrite(k, _) => k <= h || delivered
    case NotLook2(k, _) => k <= h || delivered
    case NotCallback(k, _) => k <= h || delivered
  }

  ghost predicate Delivered(s: State, n: Tid, h: Handle) {
    exists sid :: EventReceived(n, h, sid) in s.log
  }

  ghost predicate OnItsWay(s: State, n: Tid, key: string, seqNo: int, h: Handle) {
    n in s.threads ==>
      && s.threads[n].Notifying? && s.threads[n].key == key && s.threads[n].seqNo == seqNo
      && OnWay(s.threads[n].npc, h, Delivered(s, n, h))
  }

  lemma HandlerMoves(d: Data, n: Tid, th: Thread, c: Choice, h: Handle, delivered: bool)
    requires Permitted(d, th, c) && th.Notifying? && OnWay(th.npc, h, delivered)
    requires h in d.clients && 1 <= h < NUM_HANDLE
    requires Found(d, h, th.key) || (th.seqNo == 0 && !th.npc.NotLook2?)
    ensures var e := ThreadStep(d, n, th, c);
            && e.pc.Notifying? && e.pc.key == th.key && e.pc.seqNo == th.seqNo
            && OnWay(e.pc.npc, h, delivered || (e.cb.Some? && e.cb.value.EventReceived? && e.cb.value.who == n
                                                && e.cb.value.h == h))
  {
  }

  /** The second look-up cannot miss: it is made under the subscribe mutex, which a granted
      but unprocessed subscription still holds. */
  lemma SecondLookupFinds(s: State, n: Tid, t: Tid, h: Handle, actual: string, key: string)
    requires SysInv(s) && Standing(s, t, h, actual) && key <= actual
    ensures n in s.threads && s.threads[n].Notifying? && s.threads[n].npc.NotLook2? ==> Found(s.d, h, key)
  {
    if n in s.threads && s.threads[n].Notifying? && s.threads[n].npc.NotLook2? {
      assert HoldsMutex(s.threads[n]) && !HoldsMutex(s.threads[t]);
      match s.threads[t].spc
      case SubDone(_, sid) => ListedIsFound(s.d, h, sid, actual, key);
    }
  }

  lemma DeliveredStays(s: State, l: Step, n: Tid, h: Handle)
    requires Enabled(s, l) && Delivered(s, n, h)
    ensures Delivered(Apply(s, l), n, h)
  {
    var sid :| EventReceived(n, h, sid) in s.log;
    assert EventReceived(n, h, sid) in Apply(s, l).log;
  }

  /** A handler that would find an entry of client h, now or at its second look, does not pass it by. */
  lemma HandlerStaysOnItsWay(s: State, l: Step, n: Tid, h: Handle, key: string, seqNo: int)
    requires SysInv(s) && Enabled(s, l) && h in s.d.clients && OnItsWay(s, n, key, seqNo, h)
    requires l.Run? && l.t == n && n in s.threads && s.threads[n].Notifying? ==>
               Found(s.d, h, key) || (seqNo == 0 && !s.threads[n].npc.NotLook2?)
    requires l.Start? && l.t == n ==> l.th.Notifying? && l.th.key == key && l.th.seqNo == seqNo
    requires l.Fire? ==> l.t != n
    ensures OnItsWay(Apply(s, l), n, key, seqNo, h)
  {
    assert ListOk(s.d, h);
    if Delivered(s, n, h) {
      DeliveredStays(s, l, n, h);
    }
    if l.Run? && l.t == n {
      HandlerMoves(s.d, n, s.threads[n], l.c, h, Delivered(s, n, h));
      hide SysInv, ThreadStep, Found;
      var e := ThreadStep(s.d, n, s.threads[n], l.c);
      if e.cb.Some? {
        assert Apply(s, l).log[|s.log|] == e.cb.value;
        var x := e.cb.value;
        assert x.EventReceived? ==> EventReceived(x.who, x.h, x.sid) in Apply(s, l).log;
      }
    }
  }

  lemma ThreadKeepsItsEvent(s: State, l: Step, n: Tid)
    requires Enabled(s, l) && n in s.threads
    ensures n in Apply(s, l).threads
    ensures Apply(s, l).threads[n].Notifying? ==>
              && s.threads[n].Notifying?
              && s.threads[n].key == Apply(s, l).threads[n].key
              && s.threads[n].seqNo == Apply(s, l).threads[n].seqNo
  {
    hide SubscribeStep, RenewStep, UnSubscribeStep, UnregisterStep, NotifyStep, Permitted;
  }

  /** A thread never turns into another operation. */
  lemma {:induction false} HandlerKeepsItsEvent(ss: seq<State>, ls: seq<Step>, i: nat, j: nat, n: Tid)
    requires IsRun(ss, ls) && i <= j < |ss| && n in ss[i].threads
    ensures n in ss[j].threads
    ensures ss[j].threads[n].Notifying? ==>
              && ss[i].threads[n].Notifying?
              && ss[i].threads[n].key == ss[j].threads[n].key
              && ss[i].threads[n].seqNo == ss[j].threads[n].seqNo
  {
    hide IsPath, Enabled, Apply;
    if i < j {
      StepOf(ss, ls, j - 1);
      HandlerKeepsItsEvent(ss, ls, i, j - 1, n);
      ThreadKeepsItsEvent(ss[j - 1], ls[j - 1], n);
    }
  }

  lemma {:induction false} FirstEventOnItsWay(ss: seq<State>, ls: seq<Step>, i: nat, m: nat, j: nat, t: Tid, n: Tid,
                                              h: Handle, actual: string, key: string)
    requires IsRun(ss, ls) && i < m <= j < |ss|
    requires forall k :: i < k <= j ==> h in ss[k].d.clients && Standing(ss[k], t, h, actual)
    requires n !in ss[i + 1].threads && key <= actual
    requires n in ss[j].threads && ss[j].threads[n].Notifying?
    requires ss[j].threads[n].key == key && ss[j].threads[n].seqNo == 0
    ensures OnItsWay(ss[m], n, key, 0, h)
  {
    hide IsPath, Enabled, Apply, SysInv, Standing, Found;
    if i + 1 < m {
      StepOf(ss, ls, m - 1);
      FirstEventOnItsWay(ss, ls, i, m - 1, j, t, n, h, actual, key);
      RunKeepsInv(ss, ls, m - 1);
      if n in ss[m].threads {
        HandlerKeepsItsEvent(ss, ls, m, j, n);
      }
      StartedIsHandler(ss, ls, m, n);
      SecondLookupFinds(ss[m - 1], n, t, h, actual, key);
      HandlerStaysOnItsWay(ss[m - 1], ls[m - 1], n, h, key, 0);
    }
  }

  lemma StartedIsHandler(ss: seq<State>, ls: seq<Step>, m: nat, n: Tid)
    requires IsRun(ss, ls) && 0 < m < |ss| && (n in ss[m].threads ==> ss[m].threads[n].Notifying?)
    ensures ls[m - 1].Start? && ls[m - 1].t == n ==> n in ss[m].threads && ls[m - 1].th == ss[m].threads[n]
    ensures ls[m - 1].Fire? ==> ls[m - 1].t != n
  {
  }

  /** The situation: the publisher has answered the SUBSCRIBE of client h with `actual` (step i, thread t),
      and a NOTIFY with SEQ 0 whose header is that SID arrives afterwards (thread n, not running yet) and
      has been handled by state j; meanwhile the client stays registered and its subscription is not
      refused, removed or renamed. */
  ghost predicate FirstEventHandled(ss: seq<State>, ls: seq<Step>, i: nat, j: nat, t: Tid, n: Tid,
                                    h: Handle, actual: string, timeout: int, key: string) {
    && IsRun(ss, ls) && i < j < |ss| && ls[i] == Run(t, Answered(Granted(actual, timeout)))
    && ss[i].threads[t].Subscribing? && ss[i].threads[t].h == h
    && (forall m :: i < m <= j ==> h in ss[m].d.clients && Standing(ss[m], t, h, actual))
    && n !in ss[i + 1].threads && key <= actual
    && n in ss[j].threads && ss[j].threads[n].Notifying?
    && ss[j].threads[n].key == key && ss[j].threads[n].seqNo == 0 && ss[j].threads[n].npc.NotDone?
  }

  /** The first event is never lost: it has been delivered to the client - also when the SUBSCRIBE response
      had not been processed yet. */
  lemma FirstEventNeverLost(ss: seq<State>, ls: seq<Step>, i: nat, j: nat, t: Tid, n: Tid,
                            h: Handle, actual: string, timeout: int, key: string)
    requires FirstEventHandled(ss, ls, i, j, t, n, h, actual, timeout, key)
    ensures exists sid :: EventReceived(n, h, sid) in ss[j].log
  {
    FirstEventOnItsWay(ss, ls, i, j, j, t, n, h, actual, key);
  }

  /** No event for a listed subscription is lost, whatever its sequence number: if from the arrival of a
      NOTIFY (after state i) to its answer (state j) client h is registered and always has an entry that
      the header is a prefix of, then it has been delivered to h, however many other clients come first. */
  lemma EventReachesListed(ss: seq<State>, ls: seq<Step>, i: nat, j: nat, n: Tid, h: Handle, key: string, seqNo: int)
    requires IsRun(ss, ls) && i < j < |ss| && n !in ss[i].threads
    requires forall m :: i <= m <= j ==> h in ss[m].d.clients && Found(ss[m].d, h, key)
    requires n in ss[j].threads && ss[j].threads[n].Notifying?
    requires ss[j].threads[n].key == key && ss[j].threads[n].seqNo == seqNo && ss[j].threads[n].npc.NotDone?
    ensures exists sid :: EventReceived(n, h, sid) in ss[j].log
  {
    EventOnItsWay(ss, ls, i, j, j, n, h, key, seqNo);
  }

  lemma {:induction false} EventOnItsWay(ss: seq<State>, ls: seq<Step>, i: nat, m: nat, j: nat, n: Tid,
                                         h: Handle, key: string, seqNo: int)
    requires IsRun(ss, ls) && i <= m <= j < |ss| && n !in ss[i].threads
    requires forall k :: i <= k <= j ==> h in ss[k].d.clients && Found(ss[k].d, h, key)
    requires n in ss[j].threads && ss[j].threads[n].Notifying?
    requires ss[j].threads[n].key == key && ss[j].threads[n].seqNo == seqNo
    ensures OnItsWay(ss[m], n, key, seqNo, h)
  {
    hide IsPath, Enabled, Apply, SysInv, Found;
    if i < m {
      StepOf(ss, ls, m - 1);
      EventOnItsWay(ss, ls, i, m - 1, j, n, h, key, seqNo);
      RunKeepsInv(ss, ls, m - 1);
      if n in ss[m].threads {
        HandlerKeepsItsEvent(ss, ls, m, j, n);
      }
      StartedIsHandler(ss, ls, m, n);
      HandlerStaysOnItsWay(ss[m - 1], ls[m - 1], n, h, key, seqNo);
    }
  }

  // ---------------------------------------------------------------- under which SID

  /** Step m is the look-up in which handler n finds an entry of client h and takes its SID. */
  ghost predicate FindsAt(ss: seq<State>, ls: seq<Step>, m: nat, n: Tid, h: Handle, sid: string) {
    && m < |ls| < |ss| && ls[m].Run? && ls[m].t == n && n in ss[m].threads && n in ss[m + 1].threads
    && ss[m].threads[n].Notifying? && ss[m + 1].threads[n].Notifying?
    && ss[m + 1].threads[n].npc == NotCallback(h, sid)
    && Found(ss[m].d, h, ss[m].threads[n].key) && sid == SubFor(ss[m].d, h, ss[m].threads[n].key).sid
  }

  lemma ComesToCallback(s: State, l: Step, n: Tid)
    requires Enabled(s, l) && n in Apply(s, l).threads && Apply(s, l).threads[n].Notifying?
    requires Apply(s, l).threads[n].npc.NotCallback?
    ensures var pc := Apply(s, l).threads[n].npc;
            || (n in s.threads && s.threads[n] == Apply(s, l).threads[n])
            || (l.Run? && l.t == n && n in s.threads && s.threads[n].Notifying?
                && Found(s.d, pc.k, s.threads[n].key) && pc.sid == SubFor(s.d, pc.k, s.threads[n].key).sid)
  {
  }

  lemma {:induction false} CallbackWasFound(ss: seq<State>, ls: seq<Step>, k: nat, n: Tid) returns (m: nat)
    requires IsRun(ss, ls) && k < |ss| && n in ss[k].threads && ss[k].threads[n].Notifying?
    requires ss[k].threads[n].npc.NotCallback?
    ensures m < k && FindsAt(ss, ls, m, n, ss[k].threads[n].npc.k, ss[k].threads[n].npc.sid)
  {
    ComesToCallback(ss[k - 1], ls[k - 1], n);
    hide Enabled, Apply, Found;
    if n in ss[k - 1].threads && ss[k - 1].threads[n] == ss[k].threads[n] {
      m := CallbackWasFound(ss, ls, k - 1, n);
    } else {
      m := k - 1;
    }
  }

  lemma NewEvent(s: State, l: Step, a: nat)
    requires Enabled(s, l) && a < |Apply(s, l).log| && Apply(s, l).log[a].EventReceived?
    ensures var x := Apply(s, l).log[a];
            || (a < |s.log| && s.log[a] == x)
            || (l == Run(x.who, l.c) && x.who in s.threads && s.threads[x.who].Notifying?
                && s.threads[x.who].npc == NotCallback(x.h, x.sid))
  {
    if l.Run? {
      EventComesFrom(s.d, l.t, s.threads[l.t], l.c);
      hide ThreadStep, Permitted;
    }
  }

  lemma EventComesFrom(d: Data, t: Tid, th: Thread, c: Choice)
    requires Permitted(d, th, c)
    ensures var e := ThreadStep(d, t, th, c);
            e.cb.Some? && e.cb.value.EventReceived? ==>
              e.cb.value.who == t && th.Notifying? && th.npc == NotCallback(e.cb.value.h, e.cb.value.sid)
  {
  }

  /** Every delivered event goes back to the look-up in which its handler found that entry. */
  lemma {:induction false} DeliveredWasFound(ss: seq<State>, ls: seq<Step>, k: nat, a: nat) returns (m: nat)
    requires IsRun(ss, ls) && k < |ss| && a < |ss[k].log| && ss[k].log[a].EventReceived?
    ensures m < k && FindsAt(ss, ls, m, ss[k].log[a].who, ss[k].log[a].h, ss[k].log[a].sid)
  {
    hide Enabled, Apply, FindsAt;
    NewEvent(ss[k - 1], ls[k - 1], a);
    if a < |ss[k - 1].log| && ss[k - 1].log[a] == ss[k].log[a] {
      m := DeliveredWasFound(ss, ls, k - 1, a);
    } else {
      m := CallbackWasFound(ss, ls, k - 1, ss[k].log[a].who);
    }
  }

  /** Once entered, the subscription keeps its SID; before that its SID is not in use. */
  lemma OwnSidStays(s: State, l: Step, t: Tid, h: Handle, actual: string)
    requires Enabled(s, l) && Standing(s, t, h, actual) && Standing(Apply(s, l), t, h, actual)
    ensures var before, after := OwnSid(s.threads[t]), OwnSid(Apply(s, l).threads[t]);
            && (before.Some? ==> after == before)
            && (before.None? && after.Some? ==> after.value !in s.d.home)
  {
    if l.Run? && l.t == t {
      SubscribesTo(s, l, t);
      hide Apply, Enabled, Listed, Link, Schedule, ScheduleFails, CopyEventId;
    } else {
      OthersStay(s, l, t);
      hide Apply, Enabled, Listed;
    }
  }

  lemma {:induction false} OwnSidLater(ss: seq<State>, ls: seq<Step>, m: nat, j: nat, t: Tid, h: Handle, actual: string)
    requires IsRun(ss, ls) && m <= j < |ss|
    requires forall k :: m <= k <= j ==> Standing(ss[k], t, h, actual)
    ensures t in ss[m].threads && t in ss[j].threads
    ensures OwnSid(ss[m].threads[t]).Some? ==> OwnSid(ss[j].threads[t]) == OwnSid(ss[m].threads[t])
    ensures OwnSid(ss[m].threads[t]).None? && OwnSid(ss[j].threads[t]).Some? ==>
              OwnSid(ss[j].threads[t]).value !in ss[m].d.home
  {
    hide IsPath, Enabled, Apply, Standing, OwnSid;
    StandingThread(ss[m], t, h, actual);
    StandingThread(ss[j], t, h, actual);
    if m < j {
      StepOf(ss, ls, j - 1);
      OwnSidLater(ss, ls, m, j - 1, t, h, actual);
      OwnSidStays(ss[j - 1], ls[j - 1], t, h, actual);
      if OwnSid(ss[j].threads[t]).Some? && OwnSid(ss[j].threads[t]).value in ss[m].d.home {
        SidsStay(ss, ls, m, j - 1, OwnSid(ss[j].threads[t]).value);
      }
    }
  }

  lemma StandingThread(s: State, t: Tid, h: Handle, actual: string)
    requires Standing(s, t, h, actual)
    ensures t in s.threads
  {
  }

  lemma {:induction false} SidsStay(ss: seq<State>, ls: seq<Step>, m: nat, j: nat, sid: string)
    requires IsRun(ss, ls) && m <= j < |ss| && sid in ss[m].d.home
    ensures sid in ss[j].d.home
  {
    hide IsPath, Enabled, Apply, SysInv;
    if m < j {
      StepOf(ss, ls, j - 1);
      SidsStay(ss, ls, m, j - 1, sid);
      RunKeepsInv(ss, ls, j - 1);
      StepKeepsGone(ss[j - 1], ls[j - 1], sid);
    }
  }

  /** An entry that a look-up has found has an issued SID. */
  lemma FoundIsIssued(ss: seq<State>, ls: seq<Step>, m: nat, n: Tid, h: Handle, sid: string)
    requires IsRun(ss, ls) && FindsAt(ss, ls, m, n, h, sid)
    ensures sid in ss[m].d.home
  {
    RunKeepsInv(ss, ls, m);
    assert ListOk(ss[m].d, h);
    hide SysInv, Enabled, Apply;
  }

  /** The first event is delivered under the subscription's own SID if and only if that is what the handler
      finds first in the client's list when it looks there; every other entry that the header is a prefix
      of may come and go at any other time. */
  lemma FirstEventUnderOwnIff(ss: seq<State>, ls: seq<Step>, i: nat, j: nat, t: Tid, n: Tid,
                              h: Handle, actual: string, timeout: int, key: string) returns (m: nat, sid: string)
    requires FirstEventHandled(ss, ls, i, j, t, n, h, actual, timeout, key)
    ensures i < m < j && FindsAt(ss, ls, m, n, h, sid) && ss[m].threads[n].key == key
    ensures t in ss[m].threads && t in ss[j].threads
    ensures var own := OwnSid(ss[j].threads[t]);
            own.Some? && EventReceived(n, h, own.value) in ss[j].log <==> OwnSid(ss[m].threads[t]) == Some(sid)
  {
    hide IsPath, FindsAt, Standing, OwnSid;
    var a;
    m, sid, a := FirstEventFound(ss, ls, i, j, t, n, h, actual, timeout, key);
    OwnDeliveredIff(ss, ls, m, j, t, n, h, actual, sid, a);
  }

  /** The look-up that found the first event's entry, and the place of the event among the callbacks. */
  lemma FirstEventFound(ss: seq<State>, ls: seq<Step>, i: nat, j: nat, t: Tid, n: Tid,
                        h: Handle, actual: string, timeout: int, key: string) returns (m: nat, sid: string, a: nat)
    requires FirstEventHandled(ss, ls, i, j, t, n, h, actual, timeout, key)
    ensures i < m < j && FindsAt(ss, ls, m, n, h, sid) && ss[m].threads[n].key == key
    ensures a < |ss[j].log| && ss[j].log[a] == EventReceived(n, h, sid)
  {
    hide IsPath, Standing;
    FirstEventNeverLost(ss, ls, i, j, t, n, h, actual, timeout, key);
    sid :| EventReceived(n, h, sid) in ss[j].log;
    a :| 0 <= a < |ss[j].log| && ss[j].log[a] == EventReceived(n, h, sid);
    m := DeliveredWasFound(ss, ls, j, a);
    assert n in ss[m].threads;
    if m <= i + 1 {
      HandlerKeepsItsEvent(ss, ls, m, i + 1, n);
      assert false;
    }
    HandlerKeepsItsEvent(ss, ls, m, j, n);
  }

  lemma OwnDeliveredIff(ss: seq<State>, ls: seq<Step>, m: nat, j: nat, t: Tid, n: Tid,
                        h: Handle, actual: string, sid: string, a: nat)
    requires IsRun(ss, ls) && m <= j < |ss| && FindsAt(ss, ls, m, n, h, sid)
    requires forall k :: m <= k <= j ==> Standing(ss[k], t, h, actual)
    requires n in ss[j].threads && ss[j].threads[n].Notifying?
    requires a < |ss[j].log| && ss[j].log[a] == EventReceived(n, h, sid)
    ensures t in ss[m].threads && t in ss[j].threads
    ensures var own := OwnSid(ss[j].threads[t]);
            own.Some? && EventReceived(n, h, own.value) in ss[j].log <==> OwnSid(ss[m].threads[t]) == Some(sid)
  {
    hide IsPath, Standing, OwnSid, FindsAt;
    FoundIsIssued(ss, ls, m, n, h, sid);
    OwnSidLater(ss, ls, m, j, t, h, actual);
    var own := OwnSid(ss[j].threads[t]);
    if own.Some? && EventReceived(n, h, own.value) in ss[j].log {
      var b :| 0 <= b < |ss[j].log| && ss[j].log[b] == EventReceived(n, h, own.value);
      OncePerClient(ss, ls, j, n, a, b);
    }
  }
}
