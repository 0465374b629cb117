/** What the publishers' answers leave behind: in every state of every run a subscription holds the
    publisher SID, the URL and the kind of time that the answers applied to it say. */
module GenaGrants {
  import opened Upnp
  import opened GenaModel
  import opened GenaLocks
  import opened GenaData
  import opened GenaInvariant
  import opened GenaSystem
  import opened GenaTimers

  // ---------------------------------------------------------------- histories

  /** The last answer that thread t has got, read off the steps of the run. */
  ghost function LastAnswer(ls: seq<Step>, k: nat, t: Tid): Option<Answer>
    requires k <= |ls|
  {
    if k == 0 then None
    else if ls[k - 1].Run? && ls[k - 1].t == t && ls[k - 1].c.Answered? then Some(ls[k - 1].c.ans)
    else LastAnswer(ls, k - 1, t)
  }

  /** Thread th, whose answer was a grant, enters a subscription or finds the one that it renews. */
  ghost predicate AppliesTo(d: Data, th: Thread, c: Choice, sid: string) {
    || (th.Subscribing? && th.spc.SubLink? && c == Uuid(sid) && th.h in d.clients)
    || (th.Renewing? && th.rpc.RenApply? && th.sid == sid && HasSub(d, th.h, sid))
  }

  ghost predicate AppliesAt(ss: seq<State>, ls: seq<Step>, m: nat, sid: string) {
    && m < |ls| && m < |ss| && ls[m].Run? && ls[m].t in ss[m].threads
    && LastAnswer(ls, m, ls[m].t).Some? && LastAnswer(ls, m, ls[m].t).value.Granted?
    && AppliesTo(ss[m].d, ss[m].threads[ls[m].t], ls[m].c, sid)
  }

  /** The last grant that was applied to the SID before state k. */
  ghost function Applied(ss: seq<State>, ls: seq<Step>, k: nat, sid: string): Option<Answer>
    requires k <= |ls|
  {
    if k == 0 then None
    else if AppliesAt(ss, ls, k - 1, sid) then LastAnswer(ls, k - 1, ls[k - 1].t)
    else Applied(ss, ls, k - 1, sid)
  }

  /** The URL for which the SID was entered. */
  ghost function Origin(ss: seq<State>, ls: seq<Step>, k: nat, sid: string): Option<string>
    requires k <= |ls|
  {
    if k == 0 then None
    else if AppliesAt(ss, ls, k - 1, sid) && ss[k - 1].threads[ls[k - 1].t].Subscribing?
    then Some(ss[k - 1].threads[ls[k - 1].t].url)
    else Origin(ss, ls, k - 1, sid)
  }

  // ---------------------------------------------------------------- one thread's step

  /** The entry was there before. */
  ghost predicate SameEntry(d: Data, h: Handle, x: Sub) {
    && h in d.clients
    && exists j :: 0 <= j < |d.clients[h]| && EqualEntry(d.clients[h][j], x)
  }

  predicate EqualEntry(x: Sub, y: Sub) {
    x.sid == y.sid && x.actual == y.actual && x.url == y.url
  }

  /** The grant that a thread holds. */
  function GrantOf(th: Thread): Option<Answer> {
    match th
    case Subscribing(_, _, SubAnswered(ans)) => Some(ans)
    case Subscribing(_, _, SubLink(ans)) => Some(ans)
    case Renewing(_, _, _, RenAnswered(_, ans)) => Some(ans)
    case Renewing(_, _, _, RenApply(_, ans)) => Some(ans)
    case _ => None
  }

  /** The step applies the thread's grant to the SID. */
  ghost predicate Grants(d: Data, th: Thread, c: Choice, sid: string) {
    GrantOf(th).Some? && GrantOf(th).value.Granted? && AppliesTo(d, th, c, sid)
  }

  ghost predicate GrantedEntry(d: Data, th: Thread, h: Handle, x: Sub) {
    && GrantOf(th).Some? && GrantOf(th).value.Granted? && x.actual == GrantOf(th).value.actual
    && ((th.Subscribing? && h == th.h && x.url == th.url)
        || (th.Renewing? && exists actual :: SameEntry(d, h, x.(actual := actual))))
  }

  /** After a step every entry is as before, or as the grant applied to it says. */
  ghost predicate EntriesPass(d: Data, th: Thread, c: Choice, e: Effect<Thread>) {
    forall h, i :: InList(e.d, h, i) ==> EntryPasses(d, th, c, h, e.d.clients[h][i])
  }

  ghost predicate EntryPasses(d: Data, th: Thread, c: Choice, h: Handle, x: Sub) {
    if Grants(d, th, c, x.sid) then GrantedEntry(d, th, h, x) else SameEntry(d, h, x)
  }

  lemma SameListsPass(d: Data, th: Thread, c: Choice, e: Data)
    requires e.clients == d.clients && GrantOf(th).None?
    ensures forall h, i :: InList(e, h, i) ==> EntryPasses(d, th, c, h, e.clients[h][i])
  {
    forall h, i | InList(e, h, i) ensures EntryPasses(d, th, c, h, e.clients[h][i]) {
      assert EqualEntry(d.clients[h][i], e.clients[h][i]);
    }
  }

  lemma UnlinkEntries(d: Data, h: Handle, sid: string)
    ensures var e := Unlink(d, h, sid); forall k, i :: InList(e, k, i) ==> SameEntry(d, k, e.clients[k][i])
  {
    var e := Unlink(d, h, sid);
    forall k, i | InList(e, k, i) ensures SameEntry(d, k, e.clients[k][i]) {
      var j := if HasSub(d, h, sid) && k == h && i >= IndexOf(d.clients[h], sid) then i + 1 else i;
      assert EqualEntry(d.clients[k][j], e.clients[k][i]);
    }
  }

  lemma ReplaceEntries(d: Data, h: Handle, sid: string, sub: Sub)
    requires DataInv(d) && HasSub(d, h, sid) && sub.sid == sid
    ensures var e := ReplaceSub(d, h, sid, sub);
            forall k, i :: InList(e, k, i) ==>
              if e.clients[k][i].sid == sid then k == h && e.clients[k][i] == sub
              else SameEntry(d, k, e.clients[k][i])
    ensures SameEntry(d, h, SubOf(d, h, sid))
  {
    var e := ReplaceSub(d, h, sid, sub);
    SidHasHome(d, h, sid);
    assert EqualEntry(d.clients[h][IndexOf(d.clients[h], sid)], SubOf(d, h, sid));
    forall k, i | InList(e, k, i)
      ensures if e.clients[k][i].sid == sid then k == h && e.clients[k][i] == sub else SameEntry(d, k, e.clients[k][i])
    {
      assert ListOk(d, k);
      assert e.clients[k][i].sid == d.clients[k][i].sid;
      assert e.clients[k][i].sid != sid ==> EqualEntry(d.clients[k][i], e.clients[k][i]);
    }
  }

  lemma SubLinkEntries(d: Data, t: Tid, th: Thread, c: Choice)
    requires th.Subscribing? && th.spc.SubLink? && Permitted(d, th, c) && DataInv(d)
    ensures EntriesPass(d, th, c, ThreadStep(d, t, th, c))
  {
    var e := ThreadStep(d, t, th, c);
    forall h, i | InList(e.d, h, i) ensures EntryPasses(d, th, c, h, e.d.clients[h][i]) {
      var x := e.d.clients[h][i];
      if th.spc.ans.Granted? && th.h in d.clients && h == th.h {
        if i > 0 {
          assert ListOk(d, h);
          assert EqualEntry(d.clients[h][i - 1], x);
        }
      } else {
        assert ListOk(d, h);
        assert EqualEntry(d.clients[h][i], x);
      }
    }
  }

  lemma CopyEntries(d: Data, th: Thread, c: Choice, h: Handle, sid: string, arg: ArgId)
    requires DataInv(d) && HasSub(d, h, sid) && arg in d.args && GrantOf(th).None?
    ensures var e := CopyEventId(d, h, sid, arg);
            forall k, i :: InList(e, k, i) ==> EntryPasses(d, th, c, k, e.clients[k][i])
  {
    var sub := SubOf(d, h, sid);
    ReplaceEntries(d, h, sid, sub.(renewId := d.args[arg].eventId));
    var e := CopyEventId(d, h, sid, arg);
    forall k, i | InList(e, k, i) ensures EntryPasses(d, th, c, k, e.clients[k][i]) {
      if e.clients[k][i].sid == sid {
        SameButTimer(d, h, sub, e.clients[k][i]);
      }
    }
  }

  lemma SameButTimer(d: Data, h: Handle, x: Sub, y: Sub)
    requires SameEntry(d, h, x) && EqualEntry(x, y)
    ensures SameEntry(d, h, y)
  {
    var j :| 0 <= j < |d.clients[h]| && EqualEntry(d.clients[h][j], x);
    assert EqualEntry(d.clients[h][j], y);
  }

  lemma SubscribingEntries(d: Data, t: Tid, th: Thread, c: Choice)
    requires th.Subscribing? && Permitted(d, th, c) && DataInv(d) && ThreadOk(d, th)
    ensures EntriesPass(d, th, c, ThreadStep(d, t, th, c))
  {
    if th.spc.SubLink? {
      SubLinkEntries(d, t, th, c);
    } else if th.spc.SubCopyId? {
      CopyEntries(d, th, c, th.h, th.spc.sid, th.spc.arg);
    } else if th.spc.SubAnswered? {
      AnsweredEntries(d, th, c);
    } else {
      SameListsPass(d, th, c, ThreadStep(d, t, th, c).d);
    }
  }

  lemma AnsweredEntries(d: Data, th: Thread, c: Choice)
    requires (th.Subscribing? && th.spc.SubAnswered?) || (th.Renewing? && th.rpc.RenAnswered?)
    ensures forall h, i :: InList(d, h, i) ==> EntryPasses(d, th, c, h, d.clients[h][i])
  {
    forall h, i | InList(d, h, i) ensures EntryPasses(d, th, c, h, d.clients[h][i]) {
      assert EqualEntry(d.clients[h][i], d.clients[h][i]);
    }
  }

  lemma RenCheckEntries(d: Data, t: Tid, th: Thread, c: Choice)
    requires th.Renewing? && th.rpc.RenCheck? && Permitted(d, th, c) && DataInv(d)
    ensures EntriesPass(d, th, c, ThreadStep(d, t, th, c))
  {
    if HasSub(d, th.h, th.sid) {
      var sub := SubOf(d, th.h, th.sid);
      var d1 := Cancel(d, sub.renewId);
      CancelKeeps(d, sub.renewId);
      ReplaceEntries(d1, th.h, th.sid, sub.(renewId := -1));
      hide DataInv;
      var e := ThreadStep(d, t, th, c);
      forall k, i | InList(e.d, k, i) ensures EntryPasses(d, th, c, k, e.d.clients[k][i]) {
        if e.d.clients[k][i].sid == th.sid {
          SameButTimer(d, th.h, sub, e.d.clients[k][i]);
        }
      }
    } else {
      SameListsPass(d, th, c, d);
    }
  }

  lemma RenApplyEntries(d: Data, t: Tid, th: Thread, c: Choice)
    requires th.Renewing? && th.rpc.RenApply? && Permitted(d, th, c) && DataInv(d)
    ensures EntriesPass(d, th, c, ThreadStep(d, t, th, c))
  {
    var e := ThreadStep(d, t, th, c);
    var h, sid := th.h, th.sid;
    if h in d.clients && th.rpc.ans.Refused? {
      UnlinkEntries(d, h, sid);
    } else if HasSub(d, h, sid) && th.rpc.ans.Granted? {
      var sub := SubOf(d, h, sid);
      ReplaceEntries(d, h, sid, sub.(actual := th.rpc.ans.actual));
      hide DataInv, Unlink;
      forall k, i | InList(e.d, k, i) ensures EntryPasses(d, th, c, k, e.d.clients[k][i]) {
        if e.d.clients[k][i].sid == sid {
          assert SameEntry(d, h, sub) && e.d.clients[k][i].(actual := sub.actual) == sub;
        }
      }
    } else {
      forall k, i | InList(e.d, k, i) ensures EntryPasses(d, th, c, k, e.d.clients[k][i]) {
        assert EqualEntry(d.clients[k][i], e.d.clients[k][i]);
      }
    }
  }

  lemma RenewingEntries(d: Data, t: Tid, th: Thread, c: Choice)
    requires th.Renewing? && Permitted(d, th, c) && DataInv(d) && ThreadOk(d, th)
    ensures EntriesPass(d, th, c, ThreadStep(d, t, th, c))
  {
    if th.rpc.RenCheck? {
      RenCheckEntries(d, t, th, c);
    } else if th.rpc.RenApply? {
      RenApplyEntries(d, t, th, c);
    } else if th.rpc.RenCopyId? {
      CopyEntries(d, th, c, th.h, th.sid, th.rpc.arg);
    } else if th.rpc.RenAnswered? {
      AnsweredEntries(d, th, c);
    } else if th.rpc.RenSchedule? && c.ScheduleFailed? {
      UnlinkEntries(ScheduleFails(d, c.burnsId), th.h, th.sid);
    } else {
      SameListsPass(d, th, c, ThreadStep(d, t, th, c).d);
    }
  }

  lemma OtherEntries(d: Data, t: Tid, th: Thread, c: Choice)
    requires !th.Subscribing? && !th.Renewing? && Permitted(d, th, c)
    ensures EntriesPass(d, th, c, ThreadStep(d, t, th, c))
  {
    var e := ThreadStep(d, t, th, c);
    if th.UnSubscribing? && th.upc.UnsRemove? {
      UnlinkEntries(d, th.h, th.sid);
    } else if th.Unregistering? && th.gpc.UnrTake? && th.h in d.clients && d.clients[th.h] != [] {
      UnlinkEntries(d, th.h, d.clients[th.h][0].sid);
    }
    forall k, i | InList(e.d, k, i) ensures EntryPasses(d, th, c, k, e.d.clients[k][i]) {
      assert InList(d, k, i) ==> EqualEntry(d.clients[k][i], d.clients[k][i]);
    }
  }

  lemma EntriesDo(d: Data, t: Tid, th: Thread, c: Choice)
    requires Permitted(d, th, c) && DataInv(d) && ThreadOk(d, th)
    ensures EntriesPass(d, th, c, ThreadStep(d, t, th, c))
  {
    hide EntriesPass, ThreadStep, DataInv, ThreadOk, Permitted;
    match th
    case Subscribing(_, _, _) => SubscribingEntries(d, t, th, c);
    case Renewing(_, _, _, _) => RenewingEntries(d, t, th, c);
    case _ => OtherEntries(d, t, th, c);
  }

  // ---------------------------------------------------------------- finite and infinite times

  /** A renewal that a thread is about to schedule. */
  datatype Plan = Plan(sid: string, timeout: int)

  function PlanOf(th: Thread): Option<Plan> {
    match th
    case Subscribing(_, _, SubSchedule(sid, timeout)) => Some(Plan(sid, timeout))
    case Renewing(_, sid, _, RenSchedule(_, timeout)) => Some(Plan(sid, timeout))
    case _ => None
  }

  /** A thread that schedules decides whether the time is infinite, and no other step does; and a step
      that applies a grant goes on to schedule what it says. */
  ghost predicate TimePasses(d: Data, th: Thread, c: Choice, e: Effect<Thread>) {
    && (PlanOf(th).None? ==> e.d.unlimited == d.unlimited)
    && (PlanOf(th).Some? ==> PlanDone(d, th, c, e))
    && (PlanOf(e.pc).Some? ==>
          Grants(d, th, c, PlanOf(e.pc).value.sid) && GrantOf(th).value.timeout == PlanOf(e.pc).value.timeout)
    && (forall sid :: Grants(d, th, c, sid) ==> PlanOf(e.pc) == Some(Plan(sid, GrantOf(th).value.timeout)))
    && (c.Answered? ==> GrantOf(th).None? && GrantOf(e.pc) == Some(c.ans))
    && (!c.Answered? && GrantOf(e.pc).Some? ==> GrantOf(e.pc) == GrantOf(th))
    && (PlanOf(th).Some? || PlanOf(e.pc).Some? ==> HoldsWrite(th))
    && (th.Subscribing? && PlanOf(e.pc).Some? ==> PlanOf(e.pc).value.sid !in d.home)
    && (th.Subscribing? <==> e.pc.Subscribing?)
    && (PlanOf(th).Some? ==> HasSub(d, th.h, PlanOf(th).value.sid))
  }

  ghost predicate PlanDone(d: Data, th: Thread, c: Choice, e: Effect<Thread>)
    requires PlanOf(th).Some?
  {
    var p := PlanOf(th).value;
    && PlanOf(e.pc).None? && GrantOf(th).None?
    && (forall sid :: sid != p.sid ==> (sid in e.d.unlimited <==> sid in d.unlimited))
    && (c.Plain? ==> (p.sid in e.d.unlimited <==> p.timeout == INFINITE))
    && (!c.Plain? ==>
          p.timeout != INFINITE && e.d.unlimited == d.unlimited && (th.Renewing? ==> Gone(e.d, p.sid)))
  }

  lemma UnlinkTimes(d: Data, h: Handle, sid: string)
    ensures Unlink(d, h, sid).unlimited == d.unlimited
  {
  }

  lemma SubscribingTimes(d: Data, t: Tid, th: Thread, c: Choice)
    requires th.Subscribing? && Permitted(d, th, c) && ThreadOk(d, th)
    ensures TimePasses(d, th, c, ThreadStep(d, t, th, c))
  {
    hide Gone, ArgReady;
  }

  lemma RenScheduleTimes(d: Data, t: Tid, th: Thread, c: Choice)
    requires th.Renewing? && th.rpc.RenSchedule? && Permitted(d, th, c) && c.Plain? && HasSub(d, th.h, th.sid)
    ensures TimePasses(d, th, c, ThreadStep(d, t, th, c))
  {
    hide Unlink, Gone, HasSub;
  }

  lemma RenScheduleFailsTimes(d: Data, t: Tid, th: Thread, c: Choice)
    requires th.Renewing? && th.rpc.RenSchedule? && Permitted(d, th, c) && c.ScheduleFailed?
    requires DataInv(d) && HasSub(d, th.h, th.sid)
    ensures TimePasses(d, th, c, ThreadStep(d, t, th, c))
  {
    hide DataInv, Unlink, Gone, Evolves, HasSub;
    SidHasHome(d, th.h, th.sid);
    FailedUnlinkKeeps(d, c.burnsId, th.h, th.sid);
    UnlinkTimes(ScheduleFails(d, c.burnsId), th.h, th.sid);
  }

  lemma RenewingTimes(d: Data, t: Tid, th: Thread, c: Choice)
    requires th.Renewing? && !th.rpc.RenSchedule? && Permitted(d, th, c)
    ensures TimePasses(d, th, c, ThreadStep(d, t, th, c))
  {
    UnlinkTimes(d, th.h, th.sid);
    hide Unlink, Gone;
  }

  lemma OtherTimes(d: Data, t: Tid, th: Thread, c: Choice)
    requires !th.Subscribing? && !th.Renewing? && Permitted(d, th, c)
    ensures TimePasses(d, th, c, ThreadStep(d, t, th, c))
  {
    match th
    case UnSubscribing(h, sid, _) =>
      UnlinkTimes(d, h, sid);
      hide Unlink, Gone;
    case Unregistering(h, _) =>
      if h in d.clients && d.clients[h] != [] {
        UnlinkTimes(d, h, d.clients[h][0].sid);
      }
      hide Unlink, Gone;
    case Notifying(_, _, _) =>
  }

  lemma TimesDo(d: Data, t: Tid, th: Thread, c: Choice)
    requires Permitted(d, th, c) && DataInv(d) && ThreadOk(d, th)
    ensures TimePasses(d, th, c, ThreadStep(d, t, th, c))
  {
    assert th.Renewing? && th.rpc.RenSchedule? ==> HasSub(d, th.h, th.sid) && (c.Plain? || c.ScheduleFailed?);
    hide TimePasses, ThreadStep, DataInv, ThreadOk, Permitted;
    match th
    case Subscribing(_, _, _) => SubscribingTimes(d, t, th, c);
    case Renewing(_, _, _, pc) =>
      if pc.RenSchedule? && c.Plain? { RenScheduleTimes(d, t, th, c); }
      else if pc.RenSchedule? { RenScheduleFailsTimes(d, t, th, c); }
      else { RenewingTimes(d, t, th, c); }
    case _ => OtherTimes(d, t, th, c);
  }

  // ---------------------------------------------------------------- all runs

  /** A thread that holds a grant has it from its own request. */
  ghost predicate GrantsAreAnswers(ss: seq<State>, ls: seq<Step>, k: nat)
    requires k < |ss| && k <= |ls|
  {
    forall t :: t in ss[k].threads && GrantOf(ss[k].threads[t]).Some? ==>
      LastAnswer(ls, k, t) == GrantOf(ss[k].threads[t])
  }

  /** The entry holds what was granted last for its SID, and the URL it was entered for. */
  ghost predicate EntryOk(ss: seq<State>, ls: seq<Step>, k: nat, x: Sub)
    requires k <= |ls|
  {
    && Applied(ss, ls, k, x.sid).Some? && Applied(ss, ls, k, x.sid).value.Granted?
    && x.actual == Applied(ss, ls, k, x.sid).value.actual
    && Origin(ss, ls, k, x.sid) == Some(x.url)
  }

  ghost predicate EntriesOk(ss: seq<State>, ls: seq<Step>, k: nat)
    requires k < |ss| && k <= |ls|
  {
    forall h, i :: InList(ss[k].d, h, i) ==> EntryOk(ss, ls, k, ss[k].d.clients[h][i])
  }

  ghost predicate Plans(s: State, t: Tid, sid: string) {
    t in s.threads && PlanOf(s.threads[t]).Some? && PlanOf(s.threads[t]).value.sid == sid
  }

  /** A thread that is about to schedule has the timeout of the last grant. */
  ghost predicate PlansOk(ss: seq<State>, ls: seq<Step>, k: nat)
    requires k < |ss| && k <= |ls|
  {
    forall t :: t in ss[k].threads && PlanOf(ss[k].threads[t]).Some? ==>
      PlanOk(ss[k].d, ss[k].threads[t], Applied(ss, ls, k, PlanOf(ss[k].threads[t]).value.sid))
  }

  ghost predicate PlanOk(d: Data, th: Thread, applied: Option<Answer>)
    requires PlanOf(th).Some?
  {
    && applied.Some? && applied.value.Granted? && applied.value.timeout == PlanOf(th).value.timeout
    && (th.Subscribing? ==> PlanOf(th).value.sid !in d.unlimited)
  }

  /** Once the renewal of a listed subscription has been scheduled, its time counts as infinite if and
      only if the last grant applied to it says so. */
  ghost predicate TimeOk(ss: seq<State>, ls: seq<Step>, k: nat, h: Handle, sid: string)
    requires k < |ss| && k <= |ls|
  {
    HasSub(ss[k].d, h, sid) && (forall t :: !Plans(ss[k], t, sid)) ==>
      && Applied(ss, ls, k, sid).Some? && Applied(ss, ls, k, sid).value.Granted?
      && (sid in ss[k].d.unlimited <==> Applied(ss, ls, k, sid).value.timeout == INFINITE)
  }

  ghost predicate UnlimitedOk(d: Data) {
    forall sid :: sid in d.unlimited ==> sid in d.home
  }

  ghost predicate GrantInv(ss: seq<State>, ls: seq<Step>, k: nat)
    requires k < |ss| && k <= |ls|
  {
    && GrantsAreAnswers(ss, ls, k) && EntriesOk(ss, ls, k) && PlansOk(ss, ls, k)
    && UnlimitedOk(ss[k].d)
    && (forall h, sid :: TimeOk(ss, ls, k, h, sid))
  }

  /** The step as seen by the histories. */
  lemma AppliesIs(ss: seq<State>, ls: seq<Step>, k: nat, sid: string)
    requires k < |ls| < |ss| && GrantsAreAnswers(ss, ls, k) && ls[k].Run? && ls[k].t in ss[k].threads
    ensures var th := ss[k].threads[ls[k].t];
            && (AppliesAt(ss, ls, k, sid) <==> Grants(ss[k].d, th, ls[k].c, sid))
            && (Grants(ss[k].d, th, ls[k].c, sid) ==> LastAnswer(ls, k, ls[k].t) == GrantOf(th))
            && Applied(ss, ls, k + 1, sid)
               == (if Grants(ss[k].d, th, ls[k].c, sid) then GrantOf(th) else Applied(ss, ls, k, sid))
            && Origin(ss, ls, k + 1, sid)
               == if Grants(ss[k].d, th, ls[k].c, sid) && th.Subscribing? then Some(th.url) else Origin(ss, ls, k, sid)
  {
    hide HasSub;
  }

  /** A step of a thread in a run, with what is known about it. */
  ghost predicate GoodStep(ss: seq<State>, ls: seq<Step>, k: nat, e: Effect<Thread>)
    requires k < |ls| < |ss|
  {
    && ls[k].Run? && ls[k].t in ss[k].threads && ss[k + 1] == After(ss[k], ls[k].t, e)
    && SysInv(ss[k]) && DataInv(e.d) && Evolves(ss[k].d, e.d, Frees(ss[k].threads[ls[k].t]))
    && EntriesPass(ss[k].d, ss[k].threads[ls[k].t], ls[k].c, e)
    && TimePasses(ss[k].d, ss[k].threads[ls[k].t], ls[k].c, e)
  }

  lemma AnswersStay(ss: seq<State>, ls: seq<Step>, k: nat, e: Effect<Thread>)
    requires k < |ls| < |ss| && GoodStep(ss, ls, k, e) && GrantsAreAnswers(ss, ls, k)
    ensures GrantsAreAnswers(ss, ls, k + 1)
  {
    hide SysInv, DataInv, Evolves, EntriesPass, Grants, PlanDone;
  }

  lemma EntriesStay(ss: seq<State>, ls: seq<Step>, k: nat, e: Effect<Thread>)
    requires k < |ls| < |ss| && GoodStep(ss, ls, k, e) && GrantsAreAnswers(ss, ls, k) && EntriesOk(ss, ls, k)
    ensures EntriesOk(ss, ls, k + 1)
  {
    hide SysInv, DataInv, Evolves, TimePasses, Applied, Origin, AppliesAt, LastAnswer, GrantsAreAnswers;
    var th, c := ss[k].threads[ls[k].t], ls[k].c;
    var n := k + 1;
    forall h, i | InList(e.d, h, i) ensures EntryOk(ss, ls, n, e.d.clients[h][i]) {
      var x := e.d.clients[h][i];
      assert EntryPasses(ss[k].d, th, c, h, x);
      AppliesIs(ss, ls, k, x.sid);
      EntryStays(ss, ls, k, h, x);
    }
  }

  lemma EntryStays(ss: seq<State>, ls: seq<Step>, k: nat, h: Handle, x: Sub)
    requires k < |ls| < |ss| && ls[k].Run? && ls[k].t in ss[k].threads && EntriesOk(ss, ls, k)
    requires EntryPasses(ss[k].d, ss[k].threads[ls[k].t], ls[k].c, h, x)
    requires var th := ss[k].threads[ls[k].t];
             && Applied(ss, ls, k + 1, x.sid)
                == (if Grants(ss[k].d, th, ls[k].c, x.sid) then GrantOf(th) else Applied(ss, ls, k, x.sid))
             && Origin(ss, ls, k + 1, x.sid)
                == (if Grants(ss[k].d, th, ls[k].c, x.sid) && th.Subscribing? then Some(th.url)
                    else Origin(ss, ls, k, x.sid))
    ensures EntryOk(ss, ls, k + 1, x)
  {
    hide Applied, Origin, AppliesAt, LastAnswer, Grants;
    var d, th := ss[k].d, ss[k].threads[ls[k].t];
    if !Grants(d, th, ls[k].c, x.sid) {
      var j :| 0 <= j < |d.clients[h]| && EqualEntry(d.clients[h][j], x);
      assert InList(d, h, j);
    } else if th.Renewing? {
      var actual :| SameEntry(d, h, x.(actual := actual));
      var j :| 0 <= j < |d.clients[h]| && EqualEntry(d.clients[h][j], x.(actual := actual));
      assert InList(d, h, j);
    }
  }

  /** While one thread is about to schedule, no other applies a grant or schedules. */
  lemma PlannerIsAlone(s: State, t: Tid, u: Tid, c: Choice, e: Effect<Thread>)
    requires SysInv(s) && t in s.threads && u in s.threads && t != u && PlanOf(s.threads[u]).Some?
    requires TimePasses(s.d, s.threads[t], c, e)
    ensures PlanOf(s.threads[t]).None? && PlanOf(e.pc).None? && forall sid :: !Grants(s.d, s.threads[t], c, sid)
  {
    assert HoldsWrite(s.threads[u]);
    hide DataInv, Grants;
  }

  lemma PlansStay(ss: seq<State>, ls: seq<Step>, k: nat, e: Effect<Thread>)
    requires k < |ls| < |ss| && GoodStep(ss, ls, k, e) && GrantsAreAnswers(ss, ls, k) && PlansOk(ss, ls, k)
    requires UnlimitedOk(ss[k].d)
    ensures PlansOk(ss, ls, k + 1)
  {
    hide SysInv, DataInv, Evolves, EntriesPass, Applied, Origin, AppliesAt, LastAnswer, GrantsAreAnswers;
    var s, s', t := ss[k], ss[k + 1], ls[k].t;
    forall u | u in s'.threads && PlanOf(s'.threads[u]).Some?
      ensures PlanOk(s'.d, s'.threads[u], Applied(ss, ls, k + 1, PlanOf(s'.threads[u]).value.sid))
    {
      AppliesIs(ss, ls, k, PlanOf(s'.threads[u]).value.sid);
      if u != t {
        PlannerIsAlone(s, t, u, ls[k].c, e);
      }
      hide Grants;
    }
  }

  lemma TimesStay(ss: seq<State>, ls: seq<Step>, k: nat, e: Effect<Thread>, h: Handle, sid: string)
    requires k < |ls| < |ss| && GoodStep(ss, ls, k, e) && GrantsAreAnswers(ss, ls, k) && PlansOk(ss, ls, k)
    requires TimeOk(ss, ls, k, h, sid)
    ensures TimeOk(ss, ls, k + 1, h, sid)
  {
    hide SysInv, DataInv, Evolves, Applied, Origin, AppliesAt, LastAnswer, GrantsAreAnswers, Gone;
    var s, s', t, c := ss[k], ss[k + 1], ls[k].t, ls[k].c;
    var th := s.threads[t];
    if HasSub(s'.d, h, sid) && forall u :: !Plans(s', u, sid) {
      SidHasHome(e.d, h, sid);
      AppliesIs(ss, ls, k, sid);
      assert !Grants(s.d, th, c, sid) by {
        assert !Plans(s', t, sid);
      }
      ListedAsBefore(s.d, th, c, e, h, sid);
      hide Grants, EntriesPass;
      if PlanOf(th).Some? && PlanOf(th).value.sid == sid {
        assert PlanOk(s.d, th, Applied(ss, ls, k, sid));
      } else {
        assert forall u :: Plans(s, u, sid) ==> Plans(s', u, sid);
      }
    }
  }

  lemma ListedAsBefore(d: Data, th: Thread, c: Choice, e: Effect<Thread>, h: Handle, sid: string)
    requires EntriesPass(d, th, c, e) && HasSub(e.d, h, sid) && !Grants(d, th, c, sid)
    ensures HasSub(d, h, sid)
  {
    var i := IndexOf(e.d.clients[h], sid);
    assert InList(e.d, h, i) && e.d.clients[h][i].sid == sid;
    var x := e.d.clients[h][i];
    assert EntryPasses(d, th, c, h, x);
    var j :| 0 <= j < |d.clients[h]| && EqualEntry(d.clients[h][j], x);
    assert d.clients[h][j].sid == sid;
  }

  lemma ThreadStepKeepsGrants(ss: seq<State>, ls: seq<Step>, k: nat, e: Effect<Thread>)
    requires k < |ls| < |ss| && GoodStep(ss, ls, k, e) && GrantInv(ss, ls, k)
    ensures GrantInv(ss, ls, k + 1)
  {
    hide Grants, GrantsAreAnswers, EntriesOk, PlansOk, TimeOk, GoodStep, UnlimitedOk;
    AnswersStay(ss, ls, k, e);
    EntriesStay(ss, ls, k, e);
    PlansStay(ss, ls, k, e);
    var n := k + 1;
    forall h, sid ensures TimeOk(ss, ls, n, h, sid) {
      TimesStay(ss, ls, k, e, h, sid);
    }
    UnlimitedIssued(ss, ls, k, e);
  }

  lemma UnlimitedIssued(ss: seq<State>, ls: seq<Step>, k: nat, e: Effect<Thread>)
    requires k < |ls| < |ss| && GoodStep(ss, ls, k, e)
    requires UnlimitedOk(ss[k].d)
    ensures UnlimitedOk(ss[k + 1].d)
  {
    var th := ss[k].threads[ls[k].t];
    if PlanOf(th).Some? {
      SidHasHome(ss[k].d, th.h, PlanOf(th).value.sid);
    }
    hide SysInv, DataInv, EntriesPass, Grants;
  }

  lemma OtherStepKeepsGrants(ss: seq<State>, ls: seq<Step>, k: nat)
    requires k < |ls| < |ss| && Enabled(ss[k], ls[k]) && ss[k + 1] == Apply(ss[k], ls[k]) && !ls[k].Run?
    requires GrantInv(ss, ls, k)
    ensures GrantInv(ss, ls, k + 1)
  {
    var s, s' := ss[k], ss[k + 1];
    assert forall t :: LastAnswer(ls, k + 1, t) == LastAnswer(ls, k, t);
    assert forall sid :: Applied(ss, ls, k + 1, sid) == Applied(ss, ls, k, sid);
    assert forall sid :: Origin(ss, ls, k + 1, sid) == Origin(ss, ls, k, sid);
    QuietThreads(s, ls[k]);
    hide Applied, Origin, LastAnswer, Enabled, Apply;
    var n := k + 1;
    forall h, sid ensures TimeOk(ss, ls, n, h, sid) {
      assert TimeOk(ss, ls, k, h, sid);
      assert forall t :: Plans(s', t, sid) <==> Plans(s, t, sid);
    }
    forall h, i | InList(s'.d, h, i) ensures EntryOk(ss, ls, n, s'.d.clients[h][i]) {
      assert InList(s.d, h, i) && EntryOk(ss, ls, k, s.d.clients[h][i]);
    }
  }

  lemma QuietThreads(s: State, l: Step)
    requires Enabled(s, l) && !l.Run?
    ensures var s' := Apply(s, l);
            && s'.d.unlimited == s.d.unlimited && s'.d.home == s.d.home
            && (forall t :: t in s.threads ==> t in s'.threads && s'.threads[t] == s.threads[t])
            && (forall t :: t in s'.threads && t !in s.threads ==>
                  GrantOf(s'.threads[t]).None? && PlanOf(s'.threads[t]).None?)
            && (forall h, i :: InList(s'.d, h, i) ==> InList(s.d, h, i) && s'.d.clients[h][i] == s.d.clients[h][i])
            && (forall h, sid :: HasSub(s'.d, h, sid) ==> HasSub(s.d, h, sid))
  {
    var s' := Apply(s, l);
    forall h, sid | HasSub(s'.d, h, sid) ensures HasSub(s.d, h, sid) {
      assert h in s.d.clients ==> s'.d.clients[h] == s.d.clients[h];
    }
  }

  lemma NothingGranted(ss: seq<State>, ls: seq<Step>)
    requires |ss| == |ls| + 1 && ss[0] == INITIAL
    ensures GrantInv(ss, ls, 0)
  {
  }

  /** In every state of every run. */
  lemma {:induction false} RunKeepsGrants(ss: seq<State>, ls: seq<Step>, k: nat)
    requires IsRun(ss, ls) && k < |ss|
    ensures GrantInv(ss, ls, k)
  {
    hide IsPath, Enabled, Apply, SysInv, GrantInv;
    if k > 0 {
      StepOf(ss, ls, k - 1);
      RunKeepsGrants(ss, ls, k - 1);
      if ls[k - 1].Run? {
        var e := RunIsGood(ss, ls, k - 1);
        ThreadStepKeepsGrants(ss, ls, k - 1, e);
      } else {
        OtherStepKeepsGrants(ss, ls, k - 1);
      }
    } else {
      NothingGranted(ss, ls);
    }
  }

  lemma RunIsGood(ss: seq<State>, ls: seq<Step>, k: nat) returns (e: Effect<Thread>)
    requires IsRun(ss, ls) && k < |ls| && ls[k].Run?
    ensures GoodStep(ss, ls, k, e)
  {
    hide IsPath;
    StepOf(ss, ls, k);
    RunKeepsInv(ss, ls, k);
    var s, t, c := ss[k], ls[k].t, ls[k].c;
    e := ThreadStep(s.d, t, s.threads[t], c);
    LocalKeeps(s.d, t, s.threads[t], c);
    EntriesDo(s.d, t, s.threads[t], c);
    TimesDo(s.d, t, s.threads[t], c);
    hide ThreadStep, Permitted, DataInv, EntriesPass, TimePasses, ThreadOk;
  }

  // ---------------------------------------------------------------- the results

  /** In every state of every run a listed subscription holds the publisher SID of the last grant that was
      applied to it, by the subscribe that entered it or by a renewal since, and the URL it was entered
      for. */
  lemma EntryHoldsLastGrant(ss: seq<State>, ls: seq<Step>, k: nat, h: Handle, i: int)
    requires IsRun(ss, ls) && k < |ss| && InList(ss[k].d, h, i)
    ensures var x := ss[k].d.clients[h][i];
            && Applied(ss, ls, k, x.sid).Some? && Applied(ss, ls, k, x.sid).value.Granted?
            && x.actual == Applied(ss, ls, k, x.sid).value.actual
            && Origin(ss, ls, k, x.sid) == Some(x.url)
  {
    RunKeepsGrants(ss, ls, k);
    assert EntryOk(ss, ls, k, ss[k].d.clients[h][i]);
  }

  /** In every state of every run a listed subscription, unless its renewal is just being scheduled, counts
      as infinite if and only if the last grant applied to it was for an infinite time. */
  lemma InfiniteIffGranted(ss: seq<State>, ls: seq<Step>, k: nat, h: Handle, sid: string)
    requires IsRun(ss, ls) && k < |ss| && HasSub(ss[k].d, h, sid) && forall t :: !Plans(ss[k], t, sid)
    ensures Applied(ss, ls, k, sid).Some? && Applied(ss, ls, k, sid).value.Granted?
    ensures sid in ss[k].d.unlimited <==> Applied(ss, ls, k, sid).value.timeout == INFINITE
  {
    RunKeepsGrants(ss, ls, k);
    assert TimeOk(ss, ls, k, h, sid);
  }

  /** So the cover law holds for every grant of a finite time: in a run in which no renewal looks at a
      subscription while another one is in flight, a listed subscription whose last grant was for a finite
      time has a pending timer or a renewal in flight, or has been cancelled, or its job was refused. */
  lemma FiniteGrantIsCovered(ss: seq<State>, ls: seq<Step>, k: nat, h: Handle, sid: string)
    requires IsRun(ss, ls) && k < |ss| && ExclusiveUpTo(ss, ls, k) && HasSub(ss[k].d, h, sid)
    requires Applied(ss, ls, k, sid).Some? && Applied(ss, ls, k, sid).value.Granted?
    requires Applied(ss, ls, k, sid).value.timeout != INFINITE
    ensures IsCovered(ss[k], sid) || exists m :: Stranded(ss, ls, m, k, sid)
  {
    if t :| Plans(ss[k], t, sid) {
      assert Carries(ss[k], ThreadCarrier(t), sid);
    } else {
      InfiniteIffGranted(ss, ls, k, h, sid);
      CoveredUnlessRefused(ss, ls, k, h, sid);
    }
  }
}
