/** What every operation asks the publisher, what it returns, and whom it tells: told by what the thread
    was answered and what it saw under the lock, in every run. */
module GenaOutcomes {
  import opened Upnp
  import opened GenaModel
  import opened GenaData
  import opened GenaInvariant
  import opened GenaSystem
  import opened GenaGrants

  /** The history of one thread: the publisher's answer to its SUBSCRIBE, the result of its UNSUBSCRIBE, the
      code with which its scheduling failed, the error for a client or subscription that it missed, whether
      it applied its grant, the entry for which it has to ask the publisher, and whether it saw its client
      registered when it came to report a failure. */
  datatype History = History(
    answer: Option<Answer>, reply: Option<int>, failed: Option<int>, missed: Option<int>,
    applied: bool, entry: Option<Sub>, registered: Option<bool>)

  const NO_HISTORY := History(None, None, None, None, false, None, None)

  /** The error for what is missing in the data: the client, or its subscription. */
  function Missing(d: Data, h: Handle, sid: string): Option<int> {
    if h !in d.clients then Some(UPNP_E_INVALID_HANDLE)
    else if !HasSid(d.clients[h], sid) then Some(UPNP_E_INVALID_SID)
    else None
  }

  function MissingClient(d: Data, h: Handle): Option<int> {
    if h !in d.clients then Some(UPNP_E_INVALID_HANDLE) else None
  }

  predicate IsGranted(answer: Option<Answer>) {
    answer.Some? && answer.value.Granted?
  }

  /** What a step adds to the history of its thread. */
  function Learn(w: History, d: Data, th: Thread, c: Choice): History {
    match c
    case Answered(ans) => w.(answer := Some(ans))
    case Replied(code) => w.(reply := Some(code), entry := None)
    case ScheduleFailed(code, _) => w.(failed := Some(code))
    case _ =>
      match th
      case Subscribing(h, _, pc) =>
        if pc.SubCheck? || (pc.SubLink? && IsGranted(w.answer)) then w.(missed := MissingClient(d, h)) else w
      case Renewing(h, sid, _, pc) =>
        if pc.RenCheck? then
          w.(missed := Missing(d, h, sid), entry := if HasSub(d, h, sid) then Some(SubOf(d, h, sid)) else None)
        else if pc.RenApply? then
          if IsGranted(w.answer) then w.(missed := Missing(d, h, sid), applied := Missing(d, h, sid).None?)
          else w.(missed := MissingClient(d, h))
        else if pc.JobCheck? then w.(registered := Some(h in d.clients))
        else w
      case UnSubscribing(h, sid, pc) =>
        if pc.UnsCheck? then
          w.(missed := Missing(d, h, sid), entry := if HasSub(d, h, sid) then Some(SubOf(d, h, sid)) else None)
        else if pc.UnsRemove? then w.(missed := MissingClient(d, h))
        else w
      case Unregistering(h, pc) =>
        if pc.UnrTake? then
          w.(missed := MissingClient(d, h),
             entry := if h in d.clients && d.clients[h] != [] then Some(d.clients[h][0]) else None)
        else if pc.UnrFree? then w.(missed := MissingClient(d, h))
        else w
      case Notifying(_, _, _) => w
  }

  ghost function HistoryOf(ss: seq<State>, ls: seq<Step>, k: nat, t: Tid): History
    requires k <= |ls| <= |ss|
  {
    if k == 0 then NO_HISTORY
    else if ls[k - 1].Run? && ls[k - 1].t == t && t in ss[k - 1].threads
    then Learn(HistoryOf(ss, ls, k - 1, t), ss[k - 1].d, ss[k - 1].threads[t], ls[k - 1].c)
    else HistoryOf(ss, ls, k - 1, t)
  }

  /** The result of a subscribe or renewal: what it missed, else the code with which its scheduling failed,
      else the code with which the publisher refused, else success. */
  ghost predicate AnswerIs(rc: int, w: History) {
    if w.missed.Some? then rc == w.missed.value
    else if w.failed.Some? then rc == w.failed.value
    else w.answer.Some? && rc == if w.answer.value.Refused? then w.answer.value.code else UPNP_E_SUCCESS
  }

  /** A successful renewal has applied its grant. */
  ghost predicate RenewalIs(rc: int, w: History) {
    AnswerIs(rc, w) && (w.missed.None? && w.failed.None? && IsGranted(w.answer) ==> w.applied)
  }

  /** A request goes to the publisher of the entry that was seen, under its publisher SID. */
  predicate AsksFor(copy: Sub, entry: Option<Sub>) {
    entry.Some? && EqualEntry(copy, entry.value)
  }

  /** The application is told of a failed auto-renewal once, if its client was registered when the job came
      to report, and a job comes to report exactly if there is something to report. */
  ghost predicate Told(rc: int, w: History, told: nat) {
    (w.registered.Some? <==> Reports(rc)) && told == if w.registered == Some(true) then 1 else 0
  }

  // ---------------------------------------------------------------- one thread's step

  ghost predicate SubscribeOk(pc: SubPc, w: History) {
    && w.reply.None? && w.entry.None? && w.registered.None? && !w.applied
    && match pc
       case SubStart => w == NO_HISTORY
       case SubCheck => w == NO_HISTORY
       case SubBadHandle => w.missed == Some(UPNP_E_INVALID_HANDLE)
       case SubUnlockRead => w.missed == Some(UPNP_E_INVALID_HANDLE)
       case SubWantMutex => w == NO_HISTORY
       case SubRequest => w == NO_HISTORY
       case SubAnswered(ans) => w == NO_HISTORY.(answer := Some(ans))
       case SubLink(ans) => w == NO_HISTORY.(answer := Some(ans))
       case SubSchedule(_, timeout) =>
         w.missed.None? && w.failed.None? && IsGranted(w.answer) && w.answer.value.timeout == timeout
       case SubCopyId(_, _) => w.missed.None? && w.failed.None? && IsGranted(w.answer)
       case SubFailed(_, rc) => w.failed == Some(rc)
       case SubUnlock(rc, _) => AnswerIs(rc, w)
       case SubUnlockMutex(rc, _) => AnswerIs(rc, w)
       case SubDone(rc, _) => AnswerIs(rc, w)
  }

  ghost predicate RenewOk(pc: RenPc, job: bool, w: History, told: nat) {
    && w.reply.None?
    && match pc
       case RenStart => w == NO_HISTORY && told == 0
       case RenCheck => w == NO_HISTORY && told == 0
       case RenRequest(copy) => AsksFor(copy, w.entry) && w == NO_HISTORY.(entry := w.entry) && told == 0
       case RenAnswered(_, ans) => w == NO_HISTORY.(entry := w.entry, answer := Some(ans)) && told == 0
       case RenApply(_, ans) => w == NO_HISTORY.(entry := w.entry, answer := Some(ans)) && told == 0
       case RenSchedule(_, timeout) =>
         && w.missed.None? && w.failed.None? && IsGranted(w.answer) && w.answer.value.timeout == timeout
         && w.applied && w.registered.None? && told == 0
       case RenCopyId(_, _) =>
         w.missed.None? && w.failed.None? && IsGranted(w.answer) && w.applied && w.registered.None? && told == 0
       case RenFreeCopy(_, rc) => RenewalIs(rc, w) && w.registered.None? && told == 0
       case JobWantRead(rc) => RenewalIs(rc, w) && w.registered.None? && told == 0 && job && Reports(rc)
       case JobCheck(rc) => RenewalIs(rc, w) && w.registered.None? && told == 0 && job && Reports(rc)
       case JobCallback(rc) => RenewalIs(rc, w) && w.registered == Some(true) && told == 0 && job && Reports(rc)
       case JobFree(rc) => RenewalIs(rc, w) && Told(rc, w, told) && job
       case RenDone(rc) => RenewalIs(rc, w) && if job then Told(rc, w, told) else w.registered.None? && told == 0
  }

  ghost predicate UnSubscribeOk(pc: UnsPc, w: History) {
    match pc
    case UnsStart => w == NO_HISTORY
    case UnsCheck => w == NO_HISTORY
    case UnsRequest(copy) => AsksFor(copy, w.entry) && w == NO_HISTORY.(entry := w.entry)
    case UnsFreeCopy(_, rc) => w == NO_HISTORY.(reply := Some(rc))
    case UnsWantWrite(rc) => w == NO_HISTORY.(reply := Some(rc))
    case UnsRemove(rc) => w == NO_HISTORY.(reply := Some(rc))
    case UnsDone(rc) => if w.missed.Some? then rc == w.missed.value else w.reply == Some(rc)
  }

  ghost predicate UnregisterOk(pc: UnrPc, w: History) {
    match pc
    case UnrStart => w.missed.None? && w.entry.None?
    case UnrTake => w.missed.None? && w.entry.None?
    case UnrRequest(copy) => w.missed.None? && AsksFor(copy, w.entry)
    case UnrFreeCopy(_) => w.missed.None? && w.entry.None?
    case UnrWantFree => w.missed.None? && w.entry.None?
    case UnrFree => w.missed.None? && w.entry.None?
    case UnrDone(rc) => w.entry.None? && rc == if w.missed.Some? then w.missed.value else UPNP_E_SUCCESS
  }

  ghost predicate HistoryOk(th: Thread, w: History, told: nat) {
    match th
    case Subscribing(_, _, pc) => SubscribeOk(pc, w) && told == 0
    case Renewing(_, _, job, pc) => RenewOk(pc, job.Some?, w, told)
    case UnSubscribing(_, _, pc) => UnSubscribeOk(pc, w) && told == 0
    case Unregistering(_, pc) => UnregisterOk(pc, w) && told == 0
    case Notifying(_, _, _) => told == 0
  }

  function Tells(cb: Option<Callback>): nat {
    if cb.Some? && cb.value.AutoRenewalFailed? then 1 else 0
  }

  /** A failure is reported for the client and the SID of the renewal. */
  predicate TellsOwn(th: Thread, t: Tid, cb: Option<Callback>) {
    cb.Some? && cb.value.AutoRenewalFailed? ==> th.Renewing? && cb.value == AutoRenewalFailed(t, th.h, th.sid)
  }

  ghost predicate Learns(d: Data, t: Tid, th: Thread, c: Choice, w: History, told: nat)
    requires Permitted(d, th, c)
  {
    var e := ThreadStep(d, t, th, c);
    HistoryOk(e.pc, Learn(w, d, th, c), told + Tells(e.cb)) && TellsOwn(th, t, e.cb)
  }

  lemma SubscribeLearns(d: Data, t: Tid, th: Thread, c: Choice, w: History, told: nat)
    requires th.Subscribing? && Permitted(d, th, c) && HistoryOk(th, w, told)
    ensures Learns(d, t, th, c, w, told)
  {
    hide Link, Schedule, ScheduleFails, CopyEventId;
  }

  lemma RenewLearns(d: Data, t: Tid, th: Thread, c: Choice, w: History, told: nat)
    requires th.Renewing? && Permitted(d, th, c) && HistoryOk(th, w, told)
    requires th.rpc.RenAnswered? || th.rpc.RenApply? ==> th.rpc.ans.Refused? ==> th.rpc.ans.code != UPNP_E_SUCCESS
    requires th.rpc.JobWantRead? || th.rpc.JobCheck? || th.rpc.JobCallback? || th.rpc.JobFree? ==> th.job.Some?
    ensures Learns(d, t, th, c, w, told)
  {
    hide Schedule, ScheduleFails, CopyEventId, TakeTimer, Unlink, ReplaceSub, FreeSub, FreeArg;
  }

  lemma UnSubscribeLearns(d: Data, t: Tid, th: Thread, c: Choice, w: History, told: nat)
    requires th.UnSubscribing? && Permitted(d, th, c) && HistoryOk(th, w, told)
    ensures Learns(d, t, th, c, w, told)
  {
    hide Unlink, FreeSub;
  }

  lemma UnregisterLearns(d: Data, t: Tid, th: Thread, c: Choice, w: History, told: nat)
    requires th.Unregistering? && Permitted(d, th, c) && HistoryOk(th, w, told)
    ensures Learns(d, t, th, c, w, told)
  {
    hide Unlink, FreeSub;
  }

  lemma NotifyLearns(d: Data, t: Tid, th: Thread, c: Choice, w: History, told: nat)
    requires th.Notifying? && Permitted(d, th, c) && HistoryOk(th, w, told)
    ensures Learns(d, t, th, c, w, told)
  {
    hide FirstClient, Found;
  }

  lemma ThreadLearns(d: Data, t: Tid, th: Thread, c: Choice, w: History, told: nat)
    requires Permitted(d, th, c) && ThreadOk(d, th) && HistoryOk(th, w, told)
    ensures Learns(d, t, th, c, w, told)
  {
    match th
    case Subscribing(_, _, _) =>
      hide ThreadOk, Learns, HistoryOk, Permitted;
      SubscribeLearns(d, t, th, c, w, told);
    case Renewing(_, _, _, _) =>
      hide Learns, HistoryOk, Permitted;
      RenewLearns(d, t, th, c, w, told);
    case UnSubscribing(_, _, _) =>
      hide ThreadOk, Learns, HistoryOk, Permitted;
      UnSubscribeLearns(d, t, th, c, w, told);
    case Unregistering(_, _) =>
      hide ThreadOk, Learns, HistoryOk, Permitted;
      UnregisterLearns(d, t, th, c, w, told);
    case Notifying(_, _, _) =>
      hide ThreadOk, Learns, HistoryOk, Permitted;
      NotifyLearns(d, t, th, c, w, told);
  }

  // ---------------------------------------------------------------- all runs

  /** How often thread t has reported a failed auto-renewal. */
  ghost function Failures(log: seq<Callback>, t: Tid): nat {
    if log == [] then 0 else
    var x := log[|log| - 1];
    Failures(log[..|log| - 1], t) + if x.AutoRenewalFailed? && x.who == t then 1 else 0
  }

  /** What thread t knows, and that it has reported for its own client and SID only. */
  ghost predicate Knows(ss: seq<State>, ls: seq<Step>, k: nat, t: Tid)
    requires k <= |ls| < |ss|
  {
    var s := ss[k];
    && (t in s.threads ==> HistoryOk(s.threads[t], HistoryOf(ss, ls, k, t), Failures(s.log, t)))
    && (t !in s.threads ==> HistoryOf(ss, ls, k, t) == NO_HISTORY && Failures(s.log, t) == 0)
    && (forall a :: 0 <= a < |s.log| && s.log[a].AutoRenewalFailed? && s.log[a].who == t ==>
          ReportedOwn(s, t, s.log[a]))
  }

  ghost predicate ReportedOwn(s: State, t: Tid, x: Callback) {
    t in s.threads && s.threads[t].Renewing? && x == AutoRenewalFailed(t, s.threads[t].h, s.threads[t].sid)
  }

  lemma FailuresOneMore(log: seq<Callback>, x: Callback, t: Tid)
    ensures Failures(log + [x], t) == Failures(log, t) + if x.AutoRenewalFailed? && x.who == t then 1 else 0
    ensures Failures(log + [], t) == Failures(log, t)
  {
    assert (log + [x])[..|log|] == log && log + [] == log;
  }

  lemma IdentityStays(s: State, l: Step, t: Tid)
    requires Enabled(s, l) && t in s.threads && s.threads[t].Renewing?
    ensures var s' := Apply(s, l);
            && t in s'.threads && s'.threads[t].Renewing?
            && s'.threads[t].h == s.threads[t].h && s'.threads[t].sid == s.threads[t].sid
  {
    hide RenewStep, SubscribeStep, UnSubscribeStep, UnregisterStep, NotifyStep, Permitted;
  }

  /** A step of the thread itself. */
  lemma OwnStepKnows(ss: seq<State>, ls: seq<Step>, k: nat, t: Tid)
    requires k < |ls| < |ss| && SysInv(ss[k]) && Enabled(ss[k], ls[k]) && ss[k + 1] == Apply(ss[k], ls[k])
    requires ls[k].Run? && ls[k].t == t && Knows(ss, ls, k, t)
    ensures Knows(ss, ls, k + 1, t)
  {
    var s, s', c := ss[k], ss[k + 1], ls[k].c;
    var th := s.threads[t];
    var e := ThreadStep(s.d, t, th, c);
    assert ThreadOk(s.d, th);
    hide SysInv;
    ThreadLearns(s.d, t, th, c, HistoryOf(ss, ls, k, t), Failures(s.log, t));
    if th.Renewing? {
      IdentityStays(s, ls[k], t);
    }
    if e.cb.Some? {
      FailuresOneMore(s.log, e.cb.value, t);
    } else {
      assert s'.log == s.log;
    }
    hide ThreadStep, ThreadOk, Permitted, HistoryOk, Learn, Failures;
    assert forall a :: 0 <= a < |s.log| ==> s'.log[a] == s.log[a];
  }

  /** A step of anything else. */
  lemma OtherStepKnows(ss: seq<State>, ls: seq<Step>, k: nat, t: Tid)
    requires k < |ls| < |ss| && Enabled(ss[k], ls[k]) && ss[k + 1] == Apply(ss[k], ls[k])
    requires SysInv(ss[k]) && !(ls[k].Run? && ls[k].t == t) && Knows(ss, ls, k, t)
    ensures Knows(ss, ls, k + 1, t)
  {
    var s, s', l := ss[k], ss[k + 1], ls[k];
    assert t !in s.threads && t in s'.threads ==> HistoryOk(s'.threads[t], NO_HISTORY, 0);
    if l.Run? {
      var th := s.threads[l.t];
      OwnCallback(s.d, l.t, th, l.c);
      var e := ThreadStep(s.d, l.t, th, l.c);
      if e.cb.Some? {
        FailuresOneMore(s.log, e.cb.value, t);
      } else {
        assert s'.log == s.log;
      }
    }
    hide ThreadStep, Permitted, HistoryOk, Learn, Failures, SysInv;
    assert forall a :: 0 <= a < |s.log| ==> s'.log[a] == s.log[a];
  }

  lemma OwnCallback(d: Data, t: Tid, th: Thread, c: Choice)
    requires Permitted(d, th, c)
    ensures var e := ThreadStep(d, t, th, c); e.cb.Some? ==> e.cb.value.who == t
  {
  }

  lemma NothingKnown(ss: seq<State>, ls: seq<Step>, t: Tid)
    requires |ss| == |ls| + 1 && ss[0] == INITIAL
    ensures Knows(ss, ls, 0, t)
  {
  }

  lemma {:induction false} RunKnows(ss: seq<State>, ls: seq<Step>, k: nat, t: Tid)
    requires IsRun(ss, ls) && k < |ss|
    ensures Knows(ss, ls, k, t)
  {
    hide IsPath, Enabled, Apply, SysInv, Knows;
    if k > 0 {
      StepOf(ss, ls, k - 1);
      RunKnows(ss, ls, k - 1, t);
      RunKeepsInv(ss, ls, k - 1);
      if ls[k - 1].Run? && ls[k - 1].t == t {
        OwnStepKnows(ss, ls, k - 1, t);
      } else {
        OtherStepKnows(ss, ls, k - 1, t);
      }
    } else {
      NothingKnown(ss, ls, t);
    }
  }

  // ---------------------------------------------------------------- the results

  /** The callback of a failed auto-renewal: in every run, when the job of a timer has ended with rc, the
      application has been told once, for the job's own client and SID, if rc is something to report and the
      client was registered when the job looked for it, and never otherwise. */
  lemma FailureToldOnce(ss: seq<State>, ls: seq<Step>, k: nat, t: Tid)
    requires IsRun(ss, ls) && k < |ss| && t in ss[k].threads && ss[k].threads[t].Renewing?
    requires ss[k].threads[t].job.Some? && ss[k].threads[t].rpc.RenDone?
    ensures var rc, w := ss[k].threads[t].rpc.rc, HistoryOf(ss, ls, k, t);
            && (w.registered.Some? <==> Reports(rc))
            && Failures(ss[k].log, t) == if Reports(rc) && w.registered == Some(true) then 1 else 0
    ensures forall a :: 0 <= a < |ss[k].log| && ss[k].log[a].AutoRenewalFailed? && ss[k].log[a].who == t ==>
              ReportedOwn(ss[k], t, ss[k].log[a])
  {
    hide IsPath, HistoryOf, Failures;
    RunKnows(ss, ls, k, t);
  }

  /** Nobody else reports: an operation that is no job of a timer never makes that callback. */
  lemma OnlyJobsReport(ss: seq<State>, ls: seq<Step>, k: nat, t: Tid)
    requires IsRun(ss, ls) && k < |ss| && t in ss[k].threads
    requires ss[k].threads[t].Renewing? ==> ss[k].threads[t].job.None?
    ensures Failures(ss[k].log, t) == 0
  {
    hide IsPath, HistoryOf, Failures;
    RunKnows(ss, ls, k, t);
  }

  /** What genaRenewSubscription returns: the error for the client or subscription that was missing when it
      looked, else the code with which the scheduling failed, else the code with which the publisher
      refused, else success - and then it has applied its grant. */
  lemma RenewalOutcome(ss: seq<State>, ls: seq<Step>, k: nat, t: Tid)
    requires IsRun(ss, ls) && k < |ss| && t in ss[k].threads && ss[k].threads[t].Renewing?
    requires ss[k].threads[t].rpc.RenDone?
    ensures RenewalIs(ss[k].threads[t].rpc.rc, HistoryOf(ss, ls, k, t))
  {
    hide IsPath, HistoryOf, Failures;
    RunKnows(ss, ls, k, t);
  }

  /** The same for genaSubscribe. */
  lemma SubscribeResult(ss: seq<State>, ls: seq<Step>, k: nat, t: Tid)
    requires IsRun(ss, ls) && k < |ss| && t in ss[k].threads && ss[k].threads[t].Subscribing?
    requires ss[k].threads[t].spc.SubDone?
    ensures AnswerIs(ss[k].threads[t].spc.rc, HistoryOf(ss, ls, k, t))
  {
    hide IsPath, HistoryOf, Failures;
    RunKnows(ss, ls, k, t);
  }

  /** genaUnSubscribe returns the error for what it missed, else the result of the request that it sent. */
  lemma UnSubscribeOutcome(ss: seq<State>, ls: seq<Step>, k: nat, t: Tid)
    requires IsRun(ss, ls) && k < |ss| && t in ss[k].threads && ss[k].threads[t].UnSubscribing?
    requires ss[k].threads[t].upc.UnsDone?
    ensures var rc, w := ss[k].threads[t].upc.rc, HistoryOf(ss, ls, k, t);
            if w.missed.Some? then rc == w.missed.value else w.reply == Some(rc)
  {
    hide IsPath, HistoryOf, Failures;
    RunKnows(ss, ls, k, t);
  }

  /** genaUnregisterClient has asked for every entry it took, and returns an error only for a missing client. */
  lemma UnregisterOutcome(ss: seq<State>, ls: seq<Step>, k: nat, t: Tid)
    requires IsRun(ss, ls) && k < |ss| && t in ss[k].threads && ss[k].threads[t].Unregistering?
    requires ss[k].threads[t].gpc.UnrDone?
    ensures var rc, w := ss[k].threads[t].gpc.rc, HistoryOf(ss, ls, k, t);
            w.entry.None? && rc == if w.missed.Some? then w.missed.value else UPNP_E_SUCCESS
  {
    hide IsPath, HistoryOf, Failures;
    RunKnows(ss, ls, k, t);
  }

  /** The entry about which a thread is asking the publisher. */
  function AskedAbout(th: Thread): Option<Sub> {
    match th
    case Renewing(_, _, _, RenRequest(copy)) => Some(copy)
    case UnSubscribing(_, _, UnsRequest(copy)) => Some(copy)
    case Unregistering(_, UnrRequest(copy)) => Some(copy)
    case _ => None
  }

  /** Every request of a renewal, an unsubscribe or an unregister names the URL and the publisher SID of the
      entry that the thread saw in the list under the lock. */
  lemma RequestNamesEntry(ss: seq<State>, ls: seq<Step>, k: nat, t: Tid)
    requires IsRun(ss, ls) && k < |ss| && t in ss[k].threads && AskedAbout(ss[k].threads[t]).Some?
    ensures AsksFor(AskedAbout(ss[k].threads[t]).value, HistoryOf(ss, ls, k, t).entry)
  {
    hide IsPath, HistoryOf, Failures;
    RunKnows(ss, ls, k, t);
  }
}
