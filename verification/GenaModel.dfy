/** The subscriber side of GENA eventing as a step system.

    Every operation of `gena_ctrlpt.cpp` is a thread with a program counter.  A step of a
    thread is one lock operation, one network exchange, one application callback, or one
    piece of work inside a critical section; between two steps any other thread may run.
    The program counters carry the local variables that are live at that point.
 */
module GenaModel {
  import opened Upnp

  const INFINITE := -1
  const HTTP_OK := 200
  const HTTP_PRECONDITION_FAILED := 412

  type Handle = int
  type Tid = nat
  type ArgId = nat

  /** One node of a client's ClientSubList (also used for the scratch copies). */
  datatype Sub = Sub(sid: string, actual: string, url: string, renewId: int)

  /** The argument of a scheduled auto-renewal; `eventId` is filled in by the timer. */
  datatype JobArg = JobArg(handle: Handle, sid: string, eventId: int)

  /** The shared data.  `home` and `unlimited` are history: the handle each client SID was
      created for, and the SIDs whose last grant was for an infinite time.  `args` holds the
      allocated renewal arguments, `freed` counts how often each one was released, and
      `dropped` are those released because the thread pool refused their job. */
  datatype Data = Data(
    clients: map<Handle, seq<Sub>>,
    home: map<string, Handle>,
    unlimited: set<string>,
    timers: map<int, ArgId>,
    args: map<ArgId, JobArg>,
    freed: multiset<ArgId>,
    dropped: set<ArgId>,
    nextEvent: nat,
    nextArg: nat)

  // ---------------------------------------------------------------- subscription lists

  predicate HasSid(list: seq<Sub>, sid: string) {
    exists i :: 0 <= i < |list| && list[i].sid == sid
  }

  /** The node found by client SID, or |list|. */
  function IndexOf(list: seq<Sub>, sid: string): (r: nat)
    ensures r <= |list|
    ensures r < |list| ==> list[r].sid == sid
    ensures forall j :: 0 <= j < r ==> list[j].sid != sid
    ensures r < |list| <==> HasSid(list, sid)
  {
    if |list| == 0 then 0
    else if list[0].sid == sid then 0
    else 1 + IndexOf(list[1..], sid)
  }

  /** An event's SID header matches when it is a prefix of the stored SID: the lookup
      compares only as many bytes as the header has. */
  predicate Matches(key: string, sub: Sub) {
    key <= sub.actual
  }

  /** The node found by publisher SID, or |list|. */
  function IndexOfActual(list: seq<Sub>, key: string): (r: nat)
    ensures r <= |list|
    ensures r < |list| ==> Matches(key, list[r])
    ensures forall j :: 0 <= j < r ==> !Matches(key, list[j])
  {
    if |list| == 0 then 0
    else if Matches(key, list[0]) then 0
    else 1 + IndexOfActual(list[1..], key)
  }

  function Without(list: seq<Sub>, i: nat): seq<Sub>
    requires i < |list|
  {
    list[..i] + list[i + 1..]
  }

  // ---------------------------------------------------------------- changes of the data

  function FreeArg(d: Data, a: ArgId): Data {
    d.(args := d.args - {a}, freed := d.freed + multiset{a})
  }

  /** TimerThreadRemove followed by the free function of the removed job. */
  function Cancel(d: Data, id: int): Data {
    if id in d.timers then FreeArg(d.(timers := d.timers - {id}), d.timers[id]) else d
  }

  /** An event whose job the thread pool does not take. */
  function DropTimer(d: Data, id: int): Data
    requires id in d.timers
  {
    Cancel(d, id).(dropped := d.dropped + {d.timers[id]})
  }

  /** free_client_subscription: an id of -1 means that there is no timer. */
  function FreeSub(d: Data, sub: Sub): Data {
    if sub.renewId != -1 then Cancel(d, sub.renewId) else d
  }

  predicate HasSub(d: Data, h: Handle, sid: string) {
    h in d.clients && HasSid(d.clients[h], sid)
  }

  function SubOf(d: Data, h: Handle, sid: string): Sub
    requires HasSub(d, h, sid)
  {
    d.clients[h][IndexOf(d.clients[h], sid)]
  }

  /** RemoveClientSubClientSID on the list of client h. */
  function Unlink(d: Data, h: Handle, sid: string): Data {
    if HasSub(d, h, sid) then
      var list := d.clients[h];
      FreeSub(d.(clients := d.clients[h := Without(list, IndexOf(list, sid))]), SubOf(d, h, sid))
    else d
  }

  function ReplaceSub(d: Data, h: Handle, sid: string, sub: Sub): Data
    requires HasSub(d, h, sid)
  {
    d.(clients := d.clients[h := d.clients[h][IndexOf(d.clients[h], sid) := sub]])
  }

  /** GenlibClientSubscription_set_RenewEventId(sub, arg->eventId): reads the argument. */
  function CopyEventId(d: Data, h: Handle, sid: string, arg: ArgId): Data
    requires arg in d.args
  {
    if HasSub(d, h, sid) then
      ReplaceSub(d, h, sid, SubOf(d, h, sid).(renewId := d.args[arg].eventId))
    else d
  }

  /** A renewal begins: the pending timer is removed and forgotten. */
  function TakeTimer(d: Data, h: Handle, sid: string): Data
    requires HasSub(d, h, sid)
  {
    var sub := SubOf(d, h, sid);
    ReplaceSub(Cancel(d, sub.renewId), h, sid, sub.(renewId := -1))
  }

  function Link(d: Data, h: Handle, sub: Sub): Data
    requires h in d.clients
  {
    d.(clients := d.clients[h := [sub] + d.clients[h]], home := d.home[sub.sid := h])
  }

  /** A successful ScheduleGenaAutoRenew for a finite time, up to the copying of the id. */
  function Schedule(d: Data, h: Handle, sid: string): Data {
    d.(timers := d.timers[d.nextEvent := d.nextArg],
       args := d.args[d.nextArg := JobArg(h, sid, d.nextEvent)],
       nextEvent := d.nextEvent + 1, nextArg := d.nextArg + 1,
       unlimited := d.unlimited - {sid})
  }

  /** A failing one: the argument is allocated and released, an event id may be used up. */
  function ScheduleFails(d: Data, burnsId: bool): Data {
    d.(freed := d.freed + multiset{d.nextArg}, nextArg := d.nextArg + 1,
       nextEvent := d.nextEvent + if burnsId then 1 else 0)
  }

  /** Whether client k has a subscription for the SID header of an event, and which. */
  predicate Found(d: Data, k: Handle, key: string) {
    k in d.clients && IndexOfActual(d.clients[k], key) < |d.clients[k]|
  }

  function SubFor(d: Data, k: Handle, key: string): Sub
    requires Found(d, k, key)
  {
    d.clients[k][IndexOfActual(d.clients[k], key)]
  }

  /** The first registered client at or above k, or NUM_HANDLE (GetClientHandleInfo). */
  function FirstClient(d: Data, k: Handle): (r: Handle)
    requires k <= NUM_HANDLE
    ensures k <= r <= NUM_HANDLE
    ensures r < NUM_HANDLE ==> r in d.clients
    ensures forall h :: k <= h < r ==> h !in d.clients
    decreases NUM_HANDLE - k
  {
    if k == NUM_HANDLE || k in d.clients then k else FirstClient(d, k + 1)
  }

  // ---------------------------------------------------------------- threads

  datatype Answer = Granted(actual: string, timeout: int) | Refused(code: int)

  /** genaSubscribe */
  datatype SubPc =
    | SubStart | SubCheck | SubBadHandle | SubWantMutex | SubRequest
    | SubAnswered(ans: Answer) | SubLink(ans: Answer)
    | SubSchedule(sid: string, timeout: int) | SubCopyId(sid: string, arg: ArgId)
    | SubFailed(sid: string, rc: int)
    | SubUnlock(rc: int, out: string) | SubUnlockRead | SubUnlockMutex(rc: int, out: string)
    | SubDone(rc: int, out: string)

  /** genaRenewSubscription, and from JobWantRead on the rest of GenaAutoRenewSubscription */
  datatype RenPc =
    | RenStart | RenCheck | RenRequest(copy: Sub) | RenAnswered(copy: Sub, ans: Answer)
    | RenApply(copy: Sub, ans: Answer) | RenSchedule(copy: Sub, timeout: int)
    | RenCopyId(copy: Sub, arg: ArgId) | RenFreeCopy(copy: Sub, rc: int)
    | JobWantRead(rc: int) | JobCheck(rc: int) | JobCallback(rc: int) | JobFree(rc: int)
    | RenDone(rc: int)

  /** genaUnSubscribe */
  datatype UnsPc =
    | UnsStart | UnsCheck | UnsRequest(copy: Sub) | UnsFreeCopy(copy: Sub, rc: int)
    | UnsWantWrite(rc: int) | UnsRemove(rc: int) | UnsDone(rc: int)

  /** genaUnregisterClient and the release of the handle in UpnpUnRegisterClient */
  datatype UnrPc =
    | UnrStart | UnrTake | UnrRequest(copy: Sub) | UnrFreeCopy(copy: Sub)
    | UnrWantFree | UnrFree | UnrDone(rc: int)

  /** gena_process_notification_event, from the first HandleLock on */
  datatype NotPc =
    | NotStart | NotFirst | NotLoop(k: Handle, ok: bool) | NotLook(k: Handle, ok: bool)
    | NotWantMutex(k: Handle, ok: bool) | NotWantWrite(k: Handle, ok: bool)
    | NotLook2(k: Handle, ok: bool) | NotCallback(k: Handle, sid: string) | NotDone(status: int)

  /** A running operation and where it is.  A renewal with a job is one started by the timer
      (GenaAutoRenewSubscription); without one it was asked for by the application. */
  datatype Thread =
    | Subscribing(h: Handle, url: string, spc: SubPc)
    | Renewing(h: Handle, sid: string, job: Option<ArgId>, rpc: RenPc)
    | UnSubscribing(h: Handle, sid: string, upc: UnsPc)
    | Unregistering(h: Handle, gpc: UnrPc)
    | Notifying(key: string, seqNo: int, npc: NotPc)

  predicate AtStart(th: Thread) {
    match th
    case Subscribing(_, _, pc) => pc.SubStart?
    case Renewing(_, _, _, pc) => pc.RenStart?
    case UnSubscribing(_, _, pc) => pc.UnsStart?
    case Unregistering(_, pc) => pc.UnrStart?
    case Notifying(_, _, pc) => pc.NotStart?
  }

  predicate IsDone(th: Thread) {
    match th
    case Subscribing(_, _, pc) => pc.SubDone?
    case Renewing(_, _, _, pc) => pc.RenDone?
    case UnSubscribing(_, _, pc) => pc.UnsDone?
    case Unregistering(_, pc) => pc.UnrDone?
    case Notifying(_, _, pc) => pc.NotDone?
  }

  /** What the outside world decides in a step. */
  datatype Choice =
    | Plain
    | Answered(ans: Answer)                    // the publisher's answer to SUBSCRIBE
    | Replied(code: int)                       // the result of an UNSUBSCRIBE request
    | Uuid(sid: string)                        // a fresh client SID
    | ScheduleFailed(code: int, burnsId: bool) // the timer could not take the job

  datatype LockAct = Keep | TakeRead | TakeWrite | DropRead | DropWrite
  datatype MutexAct = KeepMutex | TakeMutex | DropMutex

  /** The application callbacks made so far, in order. */
  datatype Callback =
    | EventReceived(who: Tid, h: Handle, sid: string)
    | AutoRenewalFailed(who: Tid, h: Handle, sid: string)

  /** What one step of a thread does: to the data, to the place where the thread is, to the
      handle lock and the subscribe mutex, and to the application. */
  datatype Effect<P> = Effect(d: Data, pc: P, hl: LockAct, sl: MutexAct, cb: Option<Callback>)
  {
    function At<Q>(q: Q): Effect<Q> { Effect(d, q, hl, sl, cb) }
  }

  function Move<P>(d: Data, pc: P, hl: LockAct, sl: MutexAct): Effect<P> {
    Effect(d, pc, hl, sl, None)
  }

  /** The argument a thread is about to read after scheduling it. */
  function NewArg(th: Thread): Option<ArgId> {
    match th
    case Subscribing(_, _, SubCopyId(_, arg)) => Some(arg)
    case Renewing(_, _, _, RenCopyId(_, arg)) => Some(arg)
    case _ => None
  }

  /** A genaSubscribe whose renewal could not be scheduled goes on to delete its node while that
      is still linked. */
  predicate AtLinkedDelete(th: Thread) {
    th.Subscribing? && th.spc.SubFailed?
  }

  /** Which choices fit the step.  A thread whose next step would read a released argument or
      delete a linked node has no further step. */
  predicate Permitted(d: Data, th: Thread, c: Choice) {
    && !IsDone(th) && !AtLinkedDelete(th)
    && match th
    case Subscribing(_, _, pc) =>
      if pc.SubRequest? then c.Answered? && (c.ans.Refused? ==> c.ans.code != UPNP_E_SUCCESS)
      else if pc.SubLink? then c.Uuid? && c.sid !in d.home
      else if pc.SubSchedule? then
        c.Plain? || (pc.timeout != INFINITE && c.ScheduleFailed? && c.code != UPNP_E_SUCCESS)
      else c.Plain? && (pc.SubCopyId? ==> pc.arg in d.args)
    case Renewing(_, _, job, pc) =>
      if pc.RenRequest? then c.Answered? && (c.ans.Refused? ==> c.ans.code != UPNP_E_SUCCESS)
      else if pc.RenSchedule? then
        c.Plain? || (pc.timeout != INFINITE && c.ScheduleFailed? && c.code != UPNP_E_SUCCESS)
      else c.Plain? && (pc.JobFree? ==> job.Some?) && (pc.RenCopyId? ==> pc.arg in d.args)
    case UnSubscribing(_, _, pc) => if pc.UnsRequest? then c.Replied? else c.Plain?
    case Unregistering(_, pc) => if pc.UnrRequest? then c.Replied? else c.Plain?
    case Notifying(_, _, pc) => c.Plain?
  }

  function SubscribeStep(d: Data, h: Handle, url: string, pc: SubPc, c: Choice): Effect<SubPc>
    requires Permitted(d, Subscribing(h, url, pc), c)
  {
    match pc
    case SubStart => Move(d, SubCheck, TakeRead, KeepMutex)
    case SubCheck =>
      if h !in d.clients then Move(d, SubBadHandle, Keep, KeepMutex)
      else Move(d, SubWantMutex, DropRead, KeepMutex)
    case SubBadHandle => Move(d, SubUnlockRead, Keep, TakeMutex)
    case SubUnlockRead => Move(d, SubUnlockMutex(UPNP_E_INVALID_HANDLE, ""), DropRead, KeepMutex)
    case SubWantMutex => Move(d, SubRequest, Keep, TakeMutex)
    case SubRequest => Move(d, SubAnswered(c.ans), Keep, KeepMutex)
    case SubAnswered(ans) => Move(d, SubLink(ans), TakeWrite, KeepMutex)
    case SubLink(ans) =>
      if ans.Refused? then Move(d, SubUnlock(ans.code, ""), Keep, KeepMutex)
      else if h !in d.clients then Move(d, SubUnlock(UPNP_E_INVALID_HANDLE, ""), Keep, KeepMutex)
      else Move(Link(d, h, Sub(c.sid, ans.actual, url, -1)),
                SubSchedule(c.sid, ans.timeout), Keep, KeepMutex)
    case SubSchedule(sid, timeout) =>
      if timeout == INFINITE then
        Move(d.(unlimited := d.unlimited + {sid}), SubUnlock(UPNP_E_SUCCESS, sid), Keep, KeepMutex)
      else if c.ScheduleFailed? then
        Move(ScheduleFails(d, c.burnsId), SubFailed(sid, c.code), Keep, KeepMutex)
      else Move(Schedule(d, h, sid), SubCopyId(sid, d.nextArg), Keep, KeepMutex)
    case SubCopyId(sid, arg) =>
      Move(CopyEventId(d, h, sid, arg), SubUnlock(UPNP_E_SUCCESS, sid), Keep, KeepMutex)
    case SubUnlock(rc, out) => Move(d, SubUnlockMutex(rc, out), DropWrite, KeepMutex)
    case SubUnlockMutex(rc, out) => Move(d, SubDone(rc, out), Keep, DropMutex)
  }

  /** Where a finished genaRenewSubscription continues. */
  function AfterRenew(job: Option<ArgId>, rc: int): RenPc {
    if job.None? then RenDone(rc)
    else if rc == UPNP_E_SUCCESS || rc == UPNP_E_INVALID_SID || rc == UPNP_E_INVALID_HANDLE then JobFree(rc)
    else JobWantRead(rc)
  }

  function RenewStep(d: Data, t: Tid, h: Handle, sid: string, job: Option<ArgId>, pc: RenPc, c: Choice)
    : Effect<RenPc>
    requires Permitted(d, Renewing(h, sid, job, pc), c)
  {
    match pc
    case RenStart => Move(d, RenCheck, TakeWrite, KeepMutex)
    case RenCheck =>
      if h !in d.clients then Move(d, AfterRenew(job, UPNP_E_INVALID_HANDLE), DropWrite, KeepMutex)
      else if !HasSid(d.clients[h], sid) then Move(d, AfterRenew(job, UPNP_E_INVALID_SID), DropWrite, KeepMutex)
      else Move(TakeTimer(d, h, sid), RenRequest(SubOf(d, h, sid).(renewId := -1)), DropWrite, KeepMutex)
    case RenRequest(copy) => Move(d, RenAnswered(copy, c.ans), Keep, KeepMutex)
    case RenAnswered(copy, ans) => Move(d, RenApply(copy, ans), TakeWrite, KeepMutex)
    case RenApply(copy, ans) =>
      if h !in d.clients then Move(d, AfterRenew(job, UPNP_E_INVALID_HANDLE), DropWrite, KeepMutex)
      else if ans.Refused? then Move(Unlink(d, h, sid), RenFreeCopy(copy, ans.code), Keep, KeepMutex)
      else if !HasSid(d.clients[h], sid) then Move(d, RenFreeCopy(copy, UPNP_E_INVALID_SID), Keep, KeepMutex)
      else Move(ReplaceSub(d, h, sid, SubOf(d, h, sid).(actual := ans.actual)),
                RenSchedule(copy, ans.timeout), Keep, KeepMutex)
    case RenSchedule(copy, timeout) =>
      if timeout == INFINITE then
        Move(d.(unlimited := d.unlimited + {sid}), RenFreeCopy(copy, UPNP_E_SUCCESS), Keep, KeepMutex)
      else if c.ScheduleFailed? then
        Move(Unlink(ScheduleFails(d, c.burnsId), h, sid), RenFreeCopy(copy, c.code), Keep, KeepMutex)
      else Move(Schedule(d, h, sid), RenCopyId(copy, d.nextArg), Keep, KeepMutex)
    case RenCopyId(copy, arg) =>
      Move(CopyEventId(d, h, sid, arg), RenFreeCopy(copy, UPNP_E_SUCCESS), Keep, KeepMutex)
    case RenFreeCopy(copy, rc) => Move(FreeSub(d, copy), AfterRenew(job, rc), DropWrite, KeepMutex)
    case JobWantRead(rc) => Move(d, JobCheck(rc), TakeRead, KeepMutex)
    case JobCheck(rc) =>
      Move(d, if h in d.clients then JobCallback(rc) else JobFree(rc), DropRead, KeepMutex)
    case JobCallback(rc) =>
      Effect(d, JobFree(rc), Keep, KeepMutex, Some(AutoRenewalFailed(t, h, sid)))
    case JobFree(rc) => Move(FreeArg(d, job.value), RenDone(rc), Keep, KeepMutex)
  }

  function UnSubscribeStep(d: Data, h: Handle, sid: string, pc: UnsPc, c: Choice): Effect<UnsPc>
    requires Permitted(d, UnSubscribing(h, sid, pc), c)
  {
    match pc
    case UnsStart => Move(d, UnsCheck, TakeWrite, KeepMutex)
    case UnsCheck =>
      if h !in d.clients then Move(d, UnsDone(UPNP_E_INVALID_HANDLE), DropWrite, KeepMutex)
      else if !HasSid(d.clients[h], sid) then Move(d, UnsDone(UPNP_E_INVALID_SID), DropWrite, KeepMutex)
      else Move(d, UnsRequest(SubOf(d, h, sid)), DropWrite, KeepMutex)
    case UnsRequest(copy) => Move(d, UnsFreeCopy(copy, c.code), Keep, KeepMutex)
    case UnsFreeCopy(copy, rc) => Move(FreeSub(d, copy), UnsWantWrite(rc), Keep, KeepMutex)
    case UnsWantWrite(rc) => Move(d, UnsRemove(rc), TakeWrite, KeepMutex)
    case UnsRemove(rc) =>
      if h !in d.clients then Move(d, UnsDone(UPNP_E_INVALID_HANDLE), DropWrite, KeepMutex)
      else Move(Unlink(d, h, sid), UnsDone(rc), DropWrite, KeepMutex)
  }

  function UnregisterStep(d: Data, h: Handle, pc: UnrPc, c: Choice): Effect<UnrPc>
    requires Permitted(d, Unregistering(h, pc), c)
  {
    match pc
    case UnrStart => Move(d, UnrTake, TakeWrite, KeepMutex)
    case UnrTake =>
      if h !in d.clients then Move(d, UnrDone(UPNP_E_INVALID_HANDLE), DropWrite, KeepMutex)
      else if d.clients[h] == [] then Move(d, UnrWantFree, DropWrite, KeepMutex)
      else Move(Unlink(d, h, d.clients[h][0].sid), UnrRequest(d.clients[h][0]), DropWrite, KeepMutex)
    case UnrRequest(copy) => Move(d, UnrFreeCopy(copy), Keep, KeepMutex)
    case UnrFreeCopy(copy) => Move(FreeSub(d, copy), UnrStart, Keep, KeepMutex)
    case UnrWantFree => Move(d, UnrFree, TakeWrite, KeepMutex)
    case UnrFree =>
      Move(d.(clients := d.clients - {h}),
           UnrDone(if h in d.clients then UPNP_E_SUCCESS else UPNP_E_INVALID_HANDLE), DropWrite, KeepMutex)
  }

  function NotifyStep(d: Data, t: Tid, key: string, seqNo: int, pc: NotPc): Effect<NotPc>
    requires !pc.NotDone?
  {
    match pc
    case NotStart => Move(d, NotFirst, TakeWrite, KeepMutex)
    case NotFirst =>
      var k := FirstClient(d, 1);
      Move(d, if k >= NUM_HANDLE then NotDone(HTTP_PRECONDITION_FAILED) else NotLoop(k, false),
           DropWrite, KeepMutex)
    case NotLoop(k, ok) =>
      if k >= NUM_HANDLE then
        Move(d, NotDone(if ok then HTTP_OK else HTTP_PRECONDITION_FAILED), Keep, KeepMutex)
      else Move(d, NotLook(k, ok), TakeWrite, KeepMutex)
    case NotLook(k, ok) =>
      if Found(d, k, key) then Move(d, NotCallback(k, SubFor(d, k, key).sid), DropWrite, KeepMutex)
      else if k in d.clients && seqNo == 0 then Move(d, NotWantMutex(k, ok), DropWrite, KeepMutex)
      else Move(d, NotLoop(k + 1, ok), DropWrite, KeepMutex)
    case NotWantMutex(k, ok) => Move(d, NotWantWrite(k, ok), Keep, TakeMutex)
    case NotWantWrite(k, ok) => Move(d, NotLook2(k, ok), TakeWrite, KeepMutex)
    case NotLook2(k, ok) =>
      if Found(d, k, key) then Move(d, NotCallback(k, SubFor(d, k, key).sid), DropWrite, DropMutex)
      else Move(d, NotLoop(k + 1, ok), DropWrite, DropMutex)
    case NotCallback(k, sid) =>
      Effect(d, NotLoop(k + 1, true), Keep, KeepMutex, Some(EventReceived(t, k, sid)))
  }

  function ThreadStep(d: Data, t: Tid, th: Thread, c: Choice): Effect<Thread>
    requires Permitted(d, th, c)
  {
    match th
    case Subscribing(h, url, pc) =>
      var e := SubscribeStep(d, h, url, pc, c); e.At(Subscribing(h, url, e.pc))
    case Renewing(h, sid, job, pc) =>
      var e := RenewStep(d, t, h, sid, job, pc, c); e.At(Renewing(h, sid, job, e.pc))
    case UnSubscribing(h, sid, pc) =>
      var e := UnSubscribeStep(d, h, sid, pc, c); e.At(UnSubscribing(h, sid, e.pc))
    case Unregistering(h, pc) =>
      var e := UnregisterStep(d, h, pc, c); e.At(Unregistering(h, e.pc))
    case Notifying(key, seqNo, pc) =>
      var e := NotifyStep(d, t, key, seqNo, pc); e.At(Notifying(key, seqNo, e.pc))
  }

  // ---------------------------------------------------------------- the whole system

  datatype RwLock = Free | Write(owner: Tid) | Read(owners: set<Tid>)

  datatype State = State(d: Data, threads: map<Tid, Thread>,
                         hlock: RwLock, slock: Option<Tid>, log: seq<Callback>)

  datatype Step =
    | Register(h: Handle)             // UpnpRegisterClient got this handle
    | Start(t: Tid, th: Thread)       // an operation is called
    | Fire(id: int, t: Tid)           // the timer starts the job of an event
    | Drop(id: int)                   // the thread pool refuses the job: it is freed
    | Run(t: Tid, c: Choice)          // a thread makes a step

  function Readers(l: RwLock): set<Tid> {
    if l.Read? then l.owners else {}
  }

  predicate LockReady(l: RwLock, act: LockAct) {
    match act
    case TakeWrite => l.Free?
    case TakeRead => !l.Write?
    case _ => true
  }

  function LockAfter(l: RwLock, t: Tid, act: LockAct): RwLock {
    match act
    case Keep => l
    case TakeWrite => Write(t)
    case TakeRead => Read(Readers(l) + {t})
    case DropWrite => Free
    case DropRead => if Readers(l) - {t} == {} then Free else Read(Readers(l) - {t})
  }

  function MutexAfter(m: Option<Tid>, t: Tid, act: MutexAct): Option<Tid> {
    match act
    case KeepMutex => m
    case TakeMutex => Some(t)
    case DropMutex => None
  }

  /** The state after thread t has had effect e. */
  function After(s: State, t: Tid, e: Effect<Thread>): State {
    State(e.d, s.threads[t := e.pc],
          LockAfter(s.hlock, t, e.hl), MutexAfter(s.slock, t, e.sl),
          s.log + if e.cb.Some? then [e.cb.value] else [])
  }

  predicate Enabled(s: State, l: Step) {
    match l
    case Register(h) => s.hlock.Free? && h !in s.d.clients && 1 <= h < NUM_HANDLE
    case Start(t, th) => t !in s.threads && AtStart(th) && (th.Renewing? ==> th.job.None?)
    case Fire(id, t) => t !in s.threads && id in s.d.timers && s.d.timers[id] in s.d.args
    case Drop(id) => id in s.d.timers
    case Run(t, c) =>
      && t in s.threads
      && Permitted(s.d, s.threads[t], c)
      && var e := ThreadStep(s.d, t, s.threads[t], c);
      LockReady(s.hlock, e.hl) && (e.sl.TakeMutex? ==> s.slock.None?)
  }

  function Apply(s: State, l: Step): State
    requires Enabled(s, l)
  {
    match l
    case Register(h) => s.(d := s.d.(clients := s.d.clients[h := []]))
    case Start(t, th) => s.(threads := s.threads[t := th])
    case Fire(id, t) =>
      var arg := s.d.args[s.d.timers[id]];
      s.(d := s.d.(timers := s.d.timers - {id}),
         threads := s.threads[t := Renewing(arg.handle, arg.sid, Some(s.d.timers[id]), RenStart)])
    case Drop(id) => s.(d := DropTimer(s.d, id))
    case Run(t, c) => After(s, t, ThreadStep(s.d, t, s.threads[t], c))
  }

  const NO_DATA := Data(map[], map[], {}, map[], map[], multiset{}, {}, 0, 0)
  const INITIAL := State(NO_DATA, map[], Free, None, [])

  /** Consecutive steps of any threads. */
  ghost predicate IsPath(ss: seq<State>, ls: seq<Step>) {
    && |ss| == |ls| + 1
    && forall i {:trigger ls[i]} :: 0 <= i < |ls| ==> Enabled(ss[i], ls[i]) && ss[i + 1] == Apply(ss[i], ls[i])
  }

  /** A run: every interleaving of the operations from the empty system. */
  ghost predicate IsRun(ss: seq<State>, ls: seq<Step>) {
    |ss| == |ls| + 1 && IsPath(ss, ls) && ss[0] == INITIAL
  }

  lemma StepOf(ss: seq<State>, ls: seq<Step>, k: nat)
    requires IsRun(ss, ls) && k < |ls|
    ensures Enabled(ss[k], ls[k]) && ss[k + 1] == Apply(ss[k], ls[k])
  {
    hide Enabled, Apply;
  }
}
