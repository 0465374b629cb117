/** Lock discipline of the subscription operations and of the NOTIFY handler. */
module GenaLocks {
  import opened Upnp
  import opened GenaModel

  /** The program points that lie between a HandleLock and its unlock. */
  predicate HoldsWrite(th: Thread) {
    match th
    case Subscribing(_, _, pc) => pc.SubLink? || pc.SubSchedule? || pc.SubCopyId? || pc.SubFailed? || pc.SubUnlock?
    case Renewing(_, _, _, pc) =>
      pc.RenCheck? || pc.RenApply? || pc.RenSchedule? || pc.RenCopyId? || pc.RenFreeCopy?
    case UnSubscribing(_, _, pc) => pc.UnsCheck? || pc.UnsRemove?
    case Unregistering(_, pc) => pc.UnrTake? || pc.UnrFree?
    case Notifying(_, _, pc) => pc.NotFirst? || pc.NotLook? || pc.NotLook2?
  }

  /** ... a HandleReadLock and its unlock. */
  predicate HoldsRead(th: Thread) {
    match th
    case Subscribing(_, _, pc) => pc.SubCheck? || pc.SubBadHandle? || pc.SubUnlockRead?
    case Renewing(_, _, _, pc) => pc.JobCheck?
    case _ => false
  }

  /** ... a SubscribeLock and its unlock. */
  predicate HoldsMutex(th: Thread) {
    match th
    case Subscribing(_, _, pc) =>
      !(pc.SubStart? || pc.SubCheck? || pc.SubBadHandle? || pc.SubWantMutex? || pc.SubDone?)
    case Notifying(_, _, pc) => pc.NotWantWrite? || pc.NotLook2?
    case _ => false
  }

  /** The program points at which the thread talks to the network or to the application. */
  predicate CallsOut(th: Thread) {
    match th
    case Subscribing(_, _, pc) => pc.SubRequest?
    case Renewing(_, _, _, pc) => pc.RenRequest? || pc.JobCallback?
    case UnSubscribing(_, _, pc) => pc.UnsRequest?
    case Unregistering(_, pc) => pc.UnrRequest?
    case Notifying(_, _, pc) => pc.NotCallback?
  }

  /** The locks are owned by exactly the threads whose program point says so. */
  ghost predicate LockInv(s: State) {
    && (s.hlock.Read? ==> s.hlock.owners != {})
    && (s.hlock.Write? ==> s.hlock.owner in s.threads)
    && Readers(s.hlock) <= s.threads.Keys
    && (s.slock.Some? ==> s.slock.value in s.threads)
    && (forall t :: t in s.threads ==>
          && (HoldsWrite(s.threads[t]) <==> s.hlock == Write(t))
          && (HoldsRead(s.threads[t]) <==> t in Readers(s.hlock))
          && (HoldsMutex(s.threads[t]) <==> s.slock == Some(t)))
  }

  /** One step of one thread, seen locally: locks are taken only when not held, dropped only
      when held, the lists change only under the write lock, and the first thing every
      operation does is to take the handle lock. */
  predicate Disciplined(d: Data, th: Thread, e: Effect<Thread>) {
    && (HoldsWrite(e.pc) <==> e.hl.TakeWrite? || (HoldsWrite(th) && e.hl.Keep?))
    && (HoldsRead(e.pc) <==> e.hl.TakeRead? || (HoldsRead(th) && e.hl.Keep?))
    && (HoldsMutex(e.pc) <==> e.sl.TakeMutex? || (HoldsMutex(th) && e.sl.KeepMutex?))
    && (e.hl.TakeWrite? || e.hl.TakeRead? ==> !HoldsWrite(th) && !HoldsRead(th))
    && (e.hl.DropWrite? ==> HoldsWrite(th))
    && (e.hl.DropRead? ==> HoldsRead(th))
    && (e.sl.TakeMutex? ==> !HoldsMutex(th))
    && (e.sl.DropMutex? ==> HoldsMutex(th))
    && (!HoldsWrite(th) ==> e.d.clients == d.clients)
    && (e.cb.Some? ==> CallsOut(th))
    && (AtStart(th) ==> e.hl.TakeWrite? || e.hl.TakeRead?)
  }

  lemma SubscribingDiscipline(d: Data, t: Tid, th: Thread, c: Choice)
    requires th.Subscribing? && Permitted(d, th, c)
    ensures Disciplined(d, th, ThreadStep(d, t, th, c))
  {
  }

  lemma RenewingDiscipline(d: Data, t: Tid, th: Thread, c: Choice)
    requires th.Renewing? && Permitted(d, th, c)
    ensures Disciplined(d, th, ThreadStep(d, t, th, c))
  {
  }

  lemma UnSubscribingDiscipline(d: Data, t: Tid, th: Thread, c: Choice)
    requires th.UnSubscribing? && Permitted(d, th, c)
    ensures Disciplined(d, th, ThreadStep(d, t, th, c))
  {
  }

  lemma UnregisteringDiscipline(d: Data, t: Tid, th: Thread, c: Choice)
    requires th.Unregistering? && Permitted(d, th, c)
    ensures Disciplined(d, th, ThreadStep(d, t, th, c))
  {
  }

  lemma NotifyingDiscipline(d: Data, t: Tid, th: Thread, c: Choice)
    requires th.Notifying? && Permitted(d, th, c)
    ensures Disciplined(d, th, ThreadStep(d, t, th, c))
  {
  }

  lemma LocalDiscipline(d: Data, t: Tid, th: Thread, c: Choice)
    requires Permitted(d, th, c)
    ensures Disciplined(d, th, ThreadStep(d, t, th, c))
  {
    match th
    case Subscribing(_, _, _) => SubscribingDiscipline(d, t, th, c);
    case Renewing(_, _, _, _) => RenewingDiscipline(d, t, th, c);
    case UnSubscribing(_, _, _) => UnSubscribingDiscipline(d, t, th, c);
    case Unregistering(_, _) => UnregisteringDiscipline(d, t, th, c);
    case Notifying(_, _, _) => NotifyingDiscipline(d, t, th, c);
  }

  lemma EffectKeepsLocks(s: State, t: Tid, e: Effect<Thread>)
    requires LockInv(s) && t in s.threads && Disciplined(s.d, s.threads[t], e)
    requires LockReady(s.hlock, e.hl) && (e.sl.TakeMutex? ==> s.slock.None?)
    ensures LockInv(After(s, t, e))
  {
  }

  lemma StepKeepsLocks(s: State, l: Step)
    requires LockInv(s) && Enabled(s, l)
    ensures LockInv(Apply(s, l))
  {
    if l.Run? {
      LocalDiscipline(s.d, l.t, s.threads[l.t], l.c);
      EffectKeepsLocks(s, l.t, ThreadStep(s.d, l.t, s.threads[l.t], l.c));
    }
  }

  lemma {:induction false} RunKeepsLocks(ss: seq<State>, ls: seq<Step>, i: nat)
    requires IsRun(ss, ls) && i < |ss|
    ensures LockInv(ss[i])
  {
    hide IsPath, Enabled, Apply;
    if i > 0 {
      StepOf(ss, ls, i - 1);
      RunKeepsLocks(ss, ls, i - 1);
      StepKeepsLocks(ss[i - 1], ls[i - 1]);
    }
  }

  /** At every point of every run: a returned operation holds no lock; nothing is sent and no
      callback is made under the handle lock; a thread takes a lock only when it does not hold
      it and drops it only when it does. */
  lemma LockDiscipline(ss: seq<State>, ls: seq<Step>, i: nat, t: Tid)
    requires IsRun(ss, ls) && i < |ls| && t in ss[i].threads
    ensures var s, th := ss[i], ss[i].threads[t];
            && (IsDone(th) || CallsOut(th) ==> s.hlock != Write(t) && t !in Readers(s.hlock))
            && (IsDone(th) ==> s.slock != Some(t))
            && (ls[i].Run? && ls[i].t == t ==>
                  var e := ThreadStep(s.d, t, th, ls[i].c);
                  && (e.hl.TakeWrite? || e.hl.TakeRead? || e.cb.Some? ==>
                        s.hlock != Write(t) && t !in Readers(s.hlock))
                  && (e.sl.TakeMutex? ==> s.slock != Some(t))
                  && (e.hl.DropWrite? ==> s.hlock == Write(t))
                  && (e.hl.DropRead? ==> t in Readers(s.hlock))
                  && (e.sl.DropMutex? ==> s.slock == Some(t)))
  {
    RunKeepsLocks(ss, ls, i);
    if ls[i].Run? && ls[i].t == t {
      LocalDiscipline(ss[i].d, t, ss[i].threads[t], ls[i].c);
    }
  }

  /** A subscription list changes only in a step of the thread that owns the write lock; a
      newly registered client gets its empty list while nobody holds that lock. */
  lemma ListsChangeUnderWriteLock(ss: seq<State>, ls: seq<Step>, i: nat)
    requires IsRun(ss, ls) && i < |ls| && ss[i + 1].d.clients != ss[i].d.clients
    ensures (ls[i].Run? && ss[i].hlock == Write(ls[i].t)) || (ls[i].Register? && ss[i].hlock.Free?)
  {
    RunKeepsLocks(ss, ls, i);
    if ls[i].Run? {
      LocalDiscipline(ss[i].d, ls[i].t, ss[i].threads[ls[i].t], ls[i].c);
    }
  }
}
