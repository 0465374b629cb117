/** genaUnregisterClient: the loop that unsubscribes a client from everything, with nothing else
    running, and a bound on its requests whatever else is running. */
module GenaUnregister {
  import opened Upnp
  import opened GenaModel
  import opened GenaData
  import opened GenaInvariant

  /** An UNSUBSCRIBE request as it goes to the publisher. */
  datatype Request = Request(url: string, actual: string)

  function Requests(list: seq<Sub>): (r: seq<Request>)
    ensures |r| == |list|
    ensures forall i :: 0 <= i < |list| ==> r[i] == Request(list[i].url, list[i].actual)
  {
    if list == [] then [] else
    var last := list[|list| - 1];
    Requests(list[..|list| - 1]) + [Request(last.url, last.actual)]
  }

  class ControlPoint {
    var d: Data
    var sent: seq<Request>

    constructor ()
      ensures d == NO_DATA && sent == []
    {
      d := NO_DATA;
      sent := [];
    }

    /** Ends every subscription of client h, one request each.  `reply` stands for the
        publishers' answers, which do not matter. */
    method UnregisterClient(h: Handle, reply: nat -> int) returns (rc: int)
      requires DataInv(d)
      modifies this
      ensures DataInv(d) && Evolves(old(d), d, None)
      ensures h !in old(d).clients ==> rc == UPNP_E_INVALID_HANDLE && d == old(d) && sent == old(sent)
      ensures h in old(d).clients ==>
                && rc == UPNP_E_SUCCESS
                && d.clients == old(d).clients[h := []]
                && sent == old(sent) + Requests(old(d).clients[h])
                && (forall id :: id in d.timers <==>
                      id in old(d).timers && forall i :: 0 <= i < |old(d).clients[h]| ==>
                        old(d).clients[h][i].renewId != id)
    {
      hide *;
      rc := UPNP_E_SUCCESS;
      EvolvesSelf(d);
      if h !in d.clients {
        return UPNP_E_INVALID_HANDLE;
      }
      ghost var list := d.clients[h];
      ghost var n: nat := 0;
      ProgressStart(d, h);
      RequestsNone(sent, list);
      while d.clients[h] != []
        invariant n <= |list| && h in d.clients && d.clients[h] == list[n..]
        invariant Progress(old(d), d, h, n)
        invariant sent == old(sent) + Requests(list[..n])
        decreases |d.clients[h]|
      {
        var copy := d.clients[h][0];
        ProgressStep(old(d), d, h, n);
        d := Unlink(d, h, copy.sid);
        rc := reply(|sent|);
        RequestsOneMore(old(sent), list, n);
        sent := sent + [Request(copy.url, copy.actual)];
        d := FreeSub(d, copy);
        n := n + 1;
      }
      ProgressEnd(old(d), d, h, n);
      assert list[..n] == list;
      rc := UPNP_E_SUCCESS;
    }
  }

  /** The first n subscriptions of client h are gone, with their timers, and nothing else. */
  ghost predicate Progress(d0: Data, d: Data, h: Handle, n: nat) {
    && DataInv(d0) && DataInv(d) && Evolves(d0, d, None)
    && h in d0.clients && n <= |d0.clients[h]|
    && d.clients == d0.clients[h := d0.clients[h][n..]]
    && forall id :: id in d.timers <==>
         id in d0.timers && forall i :: 0 <= i < n ==> d0.clients[h][i].renewId != id
  }

  lemma ProgressStart(d: Data, h: Handle)
    requires DataInv(d) && h in d.clients
    ensures Progress(d, d, h, 0) && d.clients[h] == d.clients[h][0..]
  {
    EvolvesSelf(d);
    hide DataInv, Evolves;
    assert d.clients[h] == d.clients[h][0..];
  }

  lemma ProgressStep(d0: Data, d: Data, h: Handle, n: nat)
    requires Progress(d0, d, h, n) && h in d.clients && d.clients[h] != []
    ensures var head := d.clients[h][0];
            var e := Unlink(d, h, head.sid);
            && n < |d0.clients[h]| && head == d0.clients[h][n] && FreeSub(e, head) == e
            && Progress(d0, e, h, n + 1) && h in e.clients && e.clients[h] == d0.clients[h][n + 1..]
  {
    hide DataInv, Evolves, Unlink, FreeSub;
    HeadUnlinked(d, h);
    EvolvesTwice(d0, d, Unlink(d, h, d.clients[h][0].sid));
  }

  lemma ProgressEnd(d0: Data, d: Data, h: Handle, n: nat)
    requires Progress(d0, d, h, n) && h in d.clients && d.clients[h] == []
    ensures h in d0.clients && n == |d0.clients[h]| && DataInv(d) && Evolves(d0, d, None)
            && d.clients == d0.clients[h := []]
    ensures forall id :: id in d.timers <==>
              id in d0.timers && forall i :: 0 <= i < |d0.clients[h]| ==> d0.clients[h][i].renewId != id
  {
    hide DataInv, Evolves;
  }

  lemma RequestsNone(before: seq<Request>, list: seq<Sub>)
    ensures before + Requests(list[..0]) == before
  {
  }

  lemma RequestsOneMore(before: seq<Request>, list: seq<Sub>, n: nat)
    requires n < |list|
    ensures before + Requests(list[..n + 1]) == before + Requests(list[..n]) + [Request(list[n].url, list[n].actual)]
  {
    assert list[..n + 1][..n] == list[..n];
  }

  /** Taking the first entry out of a list: the rest stays in order, exactly its timer goes,
      and releasing the copy afterwards finds nothing more to cancel. */
  lemma HeadUnlinked(d: Data, h: Handle)
    requires DataInv(d) && h in d.clients && d.clients[h] != []
    ensures var head := d.clients[h][0];
            var e := Unlink(d, h, head.sid);
            && DataInv(e) && Evolves(d, e, None)
            && e.clients == d.clients[h := d.clients[h][1..]]
            && (forall id :: id in e.timers <==> id in d.timers && id != head.renewId)
            && FreeSub(e, head) == e
  {
    var head := d.clients[h][0];
    assert HasSid(d.clients[h], head.sid);
    assert Without(d.clients[h], 0) == d.clients[h][1..];
    assert -1 !in d.timers;
    UnlinkKeeps(d, h, head.sid);
  }

  // ---------------------------------------------------------------- with everything else running

  function Subscribed(d: Data, h: Handle): nat {
    if h in d.clients then |d.clients[h]| else 0
  }

  /** The step enters a new subscription in the list of client h. */
  predicate LinksFor(s: State, l: Step, h: Handle) {
    && l.Run? && l.t in s.threads && s.threads[l.t].Subscribing? && s.threads[l.t].h == h
    && s.threads[l.t].spc.SubLink? && s.threads[l.t].spc.ans.Granted?
  }

  /** The step takes an entry of client h to send an UNSUBSCRIBE for it. */
  predicate TakesFor(s: State, l: Step, h: Handle) {
    && l.Run? && l.t in s.threads && s.threads[l.t].Unregistering? && s.threads[l.t].h == h
    && s.threads[l.t].gpc.UnrTake? && Subscribed(s.d, h) > 0
  }

  lemma UnlinkShrinks(d: Data, h: Handle, sid: string, k: Handle)
    ensures Subscribed(Unlink(d, h, sid), k) == Subscribed(d, k) - if k == h && HasSub(d, h, sid) then 1 else 0
  {
  }

  lemma SubscribingShrinks(d: Data, t: Tid, th: Thread, c: Choice, h: Handle)
    requires Permitted(d, th, c) && th.Subscribing? && !(th.h == h && th.spc.SubLink? && th.spc.ans.Granted?)
    ensures Subscribed(ThreadStep(d, t, th, c).d, h) <= Subscribed(d, h)
  {
  }

  lemma RenewingShrinks(d: Data, t: Tid, th: Thread, c: Choice, h: Handle)
    requires Permitted(d, th, c) && th.Renewing?
    ensures Subscribed(ThreadStep(d, t, th, c).d, h) <= Subscribed(d, h)
  {
    hide Unlink;
    UnlinkShrinks(d, th.h, th.sid, h);
    if c.ScheduleFailed? {
      UnlinkShrinks(ScheduleFails(d, c.burnsId), th.h, th.sid, h);
    }
  }

  lemma UnSubscribingShrinks(d: Data, t: Tid, th: Thread, c: Choice, h: Handle)
    requires Permitted(d, th, c) && th.UnSubscribing?
    ensures Subscribed(ThreadStep(d, t, th, c).d, h) <= Subscribed(d, h)
  {
    hide Unlink;
    UnlinkShrinks(d, th.h, th.sid, h);
  }

  lemma UnregisteringShrinks(d: Data, t: Tid, th: Thread, c: Choice, h: Handle)
    requires Permitted(d, th, c) && th.Unregistering?
    ensures Subscribed(ThreadStep(d, t, th, c).d, h)
            <= Subscribed(d, h) - if th.h == h && th.gpc.UnrTake? && Subscribed(d, h) > 0 then 1 else 0
  {
    hide Unlink;
    if th.h in d.clients && d.clients[th.h] != [] {
      assert HasSid(d.clients[th.h], d.clients[th.h][0].sid);
      UnlinkShrinks(d, th.h, d.clients[th.h][0].sid, h);
    }
  }

  lemma NotifyingShrinks(d: Data, t: Tid, th: Thread, c: Choice)
    requires Permitted(d, th, c) && th.Notifying?
    ensures ThreadStep(d, t, th, c).d == d
  {
  }

  lemma StepShrinks(s: State, l: Step, h: Handle)
    requires Enabled(s, l) && !LinksFor(s, l, h)
    ensures Subscribed(Apply(s, l).d, h) <= Subscribed(s.d, h) - if TakesFor(s, l, h) then 1 else 0
  {
    if l.Run? {
      var th := s.threads[l.t];
      hide ThreadStep, Permitted;
      match th
      case Subscribing(_, _, _) => SubscribingShrinks(s.d, l.t, th, l.c, h);
      case Renewing(_, _, _, _) => RenewingShrinks(s.d, l.t, th, l.c, h);
      case UnSubscribing(_, _, _) => UnSubscribingShrinks(s.d, l.t, th, l.c, h);
      case Unregistering(_, _) => UnregisteringShrinks(s.d, l.t, th, l.c, h);
      case Notifying(_, _, _) => NotifyingShrinks(s.d, l.t, th, l.c);
    }
  }

  /** The requests that genaUnregisterClient begins for client h from state i to state j. */
  ghost function Taken(ss: seq<State>, ls: seq<Step>, i: nat, j: nat, h: Handle): nat
    requires i <= j <= |ls| <= |ss|
  {
    if i == j then 0 else Taken(ss, ls, i, j - 1, h) + if TakesFor(ss[j - 1], ls[j - 1], h) then 1 else 0
  }

  /** Whatever renewals, unsubscribes and other threads run beside it: as long as nobody enters a new
      subscription, all calls of genaUnregisterClient for a client together send no more requests than
      the client had subscriptions, so the loop cannot go on for ever. */
  lemma {:induction false} RequestsBounded(ss: seq<State>, ls: seq<Step>, i: nat, j: nat, h: Handle)
    requires IsRun(ss, ls) && i <= j < |ss|
    requires forall m :: i <= m < j ==> !LinksFor(ss[m], ls[m], h)
    ensures Taken(ss, ls, i, j, h) + Subscribed(ss[j].d, h) <= Subscribed(ss[i].d, h)
  {
    hide IsPath, Enabled, Apply, LinksFor, TakesFor, Subscribed;
    if i < j {
      StepOf(ss, ls, j - 1);
      RequestsBounded(ss, ls, i, j - 1, h);
      StepShrinks(ss[j - 1], ls[j - 1], h);
    }
  }
}
