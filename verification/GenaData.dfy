/** What every step keeps: the subscription lists, the timers and the ownership of the
    renewal arguments agree with each other and with the place where each thread is. */
module GenaData {
  import opened Upnp
  import opened GenaModel
  import opened GenaLocks

  // ---------------------------------------------------------------- the shared data

  ghost predicate NoDup(list: seq<Sub>) {
    forall i, j :: 0 <= i < j < |list| ==> list[i].sid != list[j].sid
  }

  /** A stored timer id is from the past, and if it is pending it belongs to this SID. */
  ghost predicate SubOk(d: Data, sub: Sub) {
    && -1 <= sub.renewId < d.nextEvent
    && (sub.renewId in d.timers ==>
          d.timers[sub.renewId] in d.args && d.args[d.timers[sub.renewId]].sid == sub.sid)
  }

  ghost predicate ListOk(d: Data, h: Handle)
    requires h in d.clients
  {
    && 1 <= h < NUM_HANDLE
    && NoDup(d.clients[h])
    && forall i :: 0 <= i < |d.clients[h]| ==>
         d.clients[h][i].sid in d.home && d.home[d.clients[h][i].sid] == h && SubOk(d, d.clients[h][i])
  }

  ghost predicate TimersOk(d: Data) {
    && (forall id :: id in d.timers ==>
          0 <= id < d.nextEvent && d.timers[id] in d.args && d.args[d.timers[id]].eventId == id)
    && (forall a :: a in d.args ==>
          && a < d.nextArg && 0 <= d.args[a].eventId < d.nextEvent
          && d.args[a].sid in d.home && d.home[d.args[a].sid] == d.args[a].handle)
  }

  /** Each argument ever allocated is either still there or has been freed exactly once. */
  ghost predicate ArgsOk(d: Data) {
    && (forall a: ArgId :: d.freed[a] == if a < d.nextArg && a !in d.args then 1 else 0)
    && (forall a :: a in d.dropped ==> a < d.nextArg && a !in d.args)
  }

  ghost predicate DataInv(d: Data) {
    TimersOk(d) && ArgsOk(d) && forall h :: h in d.clients ==> ListOk(d, h)
  }

  /** The SID was used for a subscription that is in no list any more. */
  predicate Gone(d: Data, sid: string) {
    sid in d.home && !HasSub(d, d.home[sid], sid)
  }

  /** How the data may change from one step to the next, for a thread that frees `mine`:
      event ids, arguments and SIDs are never reused, what is gone stays gone, and the only
      arguments released are one's own and those of removed timers. */
  ghost predicate Evolves(d: Data, e: Data, mine: Option<ArgId>) {
    && d.nextEvent <= e.nextEvent && d.nextArg <= e.nextArg && d.dropped <= e.dropped
    && (forall sid :: sid in d.home ==> sid in e.home && e.home[sid] == d.home[sid])
    && (forall sid :: Gone(d, sid) ==> Gone(e, sid))
    && (forall id :: id in e.timers ==>
          (id in d.timers && d.timers[id] == e.timers[id]) || id >= d.nextEvent)
    && (forall a :: a in e.args ==>
          (a in d.args && d.args[a] == e.args[a])
          || (a >= d.nextArg && e.args[a].eventId in e.timers && e.timers[e.args[a].eventId] == a))
    && (forall a :: a in d.args ==>
          a in e.args || mine == Some(a) || (d.args[a].eventId in d.timers && d.args[a].eventId !in e.timers))
    && (forall id :: id in d.timers && id !in e.timers ==> d.timers[id] !in e.args)
  }

  lemma EvolvesTwice(d: Data, e: Data, f: Data)
    requires DataInv(d) && DataInv(e) && DataInv(f) && Evolves(d, e, None) && Evolves(e, f, None)
    ensures Evolves(d, f, None)
  {
    assert TimersOk(d) && TimersOk(e) && TimersOk(f);
    hide DataInv, Gone;
  }

  lemma CancelKeeps(d: Data, id: int)
    requires DataInv(d)
    ensures DataInv(Cancel(d, id)) && Evolves(d, Cancel(d, id), None)
  {
    var e := Cancel(d, id);
    assert forall sid :: Gone(d, sid) <==> Gone(e, sid);
    CancelKeepsArgs(d, id);
    hide ArgsOk, Gone;
    forall h | h in e.clients ensures ListOk(e, h) {
      assert ListOk(d, h);
    }
  }

  lemma CancelKeepsArgs(d: Data, id: int)
    requires TimersOk(d) && ArgsOk(d)
    ensures ArgsOk(Cancel(d, id)) && TimersOk(Cancel(d, id))
  {
  }

  lemma WithoutSid(list: seq<Sub>, sid: string)
    requires NoDup(list) && HasSid(list, sid)
    ensures var rest := Without(list, IndexOf(list, sid));
            && NoDup(rest) && !HasSid(rest, sid)
            && (forall sub :: sub in rest ==> sub in list)
            && (forall s :: HasSid(rest, s) ==> HasSid(list, s))
  {
    var i := IndexOf(list, sid);
    var rest := Without(list, i);
    forall s | HasSid(rest, s) ensures HasSid(list, s) {
      var k :| 0 <= k < |rest| && rest[k].sid == s;
      assert list[if k < i then k else k + 1].sid == s;
    }
  }

  lemma ReplacedSids(list: seq<Sub>, i: nat, sub: Sub)
    requires i < |list| && list[i].sid == sub.sid
    ensures forall s :: HasSid(list[i := sub], s) <==> HasSid(list, s)
  {
    var list' := list[i := sub];
    forall s ensures HasSid(list', s) <==> HasSid(list, s) {
      assert forall j :: 0 <= j < |list| ==> list'[j].sid == list[j].sid;
    }
  }

  lemma LinkedSids(list: seq<Sub>, sub: Sub)
    ensures forall s :: HasSid([sub] + list, s) <==> s == sub.sid || HasSid(list, s)
  {
    var list' := [sub] + list;
    forall s ensures HasSid(list', s) <==> s == sub.sid || HasSid(list, s) {
      assert list'[0] == sub;
      assert forall j :: 0 <= j < |list| ==> list'[j + 1] == list[j];
    }
  }

  lemma RemoveKeeps(d: Data, h: Handle, sid: string)
    requires DataInv(d) && HasSub(d, h, sid)
    ensures var list := d.clients[h];
            var e := d.(clients := d.clients[h := Without(list, IndexOf(list, sid))]);
            DataInv(e) && Evolves(d, e, None) && Gone(e, sid)
  {
    var list := d.clients[h];
    WithoutSid(list, sid);
    var rest := Without(list, IndexOf(list, sid));
    var e := d.(clients := d.clients[h := rest]);
    assert ListOk(d, h);
    forall k | k in e.clients ensures ListOk(e, k) {
      assert ListOk(d, k);
      if k == h {
        forall i | 0 <= i < |rest| ensures SubOk(e, rest[i]) && rest[i].sid in e.home && e.home[rest[i].sid] == h {
          assert rest[i] in list;
        }
      }
    }
  }

  lemma UnlinkKeeps(d: Data, h: Handle, sid: string)
    requires DataInv(d)
    ensures DataInv(Unlink(d, h, sid)) && Evolves(d, Unlink(d, h, sid), None)
    ensures sid in d.home && d.home[sid] == h ==> Gone(Unlink(d, h, sid), sid)
  {
    if HasSub(d, h, sid) {
      var list := d.clients[h];
      var e := d.(clients := d.clients[h := Without(list, IndexOf(list, sid))]);
      RemoveKeeps(d, h, sid);
      CancelKeeps(e, SubOf(d, h, sid).renewId);
      EvolvesTwice(d, e, Unlink(d, h, sid));
    }
  }

  lemma ReplaceKeeps(d: Data, h: Handle, sid: string, sub: Sub)
    requires DataInv(d) && HasSub(d, h, sid) && sub.sid == sid && SubOk(d, sub)
    ensures var e := ReplaceSub(d, h, sid, sub);
            DataInv(e) && Evolves(d, e, None) && HasSub(e, h, sid)
  {
    var e := ReplaceSub(d, h, sid, sub);
    var list, list' := d.clients[h], e.clients[h];
    var i := IndexOf(list, sid);
    assert list'[i].sid == sid;
    assert forall j :: 0 <= j < |list| ==> list'[j].sid == list[j].sid;
    forall k | k in e.clients ensures ListOk(e, k) {
      assert ListOk(d, k);
    }
    ReplacedSids(list, i, sub);
  }

  lemma LinkKeeps(d: Data, h: Handle, sub: Sub)
    requires DataInv(d) && h in d.clients && sub.sid !in d.home && sub.renewId == -1
    ensures var e := Link(d, h, sub);
            DataInv(e) && Evolves(d, e, None) && HasSub(e, h, sub.sid)
  {
    var e := Link(d, h, sub);
    var list, list' := d.clients[h], e.clients[h];
    assert ListOk(d, h);
    assert list'[0].sid == sub.sid;
    assert -1 !in d.timers;
    forall k | k in e.clients ensures ListOk(e, k) {
      assert ListOk(d, k);
      assert forall i :: 0 <= i < |d.clients[k]| ==> d.clients[k][i].sid in d.home;
      assert k == h ==> forall i :: 0 < i < |list'| ==> list'[i] == list[i - 1];
    }
    LinkedSids(list, sub);
  }

  lemma ScheduleKeeps(d: Data, h: Handle, sid: string)
    requires DataInv(d) && sid in d.home && d.home[sid] == h
    ensures DataInv(Schedule(d, h, sid)) && Evolves(d, Schedule(d, h, sid), None)
  {
    var e := Schedule(d, h, sid);
    assert forall s :: Gone(d, s) <==> Gone(e, s);
    forall k | k in e.clients ensures ListOk(e, k) {
      assert ListOk(d, k);
    }
  }

  lemma ScheduleFailsKeeps(d: Data, burnsId: bool)
    requires DataInv(d)
    ensures DataInv(ScheduleFails(d, burnsId)) && Evolves(d, ScheduleFails(d, burnsId), None)
  {
    var e := ScheduleFails(d, burnsId);
    assert forall s :: Gone(d, s) <==> Gone(e, s);
    forall k | k in e.clients ensures ListOk(e, k) {
      assert ListOk(d, k);
    }
  }

  lemma FreeArgKeeps(d: Data, a: ArgId)
    requires DataInv(d) && a in d.args && d.args[a].eventId !in d.timers
    ensures DataInv(FreeArg(d, a)) && Evolves(d, FreeArg(d, a), Some(a))
  {
    var e := FreeArg(d, a);
    assert forall s :: Gone(d, s) <==> Gone(e, s);
    forall k | k in e.clients ensures ListOk(e, k) {
      assert ListOk(d, k);
    }
  }
}
