/** What holds over whole runs of the control point's device list: any sequence of advertisements,
    goodbyes, list resets and timer ticks. */
module DeviceRuns {
  import opened Upnp
  import opened DeviceList

  datatype Op = Advertise(udn: string, expires: int) | Goodbye(udn: string) | Reset | Tick(incr: int)

  /** The list after an operation, as the methods of List leave it. */
  ghost function After(l: seq<Device>, op: Op): seq<Device> {
    match op
    case Advertise(u, expires) => Advertised(l, u, expires)
    case Goodbye(u) => Without(l, u)
    case Reset => []
    case Tick(incr) => Aged(l, incr)
  }

  /** What an operation does outside. */
  ghost function Emits(l: seq<Device>, op: Op): seq<Effect> {
    match op
    case Advertise(u, _) => if Lookup(l, u).None? then [Added(u)] else []
    case Goodbye(u) => if Lookup(l, u).Some? then [Removed(u)] else []
    case Reset => Removals(l)
    case Tick(incr) => AgingEffects(l, incr)
  }

  ghost function Replay(l: seq<Device>, ops: seq<Op>): seq<Device> {
    if ops == [] then l else After(Replay(l, ops[..|ops| - 1]), ops[|ops| - 1])
  }

  ghost function Log(l: seq<Device>, ops: seq<Op>): seq<Effect> {
    if ops == [] then [] else
    Log(l, ops[..|ops| - 1]) + Emits(Replay(l, ops[..|ops| - 1]), ops[|ops| - 1])
  }

  // ---------------------------------------------------------------- distinct names

  lemma AfterDistinct(l: seq<Device>, op: Op)
    requires Distinct(l)
    ensures Distinct(After(l, op))
  {
    match op
    case Advertise(u, expires) => AdvertisedDistinct(l, u, expires);
    case Goodbye(u) => WithoutDistinct(l, u);
    case Reset =>
    case Tick(incr) => AgedDistinct(l, incr);
  }

  /** No two listed devices ever have the same name. */
  lemma {:induction false} RunKeepsDistinct(l: seq<Device>, ops: seq<Op>)
    requires Distinct(l)
    ensures Distinct(Replay(l, ops))
  {
    if ops != [] {
      RunKeepsDistinct(l, ops[..|ops| - 1]);
      AfterDistinct(Replay(l, ops[..|ops| - 1]), ops[|ops| - 1]);
    }
  }

  // ---------------------------------------------------------------- looking a device up

  lemma LookupIn(l: seq<Device>, u: string, t: int)
    requires Distinct(l)
    ensures Lookup(l, u) == Some(t) <==> Device(u, t) in l
  {
    if Device(u, t) in l {
      var i :| 0 <= i < |l| && l[i] == Device(u, t);
      FindIs(l, u, i);
    }
  }

  lemma {:induction false} AgedIn(l: seq<Device>, incr: int, u: string, t: int)
    ensures Device(u, t) in Aged(l, incr) <==> t > 0 && Device(u, t + incr) in l
  {
    if l != [] {
      var n := |l| - 1;
      AgedIn(l[..n], incr, u, t);
      assert l == l[..n] + [l[n]];
      LeftIn(l[n], incr, u, t);
      hide Left;
    }
  }

  lemma LeftIn(d: Device, incr: int, u: string, t: int)
    ensures Device(u, t) in Left(d, incr) <==> t > 0 && Device(u, t + incr) == d
  {
  }

  lemma LookupAged(l: seq<Device>, incr: int, u: string)
    requires Distinct(l)
    ensures var before := Lookup(l, u);
            Lookup(Aged(l, incr), u) ==
            if before.Some? && before.value > incr then Some(before.value - incr) else None
  {
    AgedDistinct(l, incr);
    hide Distinct, Aged, Lookup;
    var before, after := Lookup(l, u), Lookup(Aged(l, incr), u);
    if after.Some? {
      LookupIn(Aged(l, incr), u, after.value);
      AgedIn(l, incr, u, after.value);
      LookupIn(l, u, after.value + incr);
    }
    if before.Some? && before.value > incr {
      LookupIn(l, u, before.value);
      AgedIn(l, incr, u, before.value - incr);
      LookupIn(Aged(l, incr), u, before.value - incr);
    }
  }

  lemma LookupOther(l: seq<Device>, u: string, v: string, expires: int)
    requires u != v
    ensures Lookup(Advertised(l, v, expires), u) == Lookup(l, u)
    ensures Lookup(Without(l, v), u) == Lookup(l, u)
  {
    LookupAdvertised(l, u, v, expires);
    LookupWithout(l, u, v);
  }

  lemma LookupAdvertised(l: seq<Device>, u: string, v: string, expires: int)
    requires u != v
    ensures Lookup(Advertised(l, v, expires), u) == Lookup(l, u)
  {
    var i := Find(l, u);
    FindIs(Advertised(l, v, expires), u, if i < |l| then i else |Advertised(l, v, expires)|);
  }

  lemma LookupWithout(l: seq<Device>, u: string, v: string)
    requires u != v
    ensures Lookup(Without(l, v), u) == Lookup(l, u)
  {
    var i, j, r := Find(l, u), Find(l, v), Without(l, v);
    FindIs(r, u, if i == |l| then |r| else if i < j then i else i - 1);
  }

  // ---------------------------------------------------------------- ageing over a run

  /** Two ticks are one longer tick. */
  lemma {:induction false} AgedTwice(l: seq<Device>, a: int, b: int)
    requires b >= 0
    ensures Aged(Aged(l, a), b) == Aged(l, a + b)
  {
    if l != [] {
      hide Left;
      var n := |l| - 1;
      AgedTwice(l[..n], a, b);
      LeftTwice(l[n], a, b);
      AgedSnoc(Aged(l[..n], a), Left(l[n], a), b);
    }
  }

  lemma LeftTwice(d: Device, a: int, b: int)
    requires b >= 0
    ensures |Left(d, a)| <= 1
    ensures Left(d, a + b) == if Left(d, a) == [] then [] else Left(Left(d, a)[0], b)
  {
  }

  lemma AgedSnoc(l: seq<Device>, tail: seq<Device>, incr: int)
    requires |tail| <= 1
    ensures Aged(l + tail, incr) == Aged(l, incr) + if tail == [] then [] else Left(tail[0], incr)
  {
    if tail == [] {
      assert l + tail == l;
    } else {
      assert (l + tail)[..|l|] == l;
    }
  }

  /** Nothing in the run is about this device, except ticks of one length. */
  ghost predicate Quiet(ops: seq<Op>, u: string, incr: int) {
    forall i :: 0 <= i < |ops| ==> QuietOp(ops[i], u, incr)
  }

  ghost predicate QuietOp(op: Op, u: string, incr: int) {
    match op
    case Advertise(v, _) => v != u
    case Goodbye(v) => v != u
    case Reset => false
    case Tick(i) => i == incr
  }

  ghost function Ticks(ops: seq<Op>): nat {
    if ops == [] then 0 else Ticks(ops[..|ops| - 1]) + if ops[|ops| - 1].Tick? then 1 else 0
  }

  lemma LookupAfter(l: seq<Device>, op: Op, u: string, incr: int)
    requires Distinct(l) && QuietOp(op, u, incr)
    ensures op.Tick? ==> Lookup(After(l, op), u) ==
                         var before := Lookup(l, u);
                         if before.Some? && before.value > incr then Some(before.value - incr) else None
    ensures !op.Tick? ==> Lookup(After(l, op), u) == Lookup(l, u)
  {
    hide Lookup, Distinct, Aged, Advertised, Without;
    match op
    case Advertise(v, expires) => LookupOther(l, u, v, expires);
    case Goodbye(v) => LookupOther(l, u, v, 0);
    case Tick(_) => LookupAged(l, incr, u);
  }

  /** What is left of t seconds after k ticks; a tick drops what has nothing left. */
  ghost function TimeLeft(t: int, k: nat, incr: int): Option<int> {
    if k == 0 || t > k * incr then Some(t - k * incr) else None
  }

  lemma TimeLeftNext(t: int, k: nat, incr: int)
    requires incr > 0
    ensures var before := TimeLeft(t, k, incr);
            TimeLeft(t, k + 1, incr) == if before.Some? && before.value > incr then Some(before.value - incr) else None
  {
    assert (k + 1) * incr == k * incr + incr;
    if k > 0 {
      assert k * incr > 0;
    }
  }

  /** A device that is not advertised again is listed after k ticks exactly if it had more than
      k * incr seconds left, whatever happens to the other devices meanwhile. */
  lemma {:induction false} ListedAfterTicks(l: seq<Device>, ops: seq<Op>, u: string, incr: int)
    requires Distinct(l) && incr > 0 && Lookup(l, u).Some? && Quiet(ops, u, incr)
    ensures Lookup(Replay(l, ops), u) == TimeLeft(Lookup(l, u).value, Ticks(ops), incr)
  {
    hide Lookup, Distinct, TimeLeft;
    if ops == [] {
      TimeLeftNone(Lookup(l, u).value, incr);
    } else {
      var n := |ops| - 1;
      ListedAfterTicks(l, ops[..n], u, incr);
      RunKeepsDistinct(l, ops[..n]);
      LookupAfter(Replay(l, ops[..n]), ops[n], u, incr);
      TimeLeftNext(Lookup(l, u).value, Ticks(ops[..n]), incr);
    }
  }

  lemma TimeLeftNone(t: int, incr: int)
    ensures TimeLeft(t, 0, incr) == Some(t)
  {
  }

  /** The device survives the tick with less than two ticks left. */
  ghost predicate AboutToExpire(d: Device, incr: int) {
    0 < d.timeout - incr < 2 * incr
  }

  /** A tick searches for exactly the devices that are about to expire. */
  lemma {:induction false} SearchedIffAboutToExpire(l: seq<Device>, incr: int, u: string)
    ensures Search(u) in AgingEffects(l, incr) <==> exists d :: d in l && d.udn == u && AboutToExpire(d, incr)
  {
    if l != [] {
      var n := |l| - 1;
      SearchedIffAboutToExpire(l[..n], incr, u);
      assert l == l[..n] + [l[n]];
      SentSearch(l[n], incr, u);
      hide Sent, AboutToExpire;
    }
  }

  lemma SentSearch(d: Device, incr: int, u: string)
    ensures Search(u) in Sent(d, incr) <==> d.udn == u && AboutToExpire(d, incr)
  {
  }

  /** The i-th operation of the run is a tick that searches for the device and keeps it. */
  ghost predicate SearchedAt(l: seq<Device>, ops: seq<Op>, u: string, i: nat) {
    && i < |ops| && ops[i].Tick?
    && Search(u) in Emits(Replay(l, ops[..i]), ops[i])
    && Lookup(Replay(l, ops[..i + 1]), u).Some?
  }

  /** A device that came down to less than two ticks has been searched for on the way. */
  lemma {:induction false} SearchedOnTheWay(l: seq<Device>, ops: seq<Op>, u: string, incr: int) returns (i: nat)
    requires Distinct(l) && incr > 0 && Quiet(ops, u, incr)
    requires Lookup(Replay(l, ops), u).Some?
    requires Lookup(Replay(l, ops), u).value < 2 * incr
    requires Lookup(Replay(l, ops), u) != Lookup(l, u)
    ensures SearchedAt(l, ops, u, i)
  {
    var n := |ops| - 1;
    var before := Replay(l, ops[..n]);
    RunKeepsDistinct(l, ops[..n]);
    LookupAfter(before, ops[n], u, incr);
    assert ops[..n + 1] == ops;
    if ops[n].Tick? {
      var t := Lookup(before, u).value;
      LookupIn(before, u, t);
      assert AboutToExpire(Device(u, t), incr);
      SearchedIffAboutToExpire(before, incr, u);
      i := n;
    } else {
      i := SearchedOnTheWay(l, ops[..n], u, incr);
      assert ops[..n][..i] == ops[..i] && ops[..n][..i + 1] == ops[..i + 1];
    }
  }

  /** A device that outlives its first tick and is dropped later was searched for before that, on an
      earlier tick than the one that drops it. */
  lemma {:induction false} SearchedBeforeDropped(l: seq<Device>, ops: seq<Op>, u: string, incr: int) returns (i: nat)
    requires Distinct(l) && incr > 0 && Quiet(ops, u, incr)
    requires Lookup(l, u).Some? && Lookup(l, u).value > incr
    requires Lookup(Replay(l, ops), u).None?
    ensures SearchedAt(l, ops, u, i)
  {
    var n := |ops| - 1;
    var before := Replay(l, ops[..n]);
    RunKeepsDistinct(l, ops[..n]);
    LookupAfter(before, ops[n], u, incr);
    if Lookup(before, u).None? {
      i := SearchedBeforeDropped(l, ops[..n], u, incr);
    } else {
      i := SearchedOnTheWay(l, ops[..n], u, incr);
    }
    assert ops[..n][..i] == ops[..i] && ops[..n][..i + 1] == ops[..i + 1];
  }

  // ---------------------------------------------------------------- the notices

  /** The devices a user interface shows that follows the notices; None if it is told to add one
      it shows already or to remove one it does not show. */
  ghost function Shown(log: seq<Effect>): Option<set<string>> {
    if log == [] then Some({}) else
    var before := Shown(log[..|log| - 1]);
    if before.None? then None else
    match log[|log| - 1]
    case Added(u) => if u in before.value then None else Some(before.value + {u})
    case Removed(u) => if u in before.value then Some(before.value - {u}) else None
    case Search(_) => before
  }

  ghost function Names(l: seq<Device>): set<string> {
    set d | d in l :: d.udn
  }

  lemma ShownOne(log: seq<Effect>, e: Effect)
    ensures Shown(log + [e]) ==
            var before := Shown(log);
            if before.None? then None else
            match e
            case Added(u) => if u in before.value then None else Some(before.value + {u})
            case Removed(u) => if u in before.value then Some(before.value - {u}) else None
            case Search(_) => before
  {
    assert (log + [e])[..|log|] == log;
  }

  lemma NamesLookup(l: seq<Device>, u: string)
    ensures u in Names(l) <==> Lookup(l, u).Some?
  {
    if Lookup(l, u).Some? {
      assert l[Find(l, u)] in l;
    }
  }

  lemma NamesOne(d: Device)
    ensures Names([d]) == {d.udn} && Names([]) == {}
  {
    assert d in [d];
  }

  lemma NamesConcat(a: seq<Device>, b: seq<Device>)
    ensures Names(a + b) == Names(a) + Names(b)
  {
  }

  lemma NamesReplaced(a: seq<Device>, d: Device, d': Device, b: seq<Device>)
    requires d.udn == d'.udn
    ensures Names(a + [d'] + b) == Names(a + [d] + b)
  {
    NamesConcat(a + [d], b);
    NamesConcat(a + [d'], b);
    NamesConcat(a, [d]);
    NamesConcat(a, [d']);
    NamesOne(d);
    NamesOne(d');
  }

  lemma NamesWithout(l: seq<Device>, i: nat)
    requires Distinct(l) && i < |l|
    ensures l[i].udn in Names(l) && Names(RemoveAt(l, i)) == Names(l) - {l[i].udn}
  {
    var r := RemoveAt(l, i);
    assert l == l[..i] + [l[i]] + l[i + 1..];
    assert l[i] in l;
    forall k | 0 <= k < |r| ensures r[k].udn != l[i].udn {
    }
  }

  lemma {:induction false} ShownAging(log: seq<Effect>, l: seq<Device>, k: nat, incr: int)
    requires Distinct(l) && k <= |l| && Shown(log) == Some(Names(l))
    ensures Distinct(Aged(l[..k], incr) + l[k..])
    ensures Shown(log + AgingEffects(l[..k], incr)) == Some(Names(Aged(l[..k], incr) + l[k..]))
  {
    hide *;
    if k == 0 {
      AgingStart(l, incr);
      assert log + [] == log && [] + l == l;
    } else {
      ShownAging(log, l, k - 1, incr);
      AgingStep(log, l, k - 1, incr);
      AgedPart(Aged(l[..k - 1], incr), l, k - 1, incr, log + AgingEffects(l[..k - 1], incr));
    }
  }

  lemma AgedPart(done: seq<Device>, l: seq<Device>, k: nat, incr: int, log: seq<Effect>)
    requires k < |l| && Distinct(done + l[k..]) && Shown(log) == Some(Names(done + l[k..]))
    ensures Distinct(done + Left(l[k], incr) + l[k + 1..])
    ensures Shown(log + Sent(l[k], incr)) == Some(Names(done + Left(l[k], incr) + l[k + 1..]))
  {
    var c := done + l[k..];
    assert c[|done|] == l[k] && c == done + [l[k]] + l[k + 1..];
    OneTick(l[k], incr);
    if l[k].timeout - incr <= 0 {
      assert RemoveAt(c, |done|) == done + [] + l[k + 1..];
      AgedAway(c, |done|, log);
    } else {
      AgedStays(done, l[k], Device(l[k].udn, l[k].timeout - incr), l[k + 1..], log);
      assert log + [] == log;
    }
  }

  lemma AgedAway(c: seq<Device>, i: nat, log: seq<Effect>)
    requires i < |c| && Distinct(c) && Shown(log) == Some(Names(c))
    ensures Distinct(RemoveAt(c, i)) && Shown(log + [Removed(c[i].udn)]) == Some(Names(RemoveAt(c, i)))
  {
    NamesWithout(c, i);
    ShownOne(log, Removed(c[i].udn));
  }

  lemma AgedStays(done: seq<Device>, d: Device, d': Device, rest: seq<Device>, log: seq<Effect>)
    requires d.udn == d'.udn && Distinct(done + [d] + rest) && Shown(log) == Some(Names(done + [d] + rest))
    ensures Distinct(done + [d'] + rest)
    ensures Shown(log) == Shown(log + [Search(d.udn)]) == Some(Names(done + [d'] + rest))
  {
    var c, c' := done + [d] + rest, done + [d'] + rest;
    assert forall k :: 0 <= k < |c| ==> c'[k].udn == c[k].udn;
    NamesReplaced(done, d, d', rest);
    ShownOne(log, Search(d.udn));
  }

  lemma {:induction false} ShownRemovals(log: seq<Effect>, l: seq<Device>, k: nat)
    requires Distinct(l) && k <= |l| && Shown(log) == Some(Names(l))
    ensures Shown(log + Removals(l[..k])) == Some(Names(l[k..]))
  {
    if k == 0 {
      assert l[..0] == [] && l[0..] == l && log + [] == log;
    } else {
      var rest := l[k - 1..];
      assert Distinct(rest);
      assert RemoveAt(rest, 0) == l[k..];
      hide *;
      ShownRemovals(log, l, k - 1);
      RemovalsStep(log, l, k - 1);
      NamesWithout(rest, 0);
      ShownOne(log + Removals(l[..k - 1]), Removed(l[k - 1].udn));
    }
  }

  lemma ShownAfter(log: seq<Effect>, l: seq<Device>, op: Op)
    requires Distinct(l) && Shown(log) == Some(Names(l))
    ensures Shown(log + Emits(l, op)) == Some(Names(After(l, op)))
  {
    assert log + [] == log && l[..|l|] == l && l[|l|..] == [];
    match op
    case Advertise(u, expires) => ShownAdvertised(log, l, u, expires);
    case Goodbye(u) =>
      if Lookup(l, u).Some? {
        NamesWithout(l, Find(l, u));
        ShownOne(log, Removed(u));
      }
    case Reset => ShownRemovals(log, l, |l|);
    case Tick(incr) =>
      ShownAging(log, l, |l|, incr);
      assert Aged(l, incr) + [] == Aged(l, incr);
  }

  lemma ShownAdvertised(log: seq<Effect>, l: seq<Device>, u: string, expires: int)
    requires Shown(log) == Some(Names(l))
    ensures Shown(log + Emits(l, Advertise(u, expires))) == Some(Names(Advertised(l, u, expires)))
  {
    assert log + [] == log;
    NamesLookup(l, u);
    var d := Device(u, expires);
    if Lookup(l, u).None? {
      NamesConcat(l, [d]);
      NamesOne(d);
      ShownOne(log, Added(u));
    } else {
      var i := Find(l, u);
      var a, b := l[..i], l[i + 1..];
      assert l == a + [l[i]] + b && l[i := d] == a + [d] + b;
      NamesReplaced(a, l[i], d, b);
    }
  }

  /** In every run the added and removed notices alternate for each device, and a user interface
      that follows them shows exactly the devices that are listed. */
  lemma {:induction false} NoticesTrackList(ops: seq<Op>)
    ensures Shown(Log([], ops)) == Some(Names(Replay([], ops)))
  {
    NamesOne(Device("", 0));
    if ops != [] {
      var n := |ops| - 1;
      NoticesTrackList(ops[..n]);
      RunKeepsDistinct([], ops[..n]);
      ShownAfter(Log([], ops[..n]), Replay([], ops[..n]), ops[n]);
    }
  }
}
