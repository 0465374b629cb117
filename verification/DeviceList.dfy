/** The control point's list of TV devices: a singly linked list that is aged in place, with nodes
    deleted while it is walked. */
module DeviceList {
  import opened Upnp

  /** A listed device: its unique name and the seconds left of its advertisement. */
  datatype Device = Device(udn: string, timeout: int)

  /** What the list does outside: notices to the user interface and search requests. */
  datatype Effect = Added(udn: string) | Removed(udn: string) | Search(udn: string)

  // ---------------------------------------------------------------- the list as a value

  ghost predicate Distinct(l: seq<Device>) {
    forall i, j :: 0 <= i < j < |l| ==> l[i].udn != l[j].udn
  }

  /** The position of a device, or |l|. */
  ghost function Find(l: seq<Device>, u: string): (r: nat)
    ensures r <= |l|
    ensures r < |l| ==> l[r].udn == u
    ensures forall i :: 0 <= i < r ==> l[i].udn != u
  {
    if l == [] || l[0].udn == u then 0 else 1 + Find(l[1..], u)
  }

  ghost function RemoveAt<T>(s: seq<T>, i: nat): seq<T>
    requires i < |s|
  {
    s[..i] + s[i + 1..]
  }

  /** The time left of a device, if it is listed. */
  ghost function Lookup(l: seq<Device>, u: string): Option<int> {
    if Find(l, u) < |l| then Some(l[Find(l, u)].timeout) else None
  }

  ghost function Advertised(l: seq<Device>, u: string, expires: int): seq<Device> {
    var i := Find(l, u);
    if i < |l| then l[i := Device(u, expires)] else l + [Device(u, expires)]
  }

  ghost function Without(l: seq<Device>, u: string): seq<Device> {
    var i := Find(l, u);
    if i < |l| then RemoveAt(l, i) else l
  }

  /** What one tick leaves of a device. */
  ghost function Left(d: Device, incr: int): seq<Device> {
    if d.timeout - incr > 0 then [Device(d.udn, d.timeout - incr)] else []
  }

  /** What one tick does outside for a device: one about to expire is searched for. */
  ghost function Sent(d: Device, incr: int): seq<Effect> {
    if d.timeout - incr <= 0 then [Removed(d.udn)] else if d.timeout - incr < 2 * incr then [Search(d.udn)] else []
  }

  /** The devices that outlive another `incr` seconds, in order, with what they then have left. */
  ghost function Aged(l: seq<Device>, incr: int): seq<Device> {
    if l == [] then [] else Aged(l[..|l| - 1], incr) + Left(l[|l| - 1], incr)
  }

  ghost function AgingEffects(l: seq<Device>, incr: int): seq<Effect> {
    if l == [] then [] else AgingEffects(l[..|l| - 1], incr) + Sent(l[|l| - 1], incr)
  }

  ghost function Removals(l: seq<Device>): seq<Effect> {
    if l == [] then [] else Removals(l[..|l| - 1]) + [Removed(l[|l| - 1].udn)]
  }

  lemma FindIs(l: seq<Device>, u: string, i: nat)
    requires i <= |l| && (forall k :: 0 <= k < i ==> l[k].udn != u) && (i < |l| ==> l[i].udn == u)
    ensures Find(l, u) == i
  {
  }

  // ---------------------------------------------------------------- the linked list

  class Node {
    var next: Node?
    var timeout: int
    const udn: string

    constructor (udn: string, timeout: int)
      ensures this.udn == udn && this.timeout == timeout && this.next == null
    {
      this.udn, this.timeout, this.next := udn, timeout, null;
    }
  }

  ghost function NodeAt(nodes: seq<Node>, i: nat): Node? {
    if i < |nodes| then nodes[i] else null
  }

  ghost predicate Chain(nodes: seq<Node>)
    reads nodes
  {
    && (forall i {:trigger nodes[i].next} :: 0 <= i < |nodes| ==> nodes[i].next == NodeAt(nodes, i + 1))
    && (forall i, j :: 0 <= i < j < |nodes| ==> nodes[i] != nodes[j])
  }

  ghost function Devices(nodes: seq<Node>): (l: seq<Device>)
    reads nodes
    ensures |l| == |nodes|
    ensures forall i :: 0 <= i < |nodes| ==> l[i] == Device(nodes[i].udn, nodes[i].timeout)
  {
    if nodes == [] then [] else [Device(nodes[0].udn, nodes[0].timeout)] + Devices(nodes[1..])
  }

  lemma Splice(done: seq<Device>, rest: seq<Device>, d: Device)
    requires rest != []
    ensures var c := done + [d] + rest[1..];
            && (done + rest)[|done| := d] == c
            && c[|done|] == d && RemoveAt(c, |done|) == done + [] + rest[1..]
  {
  }

  lemma NotLeft(nodes: seq<Node>, i: nat)
    requires Chain(nodes) && i < |nodes|
    ensures nodes[i] !in RemoveAt(nodes, i)
  {
  }

  lemma ChainNext(nodes: seq<Node>, i: nat)
    requires Chain(nodes) && i < |nodes|
    ensures nodes[i].next == NodeAt(nodes, i + 1)
    ensures forall j :: i < j < |nodes| ==> nodes[j] != nodes[i]
  {
  }

  class List {
    var head: Node?                  // GlobalDeviceList
    var effects: seq<Effect>
    ghost var nodes: seq<Node>
    ghost var live: set<Node>        // memory obtained and not given back

    ghost predicate Linked()
      reads this`head, this`nodes, this`live, nodes
    {
      && head == NodeAt(nodes, 0)
      && Chain(nodes)
      && (forall i :: 0 <= i < |nodes| ==> nodes[i] in live)
    }

    ghost function Contents(): (l: seq<Device>)
      reads this`nodes, nodes
      ensures |l| == |nodes|
      ensures forall i :: 0 <= i < |nodes| ==> l[i] == Device(nodes[i].udn, nodes[i].timeout)
    {
      Devices(nodes)
    }

    ghost predicate Valid()
      reads this`head, this`nodes, this`live, nodes
    {
      Linked() && NoLeak() && Distinct(Contents())
    }

    /** With Linked: the live nodes are exactly those in the chain. */
    ghost predicate NoLeak()
      reads this`nodes, this`live
    {
      |live| == |nodes|
    }

    constructor ()
      ensures Valid() && Contents() == [] && effects == []
    {
      head, effects, nodes, live := null, [], [], {};
    }

    /** Only a live node that is out of the chain may be deleted. */
    method DeleteNode(node: Node)
      requires Linked() && node !in nodes && node in live
      modifies this`effects, this`live
      ensures Linked() && live == old(live) - {node} && effects == old(effects) + [Removed(node.udn)]
    {
      effects := effects + [Removed(node.udn)];
      live := live - {node};
    }

    method UnlinkFirst()
      requires Linked() && nodes != []
      modifies this`head, this`nodes
      ensures Linked() && nodes == RemoveAt(old(nodes), 0) && Contents() == RemoveAt(old(Contents()), 0)
      ensures head == NodeAt(nodes, 0)
    {
      head := head.next;
      nodes := nodes[1..];
    }

    /** Takes the node behind `prev` out of the chain. */
    method UnlinkAfter(prev: Node, cur: Node, ghost i: nat)
      requires Linked() && 1 <= i < |nodes| && prev == nodes[i - 1] && cur == nodes[i]
      modifies this`nodes, prev`next
      ensures Linked() && nodes == RemoveAt(old(nodes), i) && prev.next == NodeAt(nodes, i)
      ensures Contents() == RemoveAt(old(Contents()), i)
    {
      assert nodes[i].next == NodeAt(nodes, i + 1);
      prev.next := cur.next;
      nodes := nodes[..i] + nodes[i + 1..];
      assert nodes[i - 1] == prev;
    }

    lemma HeadIs(cur: Node, i: nat)
      requires Linked() && i < |nodes| && cur == nodes[i]
      ensures (head == cur <==> i == 0) && cur in live && (i > 0 ==> nodes[i - 1] in live) && Chain(nodes)
    {
    }

    /** Unlinks and deletes one node; without a predecessor it is the head. */
    method Drop(prev: Node?, cur: Node, ghost i: nat)
      requires Linked() && i < |nodes| && cur == nodes[i] && prev == if i == 0 then null else nodes[i - 1]
      modifies this`head, this`nodes, this`effects, this`live, live
      ensures Linked() && live == old(live) - {cur} && effects == old(effects) + [Removed(cur.udn)]
      ensures nodes == RemoveAt(old(nodes), i)
      ensures Contents() == RemoveAt(old(Contents()), i)
      ensures NodeAt(nodes, i) == if prev != null then prev.next else head
    {
      hide *;
      HeadIs(cur, i);
      NotLeft(nodes, i);
      if head == cur {
        UnlinkFirst();
      } else {
        UnlinkAfter(prev, cur, i);
      }
      DeleteNode(cur);
    }

    /** Links a new node behind the last one. */
    method Append(node: Node)
      requires Linked() && node !in live && node.next == null
      modifies this`head, this`nodes, this`live, nodes
      ensures Linked() && nodes == old(nodes) + [node] && live == old(live) + {node}
      ensures Contents() == old(Contents()) + [Device(node.udn, node.timeout)]
    {
      if head == null {
        head := node;
      } else {
        var last := head;
        ghost var i := 0;
        while last.next != null
          invariant 0 <= i < |nodes| && last == nodes[i]
          decreases |nodes| - i
        {
          last := last.next;
          i := i + 1;
        }
        last.next := node;
      }
      nodes, live := nodes + [node], live + {node};
    }

    method SetTimeout(cur: Node, timeout: int, ghost i: nat)
      requires Linked() && i < |nodes| && cur == nodes[i]
      modifies cur`timeout
      ensures Linked() && Contents() == old(Contents())[i := Device(cur.udn, timeout)]
    {
      cur.timeout := timeout;
    }

    /** TvCtrlPointAddDevice, the part that works on the list. */
    method AddDevice(isTv: bool, udn: string, expires: int)
      requires Valid()
      modifies this`head, this`nodes, this`effects, this`live, nodes
      ensures Valid()
      ensures Contents() == if isTv then Advertised(old(Contents()), udn, expires) else old(Contents())
      ensures effects == old(effects) +
                         if isTv && Lookup(old(Contents()), udn).None? then [Added(udn)] else []
    {
      if isTv {
        AdvertisedDistinct(Contents(), udn, expires);
        hide Distinct, Find, Advertised;
        UpdateOrAppend(udn, expires);
      }
    }

    method UpdateOrAppend(udn: string, expires: int)
      requires Linked() && NoLeak()
      modifies this`head, this`nodes, this`effects, this`live, nodes
      ensures Linked() && NoLeak()
      ensures Contents() == Advertised(old(Contents()), udn, expires)
      ensures effects == old(effects) + if Find(old(Contents()), udn) == |old(Contents())| then [Added(udn)] else []
    {
      hide Linked, Chain, Devices, Find;
      var cur, i := FindNode(udn);
      if cur != null {
        SetTimeout(cur, expires, i);
      } else {
        var node := new Node(udn, expires);
        Append(node);
        effects := effects + [Added(udn)];
      }
    }

    method FindNode(udn: string) returns (cur: Node?, ghost i: nat)
      requires Linked()
      ensures i == Find(Contents(), udn) && cur == NodeAt(nodes, i)
    {
      cur, i := head, 0;
      while cur != null && cur.udn != udn
        invariant 0 <= i <= |nodes| && cur == NodeAt(nodes, i)
        invariant forall k :: 0 <= k < i ==> nodes[k].udn != udn
        decreases |nodes| - i
      {
        cur := cur.next;
        i := i + 1;
      }
      FindIs(Contents(), udn, i);
    }

    /** TvCtrlPointRemoveDevice deletes the first match only; it leaves no other one. */
    method RemoveDevice(udn: string)
      requires Valid()
      modifies this`head, this`nodes, this`effects, this`live, live
      ensures Valid() && Lookup(Contents(), udn).None?
      ensures Contents() == Without(old(Contents()), udn)
      ensures effects == old(effects) + if Lookup(old(Contents()), udn).Some? then [Removed(udn)] else []
    {
      WithoutDistinct(Contents(), udn);
      hide Distinct, Find, Without;
      UnlinkMatch(udn);
    }

    /** The walk of TvCtrlPointRemoveDevice: the head is a case of its own. */
    method UnlinkMatch(udn: string)
      requires Linked() && NoLeak()
      modifies this`head, this`nodes, this`effects, this`live, live
      ensures Linked() && NoLeak() && Contents() == Without(old(Contents()), udn)
      ensures effects == old(effects) + if Find(old(Contents()), udn) < |old(Contents())| then [Removed(udn)] else []
    {
      ghost var l := Contents();
      hide Find;
      var cur := head;
      if cur == null {
        return;
      }
      if cur.udn == udn {
        FindIs(l, udn, 0);
        Drop(null, cur, 0);
        return;
      }
      var prev := cur;
      cur := cur.next;
      ghost var i := 1;
      while cur != null
        invariant 1 <= i <= |nodes| && prev == nodes[i - 1] && cur == NodeAt(nodes, i)
        invariant forall k :: 0 <= k < i ==> l[k].udn != udn
        decreases |nodes| - i
      {
        if cur.udn == udn {
          FindIs(l, udn, i);
          Drop(prev, cur, i);
          return;
        }
        prev, cur := cur, cur.next;
        i := i + 1;
      }
      FindIs(l, udn, |l|);
    }

    /** TvCtrlPointRemoveAll: the list is detached, then each node deleted once, in order. */
    method RemoveAll()
      requires Valid()
      modifies this`head, this`nodes, this`effects, this`live
      ensures Valid() && Contents() == []
      ensures effects == old(effects) + Removals(old(Contents()))
    {
      ghost var walk := nodes;
      var cur := head;
      head, nodes := null, [];
      hide Removals, Find;
      DeleteChain(cur, walk);
    }

    method DeleteChain(first: Node?, ghost walk: seq<Node>)
      requires Chain(walk) && first == NodeAt(walk, 0) && Linked() && nodes == []
      requires |live| == |walk| && forall i :: 0 <= i < |walk| ==> walk[i] in live
      modifies this`effects, this`live
      ensures Linked() && NoLeak() && effects == old(effects) + Removals(Devices(walk))
    {
      hide Removals, Devices, Chain, Linked;
      ghost var l, k := Devices(walk), 0;
      RemovalsStart(old(effects), l);
      var cur := first;
      while cur != null
        invariant 0 <= k <= |walk| && cur == NodeAt(walk, k)
        invariant Linked()
        invariant effects == old(effects) + Removals(l[..k])
        invariant |live| == |walk| - k && forall i :: k <= i < |walk| ==> walk[i] in live
        decreases |walk| - k
      {
        RemovalsStep(old(effects), l, k);
        ChainNext(walk, k);
        var next := cur.next;
        DeleteNode(cur);
        cur := next;
        k := k + 1;
      }
    }

    /** TvCtrlPointVerifyTimeouts: one pass ages the whole list in place. */
    method VerifyTimeouts(incr: int)
      requires Valid()
      modifies this`head, this`nodes, this`effects, this`live, live
      ensures Valid() && Contents() == Aged(old(Contents()), incr)
      ensures effects == old(effects) + AgingEffects(old(Contents()), incr)
    {
      AgedDistinct(Contents(), incr);
      hide Distinct, Aged, AgingEffects;
      Age(incr);
    }

    /** The walk stands at position i of a list that reads c. */
    ghost predicate At(c: seq<Device>, i: nat, prev: Node?, cur: Node?)
      reads this`head, this`nodes, this`live, nodes
    {
      && Linked() && NoLeak() && Contents() == c && i <= |c|
      && cur == NodeAt(nodes, i) && prev == if i == 0 then null else nodes[i - 1]
    }

    method Age(incr: int)
      requires Linked() && NoLeak()
      modifies this`head, this`nodes, this`effects, this`live, live
      ensures Linked() && NoLeak() && Contents() == Aged(old(Contents()), incr)
      ensures effects == old(effects) + AgingEffects(old(Contents()), incr)
    {
      hide *;
      ghost var l, k := Contents(), 0;
      ghost var done := [];
      var prev: Node?, cur := null, head;
      AgingStart(l, incr);
      AtStart(l);
      while cur != null
        invariant 0 <= k <= |l| && done == Aged(l[..k], incr)
        invariant At(done + l[k..], |done|, prev, cur) && (cur != null <==> k < |l|)
        invariant live <= old(live)
        invariant effects == old(effects) + AgingEffects(l[..k], incr)
        decreases |l| - k
      {
        AgingStep(old(effects), l, k, incr);
        assert l[k..][0] == l[k] && l[k..][1..] == l[k + 1..];
        ghost var left;
        prev, cur, left := AgeNode(done, l[k..], prev, cur, incr);
        done, k := done + left, k + 1;
      }
      AtEnd(done + l[k..], |done|, prev);
      assert l[..k] == l && done + l[k..] == done;
    }

    /** The body of the loop: ages one node, and drops it or moves on. */
    method AgeNode(ghost done: seq<Device>, ghost rest: seq<Device>, prev: Node?, cur: Node, incr: int)
      returns (prev': Node?, cur': Node?, ghost left: seq<Device>)
      requires rest != [] && At(done + rest, |done|, prev, cur)
      modifies this`head, this`nodes, this`effects, this`live, live
      ensures At(done + left + rest[1..], |done| + |left|, prev', cur') && (cur' != null <==> |rest| > 1)
      ensures left == Left(rest[0], incr) && effects == old(effects) + Sent(rest[0], incr)
      ensures live <= old(live)
    {
      hide *;
      ghost var d := Device(rest[0].udn, rest[0].timeout - incr);
      ghost var c := done + [d] + rest[1..];
      Splice(done, rest, d);
      OneTick(rest[0], incr);
      AtLive(done + rest, |done|, prev, cur);
      Decrement(done, rest, prev, cur, incr);
      if cur.timeout <= 0 {
        prev', left := prev, [];
        cur' := DropAt(c, prev, cur, |done|);
      } else {
        AtNext(c, |done|, prev, cur);
        if cur.timeout < 2 * incr {
          effects := effects + [Search(cur.udn)];
        }
        left := [d];
        prev', cur' := cur, cur.next;
      }
    }

    lemma AtLive(c: seq<Device>, i: nat, prev: Node?, cur: Node)
      requires i < |c| && At(c, i, prev, cur)
      ensures Linked() && NoLeak() && Contents() == c && |nodes| == |c| && cur in live
      ensures cur == nodes[i] && prev == (if i == 0 then null else nodes[i - 1]) && c[i] == Device(cur.udn, cur.timeout)
    {
      assert cur == nodes[i];
    }

    lemma AtIntro(c: seq<Device>, i: nat, prev: Node?, cur: Node)
      requires Linked() && NoLeak() && Contents() == c && i < |nodes|
      requires cur == nodes[i] && prev == if i == 0 then null else nodes[i - 1]
      ensures At(c, i, prev, cur)
    {
    }

    lemma AtStart(l: seq<Device>)
      requires Linked() && NoLeak() && l == Contents()
      ensures At([] + l, 0, null, head) && (head != null <==> |l| > 0)
    {
      assert [] + l == l;
    }

    lemma AtEnd(c: seq<Device>, i: nat, prev: Node?)
      requires At(c, i, prev, null)
      ensures Linked() && NoLeak() && Contents() == c
    {
    }

    method SetTimeoutAt(ghost c: seq<Device>, ghost i: nat, prev: Node?, cur: Node, timeout: int)
      requires i < |c| && At(c, i, prev, cur)
      modifies cur`timeout
      ensures At(c[i := Device(cur.udn, timeout)], i, prev, cur) && cur.timeout == timeout
    {
      hide *;
      AtLive(c, i, prev, cur);
      SetTimeout(cur, timeout, i);
      AtIntro(c[i := Device(cur.udn, timeout)], i, prev, cur);
    }

    method Decrement(ghost done: seq<Device>, ghost rest: seq<Device>, prev: Node?, cur: Node, incr: int)
      requires rest != [] && At(done + rest, |done|, prev, cur)
      modifies cur`timeout
      ensures cur.udn == rest[0].udn && cur.timeout == rest[0].timeout - incr
      ensures At(done + [Device(cur.udn, cur.timeout)] + rest[1..], |done|, prev, cur)
    {
      hide *;
      AtLive(done + rest, |done|, prev, cur);
      SetTimeoutAt(done + rest, |done|, prev, cur, cur.timeout - incr);
      Splice(done, rest, Device(cur.udn, cur.timeout));
    }

    lemma AtNext(c: seq<Device>, i: nat, prev: Node?, cur: Node)
      requires i < |c| && At(c, i, prev, cur)
      ensures At(c, i + 1, cur, cur.next) && (cur.next != null <==> i + 1 < |c|)
    {
      assert nodes[i].next == NodeAt(nodes, i + 1);
    }

    method DropAt(ghost c: seq<Device>, prev: Node?, cur: Node, ghost i: nat) returns (cur': Node?)
      requires i < |c| && At(c, i, prev, cur)
      modifies this`head, this`nodes, this`effects, this`live, live
      ensures At(RemoveAt(c, i), i, prev, cur') && (cur' != null <==> i < |c| - 1)
      ensures effects == old(effects) + [Removed(c[i].udn)] && live <= old(live)
    {
      assert Linked() ==> cur in live;
      hide Linked, Chain, Devices;
      Drop(prev, cur, i);
      cur' := if prev != null then prev.next else head;
    }
  }

  // ---------------------------------------------------------------- distinct names

  lemma AdvertisedDistinct(l: seq<Device>, u: string, expires: int)
    requires Distinct(l)
    ensures Distinct(Advertised(l, u, expires))
  {
  }

  lemma WithoutDistinct(l: seq<Device>, u: string)
    requires Distinct(l)
    ensures Distinct(Without(l, u)) && Lookup(Without(l, u), u).None?
  {
    FindIs(Without(l, u), u, |Without(l, u)|);
  }

  lemma AgingStart(l: seq<Device>, incr: int)
    ensures Aged(l[..0], incr) == [] && AgingEffects(l[..0], incr) == [] && l[0..] == l && l[..|l|] == l
  {
  }

  lemma RemovalsStart(before: seq<Effect>, l: seq<Device>)
    ensures before + Removals(l[..0]) == before && l[..|l|] == l
  {
  }

  lemma RemovalsStep(before: seq<Effect>, l: seq<Device>, k: nat)
    requires k < |l|
    ensures before + Removals(l[..k + 1]) == before + Removals(l[..k]) + [Removed(l[k].udn)]
  {
    assert l[..k + 1][..k] == l[..k];
  }

  lemma OneTick(d: Device, incr: int)
    ensures d.timeout - incr <= 0 ==> Left(d, incr) == [] && Sent(d, incr) == [Removed(d.udn)]
    ensures d.timeout - incr > 0 ==>
              && Left(d, incr) == [Device(d.udn, d.timeout - incr)]
              && Sent(d, incr) == if d.timeout - incr < 2 * incr then [Search(d.udn)] else []
  {
  }

  lemma AgingStep(before: seq<Effect>, l: seq<Device>, k: nat, incr: int)
    requires k < |l|
    ensures Aged(l[..k + 1], incr) == Aged(l[..k], incr) + Left(l[k], incr)
    ensures before + AgingEffects(l[..k + 1], incr) == before + AgingEffects(l[..k], incr) + Sent(l[k], incr)
  {
    assert l[..k + 1][..k] == l[..k];
  }

  lemma {:induction false} AgedFrom(l: seq<Device>, incr: int, u: string)
    requires forall i :: 0 <= i < |l| ==> l[i].udn != u
    ensures forall i :: 0 <= i < |Aged(l, incr)| ==> Aged(l, incr)[i].udn != u
  {
    if l != [] {
      AgedFrom(l[..|l| - 1], incr, u);
    }
  }

  lemma {:induction false} AgedDistinct(l: seq<Device>, incr: int)
    requires Distinct(l)
    ensures Distinct(Aged(l, incr))
  {
    if l != [] {
      AgedDistinct(l[..|l| - 1], incr);
      AgedFrom(l[..|l| - 1], incr, l[|l| - 1].udn);
    }
  }
}
