/** The web server's list of virtual directories: a singly linked list that behaves as an
    insertion-ordered map from directory name to cookie. */
module VirtualDirs {
  import opened Upnp

  const NAME_SIZE := 256

  /** An application's cookie; 0 stands for a null pointer. */
  type Cookie = int

  datatype Entry = Entry(name: string, cookie: Cookie)

  // ---------------------------------------------------------------- the ordered map

  ghost predicate NameOk(name: string) {
    1 <= |name| < NAME_SIZE && name[0] == '/'
  }

  ghost predicate DirsOk(l: seq<Entry>) {
    && (forall i :: 0 <= i < |l| ==> NameOk(l[i].name))
    && (forall i, j :: 0 <= i < j < |l| ==> l[i].name != l[j].name)
  }

  /** The position of a name, or |l|. */
  ghost function Find(l: seq<Entry>, name: string): (r: nat)
    ensures r <= |l|
    ensures r < |l| ==> l[r].name == name
    ensures forall i :: 0 <= i < r ==> l[i].name != name
  {
    if l == [] || l[0].name == name then 0 else 1 + Find(l[1..], name)
  }

  ghost function Put(l: seq<Entry>, name: string, cookie: Cookie): seq<Entry> {
    if Find(l, name) < |l| then l[Find(l, name) := Entry(name, cookie)] else l + [Entry(name, cookie)]
  }

  ghost function Delete(l: seq<Entry>, name: string): seq<Entry> {
    if Find(l, name) < |l| then l[..Find(l, name)] + l[Find(l, name) + 1..] else l
  }

  /** The name under which a directory is stored: with a leading slash, if it then fits. */
  function Normalise(dir: string): (r: Option<string>)
    ensures r.Some? ==> NameOk(r.value) && (r.value == dir || r.value == "/" + dir)
    ensures r.None? <==>
              dir == "" || (dir[0] == '/' && |dir| > NAME_SIZE - 1) || (dir[0] != '/' && |dir| > NAME_SIZE - 2)
  {
    if dir == "" then None
    else if dir[0] != '/' then if |dir| > NAME_SIZE - 2 then None else Some("/" + dir)
    else if |dir| > NAME_SIZE - 1 then None else Some(dir)
  }

  /** A stored name is its own normal form, so it can be added again and removed as it is. */
  lemma NormaliseTwice(dir: string)
    requires Normalise(dir).Some?
    ensures Normalise(Normalise(dir).value) == Normalise(dir)
  {
  }

  lemma FindIs(l: seq<Entry>, name: string, i: nat)
    requires i <= |l| && (forall k :: 0 <= k < i ==> l[k].name != name) && (i < |l| ==> l[i].name == name)
    ensures Find(l, name) == i
  {
  }

  lemma PutKeeps(l: seq<Entry>, name: string, cookie: Cookie)
    requires DirsOk(l) && NameOk(name)
    ensures DirsOk(Put(l, name, cookie))
  {
  }

  lemma DeleteKeeps(l: seq<Entry>, name: string)
    requires DirsOk(l)
    ensures DirsOk(Delete(l, name)) && Find(Delete(l, name), name) == |Delete(l, name)|
  {
    FindIs(Delete(l, name), name, |Delete(l, name)|);
  }

  /** Adding a new directory and removing it again under its stored name restores the list. */
  lemma PutThenDelete(l: seq<Entry>, name: string, cookie: Cookie)
    requires Find(l, name) == |l|
    ensures Delete(Put(l, name, cookie), name) == l
  {
    FindIs(Put(l, name, cookie), name, |l|);
  }

  /** Adding an existing one changes its cookie only: the last cookie counts. */
  lemma PutTwice(l: seq<Entry>, name: string, c: Cookie, c': Cookie)
    ensures Put(Put(l, name, c), name, c') == Put(l, name, c')
  {
    FindIs(Put(l, name, c), name, Find(l, name));
  }

  // ---------------------------------------------------------------- runs against an ordered map

  /** Calls with any arguments; null and ill-formed names included. */
  datatype Call = AddDir(dir: Option<string>, cookie: Cookie) | RemoveDir(dir: Option<string>) | RemoveAllDirs

  ghost function After(l: seq<Entry>, c: Call): seq<Entry> {
    match c
    case AddDir(dir, cookie) =>
      if dir.None? || Normalise(dir.value).None? then l else Put(l, Normalise(dir.value).value, cookie)
    case RemoveDir(dir) => if dir.None? then l else Delete(l, dir.value)
    case RemoveAllDirs => []
  }

  ghost function Replay(calls: seq<Call>): seq<Entry> {
    if calls == [] then [] else After(Replay(calls[..|calls| - 1]), calls[|calls| - 1])
  }

  /** A map together with its keys in the order in which they came in. */
  datatype Ordered = Ordered(keys: seq<string>, cookies: map<string, Cookie>)

  ghost function Without(keys: seq<string>, name: string): seq<string> {
    if keys == [] then [] else
    if keys[0] == name then Without(keys[1..], name) else [keys[0]] + Without(keys[1..], name)
  }

  ghost function MapAfter(m: Ordered, c: Call): Ordered {
    match c
    case AddDir(dir, cookie) =>
      if dir.None? || Normalise(dir.value).None? then m else
      var name := Normalise(dir.value).value;
      Ordered(if name in m.cookies then m.keys else m.keys + [name], m.cookies[name := cookie])
    case RemoveDir(dir) =>
      if dir.None? then m else Ordered(Without(m.keys, dir.value), m.cookies - {dir.value})
    case RemoveAllDirs => Ordered([], map[])
  }

  ghost function ReplayMap(calls: seq<Call>): Ordered {
    if calls == [] then Ordered([], map[]) else MapAfter(ReplayMap(calls[..|calls| - 1]), calls[|calls| - 1])
  }

  /** The list names the keys in their order, each with its cookie. */
  ghost predicate SameAsMap(l: seq<Entry>, m: Ordered) {
    && |l| == |m.keys|
    && (forall i :: 0 <= i < |l| ==> SameAt(l[i], m.keys[i], m.cookies))
    && (forall name :: name in m.cookies ==> name in m.keys)
  }

  ghost predicate SameAt(e: Entry, key: string, cookies: map<string, Cookie>) {
    e.name == key && key in cookies && cookies[key] == e.cookie
  }

  lemma FindKey(l: seq<Entry>, m: Ordered, name: string)
    requires SameAsMap(l, m)
    ensures Find(l, name) < |l| <==> name in m.cookies
    ensures Find(l, name) < |l| ==> m.keys[Find(l, name)] == name
  {
    if Find(l, name) < |l| {
      assert SameAt(l[Find(l, name)], m.keys[Find(l, name)], m.cookies);
    }
  }

  lemma PutSame(l: seq<Entry>, m: Ordered, name: string, cookie: Cookie)
    requires DirsOk(l) && SameAsMap(l, m)
    ensures SameAsMap(Put(l, name, cookie),
                      Ordered(if name in m.cookies then m.keys else m.keys + [name], m.cookies[name := cookie]))
  {
    FindKey(l, m, name);
    var r, i, cookies := Put(l, name, cookie), Find(l, name), m.cookies[name := cookie];
    var keys := if name in m.cookies then m.keys else m.keys + [name];
    forall k | 0 <= k < |r| ensures SameAt(r[k], keys[k], cookies) {
      if k != i {
        assert r[k] == l[k] && SameAt(l[k], m.keys[k], m.cookies) && l[k].name != name;
      }
    }
    hide *;
    assert keys[|keys| - 1] == name || name in m.keys;
  }

  lemma {:induction false} WithoutOne(keys: seq<string>, name: string, i: nat)
    requires i <= |keys| && (i < |keys| ==> keys[i] == name)
    requires forall j :: 0 <= j < |keys| && j != i ==> keys[j] != name
    ensures Without(keys, name) == if i < |keys| then keys[..i] + keys[i + 1..] else keys
  {
    if keys != [] {
      if i == 0 {
        WithoutOne(keys[1..], name, |keys| - 1);
      } else {
        WithoutOne(keys[1..], name, i - 1);
        if i < |keys| {
          assert keys[..i] + keys[i + 1..] == [keys[0]] + (keys[1..][..i - 1] + keys[1..][i..]);
        }
      }
    }
  }

  lemma DeleteSame(l: seq<Entry>, m: Ordered, name: string)
    requires DirsOk(l) && SameAsMap(l, m)
    ensures SameAsMap(Delete(l, name), Ordered(Without(m.keys, name), m.cookies - {name}))
  {
    hide *;
    FindKey(l, m, name);
    NamedOnce(l, m, name);
    var i := Find(l, name);
    WithoutOne(m.keys, name, i);
    if i < |l| {
      CutSame(l, m, i);
    } else {
      assert m.cookies - {name} == m.cookies;
      assert Ordered(m.keys, m.cookies) == m;
    }
  }

  lemma NamedOnce(l: seq<Entry>, m: Ordered, name: string)
    requires DirsOk(l) && SameAsMap(l, m)
    ensures |l| == |m.keys| && forall j :: 0 <= j < |m.keys| && j != Find(l, name) ==> m.keys[j] != name
    ensures Delete(l, name) == if Find(l, name) < |l| then l[..Find(l, name)] + l[Find(l, name) + 1..] else l
  {
    forall j | 0 <= j < |l| ensures m.keys[j] == l[j].name {
      assert SameAt(l[j], m.keys[j], m.cookies);
    }
  }

  lemma CutSame(l: seq<Entry>, m: Ordered, i: nat)
    requires SameAsMap(l, m) && i < |l| && forall j :: 0 <= j < |l| && j != i ==> m.keys[j] != m.keys[i]
    ensures SameAsMap(l[..i] + l[i + 1..], Ordered(m.keys[..i] + m.keys[i + 1..], m.cookies - {m.keys[i]}))
  {
    var r, keys, cookies := l[..i] + l[i + 1..], m.keys[..i] + m.keys[i + 1..], m.cookies - {m.keys[i]};
    forall k | 0 <= k < |r| ensures SameAt(r[k], keys[k], cookies) {
      var j := if k < i then k else k + 1;
      assert r[k] == l[j] && keys[k] == m.keys[j] && SameAt(l[j], m.keys[j], m.cookies);
    }
    assert m.keys == m.keys[..i] + [m.keys[i]] + m.keys[i + 1..];
  }

  /** Over every run of calls, with any arguments, the list holds distinct, well-formed names and is a
      map in insertion order. */
  lemma {:induction false} RunRefinesMap(calls: seq<Call>)
    ensures DirsOk(Replay(calls)) && SameAsMap(Replay(calls), ReplayMap(calls))
  {
    if calls != [] {
      var n := |calls| - 1;
      RunRefinesMap(calls[..n]);
      var l, m := Replay(calls[..n]), ReplayMap(calls[..n]);
      match calls[n]
      case AddDir(dir, cookie) =>
        if dir.Some? && Normalise(dir.value).Some? {
          PutKeeps(l, Normalise(dir.value).value, cookie);
          PutSame(l, m, Normalise(dir.value).value, cookie);
        }
      case RemoveDir(dir) =>
        if dir.Some? {
          DeleteKeeps(l, dir.value);
          DeleteSame(l, m, dir.value);
        }
      case RemoveAllDirs =>
    }
  }

  // ---------------------------------------------------------------- the linked list

  class Node {
    var next: Node?
    var cookie: Cookie
    const name: string

    constructor (name: string, cookie: Cookie)
      ensures this.name == name && this.cookie == cookie && this.next == null
    {
      this.name, this.cookie, this.next := name, cookie, null;
    }
  }

  class DirList {
    var initialised: bool           // UpnpSdkInit
    var head: Node?                 // pVirtualDirList
    ghost var nodes: seq<Node>

    ghost predicate Linked()
      reads this, nodes
    {
      && head == NodeAt(nodes, 0)
      && (forall i {:trigger nodes[i].next} :: 0 <= i < |nodes| ==> nodes[i].next == NodeAt(nodes, i + 1))
      && (forall i, j :: 0 <= i < j < |nodes| ==> nodes[i] != nodes[j])
    }

    ghost function Contents(): (l: seq<Entry>)
      reads this, nodes
      ensures |l| == |nodes|
      ensures forall i :: 0 <= i < |nodes| ==> l[i] == Entry(nodes[i].name, nodes[i].cookie)
    {
      Entries(nodes)
    }

    ghost predicate Valid()
      reads this, nodes
    {
      Linked() && DirsOk(Contents())
    }

    constructor (initialised: bool)
      ensures Valid() && Contents() == [] && this.initialised == initialised
    {
      this.initialised, head, nodes := initialised, null, [];
    }

    /** UpnpAddVirtualDir: update or append.  `held` is what the caller's variable for the old cookie
        holds before the call, `previous` what it holds afterwards; `memory` says whether a new node
        can be had. */
    method Add(dir: Option<string>, cookie: Cookie, held: Cookie, memory: bool) returns (rc: int, previous: Cookie)
      requires Valid()
      modifies this`head, this`nodes, nodes
      ensures Valid()
      ensures initialised && dir.Some? && Normalise(dir.value).Some? ==>
                var name := Normalise(dir.value).value;
                var l := old(Contents());
                if Find(l, name) < |l| then
                  rc == UPNP_E_SUCCESS && previous == l[Find(l, name)].cookie && Contents() == Put(l, name, cookie)
                else if memory then
                  rc == UPNP_E_SUCCESS && previous == 0 && Contents() == Put(l, name, cookie)
                else rc == UPNP_E_OUTOF_MEMORY
      ensures !(initialised && dir.Some? && Normalise(dir.value).Some?) ==>
                rc == if !initialised then UPNP_E_FINISH else UPNP_E_INVALID_PARAM
      ensures rc != UPNP_E_SUCCESS ==> previous == held && Contents() == old(Contents())
      ensures rc == UPNP_E_SUCCESS ==> Contents() == After(old(Contents()), AddDir(dir, cookie))
    {
      if !initialised {
        return UPNP_E_FINISH, held;
      }
      if dir.None? || Normalise(dir.value).None? {
        return UPNP_E_INVALID_PARAM, held;
      }
      var name := Normalise(dir.value).value;
      PutKeeps(Contents(), name, cookie);
      hide DirsOk, Find, Put, Linked, Normalise;
      rc, previous := UpdateOrAppend(name, cookie, held, memory);
    }

    /** The walk of UpnpAddVirtualDir over the chain. */
    method UpdateOrAppend(name: string, cookie: Cookie, held: Cookie, memory: bool) returns (rc: int, previous: Cookie)
      requires Linked()
      modifies this`head, this`nodes, nodes
      ensures Linked()
      ensures var l := old(Contents());
              if Find(l, name) < |l| then
                rc == UPNP_E_SUCCESS && previous == l[Find(l, name)].cookie && Contents() == Put(l, name, cookie)
              else if memory then
                rc == UPNP_E_SUCCESS && previous == 0 && Contents() == Put(l, name, cookie)
              else rc == UPNP_E_OUTOF_MEMORY && previous == held && Contents() == l
    {
      ghost var l := Contents();
      var cur := head;
      ghost var i := 0;
      hide Find;
      while cur != null
        invariant 0 <= i <= |nodes| && cur == NodeAt(nodes, i)
        invariant forall k :: 0 <= k < i ==> l[k].name != name
        decreases |nodes| - i
      {
        if cur.name == name {
          FindIs(l, name, i);
          rc := UPNP_E_SUCCESS;
          previous := SetCookie(cur, cookie, i);
          return;
        }
        cur := cur.next;
        i := i + 1;
      }
      FindIs(l, name, |l|);
      if !memory {
        return UPNP_E_OUTOF_MEMORY, held;
      }
      var node := new Node(name, cookie);
      Append(node);
      return UPNP_E_SUCCESS, 0;
    }

    method SetCookie(cur: Node, cookie: Cookie, ghost i: nat) returns (previous: Cookie)
      requires Linked() && i < |nodes| && cur == nodes[i]
      modifies cur`cookie
      ensures Linked() && previous == old(Contents())[i].cookie
      ensures Contents() == old(Contents())[i := Entry(cur.name, cookie)]
    {
      previous := cur.cookie;
      cur.cookie := cookie;
    }

    /** Links a new node behind the last one. */
    method Append(node: Node)
      requires Linked() && node !in nodes && node.next == null
      modifies this`head, this`nodes, nodes
      ensures Linked() && nodes == old(nodes) + [node]
      ensures Contents() == old(Contents()) + [Entry(node.name, node.cookie)]
    {
      if head == null {
        head := node;
      } else {
        var last := head;
        ghost var i := 0;
        while last.next != null
          invariant 0 <= i < |nodes| && last == nodes[i]
          decreases |nodes| - i
        {
          last := last.next;
          i := i + 1;
        }
        last.next := node;
      }
      nodes := nodes + [node];
    }

    method UnlinkFirst()
      requires Linked() && nodes != []
      modifies this`head, this`nodes
      ensures Linked() && nodes == old(nodes)[1..] && Contents() == old(Contents())[1..]
    {
      head := head.next;
      nodes := nodes[1..];
    }

    /** Takes the node behind `prev` out of the chain. */
    method UnlinkAfter(prev: Node, cur: Node, ghost i: nat)
      requires Linked() && 1 <= i < |nodes| && prev == nodes[i - 1] && cur == nodes[i]
      modifies this`nodes, prev`next
      ensures Linked() && nodes == old(nodes)[..i] + old(nodes)[i + 1..]
      ensures Contents() == old(Contents())[..i] + old(Contents())[i + 1..]
    {
      prev.next := cur.next;
      nodes := nodes[..i] + nodes[i + 1..];
    }

    /** UpnpRemoveVirtualDir: takes exactly the given (stored) name out of the list. */
    method Remove(dir: Option<string>) returns (rc: int)
      requires Valid()
      modifies this`head, this`nodes, nodes
      ensures Valid()
      ensures rc == if !initialised then UPNP_E_FINISH
                    else if dir.Some? && Find(old(Contents()), dir.value) < |old(Contents())| then UPNP_E_SUCCESS
                    else UPNP_E_INVALID_PARAM
      ensures rc == UPNP_E_SUCCESS ==> Contents() == Delete(old(Contents()), dir.value)
      ensures rc != UPNP_E_SUCCESS ==> Contents() == old(Contents())
    {
      if !initialised {
        return UPNP_E_FINISH;
      }
      if dir.None? {
        return UPNP_E_INVALID_PARAM;
      }
      DeleteKeeps(Contents(), dir.value);
      hide DirsOk, Find, Delete, Linked;
      var found := UnlinkName(dir.value);
      rc := if found then UPNP_E_SUCCESS else UPNP_E_INVALID_PARAM;
    }

    /** The walk of UpnpRemoveVirtualDir over the chain: the head is a case of its own. */
    method UnlinkName(name: string) returns (found: bool)
      requires Linked()
      modifies this`head, this`nodes, nodes
      ensures Linked() && Contents() == Delete(old(Contents()), name)
      ensures found <==> Find(old(Contents()), name) < |old(Contents())|
    {
      ghost var l := Contents();
      hide Find;
      if head == null {
        return false;
      }
      if head.name == name {
        FindIs(l, name, 0);
        UnlinkFirst();
        return true;
      }
      var prev, cur := head, head.next;
      ghost var i := 1;
      while cur != null
        invariant 1 <= i <= |nodes| && prev == nodes[i - 1] && cur == NodeAt(nodes, i)
        invariant forall k :: 0 <= k < i ==> l[k].name != name
        decreases |nodes| - i
      {
        if cur.name == name {
          FindIs(l, name, i);
          UnlinkAfter(prev, cur, i);
          return true;
        }
        prev, cur := cur, cur.next;
        i := i + 1;
      }
      FindIs(l, name, |l|);
      found := false;
    }

    /** UpnpRemoveAllVirtualDirs: frees every node once, in order. */
    method RemoveAll() returns (ghost freed: seq<Node>)
      requires Valid()
      modifies this`head, this`nodes
      ensures Valid()
      ensures if initialised then Contents() == [] && freed == old(nodes)
              else Contents() == old(Contents()) && freed == []
    {
      freed := [];
      if !initialised {
        return;
      }
      assert nodes[..0] == [] && nodes[..|nodes|] == nodes && DirsOk([]);
      hide DirsOk;
      var cur := head;
      while cur != null
        invariant |freed| <= |nodes| && freed == nodes[..|freed|] && cur == NodeAt(nodes, |freed|)
        decreases |nodes| - |freed|
      {
        var next := cur.next;
        assert nodes[..|freed| + 1] == nodes[..|freed|] + [cur];
        freed := freed + [cur];
        cur := next;
      }
      head, nodes := null, [];
    }
  }

  ghost function NodeAt(nodes: seq<Node>, i: nat): Node? {
    if i < |nodes| then nodes[i] else null
  }

  ghost function Entries(nodes: seq<Node>): (l: seq<Entry>)
    reads nodes
    ensures |l| == |nodes|
    ensures forall i :: 0 <= i < |nodes| ==> l[i] == Entry(nodes[i].name, nodes[i].cookie)
  {
    if nodes == [] then [] else [Entry(nodes[0].name, nodes[0].cookie)] + Entries(nodes[1..])
  }
}
