/** The SDK's handle table, its registration counters and the shutdown loops. */
module SdkHandles {
  import opened Upnp

  const NO_HANDLE := -1

  datatype Family = V4 | V6
  datatype Slot = Empty | Client | Device(af: Family)

  // ---------------------------------------------------------------- counting slots

  /** How many slots hold x. */
  function Num(t: seq<Slot>, x: Slot): (n: nat)
    ensures n <= |t|
    ensures n > 0 <==> x in t
  {
    if t == [] then 0
    else (assert t == t[..|t| - 1] + [t[|t| - 1]];
          Num(t[..|t| - 1], x) + if t[|t| - 1] == x then 1 else 0)
  }

  function Unit(b: bool): int { if b then 1 else 0 }

  lemma {:induction false} NumUpdate(t: seq<Slot>, i: nat, v: Slot, x: Slot)
    requires i < |t|
    ensures Num(t[i := v], x) == Num(t, x) - Unit(t[i] == x) + Unit(v == x)
  {
    var last := |t| - 1;
    if i < last {
      NumUpdate(t[..last], i, v, x);
      assert t[i := v][..last] == t[..last][i := v];
    } else {
      assert t[i := v][..last] == t[..last];
    }
  }

  lemma {:induction false} NumTotal(t: seq<Slot>)
    ensures Num(t, Empty) + Num(t, Client) + Num(t, Device(V4)) + Num(t, Device(V6)) == |t|
  {
    if t != [] {
      NumTotal(t[..|t| - 1]);
      match t[|t| - 1]
      case Empty =>
      case Client =>
      case Device(V4) =>
      case Device(V6) =>
    }
  }

  // ---------------------------------------------------------------- what shutdown does

  /** The first device of a family, or NO_HANDLE. */
  function FirstDevice(t: seq<Slot>, f: Family, from: nat): (r: int)
    requires from <= |t|
    ensures r == NO_HANDLE || (from <= r < |t| && t[r] == Device(f))
    ensures r == NO_HANDLE <==> Device(f) !in t[from..]
    ensures forall i :: from <= i < |t| && (r == NO_HANDLE || i < r) ==> t[i] != Device(f)
    decreases |t| - from
  {
    if from == |t| then NO_HANDLE
    else
      assert t[from..] == [t[from]] + t[from + 1..];
      if t[from] == Device(f) then from else FirstDevice(t, f, from + 1)
  }

  /** One device of the family goes, if the family's flag is set. */
  function WithoutDevice(t: seq<Slot>, f: Family, flag: int): (r: seq<Slot>)
    ensures |r| == |t|
  {
    var h := FirstDevice(t, f, 0);
    if flag == 0 || h == NO_HANDLE then t else t[h := Empty]
  }

  function WithoutClients(t: seq<Slot>): (r: seq<Slot>)
    ensures |r| == |t|
    ensures forall i :: 0 <= i < |t| ==> r[i] == if t[i] == Client then Empty else t[i]
  {
    seq(|t|, i requires 0 <= i < |t| => if t[i] == Client then Empty else t[i])
  }

  function AfterFinish(t: seq<Slot>, v4: int, v6: int): (r: seq<Slot>)
    ensures |r| == |t|
  {
    WithoutClients(WithoutDevice(WithoutDevice(t, V4, v4), V6, v6))
  }

  lemma WithoutDeviceNum(t: seq<Slot>, f: Family, flag: int, x: Slot)
    requires x != Empty && (flag != 0 ==> Num(t, Device(f)) > 0)
    ensures Num(WithoutDevice(t, f, flag), x) == Num(t, x) - Unit(flag != 0 && x == Device(f))
  {
    assert t[0..] == t;
    if flag != 0 {
      NumUpdate(t, FirstDevice(t, f, 0), Empty, x);
    }
  }

  lemma {:induction false} WithoutClientsNum(t: seq<Slot>, x: Slot)
    requires x != Empty
    ensures Num(WithoutClients(t), x) == if x == Client then 0 else Num(t, x)
  {
    if t != [] {
      var last := |t| - 1;
      WithoutClientsNum(t[..last], x);
      assert WithoutClients(t)[..last] == WithoutClients(t[..last]);
    }
  }

  /** A flag is 0 or 1, and 1 only if there is a device of the family. */
  predicate FlagOk(t: seq<Slot>, f: Family, flag: int) {
    (flag == 0 || flag == 1) && (flag == 1 ==> Num(t, Device(f)) > 0)
  }

  /** Shutdown removes every client, but at most one device of each family: it leaves exactly
      the devices beyond what the flags stand for. */
  lemma FinishLeaves(t: seq<Slot>, v4: int, v6: int)
    requires FlagOk(t, V4, v4) && FlagOk(t, V6, v6)
    ensures var r := AfterFinish(t, v4, v6);
            && Num(r, Client) == 0
            && Num(r, Device(V4)) == Num(t, Device(V4)) - v4
            && Num(r, Device(V6)) == Num(t, Device(V6)) - v6
  {
    var t1 := WithoutDevice(t, V4, v4);
    var t2 := WithoutDevice(t1, V6, v6);
    WithoutDeviceNum(t, V4, v4, Device(V4));
    WithoutDeviceNum(t, V4, v4, Device(V6));
    WithoutDeviceNum(t1, V6, v6, Device(V4));
    WithoutDeviceNum(t1, V6, v6, Device(V6));
    WithoutClientsNum(t2, Client);
    WithoutClientsNum(t2, Device(V4));
    WithoutClientsNum(t2, Device(V6));
  }

  /** So it leaves an empty table if and only if no family has more devices than its flag
      says: no family has two, and none has one whose flag was cleared. */
  lemma FinishEmptiesIff(t: seq<Slot>, v4: int, v6: int)
    requires FlagOk(t, V4, v4) && FlagOk(t, V6, v6)
    ensures (forall i :: 0 <= i < |t| ==> AfterFinish(t, v4, v6)[i] == Empty)
            <==> Num(t, Device(V4)) <= v4 && Num(t, Device(V6)) <= v6
  {
    FinishLeaves(t, v4, v6);
    var r := AfterFinish(t, v4, v6);
    forall i | 0 <= i < |t| && Num(r, Device(V4)) == 0 && Num(r, Device(V6)) == 0
      ensures r[i] == Empty
    {
      assert r[i] in r;
      match r[i]
      case Empty =>
      case Client =>
      case Device(V4) =>
      case Device(V6) =>
    }
    assert Num(r, Device(V4)) > 0 ==> Device(V4) in r;
    assert Num(r, Device(V6)) > 0 ==> Device(V6) in r;
  }

  // ---------------------------------------------------------------- the SDK

  /** How far UpnpInit2 gets. */
  datatype InitOutcome = Started | FailsEarly(code: int) | FailsLate(code: int)

  class Sdk {
    var initialised: bool            // UpnpSdkInit
    const table: array<Slot>         // HandleTable
    var clientRegistered: int        // UpnpSdkClientRegistered
    var deviceV4: int                // UpnpSdkDeviceRegisteredV4
    var deviceV6: int                // UpnpSdkDeviceregisteredV6

    /** The counters agree with the table.  Handle 0 is never given out. */
    ghost predicate Valid()
      reads this, table
    {
      && table.Length == NUM_HANDLE && table[0] == Empty
      && clientRegistered == Num(table[..], Client)
      && FlagOk(table[..], V4, deviceV4) && FlagOk(table[..], V6, deviceV6)
      && (!initialised ==> clientRegistered == 0 && deviceV4 == 0 && deviceV6 == 0)
    }

    ghost predicate Full()
      reads this, table
      requires table.Length == NUM_HANDLE
    {
      forall i :: 1 <= i < NUM_HANDLE ==> table[i] != Empty
    }

    constructor ()
      ensures Valid() && fresh(table) && !initialised
      ensures forall i :: 0 <= i < NUM_HANDLE ==> table[i] == Empty
    {
      initialised, clientRegistered, deviceV4, deviceV6 := false, 0, 0, 0;
      table := new Slot[NUM_HANDLE](_ => Empty);
      new;
      AllEmpty(table[..]);
    }

    method GetFreeHandle() returns (h: int)
      requires Valid()
      ensures h == UPNP_E_OUTOF_HANDLE <==> Full()
      ensures h != UPNP_E_OUTOF_HANDLE ==>
                1 <= h < NUM_HANDLE && table[h] == Empty && forall i :: 1 <= i < h ==> table[i] != Empty
    {
      var i := 1;
      while i < NUM_HANDLE && table[i] != Empty
        invariant 1 <= i <= NUM_HANDLE
        invariant forall k :: 1 <= k < i ==> table[k] != Empty
      {
        i := i + 1;
      }
      h := if i == NUM_HANDLE then UPNP_E_OUTOF_HANDLE else i;
    }

    /** Writing one slot, as seen by the counters. */
    method SetSlot(h: int, x: Slot)
      requires table.Length == NUM_HANDLE && 1 <= h < NUM_HANDLE
      modifies table
      ensures table[..] == old(table[..])[h := x]
      ensures forall y :: Num(table[..], y) == old(Num(table[..], y)) - Unit(old(table[h]) == y) + Unit(x == y)
    {
      ghost var before := table[..];
      table[h] := x;
      assert table[..] == before[h := x];
      forall y ensures Num(table[..], y) == Num(before, y) - Unit(before[h] == y) + Unit(x == y) {
        NumUpdate(before, h, x, y);
      }
    }

    /** Registers a client in the first free slot.  It fails exactly when there is none; the
        reason given is UPNP_E_ALREADY_REGISTERED when the counters alone show that. */
    method RegisterClient(paramsOk: bool) returns (rc: int, h: int)
      requires Valid()
      modifies this`clientRegistered, table
      ensures Valid()
      ensures rc == UPNP_E_FINISH <==> !initialised
      ensures rc == UPNP_E_INVALID_PARAM <==> initialised && !paramsOk
      ensures rc == UPNP_E_SUCCESS <==> initialised && paramsOk && !old(Full())
      ensures rc == UPNP_E_ALREADY_REGISTERED ==> old(Full())
      ensures rc == UPNP_E_ALREADY_REGISTERED <==>
                initialised && paramsOk && NUM_HANDLE - 1 <= old(clientRegistered) + deviceV4 + deviceV6
      ensures rc == UPNP_E_SUCCESS ==>
                && 1 <= h < NUM_HANDLE && old(table[h]) == Empty
                && (forall i :: 1 <= i < h ==> old(table[i]) != Empty)
                && table[..] == old(table[..])[h := Client] && clientRegistered == old(clientRegistered) + 1
      ensures rc != UPNP_E_SUCCESS ==> table[..] == old(table[..]) && clientRegistered == old(clientRegistered)
    {
      h := NO_HANDLE;
      if !initialised {
        return UPNP_E_FINISH, h;
      }
      if !paramsOk {
        return UPNP_E_INVALID_PARAM, h;
      }
      CountersBound(table[..], deviceV4, deviceV6);
      if NUM_HANDLE - 1 <= clientRegistered + deviceV4 + deviceV6 {
        assert Num(table[..], Empty) <= 1;
        OnlyZeroFree(table[..]);
        return UPNP_E_ALREADY_REGISTERED, h;
      }
      h := GetFreeHandle();
      if h == UPNP_E_OUTOF_HANDLE {
        return UPNP_E_OUTOF_MEMORY, h;
      }
      SetSlot(h, Client);
      clientRegistered := clientRegistered + 1;
      rc := UPNP_E_SUCCESS;
    }

    /** Removes a client after its subscriptions have been ended. */
    method UnRegisterClient(h: int) returns (rc: int)
      requires Valid()
      modifies this`clientRegistered, table
      ensures Valid()
      ensures rc == UPNP_E_FINISH <==> !initialised
      ensures rc == UPNP_E_SUCCESS <==> initialised && 1 <= h < NUM_HANDLE && old(table[h]) == Client
      ensures rc == UPNP_E_SUCCESS ==>
                table[..] == old(table[..])[h := Empty] && clientRegistered == old(clientRegistered) - 1
      ensures rc != UPNP_E_SUCCESS ==> table[..] == old(table[..]) && clientRegistered == old(clientRegistered)
    {
      if !initialised {
        return UPNP_E_FINISH;
      }
      if clientRegistered == 0 {
        assert 0 <= h < NUM_HANDLE ==> table[h] in table[..];
        return UPNP_E_INVALID_HANDLE;
      }
      if h < 1 || h >= NUM_HANDLE || table[h] != Client {
        return UPNP_E_INVALID_HANDLE;
      }
      SetSlot(h, Empty);
      clientRegistered := clientRegistered - 1;
      rc := UPNP_E_SUCCESS;
    }

    /** Registers a root device; `description` is the result of fetching and reading its
        description document, after whose failure the handle is given back. */
    method RegisterRootDevice(paramsOk: bool, f: Family, description: int) returns (rc: int, h: int)
      requires Valid()
      modifies this`deviceV4, this`deviceV6, table
      ensures Valid()
      ensures rc == UPNP_E_SUCCESS <==> initialised && paramsOk && !old(Full()) && description == UPNP_E_SUCCESS
      ensures rc == UPNP_E_SUCCESS ==>
                && 1 <= h < NUM_HANDLE && old(table[h]) == Empty && table[..] == old(table[..])[h := Device(f)]
                && deviceV4 == (if f == V4 then 1 else old(deviceV4))
                && deviceV6 == (if f == V6 then 1 else old(deviceV6))
      ensures rc != UPNP_E_SUCCESS ==>
                table[..] == old(table[..]) && deviceV4 == old(deviceV4) && deviceV6 == old(deviceV6)
    {
      h := NO_HANDLE;
      if !initialised {
        return UPNP_E_FINISH, h;
      }
      if !paramsOk {
        return UPNP_E_INVALID_PARAM, h;
      }
      h := GetFreeHandle();
      if h == UPNP_E_OUTOF_HANDLE {
        return UPNP_E_OUTOF_MEMORY, h;
      }
      SetSlot(h, Device(f));
      if description != UPNP_E_SUCCESS {
        SetSlot(h, Empty);
        return description, h;
      }
      match f {
        case V4 => deviceV4 := 1;
        case V6 => deviceV6 := 1;
      }
      rc := UPNP_E_SUCCESS;
    }

    /** Removes a root device.  It also clears the flag of its family, whether or not another
        device of the family remains.  `byebye` is the result of the last advertisement. */
    method UnRegisterRootDevice(h: int, byebye: int) returns (rc: int)
      requires Valid()
      modifies this`deviceV4, this`deviceV6, table
      ensures Valid()
      ensures initialised && 1 <= h < NUM_HANDLE && old(table[h]).Device? ==>
                && rc == byebye && table[..] == old(table[..])[h := Empty]
                && deviceV4 == (if old(table[h]) == Device(V4) then 0 else old(deviceV4))
                && deviceV6 == (if old(table[h]) == Device(V6) then 0 else old(deviceV6))
      ensures !(initialised && 1 <= h < NUM_HANDLE && old(table[h]).Device?) ==>
                && rc == (if initialised then UPNP_E_INVALID_HANDLE else UPNP_E_FINISH)
                && table[..] == old(table[..]) && deviceV4 == old(deviceV4) && deviceV6 == old(deviceV6)
    {
      if !initialised {
        return UPNP_E_FINISH;
      }
      if h < 1 || h >= NUM_HANDLE || !table[h].Device? {
        return UPNP_E_INVALID_HANDLE;
      }
      var f := table[h].af;
      match f {
        case V4 => deviceV4 := 0;
        case V6 => deviceV6 := 0;
      }
      SetSlot(h, Empty);
      rc := byebye;
    }

    method GetClientHandle() returns (h: int)
      requires Valid()
      ensures h == NO_HANDLE <==> clientRegistered == 0
      ensures h != NO_HANDLE ==>
                1 <= h < NUM_HANDLE && table[h] == Client && forall i :: 0 <= i < h ==> table[i] != Client
    {
      h := 1;
      while h < NUM_HANDLE
        invariant 1 <= h <= NUM_HANDLE
        invariant forall k :: 0 <= k < h ==> table[k] != Client
      {
        if table[h] == Client {
          assert table[h] in table[..];
          return;
        }
        h := h + 1;
      }
      h := NO_HANDLE;
    }

    method GetDeviceHandle(f: Family) returns (h: int)
      requires Valid()
      ensures h == if (if f == V4 then deviceV4 else deviceV6) == 0 then NO_HANDLE else FirstDevice(table[..], f, 0)
      ensures h != NO_HANDLE ==> 1 <= h < NUM_HANDLE && table[h] == Device(f)
      ensures h == NO_HANDLE <==> (if f == V4 then deviceV4 else deviceV6) == 0
    {
      assert table[..][0..] == table[..];
      if (f == V4 && deviceV4 == 0) || (f == V6 && deviceV6 == 0) {
        return NO_HANDLE;
      }
      assert Device(f) in table[..];
      h := 1;
      while h < NUM_HANDLE
        invariant 1 <= h <= NUM_HANDLE
        invariant forall k :: 0 <= k < h ==> table[k] != Device(f)
      {
        if table[h] == Device(f) {
          return;
        }
        h := h + 1;
      }
      h := NO_HANDLE;
    }

    /** Shutdown.  The loops end because the counters agree with the table: unregistering a
        device clears the flag that the search depends on, and a client that is found can be
        unregistered because the client counter is not 0. */
    method Finish(byebye: int) returns (rc: int)
      requires Valid()
      modifies this, table
      ensures Valid() && !initialised
      ensures rc == (if old(initialised) then UPNP_E_SUCCESS else UPNP_E_FINISH)
      ensures clientRegistered == 0 && deviceV4 == 0 && deviceV6 == 0
      ensures table[..] == if old(initialised) then AfterFinish(old(table[..]), old(deviceV4), old(deviceV6))
                           else old(table[..])
    {
      if !initialised {
        return UPNP_E_FINISH;
      }
      FinishDevices(V4, byebye);
      FinishDevices(V6, byebye);
      FinishClients();
      initialised := false;
      rc := UPNP_E_SUCCESS;
    }

    method FinishDevices(f: Family, byebye: int)
      requires Valid() && initialised
      modifies this`deviceV4, this`deviceV6, table
      ensures Valid()
      ensures table[..] == WithoutDevice(old(table[..]), f, if f == V4 then old(deviceV4) else old(deviceV6))
      ensures deviceV4 == (if f == V4 then 0 else old(deviceV4))
      ensures deviceV6 == (if f == V6 then 0 else old(deviceV6))
    {
      ghost var t := table[..];
      ghost var flag := if f == V4 then deviceV4 else deviceV6;
      var h := GetDeviceHandle(f);
      while h != NO_HANDLE
        invariant Valid()
        invariant h == NO_HANDLE <==> (if f == V4 then deviceV4 else deviceV6) == 0
        invariant h != NO_HANDLE ==>
                    && 1 <= h < NUM_HANDLE && table[h] == Device(f) && h == FirstDevice(t, f, 0)
                    && table[..] == t && (if f == V4 then deviceV4 else deviceV6) == flag
        invariant h == NO_HANDLE ==> table[..] == WithoutDevice(t, f, flag)
        invariant f == V4 ==> deviceV6 == old(deviceV6)
        invariant f == V6 ==> deviceV4 == old(deviceV4)
        decreases if f == V4 then deviceV4 else deviceV6
      {
        var _ := UnRegisterRootDevice(h, byebye);
        h := GetDeviceHandle(f);
      }
    }

    method FinishClients()
      requires Valid() && initialised
      modifies this`clientRegistered, table
      ensures Valid() && clientRegistered == 0
      ensures table[..] == WithoutClients(old(table[..]))
    {
      var h := GetClientHandle();
      while h != NO_HANDLE
        invariant Valid()
        invariant h == NO_HANDLE <==> clientRegistered == 0
        invariant h != NO_HANDLE ==> 1 <= h < NUM_HANDLE && table[h] == Client
        invariant forall i :: 0 <= i < NUM_HANDLE ==>
                    table[i] == old(table[i]) || (old(table[i]) == Client && table[i] == Empty)
        decreases clientRegistered
      {
        var _ := UnRegisterClient(h);
        h := GetClientHandle();
      }
      forall i | 0 <= i < NUM_HANDLE ensures table[i] != Client {
        assert table[i] in table[..];
      }
      assert table[..] == WithoutClients(old(table[..]));
    }

    /** UpnpInit2: the handle table is cleared on the way; on any failure the SDK is shut down
        again. */
    method Init(outcome: InitOutcome) returns (rc: int)
      requires Valid()
      requires !outcome.Started? ==> outcome.code != UPNP_E_SUCCESS && outcome.code != UPNP_E_INIT
      modifies this, table
      ensures Valid()
      ensures old(initialised) ==> rc == UPNP_E_INIT && initialised && table[..] == old(table[..])
                                   && clientRegistered == old(clientRegistered)
                                   && deviceV4 == old(deviceV4) && deviceV6 == old(deviceV6)
      ensures !old(initialised) ==>
                && initialised == outcome.Started?
                && rc == (if outcome.Started? then UPNP_E_SUCCESS else outcome.code)
                && (outcome.FailsEarly? ==> table[..] == old(table[..]))
                && (!outcome.FailsEarly? ==> forall i :: 0 <= i < NUM_HANDLE ==> table[i] == Empty)
    {
      if initialised {
        return UPNP_E_INIT;
      }
      initialised := true;
      if outcome.FailsEarly? {
        NoClientsToFinish(table[..]);
        var _ := Finish(UPNP_E_SUCCESS);
        return outcome.code;
      }
      var i := 0;
      while i < NUM_HANDLE
        invariant 0 <= i <= NUM_HANDLE && table.Length == NUM_HANDLE
        invariant forall k :: 0 <= k < i ==> table[k] == Empty
        invariant clientRegistered == 0 && deviceV4 == 0 && deviceV6 == 0 && initialised
      {
        table[i] := Empty;
        i := i + 1;
      }
      AllEmpty(table[..]);
      if outcome.FailsLate? {
        FinishEmptyStaysEmpty(table[..]);
        var _ := Finish(UPNP_E_SUCCESS);
        return outcome.code;
      }
      rc := UPNP_E_SUCCESS;
    }
  }

  lemma NoClientsToFinish(t: seq<Slot>)
    requires Num(t, Client) == 0
    ensures AfterFinish(t, 0, 0) == t
  {
    forall i | 0 <= i < |t| ensures t[i] != Client {
      assert t[i] in t;
    }
  }

  lemma FinishEmptyStaysEmpty(t: seq<Slot>)
    requires forall i :: 0 <= i < |t| ==> t[i] == Empty
    ensures AfterFinish(t, 0, 0) == t
  {
  }

  /** Register two devices of one family, unregister one, shut down: the other one is still
      in the table. */
  method DeviceLeftBehind() returns (sdk: Sdk, h: int)
    ensures sdk.Valid() && !sdk.initialised && 1 <= h < NUM_HANDLE && sdk.table[h] == Device(V4)
  {
    hide Num, FirstDevice, FlagOk;
    sdk := new Sdk();
    var rc, first;
    rc := sdk.Init(Started);
    assert sdk.table[1] == Empty;
    rc, first := sdk.RegisterRootDevice(true, V4, UPNP_E_SUCCESS);
    assert sdk.table[if first == 1 then 2 else 1] == Empty;
    rc, h := sdk.RegisterRootDevice(true, V4, UPNP_E_SUCCESS);
    rc := sdk.UnRegisterRootDevice(first, UPNP_E_SUCCESS);
    ghost var t := sdk.table[..];
    assert t[h] == Device(V4);
    rc := sdk.Finish(UPNP_E_SUCCESS);
    assert sdk.table[..] == WithoutClients(t);
  }

  lemma {:induction false} AllEmpty(t: seq<Slot>)
    requires forall i :: 0 <= i < |t| ==> t[i] == Empty
    ensures Num(t, Client) == 0
  {
  }

  /** Clients and set flags stand for different occupied slots. */
  lemma CountersBound(t: seq<Slot>, v4: int, v6: int)
    requires FlagOk(t, V4, v4) && FlagOk(t, V6, v6)
    ensures Num(t, Client) + v4 + v6 <= |t| - Num(t, Empty)
  {
    NumTotal(t);
  }

  /** If at most one slot is free and slot 0 is, then no other is. */
  lemma OnlyZeroFree(t: seq<Slot>)
    requires |t| > 0 && t[0] == Empty && Num(t, Empty) <= 1
    ensures forall i :: 1 <= i < |t| ==> t[i] != Empty
  {
    forall i | 1 <= i < |t| ensures t[i] != Empty {
      NumUpdate(t, 0, Client, Empty);
      var t' := t[0 := Client];
      assert Num(t', Empty) == 0;
      assert t'[i] in t';
    }
  }
}
