/** The chain of automatic re-advertisements of a device. */
module Advertisement {
  import opened Upnp

  const DEFAULT_MAXAGE := 1800
  const AUTO_ADVERTISEMENT_TIME := 30

  /** What a device's handle says about its advertisements. */
  datatype Info = Info(maxAge: int, powerState: int, sleepPeriod: int, registrationState: int)

  /** An advertisement on the network, and a pending re-advertisement; `call` is the number of the
      application's call that they go back to. */
  datatype Advert = Advert(time: int, maxAge: int, call: nat)
  datatype Timer = Timer(due: int, exp: int, call: nat)

  /** `asked` are the lifetimes that the application has asked for, call by call. */
  datatype State = State(info: Info, sent: seq<Advert>, timers: seq<Timer>, asked: seq<int>)

  /** How far a call gets: the SDK is not running or the handle is no device; the network refuses; the
      next advertisement cannot be scheduled; or all goes well. */
  datatype Outcome = Refused(code: int) | NotSent(code: int) | NotScheduled(code: int) | Scheduled

  predicate OutcomeOk(o: Outcome) {
    !o.Scheduled? ==> o.code != UPNP_E_SUCCESS
  }

  /** The lifetime that is used for a requested one is always more than 60 seconds. */
  function Lifetime(exp: int): (r: int)
    ensures r > 2 * AUTO_ADVERTISEMENT_TIME
    ensures 2 * AUTO_ADVERTISEMENT_TIME < exp ==> r == exp
    ensures 1 <= exp <= 2 * AUTO_ADVERTISEMENT_TIME ==> r == 62
    ensures exp < 1 ==> r == DEFAULT_MAXAGE
  {
    var e := if exp < 1 then DEFAULT_MAXAGE else exp;
    if e <= AUTO_ADVERTISEMENT_TIME * 2 then (AUTO_ADVERTISEMENT_TIME + 1) * 2 else e
  }

  /** C's division truncates; lifetimes are positive. */
  function Delay(exp: int): (r: int)
    requires exp > 2 * AUTO_ADVERTISEMENT_TIME
    ensures 2 * (r + AUTO_ADVERTISEMENT_TIME) <= exp < 2 * (r + AUTO_ADVERTISEMENT_TIME) + 2
    ensures r >= 0 && (r == 0 <==> exp == 61)
    ensures exp - r >= 61
  {
    exp / 2 - AUTO_ADVERTISEMENT_TIME
  }

  /** Applying the clamp again changes nothing. */
  lemma LifetimeTwice(exp: int)
    ensures Lifetime(Lifetime(exp)) == Lifetime(exp)
  {
  }

  /** The re-advertisement follows without any pause exactly for one requested lifetime, which is
      just above the clamp. */
  lemma NoPauseIff(exp: int)
    ensures Delay(Lifetime(exp)) == 0 <==> exp == 61
  {
  }

  /** The state after an advertisement for the given call, begun at `now`. */
  ghost function AfterSend(s: State, now: int, exp: int, info: Info, call: nat, o: Outcome): State {
    if o.Refused? then s else
    var age := Lifetime(exp);
    var sleep := if info.sleepPeriod < 0 then -1 else info.sleepPeriod;
    s.(info := Info(age, info.powerState, sleep, info.registrationState),
       sent := if o.NotSent? then s.sent else s.sent + [Advert(now, age, call)],
       timers := if o.Scheduled? then s.timers + [Timer(now + Delay(age), age, call)] else s.timers)
  }

  class Device {
    var info: Info
    var sent: seq<Advert>
    var timers: seq<Timer>
    var asked: seq<int>

    constructor ()
      ensures sent == [] && timers == [] && asked == [] && info.maxAge == DEFAULT_MAXAGE
    {
      info, sent, timers, asked := Info(DEFAULT_MAXAGE, -1, -1, -1), [], [], [];
    }

    ghost function Now(): State
      reads this
    {
      State(info, sent, timers, asked)
    }

    /** UpnpSendAdvertisementLowPower. */
    method SendLowPower(now: int, exp: int, power: int, sleep: int, registration: int, call: nat, o: Outcome)
                        returns (rc: int)
      requires OutcomeOk(o)
      modifies this`info, this`sent, this`timers
      ensures Now() == AfterSend(old(Now()), now, exp, Info(0, power, sleep, registration), call, o)
      ensures rc == UPNP_E_SUCCESS <==> o.Scheduled?
    {
      if o.Refused? {
        return o.code;
      }
      var e := exp;
      if e < 1 {
        e := DEFAULT_MAXAGE;
      }
      if e <= AUTO_ADVERTISEMENT_TIME * 2 {
        e := (AUTO_ADVERTISEMENT_TIME + 1) * 2;
      }
      info := Info(e, power, if sleep < 0 then -1 else sleep, registration);
      if o.NotSent? {
        return o.code;
      }
      sent := sent + [Advert(now, e, call)];
      if o.NotScheduled? {
        return o.code;
      }
      timers := timers + [Timer(now + e / 2 - AUTO_ADVERTISEMENT_TIME, e, call)];
      rc := UPNP_E_SUCCESS;
    }

    /** The application's own call. */
    method Advertise(now: int, exp: int, info': Info, o: Outcome) returns (rc: int)
      requires OutcomeOk(o)
      modifies this
      ensures Now() == AfterCall(old(Now()), now, exp, info', o)
      ensures rc == UPNP_E_SUCCESS <==> o.Scheduled?
    {
      asked := asked + [exp];
      rc := SendLowPower(now, exp, info'.powerState, info'.sleepPeriod, info'.registrationState, |asked| - 1, o);
    }

    /** AutoAdvertise: a timer fires, `late` seconds after it was due. */
    method AutoAdvertise(i: nat, late: nat, o: Outcome)
      requires i < |timers| && OutcomeOk(o)
      modifies this
      ensures Now() == AfterFire(old(Now()), i, late, o)
    {
      var t := timers[i];
      timers := timers[..i] + timers[i + 1..];
      var rc := SendLowPower(t.due + late, t.exp, -1, -1, -1, t.call, o);
    }
  }

  ghost function AfterCall(s: State, now: int, exp: int, info: Info, o: Outcome): State {
    AfterSend(s.(asked := s.asked + [exp]), now, exp, info, |s.asked|, o)
  }

  ghost function AfterFire(s: State, i: nat, late: nat, o: Outcome): State
    requires i < |s.timers|
  {
    var t := s.timers[i];
    AfterSend(s.(timers := s.timers[..i] + s.timers[i + 1..]), t.due + late, t.exp, Info(0, -1, -1, -1), t.call, o)
  }

  // ---------------------------------------------------------------- any calls, any firings

  /** A call of the application or a firing timer. */
  datatype Event = Call(now: int, exp: int, info: Info, o: Outcome) | Fire(i: nat, late: nat, o: Outcome)

  ghost function AfterEvent(s: State, e: Event): State {
    match e
    case Call(now, exp, info, o) => AfterCall(s, now, exp, info, o)
    case Fire(i, late, o) => if i < |s.timers| then AfterFire(s, i, late, o) else s
  }

  ghost function Run(s: State, events: seq<Event>): State {
    if events == [] then s else AfterEvent(Run(s, events[..|events| - 1]), events[|events| - 1])
  }

  /** The calls whose chain goes on: all went well with them, and with every automatic one since. */
  ghost function Alive(s: State, events: seq<Event>): set<nat> {
    if events == [] then {} else
    var before, alive := Run(s, events[..|events| - 1]), Alive(s, events[..|events| - 1]);
    match events[|events| - 1]
    case Call(_, _, _, o) => if o.Scheduled? then alive + {|before.asked|} else alive
    case Fire(i, _, o) => if i < |before.timers| && !o.Scheduled? then alive - {before.timers[i].call} else alive
  }

  /** A pending timer carries the lifetime that its own call asked for, and follows from an advert of
      that call which is still on the network when it is due. */
  ghost predicate TimerOk(t: Timer, s: State) {
    && t.call < |s.asked| && t.exp == Lifetime(s.asked[t.call])
    && Advert(t.due - Delay(t.exp), t.exp, t.call) in s.sent
  }

  ghost predicate TimersOk(s: State) {
    && (forall i :: 0 <= i < |s.timers| ==> TimerOk(s.timers[i], s))
    && (forall i, j :: 0 <= i < j < |s.timers| ==> s.timers[i].call != s.timers[j].call)
  }

  ghost predicate HasTimer(timers: seq<Timer>, call: nat) {
    exists i :: 0 <= i < |timers| && timers[i].call == call
  }

  /** In every run each call of the application whose chain goes on has exactly one pending timer, with
      its own lifetime, whatever other calls were made; a call whose chain has failed has none. */
  lemma {:induction false} ChainsConserved(info: Info, events: seq<Event>)
    ensures var s, start := Run(State(info, [], [], []), events), State(info, [], [], []);
            TimersOk(s) && forall c: nat :: c in Alive(start, events) <==> HasTimer(s.timers, c)
  {
    if events != [] {
      var n, start := |events| - 1, State(info, [], [], []);
      ChainsConserved(info, events[..n]);
      var s := Run(start, events[..n]);
      match events[n]
      case Call(now, exp, i, o) => CallKeepsTimers(s, now, exp, i, o);
      case Fire(i, late, o) =>
        if i < |s.timers| {
          FireKeepsTimers(s, i, late, o);
        }
    }
  }

  lemma CallKeepsTimers(s: State, now: int, exp: int, info: Info, o: Outcome)
    requires TimersOk(s)
    ensures var e := AfterCall(s, now, exp, info, o);
            && TimersOk(e)
            && forall c: nat :: HasTimer(e.timers, c) <==> HasTimer(s.timers, c) || (o.Scheduled? && c == |s.asked|)
  {
    hide Lifetime, Delay, HasTimer;
    var e := AfterCall(s, now, exp, info, o);
    forall i | 0 <= i < |s.timers| ensures TimerOk(s.timers[i], e) {
      assert TimerOk(s.timers[i], s);
    }
    if o.Scheduled? {
      assert e.sent[|s.sent|] == Advert(now, Lifetime(exp), |s.asked|);
      HasOneMore(s.timers, e.timers[|s.timers|]);
    }
  }

  lemma FireKeepsTimers(s: State, i: nat, late: nat, o: Outcome)
    requires TimersOk(s) && i < |s.timers|
    ensures var e := AfterFire(s, i, late, o);
            && TimersOk(e)
            && forall c: nat ::
                 HasTimer(e.timers, c) <==> HasTimer(s.timers, c) && (o.Scheduled? || c != s.timers[i].call)
  {
    var e, t := AfterFire(s, i, late, o), s.timers[i];
    assert TimerOk(t, s);
    LifetimeTwice(s.asked[t.call]);
    var rest := s.timers[..i] + s.timers[i + 1..];
    HasRest(s.timers, i);
    RestOk(s, i, e);
    hide Lifetime, Delay, HasTimer;
    if o.Scheduled? {
      var last := Timer(t.due + late + Delay(t.exp), t.exp, t.call);
      assert e.sent[|s.sent|] == Advert(t.due + late, t.exp, t.call);
      assert e.timers == rest + [last];
      HasOneMore(rest, last);
    }
  }

  lemma HasOneMore(timers: seq<Timer>, t: Timer)
    ensures forall c: nat :: HasTimer(timers + [t], c) <==> HasTimer(timers, c) || c == t.call
  {
    var more := timers + [t];
    forall c: nat ensures HasTimer(more, c) <==> HasTimer(timers, c) || c == t.call {
      assert more[|timers|] == t;
      if HasTimer(timers, c) {
        var i :| 0 <= i < |timers| && timers[i].call == c;
        assert more[i].call == c;
      }
    }
  }

  lemma HasRest(timers: seq<Timer>, i: nat)
    requires i < |timers| && forall j, k :: 0 <= j < k < |timers| ==> timers[j].call != timers[k].call
    ensures var rest := timers[..i] + timers[i + 1..];
            forall c: nat :: HasTimer(rest, c) <==> HasTimer(timers, c) && c != timers[i].call
    ensures HasTimer(timers, timers[i].call)
  {
    var rest := timers[..i] + timers[i + 1..];
    forall c: nat ensures HasTimer(rest, c) <==> HasTimer(timers, c) && c != timers[i].call {
      if HasTimer(timers, c) && c != timers[i].call {
        var k :| 0 <= k < |timers| && timers[k].call == c;
        assert rest[if k < i then k else k - 1].call == c;
      }
      if HasTimer(rest, c) {
        var k :| 0 <= k < |rest| && rest[k].call == c;
        assert timers[if k < i then k else k + 1].call == c;
      }
    }
  }

  lemma RestOk(s: State, i: nat, e: State)
    requires TimersOk(s) && i < |s.timers| && e.asked == s.asked && s.sent <= e.sent
    ensures var rest := s.timers[..i] + s.timers[i + 1..];
            && (forall k :: 0 <= k < |rest| ==> TimerOk(rest[k], e) && rest[k].call != s.timers[i].call)
            && (forall j, k :: 0 <= j < k < |rest| ==> rest[j].call != rest[k].call)
  {
    hide Lifetime, Delay;
    var rest := s.timers[..i] + s.timers[i + 1..];
    forall k | 0 <= k < |rest| ensures TimerOk(rest[k], e) && rest[k].call != s.timers[i].call {
      assert TimerOk(s.timers[if k < i then k else k + 1], s);
    }
  }

  // ---------------------------------------------------------------- one chain

  /** One firing of the chain's timer. */
  datatype Firing = Firing(late: nat, o: Outcome)

  /** The chain goes on as long as there is a timer. */
  ghost function Chain(s: State, fires: seq<Firing>): State {
    if fires == [] then s else
    var before := Chain(s, fires[..|fires| - 1]);
    var f := fires[|fires| - 1];
    if before.timers != [] then AfterFire(before, 0, f.late, f.o) else before
  }

  ghost predicate AllGo(fires: seq<Firing>) {
    forall i :: 0 <= i < |fires| ==> fires[i].o.Scheduled?
  }

  lemma AllGoSnoc(fires: seq<Firing>)
    requires fires != []
    ensures AllGo(fires) <==> AllGo(fires[..|fires| - 1]) && fires[|fires| - 1].o.Scheduled?
  {
    var n := |fires| - 1;
    if AllGo(fires[..n]) && fires[n].o.Scheduled? {
      forall i | 0 <= i < |fires| ensures fires[i].o.Scheduled? {
        assert i < n ==> fires[..n][i].o.Scheduled?;
      }
    }
  }

  /** Along the whole chain the lifetime stays what the first call made of the request, each advert
      is due well before the one before it expires, and the chain ends only with a failure. */
  lemma {:induction false} ChainKeepsLifetime(s: State, fires: seq<Firing>, age: int, call: nat)
    requires s.info.maxAge == age && age == Lifetime(age)
    requires s.sent != [] && s.sent[|s.sent| - 1].maxAge == age
    requires s.timers == [Timer(s.sent[|s.sent| - 1].time + Delay(age), age, call)]
    ensures var e := Chain(s, fires);
            && e.info.maxAge == age
            && s.sent <= e.sent
            && (forall i :: |s.sent| <= i < |e.sent| ==> e.sent[i].maxAge == age)
            && e.timers == (if AllGo(fires) then [Timer(e.sent[|e.sent| - 1].time + Delay(age), age, call)] else [])
            && (AllGo(fires) ==> |e.sent| == |s.sent| + |fires|)
  {
    if fires != [] {
      var n := |fires| - 1;
      ChainKeepsLifetime(s, fires[..n], age, call);
      AllGoSnoc(fires);
      hide AllGo, Lifetime, Delay;
    }
  }

  /** Every moment up to the end of the last advert is covered by some advert. */
  ghost predicate Covered(sent: seq<Advert>, t: int) {
    exists i :: 0 <= i < |sent| && sent[i].time <= t < sent[i].time + sent[i].maxAge
  }

  /** Adverts of one lifetime, each sent before the one before it has run out. */
  ghost predicate Continuous(sent: seq<Advert>, age: int) {
    && (forall i :: 0 <= i < |sent| ==> sent[i].maxAge == age)
    && (forall i :: 0 < i < |sent| ==> sent[i].time <= sent[i - 1].time + age)
  }

  lemma {:induction false} ContinuousCovers(sent: seq<Advert>, age: int, t: int)
    requires Continuous(sent, age) && sent != [] && sent[0].time <= t < sent[|sent| - 1].time + age
    ensures Covered(sent, t)
  {
    var n := |sent| - 1;
    if sent[n].time <= t {
      assert sent[n].time <= t < sent[n].time + sent[n].maxAge;
    } else {
      ContinuousCovers(sent[..n], age, t);
      var i :| 0 <= i < n && sent[..n][i].time <= t < sent[..n][i].time + sent[..n][i].maxAge;
      assert sent[i].time <= t < sent[i].time + sent[i].maxAge;
    }
  }

  lemma {:induction false} ChainContinuous(now: int, exp: int, info: Info, fires: seq<Firing>)
    requires AllGo(fires) && forall i :: 0 <= i < |fires| ==> fires[i].late <= Lifetime(exp) - Delay(Lifetime(exp))
    ensures var e := Chain(First(now, exp, info), fires);
            Continuous(e.sent, Lifetime(exp)) && e.sent != [] && e.sent[0].time == now
  {
    if fires != [] {
      var n := |fires| - 1;
      ChainContinuous(now, exp, info, fires[..n]);
      ChainKeepsLifetime(First(now, exp, info), fires[..n], Lifetime(exp), 0);
      AllGoSnoc(fires);
      hide AllGo, Lifetime, Delay;
    }
  }

  /** If no timer is late by more than what is left of the lifetime (at least 61 seconds), control
      points never see the device's advert run out, from the first one up to the end of the last. */
  lemma NeverExpires(now: int, exp: int, info: Info, fires: seq<Firing>, t: int)
    requires AllGo(fires) && forall i :: 0 <= i < |fires| ==> fires[i].late <= Lifetime(exp) - Delay(Lifetime(exp))
    requires var e := Chain(First(now, exp, info), fires);
             e.sent != [] && now <= t < e.sent[|e.sent| - 1].time + Lifetime(exp)
    ensures Covered(Chain(First(now, exp, info), fires).sent, t)
  {
    ChainContinuous(now, exp, info, fires);
    ContinuousCovers(Chain(First(now, exp, info), fires).sent, Lifetime(exp), t);
  }

  /** The state after the application's own call. */
  ghost function First(now: int, exp: int, info: Info): (s: State)
    ensures s.sent == [Advert(now, Lifetime(exp), 0)] && s.timers
            == [Timer(now + Delay(Lifetime(exp)), Lifetime(exp), 0)]
    ensures s.info.maxAge == Lifetime(exp)
  {
    AfterCall(State(info, [], [], []), now, exp, info, Scheduled)
  }

  /** A low power announcement does not last: the first automatic re-advertisement puts back the
      values that stand for "none", so the announced ones stay exactly if they were those. */
  lemma LowPowerKeptIff(now: int, exp: int, info: Info, late: nat, o: Outcome)
    requires !o.Refused?
    ensures var s := First(now, exp, info);
            AfterFire(s, 0, late, o).info == s.info
            <==> info.powerState == -1 && info.sleepPeriod < 0 && info.registrationState == -1
  {
    LifetimeTwice(exp);
  }
}
