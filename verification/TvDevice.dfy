/** The TV device's state table under concurrent action requests.

    Each request is a thread.  Its steps are the look at the action table and the power state,
    the critical section that reads a variable, and the critical section that writes it and
    notifies the subscribers; between two steps any other request may run. */
module TvDevice {
  import opened Upnp
  import opened TvText

  const TV_MAX_VAL_LEN := 5
  const INVALID_ACTION := 401
  const INVALID_ARGS := 402
  const ACTION_FAILED := 501

  datatype Service = Control | Picture
  datatype Var = Power | Channel | Volume | Color | Tint | Contrast | Brightness

  function Min(v: Var): int { if v.Power? then 0 else 1 }
  function Max(v: Var): int { if v.Power? then 1 else if v.Channel? then 100 else 10 }
  function Default(v: Var): string { if v.Power? || v.Channel? then "1" else "5" }

  type Table = map<Var, string>

  function Defaults(): (vals: Table)
    ensures forall v: Var :: v in vals
  {
    map v: Var :: Default(v)
  }

  /** What an action does. */
  datatype Kind = SetPower(on: bool) | SetVar(v: Var) | StepVar(v: Var, incr: int)

  datatype Row = Row(name: string, kind: Kind)

  function Actions(service: Service): seq<Row> {
    match service
    case Control =>
      [Row("PowerOn", SetPower(true)), Row("PowerOff", SetPower(false)),
       Row("SetChannel", SetVar(Channel)), Row("IncreaseChannel", StepVar(Channel, 1)),
       Row("DecreaseChannel", StepVar(Channel, -1)),
       Row("SetVolume", SetVar(Volume)), Row("IncreaseVolume", StepVar(Volume, 1)),
       Row("DecreaseVolume", StepVar(Volume, -1))]
    case Picture =>
      [Row("SetColor", SetVar(Color)), Row("IncreaseColor", StepVar(Color, 1)),
       Row("DecreaseColor", StepVar(Color, -1)),
       Row("SetTint", SetVar(Tint)), Row("IncreaseTint", StepVar(Tint, 1)), Row("DecreaseTint", StepVar(Tint, -1)),
       Row("SetBrightness", SetVar(Brightness)), Row("IncreaseBrightness", StepVar(Brightness, 1)),
       Row("DecreaseBrightness", StepVar(Brightness, -1)),
       Row("SetContrast", SetVar(Contrast)), Row("IncreaseContrast", StepVar(Contrast, 1)),
       Row("DecreaseContrast", StepVar(Contrast, -1))]
  }

  ghost predicate KindOk(k: Kind) {
    match k
    case SetPower(_) => true
    case SetVar(v) => !v.Power?
    case StepVar(v, incr) => !v.Power? && (incr == 1 || incr == -1)
  }

  /** The first row with that name. */
  function Lookup(rows: seq<Row>, name: string): Option<Kind> {
    if rows == [] then None else if rows[0].name == name then Some(rows[0].kind) else Lookup(rows[1..], name)
  }

  // ---------------------------------------------------------------- what the names mean

  function VarName(v: Var): string {
    match v
    case Power => "Power"
    case Channel => "Channel"
    case Volume => "Volume"
    case Color => "Color"
    case Tint => "Tint"
    case Contrast => "Contrast"
    case Brightness => "Brightness"
  }

  /** The service a variable belongs to. */
  function ServiceOf(v: Var): Service {
    if v.Power? || v.Channel? || v.Volume? then Control else Picture
  }

  /** What the name of an action promises: "Set", "Increase" or "Decrease" with the name of a variable of
      the service, or "PowerOn" or "PowerOff" of the control service. */
  predicate Means(service: Service, name: string, kind: Kind) {
    match kind
    case SetPower(on) => service == Control && name == if on then "PowerOn" else "PowerOff"
    case SetVar(v) => v != Power && service == ServiceOf(v) && name == "Set" + VarName(v)
    case StepVar(v, incr) =>
      && v != Power && service == ServiceOf(v)
      && ((incr == 1 && name == "Increase" + VarName(v)) || (incr == -1 && name == "Decrease" + VarName(v)))
  }

  lemma VarNamesDiffer(v: Var, w: Var)
    requires VarName(v) == VarName(w)
    ensures v == w
  {
    assert |"Power"| == 5 && |"Channel"| == 7 && |"Volume"| == 6 && |"Color"| == 5 && |"Tint"| == 4;
    assert |"Contrast"| == 8 && |"Brightness"| == 10 && "Power"[0] != "Color"[0];
  }

  /** A name has at most one meaning. */
  lemma OneMeaning(service: Service, name: string, k: Kind, k': Kind)
    requires Means(service, name, k) && Means(service, name, k')
    ensures k == k'
  {
    FirstLetter(service, name, k);
    FirstLetter(service, name, k');
    match k
    case SetPower(_) =>
      assert |"PowerOn"| == 7 && |"PowerOff"| == 8;
    case SetVar(v) =>
      assert name[3..] == VarName(v) && name[3..] == VarName(k'.v);
      VarNamesDiffer(v, k'.v);
    case StepVar(v, _) =>
      assert name[8..] == VarName(v) && name[8..] == VarName(k'.v);
      VarNamesDiffer(v, k'.v);
  }

  lemma FirstLetter(service: Service, name: string, k: Kind)
    requires Means(service, name, k)
    ensures |name| >= 1
    ensures name[0] == match k
                       case SetPower(_) => 'P'
                       case SetVar(_) => 'S'
                       case StepVar(_, incr) => if incr == 1 then 'I' else 'D'
  {
    assert "PowerOn"[0] == 'P' && "PowerOff"[0] == 'P';
    assert "Set"[0] == 'S' && "Increase"[0] == 'I' && "Decrease"[0] == 'D';
  }

  /** The row for a kind of action. */
  function RowOf(kind: Kind): nat {
    match kind
    case SetPower(on) => if on then 0 else 1
    case SetVar(v) => FirstRow(v)
    case StepVar(v, incr) => if incr == 1 then FirstRow(v) + 1 else FirstRow(v) + 2
  }

  function FirstRow(v: Var): nat {
    match v
    case Power => 0
    case Channel => 2
    case Volume => 5
    case Color => 0
    case Tint => 3
    case Brightness => 6
    case Contrast => 9
  }

  lemma ChannelSpelled()
    ensures "Set" + "Channel" == "SetChannel" && "Increase" + "Channel" == "IncreaseChannel"
            && "Decrease" + "Channel" == "DecreaseChannel"
  {
  }

  lemma VolumeSpelled()
    ensures "Set" + "Volume" == "SetVolume" && "Increase" + "Volume" == "IncreaseVolume"
            && "Decrease" + "Volume" == "DecreaseVolume"
  {
  }

  lemma ColorSpelled()
    ensures "Set" + "Color" == "SetColor" && "Increase" + "Color" == "IncreaseColor"
            && "Decrease" + "Color" == "DecreaseColor"
  {
  }

  lemma TintSpelled()
    ensures "Set" + "Tint" == "SetTint" && "Increase" + "Tint" == "IncreaseTint"
            && "Decrease" + "Tint" == "DecreaseTint"
  {
  }

  lemma ContrastSpelled()
    ensures "Set" + "Contrast" == "SetContrast" && "Increase" + "Contrast" == "IncreaseContrast"
            && "Decrease" + "Contrast" == "DecreaseContrast"
  {
  }

  lemma BrightnessSpelled()
    ensures "Set" + "Brightness" == "SetBrightness" && "Increase" + "Brightness" == "IncreaseBrightness"
            && "Decrease" + "Brightness" == "DecreaseBrightness"
  {
  }

  lemma Spelled(v: Var)
    requires v != Power
    ensures var rows := Actions(ServiceOf(v));
            && FirstRow(v) + 2 < |rows|
            && rows[FirstRow(v)] == Row("Set" + VarName(v), SetVar(v))
            && rows[FirstRow(v) + 1] == Row("Increase" + VarName(v), StepVar(v, 1))
            && rows[FirstRow(v) + 2] == Row("Decrease" + VarName(v), StepVar(v, -1))
  {
    match v
    case Channel => ChannelSpelled();
    case Volume => VolumeSpelled();
    case Color => ColorSpelled();
    case Tint => TintSpelled();
    case Contrast => ContrastSpelled();
    case Brightness => BrightnessSpelled();
  }

  lemma MeaningHasRow(service: Service, name: string, kind: Kind)
    requires Means(service, name, kind)
    ensures RowOf(kind) < |Actions(service)| && Actions(service)[RowOf(kind)] == Row(name, kind)
  {
    if !kind.SetPower? {
      Spelled(kind.v);
      hide Actions, VarName;
    }
  }

  /** The variable whose actions stand around row i. */
  function VarAt(service: Service, i: nat): Var {
    match service
    case Control => if i < 2 then Power else if i < 5 then Channel else Volume
    case Picture => if i < 3 then Color else if i < 6 then Tint else if i < 9 then Brightness else Contrast
  }

  lemma RowsMean(service: Service, i: nat)
    requires i < |Actions(service)|
    ensures Means(service, Actions(service)[i].name, Actions(service)[i].kind)
  {
    var v := VarAt(service, i);
    if v != Power {
      Spelled(v);
      assert i == FirstRow(v) || i == FirstRow(v) + 1 || i == FirstRow(v) + 2;
      hide Actions, VarName;
    }
  }

  lemma {:induction false} LookupFirst(rows: seq<Row>, name: string)
    ensures Lookup(rows, name).Some? ==> Row(name, Lookup(rows, name).value) in rows
    ensures Lookup(rows, name).None? ==> forall kind :: Row(name, kind) !in rows
  {
    if rows != [] {
      LookupFirst(rows[1..], name);
      assert rows == [rows[0]] + rows[1..];
    }
  }

  /** The action table says what the names mean, and knows no other name. */
  lemma LookupMeans(service: Service, name: string, kind: Kind)
    ensures Lookup(Actions(service), name) == Some(kind) <==> Means(service, name, kind)
  {
    var rows, found := Actions(service), Lookup(Actions(service), name);
    LookupFirst(rows, name);
    if found.Some? {
      var i :| 0 <= i < |rows| && rows[i] == Row(name, found.value);
      RowsMean(service, i);
      hide Actions;
      if Means(service, name, kind) {
        OneMeaning(service, name, kind, found.value);
      }
    } else if Means(service, name, kind) {
      MeaningHasRow(service, name, kind);
      assert false;
    }
  }

  /** `parsed` is what atoi makes of the text: beyond the length that the table can hold the number
      may be too large for an int, and any result is allowed for. */
  datatype Request = Request(service: Service, name: string, text: Option<string>, parsed: int)

  ghost predicate ParsedOk(r: Request) {
    r.text.Some? && |r.text.value| < TV_MAX_VAL_LEN ==> r.parsed == Atoi(r.text.value)
  }

  // ---------------------------------------------------------------- the steps

  datatype Pc =
    | Arrived(r: Request)
    | Running(r: Request, kind: Kind)
    | Writing(v: Var, value: string)
    | Answered(code: int)

  datatype Notice = Notice(v: Var, value: string)

  datatype State = State(vals: Table, threads: seq<Pc>, notices: seq<Notice>)

  function Init(): (s: State)
    ensures Full(s.vals)
  {
    State(Defaults(), [], [])
  }

  /** `sent` says whether the response document could be built. */
  datatype Step = Arrive(r: Request) | Go(t: nat, sent: bool)

  ghost predicate Full(vals: Table) {
    forall v: Var :: v in vals
  }

  function Dispatch(vals: Table, r: Request): Pc
    requires Full(vals)
  {
    var kind := Lookup(Actions(r.service), r.name);
    if kind.None? then Answered(INVALID_ACTION)
    else if vals[Power] == "1" || r.name == "PowerOn" then Running(r, kind.value)
    else Answered(ACTION_FAILED)
  }

  predicate InRange(v: Var, n: int) {
    Min(v) <= n <= Max(v)
  }

  /** What an action decides to write. */
  function Decide(vals: Table, r: Request, kind: Kind): Pc
    requires Full(vals)
  {
    match kind
    case SetPower(on) => Writing(Power, if on then "1" else "0")
    case SetVar(v) =>
      if r.text.Some? && InRange(v, r.parsed) then Writing(v, r.text.value) else Answered(INVALID_ARGS)
    case StepVar(v, incr) =>
      var n := Atoi(vals[v]) + incr;
      if InRange(v, n) then Writing(v, Format4(n)) else Answered(INVALID_ARGS)
  }

  predicate Fits(value: string) {
    |value| < TV_MAX_VAL_LEN
  }

  /** One step; a step of a thread that cannot move changes nothing. */
  ghost function Apply(s: State, step: Step): State
    requires Full(s.vals)
  {
    match step
    case Arrive(r) => s.(threads := s.threads + [Arrived(r)])
    case Go(t, sent) =>
      if t >= |s.threads| then s else
      match s.threads[t]
      case Arrived(r) => s.(threads := s.threads[t := Dispatch(s.vals, r)])
      case Running(r, kind) => s.(threads := s.threads[t := Decide(s.vals, r, kind)])
      case Writing(v, value) =>
        if Fits(value) then
          State(s.vals[v := value],
                s.threads[t := Answered(if sent then UPNP_E_SUCCESS else ACTION_FAILED)],
                s.notices + [Notice(v, value)])
        else s.(threads := s.threads[t := Answered(ACTION_FAILED)])
      case Answered(_) => s
  }

  ghost function Run(s: State, steps: seq<Step>): (r: State)
    requires Full(s.vals)
    ensures Full(r.vals)
  {
    if steps == [] then s else Apply(Run(s, steps[..|steps| - 1]), steps[|steps| - 1])
  }

  // ---------------------------------------------------------------- the table stays in range

  ghost predicate Good(v: Var, value: string) {
    Fits(value) && InRange(v, Atoi(value))
  }

  ghost predicate TableOk(vals: Table) {
    Full(vals) && forall v: Var :: Good(v, vals[v])
  }

  ghost predicate PcOk(pc: Pc) {
    match pc
    case Arrived(r) => ParsedOk(r)
    case Running(r, kind) => ParsedOk(r) && KindOk(kind)
    case Writing(v, value) => Fits(value) ==> Good(v, value)
    case Answered(_) => true
  }

  /** What a subscriber knows that followed the notices from the defaults. */
  ghost function Known(notices: seq<Notice>): Table {
    if notices == [] then Defaults() else
    var n := notices[|notices| - 1];
    Known(notices[..|notices| - 1])[n.v := n.value]
  }

  ghost predicate Inv(s: State) {
    && TableOk(s.vals)
    && (forall t :: 0 <= t < |s.threads| ==> PcOk(s.threads[t]))
    && Known(s.notices) == s.vals
  }

  ghost predicate StepOk(step: Step) {
    step.Arrive? ==> ParsedOk(step.r)
  }

  lemma LookupOk(rows: seq<Row>, name: string)
    requires forall i :: 0 <= i < |rows| ==> KindOk(rows[i].kind)
    ensures Lookup(rows, name).Some? ==> KindOk(Lookup(rows, name).value)
  {
  }

  lemma DispatchOk(vals: Table, r: Request)
    requires Full(vals) && ParsedOk(r)
    ensures PcOk(Dispatch(vals, r))
  {
    LookupOk(Actions(r.service), r.name);
  }

  lemma DecideOk(vals: Table, r: Request, kind: Kind)
    requires TableOk(vals) && ParsedOk(r) && KindOk(kind)
    ensures PcOk(Decide(vals, r, kind))
  {
    match kind
    case SetPower(_) =>
      assert Atoi("1") == 1 && Atoi("0") == 0;
    case SetVar(_) =>
    case StepVar(v, incr) =>
      var n := Atoi(vals[v]) + incr;
      if InRange(v, n) {
        AtoiFormat4(n);
      }
  }

  lemma StepKeepsInv(s: State, step: Step)
    requires Inv(s) && StepOk(step)
    ensures Inv(Apply(s, step))
  {
    if step.Go? && step.t < |s.threads| {
      match s.threads[step.t]
      case Arrived(r) => DispatchOk(s.vals, r);
      case Running(r, kind) => DecideOk(s.vals, r, kind);
      case Writing(v, value) =>
        var after := s.notices + [Notice(v, value)];
        assert after[..|after| - 1] == s.notices;
      case Answered(_) =>
    }
  }

  lemma DefaultsOk()
    ensures TableOk(Defaults())
  {
    assert Atoi("1") == 1 && Atoi("5") == 5;
  }

  /** In every interleaving of any requests, every stored text fits its buffer and stands for a
      number in the variable's range, and a subscriber that follows the notices knows the table. */
  lemma {:induction false} ValuesStayInRange(steps: seq<Step>)
    requires forall i :: 0 <= i < |steps| ==> StepOk(steps[i])
    ensures Inv(Run(Init(), steps))
  {
    if steps == [] {
      DefaultsOk();
    } else {
      ValuesStayInRange(steps[..|steps| - 1]);
      StepKeepsInv(Run(Init(), steps[..|steps| - 1]), steps[|steps| - 1]);
    }
  }

  // ---------------------------------------------------------------- one request on its own

  ghost function Reply(sent: bool): int {
    if sent then UPNP_E_SUCCESS else ACTION_FAILED
  }

  /** What a request does that nothing interrupts, told by the meaning of its name. */
  ghost predicate Handled(before: Table, after: Table, r: Request, sent: bool, code: int)
    requires Full(before) && Full(after)
  {
    && ((forall kind :: !Means(r.service, r.name, kind)) ==> after == before && code == INVALID_ACTION)
    && (forall kind :: Means(r.service, r.name, kind) ==> HandledAs(before, after, r, sent, code, kind))
  }

  ghost predicate HandledAs(before: Table, after: Table, r: Request, sent: bool, code: int, kind: Kind)
    requires Full(before) && Full(after)
  {
    if before[Power] != "1" && r.name != "PowerOn" then after == before && code == ACTION_FAILED
    else
      match kind
      case SetPower(on) => after == before[Power := if on then "1" else "0"] && code == Reply(sent)
      case SetVar(v) =>
        if r.text.None? || !InRange(v, r.parsed) then after == before && code == INVALID_ARGS
        else if !Fits(r.text.value) then after == before && code == ACTION_FAILED
        else after == before[v := r.text.value] && code == Reply(sent)
      case StepVar(v, incr) =>
        if !InRange(v, Atoi(before[v]) + incr) then after == before && code == INVALID_ARGS
        else
          && Atoi(after[v]) == Atoi(before[v]) + incr
          && (forall w: Var :: w != v ==> after[w] == before[w])
          && code == Reply(sent)
  }

  lemma HandledByKind(before: Table, after: Table, r: Request, sent: bool, code: int)
    requires Full(before) && Full(after)
    requires match Lookup(Actions(r.service), r.name)
             case None => after == before && code == INVALID_ACTION
             case Some(kind) => HandledAs(before, after, r, sent, code, kind)
    ensures Handled(before, after, r, sent, code)
  {
    hide Actions, HandledAs, Means;
    var found := Lookup(Actions(r.service), r.name);
    forall kind | Means(r.service, r.name, kind) ensures HandledAs(before, after, r, sent, code, kind) {
      LookupMeans(r.service, r.name, kind);
    }
    if found.Some? {
      LookupMeans(r.service, r.name, found.value);
    }
  }

  class Device {
    var vals: Table
    var notices: seq<Notice>

    constructor ()
      ensures TableOk(vals) && notices == [] && Known(notices) == vals
    {
      vals, notices := Defaults(), [];
      DefaultsOk();
    }

    /** TvDeviceSetServiceTableVar */
    method SetServiceTableVar(v: Var, value: string) returns (ok: bool)
      modifies this
      ensures ok <==> Fits(value)
      ensures vals == if ok then old(vals)[v := value] else old(vals)
      ensures notices == old(notices) + if ok then [Notice(v, value)] else []
    {
      ok := |value| < TV_MAX_VAL_LEN;
      if ok {
        vals := vals[v := value];
        notices := notices + [Notice(v, value)];
      }
    }

    method FindAction(service: Service, name: string) returns (kind: Option<Kind>)
      ensures kind == Lookup(Actions(service), name)
      ensures forall k :: kind == Some(k) <==> Means(service, name, k)
    {
      forall k ensures Lookup(Actions(service), name) == Some(k) <==> Means(service, name, k) {
        LookupMeans(service, name, k);
      }
      var rows := Actions(service);
      hide Actions, Means;
      var i := 0;
      while i < |rows|
        invariant 0 <= i <= |rows| && Lookup(rows, name) == Lookup(rows[i..], name)
      {
        if rows[i].name == name {
          return Some(rows[i].kind);
        }
        i := i + 1;
      }
      kind := None;
    }

    /** TvDeviceHandleActionRequest, with nothing else running. */
    method HandleActionRequest(r: Request, sent: bool) returns (code: int)
      requires TableOk(vals) && ParsedOk(r)
      modifies this
      ensures TableOk(vals) && Handled(old(vals), vals, r, sent, code)
    {
      hide Actions, Atoi, Format4, Means, Lookup;
      var kind := FindAction(r.service, r.name);
      if kind.None? {
        HandledByKind(vals, vals, r, sent, INVALID_ACTION);
        return INVALID_ACTION;
      }
      ghost var before := vals;
      code := Perform(r, kind.value, sent);
      HandledByKind(before, vals, r, sent, code);
    }

    /** The action procedures, once the action has been found. */
    method Perform(r: Request, kind: Kind, sent: bool) returns (code: int)
      requires TableOk(vals) && ParsedOk(r) && Lookup(Actions(r.service), r.name) == Some(kind)
      modifies this
      ensures TableOk(vals) && HandledAs(old(vals), vals, r, sent, code, kind)
    {
      KindIsOk(r);
      hide Actions, Atoi, Format4, Lookup;
      if vals[Power] != "1" && r.name != "PowerOn" {
        return ACTION_FAILED;
      }
      var pc := Decide(vals, r, kind);
      DecideOk(vals, r, kind);
      if pc.Writing? && kind.StepVar? {
        DecideExact(vals, r, kind);
      }
      if pc.Answered? {
        return pc.code;
      }
      var ok := SetServiceTableVar(pc.v, pc.value);
      code := if ok && sent then UPNP_E_SUCCESS else ACTION_FAILED;
    }
  }

  lemma KindIsOk(r: Request)
    ensures var kind := Lookup(Actions(r.service), r.name);
            kind.Some? ==> KindOk(kind.value)
  {
    LookupOk(Actions(r.service), r.name);
  }

  lemma DecideExact(vals: Table, r: Request, kind: Kind)
    requires TableOk(vals) && KindOk(kind) && kind.StepVar? && InRange(kind.v, Atoi(vals[kind.v]) + kind.incr)
    ensures Atoi(Decide(vals, r, kind).value) == Atoi(vals[kind.v]) + kind.incr
  {
    AtoiFormat4(Atoi(vals[kind.v]) + kind.incr);
  }
}
