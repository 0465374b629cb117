/** The control point's reader of property sets: what it makes of the sets that the builders of
    the SDK produce. */
module StateUpdate {
  import opened Upnp
  import opened Builders
  import TvDevice

  function VarNames(service: TvDevice.Service): (names: seq<string>)
    ensures forall i, j :: 0 <= i < j < |names| ==> names[i] != names[j]
    ensures forall i :: 0 <= i < |names| ==> names[i] != "e:property" && names[i] != "*"
  {
    match service
    case Control =>
      assert "Power"[0] != "Channel"[0] && "Power"[0] != "Volume"[0] && "Channel"[0] != "Volume"[0];
      assert "Power"[0] != "e:property"[0] && "Channel"[0] != "e:property"[0] && "Volume"[0] != "e:property"[0];
      ["Power", "Channel", "Volume"]
    case Picture =>
      assert |"Color"| == 5 && |"Tint"| == 4 && |"Contrast"| == 8 && |"Brightness"| == |"e:property"| == 10
          && |"*"| == 1;
      assert "Brightness"[0] != "e:property"[0];
      ["Color", "Tint", "Contrast", "Brightness"]
  }

  /** The place of a variable in the state of its service. */
  function Index(v: TvDevice.Var): nat {
    match v
    case Power => 0
    case Channel => 1
    case Volume => 2
    case Color => 0
    case Tint => 1
    case Contrast => 2
    case Brightness => 3
  }

  /** Each variable of the device has its place, under the name that the device gives it. */
  lemma VarHasPlace(v: TvDevice.Var)
    ensures var names := VarNames(TvDevice.ServiceOf(v));
            Index(v) < |names| && names[Index(v)] == TvDevice.VarName(v)
  {
  }

  // ---------------------------------------------------------------- searching the tree

  function Own(x: Xml, tag: string): seq<Xml> {
    if x.Element? && (x.name == tag || tag == "*") then [x] else []
  }

  /** The matching elements among siblings and all below them, in document order. */
  function ByTagRec(xs: seq<Xml>, tag: string): seq<Xml> {
    if xs == [] then []
    else if xs[0].Text? then ByTagRec(xs[1..], tag)
    else Own(xs[0], tag) + ByTagRec(xs[0].children, tag) + ByTagRec(xs[1..], tag)
  }

  /** ixmlElement_getElementsByTagName: the node itself can match. */
  function ByTag(x: Xml, tag: string): seq<Xml> {
    if x.Text? then [] else Own(x, tag) + ByTagRec(x.children, tag)
  }

  lemma ByTagCons(x: Xml, xs: seq<Xml>, tag: string)
    ensures ByTagRec([x] + xs, tag) == ByTag(x, tag) + ByTagRec(xs, tag)
    ensures ByTagRec([x], tag) == ByTag(x, tag) && ByTagRec([], tag) == []
  {
    assert ([x] + xs)[1..] == xs && [x][1..] == [];
    assert ByTagRec([], tag) == [];
  }

  /** SampleUtil_GetElementValue: the text, if the first child is one. */
  function ElementValue(x: Xml): Option<string> {
    if x.Element? && x.children != [] && x.children[0].Text? then Some(x.children[0].value) else None
  }

  // ---------------------------------------------------------------- the update

  /** The value one property carries for a variable. */
  ghost function Carried(property: Xml, name: string): Option<string> {
    var found := ByTag(property, name);
    if found == [] then None else ElementValue(found[0])
  }

  /** The value of a variable after a list of properties. */
  ghost function Latest(properties: seq<Xml>, name: string, before: string): string {
    if properties == [] then before else
    var c := Carried(properties[|properties| - 1], name);
    if c.Some? then c.value else Latest(properties[..|properties| - 1], name, before)
  }

  /** TvStateUpdate */
  method TvStateUpdate(service: TvDevice.Service, changed: Doc, state: array<string>)
    requires state.Length == |VarNames(service)|
    modifies state
    ensures forall j :: 0 <= j < state.Length ==>
              state[j] == Latest(ByTagRec(changed.children, "e:property"), VarNames(service)[j], old(state[j]))
  {
    var names := VarNames(service);
    hide VarNames, Latest, ByTagRec, Own, ByTag;
    var properties := ByTagRec(changed.children, "e:property");
    LatestStart(properties);
    for i := 0 to |properties|
      invariant forall j :: 0 <= j < state.Length ==>
                  state[j] == Latest(properties[..i], names[j], old(state[j]))
    {
      var property := properties[i];
      for j := 0 to |names|
        invariant forall k :: 0 <= k < j ==> state[k] == Latest(properties[..i + 1], names[k], old(state[k]))
        invariant forall k :: j <= k < state.Length ==> state[k] == Latest(properties[..i], names[k], old(state[k]))
      {
        LatestStep(properties, i, names[j], old(state[j]));
        var variables := ByTag(property, names[j]);
        if variables != [] {
          var value := ElementValue(variables[0]);
          if value.Some? {
            state[j] := value.value;
          }
        }
      }
    }
  }

  lemma LatestStart(properties: seq<Xml>)
    ensures forall name, before :: Latest(properties[..0], name, before) == before
    ensures properties[..|properties|] == properties
    ensures forall name, before :: Latest([], name, before) == before
  {
  }

  lemma LatestStep(properties: seq<Xml>, i: nat, name: string, before: string)
    requires i < |properties|
    ensures Latest(properties[..i + 1], name, before) ==
            var c := Carried(properties[i], name);
            if c.Some? then c.value else Latest(properties[..i], name, before)
  {
    assert properties[..i + 1][..i] == properties[..i];
  }

  // ---------------------------------------------------------------- on a property set that was built

  /** The value of the last argument that names the variable and has a value. */
  ghost function LastValue(args: seq<Arg>, name: string, before: string): string {
    if args == [] then before else
    var a := args[|args| - 1];
    if a.name == Some(name) && a.value.Some? then a.value.value
    else LastValue(args[..|args| - 1], name, before)
  }

  /** A property carries a value for exactly the variable it is built for. */
  lemma CarriedByProperty(name: string, value: Option<string>, wanted: string)
    requires wanted != "e:property" && wanted != "*"
    ensures Carried(Property(name, value), wanted) == if name == wanted then value else None
    ensures Carried(Leaf("e:property", value), wanted) == None
  {
    LeafByTag(name, value, wanted);
    LeafByTag("e:property", value, wanted);
  }

  lemma LeafByTag(name: string, value: Option<string>, tag: string)
    ensures ByTagRec(Leaf(name, value).children, tag) == []
    ensures ByTagRec([Leaf(name, value)], tag) == Own(Leaf(name, value), tag)
  {
    var leaf := Leaf(name, value);
    if value.Some? {
      ByTagCons(Text(value.value), [], tag);
    }
    ByTagCons(leaf, [], tag);
  }

  lemma {:induction false} ByTagConcat(xs: seq<Xml>, ys: seq<Xml>, tag: string)
    ensures ByTagRec(xs + ys, tag) == ByTagRec(xs, tag) + ByTagRec(ys, tag)
  {
    if xs == [] {
      assert xs + ys == ys;
    } else {
      hide ByTagRec, ByTag;
      var x, rest := xs[0], xs[1..];
      ByTagConcat(rest, ys, tag);
      ByTagCons(x, rest, tag);
      ByTagCons(x, rest + ys, tag);
      assert xs == [x] + rest && xs + ys == [x] + (rest + ys);
    }
  }

  /** What a search for properties finds in one of them: itself, and the variable inside it if
      that happens to be called e:property too. */
  lemma PropertyByTag(name: string, value: Option<string>)
    ensures ByTagRec([Property(name, value)], "e:property")
            == [Property(name, value)] + if name == "e:property" then [Leaf(name, value)] else []
  {
    var p := Property(name, value);
    assert "e:property"[0] != "*"[0];
    LeafByTag(name, value, "e:property");
    ByTagCons(p, [], "e:property");
  }

  lemma LatestSnoc(properties: seq<Xml>, x: Xml, name: string, before: string)
    ensures Latest(properties + [x], name, before)
            == if Carried(x, name).Some? then Carried(x, name).value else Latest(properties, name, before)
  {
    assert (properties + [x])[..|properties|] == properties;
  }

  lemma {:induction false} LatestOfProperties(args: seq<Arg>, wanted: string, before: string)
    requires wanted != "e:property" && wanted != "*"
    ensures Latest(ByTagRec(Properties(args), "e:property"), wanted, before) == LastValue(args, wanted, before)
  {
    hide ByTagRec, Latest, Property;
    if args == [] {
      ByTagCons(Text(""), [], "e:property");
      LatestStart([]);
    } else {
      var n := |args| - 1;
      var a, ps := args[n], Properties(args[..n]);
      LatestOfProperties(args[..n], wanted, before);
      if a.name.None? {
        assert Properties(args) == ps;
      } else {
        assert Properties(args) == ps + [Property(a.name.value, a.value)];
        ByTagConcat(ps, [Property(a.name.value, a.value)], "e:property");
        LatestOfOneMore(ByTagRec(ps, "e:property"), a.name.value, a.value, wanted, before);
      }
    }
  }

  lemma LatestOfOneMore(found: seq<Xml>, name: string, value: Option<string>, wanted: string, before: string)
    requires wanted != "e:property" && wanted != "*"
    ensures Latest(found + ByTagRec([Property(name, value)], "e:property"), wanted, before)
            == if name == wanted && value.Some? then value.value else Latest(found, wanted, before)
  {
    hide *;
    var p, leaf := Property(name, value), Leaf(name, value);
    PropertyByTag(name, value);
    CarriedByProperty(name, value, wanted);
    LatestSnoc(found, p, wanted, before);
    if name == "e:property" {
      LatestSnoc(found + [p], leaf, wanted, before);
      assert found + ([p] + [leaf]) == found + [p] + [leaf];
    } else {
      assert found + ([p] + []) == found + [p];
    }
  }

  /** Reading a built property set gives every variable the value of the last argument that names
      it with a value, and leaves the others as they were. */
  method ReadBack(service: TvDevice.Service, args: seq<Arg>, state: array<string>)
    requires state.Length == |VarNames(service)|
    modifies state
    ensures forall j :: 0 <= j < state.Length ==>
              state[j] == LastValue(args, VarNames(service)[j], old(state[j]))
    ensures forall v: TvDevice.Var :: TvDevice.ServiceOf(v) == service ==>
              Index(v) < state.Length && state[Index(v)] == LastValue(args, TvDevice.VarName(v), old(state[Index(v)]))
  {
    forall v: TvDevice.Var | TvDevice.ServiceOf(v) == service
      ensures Index(v) < state.Length && VarNames(service)[Index(v)] == TvDevice.VarName(v)
    {
      VarHasPlace(v);
    }
    var doc := CreatePropertySet(args);
    TvStateUpdate(service, doc, state);
    hide VarNames;
    forall j | 0 <= j < state.Length
      ensures state[j] == LastValue(args, VarNames(service)[j], old(state[j]))
    {
      ReadsLastValue(args, VarNames(service)[j], old(state[j]));
    }
  }

  lemma ReadsLastValue(args: seq<Arg>, wanted: string, before: string)
    requires wanted != "e:property" && wanted != "*"
    ensures Latest(ByTagRec(PropertySet(args).children, "e:property"), wanted, before)
            == LastValue(args, wanted, before)
  {
    LatestOfProperties(args, wanted, before);
    var root := Element("e:propertyset", Properties(args));
    assert |"e:propertyset"| == 13 && |"e:property"| == 10 && |"*"| == 1;
    assert Own(root, "e:property") == [];
    hide ByTagRec, Latest, LastValue, Own, Properties;
    ByTagCons(root, [], "e:property");
    assert [] + ByTagRec(root.children, "e:property") == ByTagRec(root.children, "e:property");
  }
}
