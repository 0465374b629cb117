/** The builders for action documents and property sets, over a plain XML tree. */
module Builders {
  import opened Upnp

  const UPNP_E_INVALID_DESC := -107
  const HEADER_LENGTH := 2000

  /** Attributes play no part in what follows and are left out of the tree. */
  datatype Xml = Element(name: string, children: seq<Xml>) | Text(value: string)

  datatype Doc = Doc(children: seq<Xml>)

  /** One argument of a builder; either half may be a null pointer. */
  datatype Arg = Arg(name: Option<string>, value: Option<string>)

  /** The XML parser: a document, or the error code for lack of memory or bad text. */
  datatype Parsed = Parsed(doc: Doc) | NoMemory | Malformed

  // ---------------------------------------------------------------- trees

  /** Appends below the first child of the document, if that can have children. */
  function AppendBelow(doc: Doc, xs: seq<Xml>): Doc {
    if doc.children != [] && doc.children[0].Element? then
      var root := doc.children[0];
      Doc([root.(children := root.children + xs)] + doc.children[1..])
    else doc
  }

  function Leaf(name: string, value: Option<string>): Xml {
    Element(name, if value.Some? then [Text(value.value)] else [])
  }

  lemma AppendTwice(doc: Doc, xs: seq<Xml>, ys: seq<Xml>)
    ensures AppendBelow(AppendBelow(doc, xs), ys) == AppendBelow(doc, xs + ys)
  {
    if doc.children != [] && doc.children[0].Element? {
      var root := doc.children[0];
      assert root.children + xs + ys == root.children + (xs + ys);
    }
  }

  lemma AppendNothing(doc: Doc)
    ensures AppendBelow(doc, []) == doc
  {
    if doc.children != [] && doc.children[0].Element? {
      var root := doc.children[0];
      assert root.children + [] == root.children;
      assert [root] + doc.children[1..] == doc.children;
    }
  }

  // ---------------------------------------------------------------- actions

  /** The elements that a list of arguments stands for: one for each argument that has a name. */
  ghost function Leaves(args: seq<Arg>): seq<Xml> {
    if args == [] then [] else
    var a := args[|args| - 1];
    Leaves(args[..|args| - 1]) + if a.name.Some? then [Leaf(a.name.value, a.value)] else []
  }

  function Header(response: bool, action: string, serv: string): string {
    var tag := if response then action + "Response" else action;
    "<u:" + tag + " xmlns:u=\"" + serv + "\">\r\n</u:" + tag + ">"
  }

  /** The name of the first tag of a text, without its prefix "u:". */
  function TagOf(text: string): string {
    if |text| < 3 then "" else UpToSpace(text[3..])
  }

  function UpToSpace(s: string): string {
    if s == [] || s[0] == ' ' then [] else [s[0]] + UpToSpace(s[1..])
  }

  lemma {:induction false} ReadsUpToSpace(a: string, rest: string)
    requires ' ' !in a
    ensures UpToSpace(a + " " + rest) == a
  {
    var s := a + " " + rest;
    if a != [] {
      assert s[1..] == a[1..] + " " + rest;
      ReadsUpToSpace(a[1..], rest);
    }
  }

  function Tag(response: bool, action: string): string {
    if response then action + "Response" else action
  }

  /** The header opens an element named after the action, with the suffix of a response, ... */
  lemma HeaderOpens(response: bool, action: string, serv: string)
    requires ' ' !in action
    ensures TagOf(Header(response, action, serv)) == Tag(response, action)
  {
    var tag, header := Tag(response, action), Header(response, action, serv);
    var rest := "xmlns:u=\"" + serv + "\">\r\n</u:" + tag + ">";
    assert ' ' !in tag;
    assert " xmlns:u=\"" == " " + "xmlns:u=\"";
    assert header[3..] == tag + " " + rest;
    ReadsUpToSpace(tag, rest);
  }

  /** ... closes it again, and gives the service type as its name space; it fits if its parts do. */
  lemma HeaderCloses(response: bool, action: string, serv: string)
    ensures var header, close := Header(response, action, serv), "</u:" + Tag(response, action) + ">";
            && |header| == 2 * |Tag(response, action)| + |serv| + 22
            && header[|header| - |close|..] == close
  {
    var tag, header := Tag(response, action), Header(response, action, serv);
    var close := "</u:" + tag + ">";
    assert "\">\r\n</u:" == "\">\r\n" + "</u:";
    assert header == ("<u:" + tag + " xmlns:u=\"" + serv + "\">\r\n") + close;
  }

  /** The document an action starts from. */
  function Base(parse: string -> Parsed, response: bool, action: string, serv: string): Parsed {
    var header := Header(response, action, serv);
    if |header| >= HEADER_LENGTH then NoMemory else parse(header)
  }

  /** addToAction */
  method AddToAction(parse: string -> Parsed, response: bool, doc: Option<Doc>, action: Option<string>,
                     serv: Option<string>, arg: Arg) returns (rc: int, doc': Option<Doc>)
    ensures (rc, doc') == Added(parse, response, doc, action, serv, arg)
  {
    if action.None? || serv.None? {
      return UPNP_E_INVALID_PARAM, doc;
    }
    var d: Doc;
    if doc.None? {
      var base := Base(parse, response, action.value, serv.value);
      if !base.Parsed? {
        return if base.NoMemory? then UPNP_E_OUTOF_MEMORY else UPNP_E_INVALID_DESC, None;
      }
      d := base.doc;
    } else {
      d := doc.value;
    }
    LeavesStep([arg], 0);
    if arg.name.Some? {
      d := AppendBelow(d, [Leaf(arg.name.value, arg.value)]);
    } else {
      AppendNothing(d);
    }
    return UPNP_E_SUCCESS, Some(d);
  }

  ghost function Added(parse: string -> Parsed, response: bool, doc: Option<Doc>, action: Option<string>,
                       serv: Option<string>, arg: Arg): (int, Option<Doc>) {
    if action.None? || serv.None? then (UPNP_E_INVALID_PARAM, doc) else
    var base := if doc.Some? then Parsed(doc.value) else Base(parse, response, action.value, serv.value);
    match base
    case NoMemory => (UPNP_E_OUTOF_MEMORY, None)
    case Malformed => (UPNP_E_INVALID_DESC, None)
    case Parsed(d) => (UPNP_E_SUCCESS, Some(AppendBelow(d, Leaves([arg]))))
  }

  /** Calling addToAction once for every argument, starting from no document. */
  ghost function AddedAll(parse: string -> Parsed, response: bool, action: Option<string>, serv: Option<string>,
                          args: seq<Arg>): Option<Doc> {
    if args == [] then None else
    Added(parse, response, AddedAll(parse, response, action, serv, args[..|args| - 1]), action, serv,
          args[|args| - 1]).1
  }

  ghost function Made(parse: string -> Parsed, response: bool, action: Option<string>, serv: Option<string>,
                      args: seq<Arg>): Option<Doc> {
    if action.None? || serv.None? then None else
    var base := Base(parse, response, action.value, serv.value);
    if base.Parsed? then Some(AppendBelow(base.doc, Leaves(args))) else None
  }

  /** makeAction */
  method MakeAction(parse: string -> Parsed, response: bool, action: Option<string>, serv: Option<string>,
                    args: seq<Arg>) returns (doc: Option<Doc>)
    ensures doc == Made(parse, response, action, serv, args)
  {
    if action.None? || serv.None? {
      return None;
    }
    var base := Base(parse, response, action.value, serv.value);
    if !base.Parsed? {
      return None;
    }
    hide Leaves, Leaf, AppendBelow, Base;
    var d := base.doc;
    AppendNothing(d);
    LeavesNone(args);
    if |args| > 0 {
      var i := 0;
      var name := args[0].name;
      while true
        invariant 0 <= i < |args| && name == args[i].name
        invariant d == AppendBelow(base.doc, Leaves(args[..i]))
        decreases |args| - i
      {
        var value := args[i].value;
        LeavesStep(args, i);
        if name.Some? {
          AppendTwice(base.doc, Leaves(args[..i]), [Leaf(name.value, value)]);
          d := AppendBelow(d, [Leaf(name.value, value)]);
        }
        i := i + 1;
        if i < |args| {
          name := args[i].name;
        } else {
          break;
        }
      }
    }
    doc := Some(d);
  }

  lemma LeavesNone(args: seq<Arg>)
    ensures Leaves(args[..0]) == [] && Leaves([]) == [] && args[..|args|] == args
  {
  }

  lemma LeavesStep(args: seq<Arg>, i: nat)
    requires i < |args|
    ensures Leaves(args[..i + 1]) == Leaves(args[..i]) + Leaves([args[i]])
    ensures Leaves([args[i]]) == if args[i].name.Some? then [Leaf(args[i].name.value, args[i].value)] else []
    ensures Leaves(args[..i]) + [] == Leaves(args[..i])
  {
    assert args[..i + 1][..i] == args[..i];
    assert [args[i]][..0] == [];
    assert Leaves([]) == [];
  }

  /** Building an action at once or argument by argument gives the same document, unless there is
      no argument at all (and the header is good): then the second way gives none. */
  lemma {:induction false} ActionBuildersAgree(parse: string -> Parsed, response: bool, action: Option<string>,
                                               serv: Option<string>, args: seq<Arg>)
    ensures AddedAll(parse, response, action, serv, args) == Made(parse, response, action, serv, args)
            <==> args != [] || Made(parse, response, action, serv, []) == None
  {
    if args != [] {
      var n := |args| - 1;
      ActionBuildersAgree(parse, response, action, serv, args[..n]);
      LeavesStep(args, n);
      assert args[..n + 1] == args;
      if Made(parse, response, action, serv, args).Some? {
        var base := Base(parse, response, action.value, serv.value).doc;
        AppendTwice(base, Leaves(args[..n]), Leaves([args[n]]));
        if n == 0 {
          AppendNothing(base);
          assert Leaves(args[..0]) == [];
        }
      }
    }
  }

  // ---------------------------------------------------------------- property sets

  const BLANK_SET := Doc([Element("e:propertyset", [])])

  function Property(name: string, value: Option<string>): Xml {
    Element("e:property", [Leaf(name, value)])
  }

  ghost function Properties(args: seq<Arg>): seq<Xml> {
    if args == [] then [] else
    var a := args[|args| - 1];
    Properties(args[..|args| - 1]) + if a.name.Some? then [Property(a.name.value, a.value)] else []
  }

  /** The property set with those properties. */
  ghost function PropertySet(args: seq<Arg>): Doc {
    Doc([Element("e:propertyset", Properties(args))])
  }

  lemma AppendToSet(ps: seq<Xml>, qs: seq<Xml>)
    ensures AppendBelow(Doc([Element("e:propertyset", ps)]), qs) == Doc([Element("e:propertyset", ps + qs)])
  {
    assert [Element("e:propertyset", ps)][1..] == [];
  }

  lemma PropertiesStep(args: seq<Arg>, i: nat)
    requires i < |args|
    ensures Properties(args[..i + 1]) == Properties(args[..i]) + Properties([args[i]])
    ensures Properties([args[i]]) == if args[i].name.Some? then [Property(args[i].name.value, args[i].value)] else []
    ensures Properties(args[..i]) + [] == Properties(args[..i])
  {
    assert args[..i + 1][..i] == args[..i];
    assert [args[i]][..0] == [];
    assert Properties([]) == [];
  }

  /** UpnpCreatePropertySet */
  method CreatePropertySet(args: seq<Arg>) returns (doc: Doc)
    ensures doc == PropertySet(args)
  {
    doc := BLANK_SET;
    if |args| < 1 {
      return;
    }
    var i := 0;
    assert args[..0] == [];
    while i != |args|
      invariant 0 <= i <= |args| && doc == PropertySet(args[..i])
    {
      PropertiesStep(args, i);
      if args[i].name.Some? {
        AppendToSet(Properties(args[..i]), Properties([args[i]]));
        doc := AppendBelow(doc, [Property(args[i].name.value, args[i].value)]);
      }
      i := i + 1;
    }
    assert args[..i] == args;
  }

  /** UpnpAddToPropertySet */
  method AddToPropertySet(doc: Option<Doc>, arg: Arg) returns (rc: int, doc': Option<Doc>)
    ensures (rc, doc') == AddedToSet(doc, arg)
  {
    if arg.name.None? {
      return UPNP_E_INVALID_PARAM, doc;
    }
    PropertiesStep([arg], 0);
    var d := if doc.None? then BLANK_SET else doc.value;
    d := AppendBelow(d, [Property(arg.name.value, arg.value)]);
    return UPNP_E_SUCCESS, Some(d);
  }

  ghost function AddedToSet(doc: Option<Doc>, arg: Arg): (int, Option<Doc>) {
    if arg.name.None? then (UPNP_E_INVALID_PARAM, doc)
    else (UPNP_E_SUCCESS, Some(AppendBelow(if doc.Some? then doc.value else PropertySet([]), Properties([arg]))))
  }

  ghost function AddedAllToSet(args: seq<Arg>): Option<Doc> {
    if args == [] then None else AddedToSet(AddedAllToSet(args[..|args| - 1]), args[|args| - 1]).1
  }

  ghost predicate SomeName(args: seq<Arg>) {
    exists i :: 0 <= i < |args| && args[i].name.Some?
  }

  lemma SomeNameSnoc(args: seq<Arg>)
    requires args != []
    ensures SomeName(args) <==> SomeName(args[..|args| - 1]) || args[|args| - 1].name.Some?
  {
    var n := |args| - 1;
    if SomeName(args[..n]) {
      var i :| 0 <= i < n && args[..n][i].name.Some?;
      assert args[i].name.Some?;
    }
    if SomeName(args) && args[n].name.None? {
      var i :| 0 <= i < |args| && args[i].name.Some?;
      assert args[..n][i].name.Some?;
    }
  }

  /** Repeated UpnpAddToPropertySet gives nothing until the first argument with a name, and from
      then on what UpnpCreatePropertySet gives. */
  lemma {:induction false} PropertySetBuildersAgree(args: seq<Arg>)
    ensures AddedAllToSet(args) == if SomeName(args) then Some(PropertySet(args)) else None
    ensures !SomeName(args) ==> Properties(args) == []
  {
    if args != [] {
      var n := |args| - 1;
      PropertySetBuildersAgree(args[..n]);
      var a := args[n];
      PropertiesStep(args, n);
      assert args[..n + 1] == args;
      SomeNameSnoc(args);
      hide SomeName, Properties;
      if a.name.Some? {
        AppendToSet(Properties(args[..n]), Properties([a]));
      }
    }
  }
}
