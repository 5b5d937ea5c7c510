/** Declared tools, the names they get on the wire, and the way back. One character is one byte of a name. */
module ToolNames {
  import opened Wrappers
  import opened OutputModel

  // Wire names.

  predicate WireSafe(c: char) {
    '0' <= c <= '9' || 'a' <= c <= 'z' || 'A' <= c <= 'Z' || c == '_' || c == '-'
  }

  function HexDigit(n: nat): (c: char)
    requires n < 16
    ensures WireSafe(c)
  {
    "0123456789abcdef"[n]
  }

  /** A byte as it stands, or as `_x` and its two hex digits between underscores. */
  function Escaped(c: char): string {
    if WireSafe(c) then [c] else ['_', 'x', HexDigit(c as int / 16 % 16), HexDigit(c as int % 16), '_']
  }

  function EscapedAll(s: string): string {
    if s == [] then [] else EscapedAll(s[..|s| - 1]) + Escaped(s[|s| - 1])
  }

  function Flatten(namespace: string, name: string): string { EscapedAll(namespace + "__" + name) }

  lemma {:induction false} EscapedIsWireSafe(s: string)
    ensures forall k :: 0 <= k < |EscapedAll(s)| ==> WireSafe(EscapedAll(s)[k])
  {
    if s != [] {
      EscapedIsWireSafe(s[..|s| - 1]);
    }
  }

  method FlattenName(namespace: string, name: string) returns (r: string)
    ensures r == Flatten(namespace, name)
    ensures forall k :: 0 <= k < |r| ==> WireSafe(r[k])
  {
    r := [];
    var bytes := namespace + "__" + name;
    for k := 0 to |bytes|
      invariant r == EscapedAll(bytes[..k])
    {
      assert bytes[..k + 1][..k] == bytes[..k];
      r := r + Escaped(bytes[k]);
    }
    assert bytes[..|bytes|] == bytes;
    EscapedIsWireSafe(bytes);
  }

  /** Letters, digits, underscores and dashes are kept, and exactly those; any other byte is spelt in hex. */
  lemma OneByteIsEscaped(c: char)
    requires c as int < 256
    ensures var safe := '0' <= c <= '9' || 'a' <= c <= 'z' || 'A' <= c <= 'Z' || c in "_-";
            var high, low := "0123456789abcdef"[c as int / 16], "0123456789abcdef"[c as int % 16];
            EscapedAll([c]) == if safe then [c] else ['_', 'x', high, low, '_']
  {
    assert [c][..0] == [];
    EscapedAlone(c);
    assert c as int / 16 % 16 == c as int / 16;
    hide EscapedAll;
  }

  lemma EscapedAlone(c: char)
    ensures EscapedAll([c]) == Escaped(c)
  {
    hide Escaped;
    assert [c][..0] == [];
    assert [] + Escaped(c) == Escaped(c);
  }

  /** Escaping goes byte by byte. */
  lemma {:induction false} EscapingIsBytewise(before: string, later: string)
    ensures EscapedAll(before + later) == EscapedAll(before) + EscapedAll(later)
  {
    hide Escaped;
    if later == "" {
      assert before + later == before;
    } else {
      var init := later[..|later| - 1];
      assert (before + later)[..|before + later| - 1] == before + init;
      EscapingIsBytewise(before, init);
    }
  }

  lemma {:induction false} SafeIsKept(s: string)
    requires forall k :: 0 <= k < |s| ==> WireSafe(s[k])
    ensures EscapedAll(s) == s
  {
    if s != [] {
      SafeIsKept(s[..|s| - 1]);
    }
  }

  /** With nothing to escape a flattened name is namespace and name around two underscores. */
  lemma SafeNamesAreJoined(namespace: string, name: string)
    requires forall k :: 0 <= k < |namespace| ==> WireSafe(namespace[k])
    requires forall k :: 0 <= k < |name| ==> WireSafe(name[k])
    ensures WireName(ToolIdentity(name, Some(namespace))) == namespace + "__" + name
    ensures WireName(ToolIdentity(name, None)) == name
  {
    SafeIsKept(namespace + "__" + name);
  }

  /** Flattening is not injective, even with nothing to escape. */
  lemma FlatteningCollides()
    ensures ("a", "b__c") != ("a__b", "c") && Flatten("a", "b__c") == Flatten("a__b", "c")
  {
    assert "a" + "__" + "b__c" == "a__b" + "__" + "c";
  }

  /** A top-level tool keeps its name; one in a namespace gets the flattened one. */
  function WireName(id: ToolIdentity): string {
    match id.namespace
    case None => id.name
    case Some(namespace) => Flatten(namespace, id.name)
  }

  // Declarations.

  /** A tool inside a namespace, or the function part of a top-level tool. */
  datatype Function = Function(isFunction: bool, name: Option<string>, schema: string)

  datatype Tool =
    | Plain(declared: Function)
    | Namespace(name: Option<string>, children: Option<seq<Function>>)
    | Hosted
    | Unknown

  /** The two upstream protocols that convert tools; only Messages refuses an empty name. */
  datatype Dialect = Chat | Messages

  datatype ToolError = Malformed | Unsupported | Duplicate(wire: string)

  datatype WireTool = WireTool(name: string, schema: string)

  type Names = map<string, ToolIdentity>

  datatype Converted = Converted(tools: seq<WireTool>, names: Names)

  const NOTHING := Converted([], map[])

  predicate Named(d: Dialect, f: Function) { f.name.Some? && (d.Messages? ==> f.name.value != "") }

  function Push(d: Dialect, out: Converted, namespace: Option<string>, f: Function): Result<Converted, ToolError> {
    if !f.isFunction then Err(if d.Chat? then Unsupported else Malformed)
    else if !Named(d, f) then Err(Malformed)
    else
      var id := ToolIdentity(f.name.value, namespace);
      var wire := WireName(id);
      if wire in out.names then Err(Duplicate(wire))
      else Ok(Converted(out.tools + [WireTool(wire, f.schema)], out.names[wire := id]))
  }

  function PushAll(d: Dialect, out: Converted, namespace: string,
      children: seq<Function>): Result<Converted, ToolError> {
    if children == [] then Ok(out)
    else
      match PushAll(d, out, namespace, children[..|children| - 1])
      case Err(e) => Err(e)
      case Ok(before) => Push(d, before, Some(namespace), children[|children| - 1])
  }

  function PushTool(d: Dialect, out: Converted, t: Tool): Result<Converted, ToolError> {
    match t
    case Plain(f) => Push(d, out, None, f.(isFunction := true))
    case Namespace(name, children) =>
      if name.None? || children.None? then Err(Malformed) else PushAll(d, out, name.value, children.value)
    case Hosted => Ok(out)
    case Unknown => Err(Unsupported)
  }

  function Convert(d: Dialect, tools: seq<Tool>): Result<Converted, ToolError> {
    if tools == [] then Ok(NOTHING)
    else
      match Convert(d, tools[..|tools| - 1])
      case Err(e) => Err(e)
      case Ok(before) => PushTool(d, before, tools[|tools| - 1])
  }

  method PushFunction(d: Dialect, out: Converted, namespace: Option<string>, f: Function)
      returns (r: Result<Converted, ToolError>)
    ensures r == Push(d, out, namespace, f)
  {
    if !f.isFunction {
      return Err(if d.Chat? then Unsupported else Malformed);
    }
    if !Named(d, f) {
      return Err(Malformed);
    }
    var wire := f.name.value;
    if namespace.Some? {
      wire := FlattenName(namespace.value, f.name.value);
    }
    if wire in out.names {
      return Err(Duplicate(wire));
    }
    return Ok(Converted(out.tools + [WireTool(wire, f.schema)],
        out.names[wire := ToolIdentity(f.name.value, namespace)]));
  }

  method ConvertTools(d: Dialect, tools: seq<Tool>) returns (r: Result<Converted, ToolError>)
    ensures r == Convert(d, tools)
  {
    hide Push, WireName;
    var out := NOTHING;
    for i := 0 to |tools|
      invariant Convert(d, tools[..i]) == Ok(out)
    {
      assert tools[..i + 1][..i] == tools[..i];
      ghost var before := out;
      var pushed := Ok(out);
      match tools[i] {
        case Plain(f) => pushed := PushFunction(d, out, None, f.(isFunction := true));
        case Namespace(name, children) =>
          if name.None? || children.None? {
            pushed := Err(Malformed);
          } else {
            var j := 0;
            while j < |children.value| && pushed.Ok?
              invariant 0 <= j <= |children.value|
              invariant pushed == PushAll(d, before, name.value, children.value[..j])
            {
              assert children.value[..j + 1][..j] == children.value[..j];
              pushed := PushFunction(d, pushed.value, Some(name.value), children.value[j]);
              j := j + 1;
            }
            if pushed.Err? {
              PushAllStaysFailed(d, before, name.value, children.value, j);
            } else {
              assert children.value[..j] == children.value;
            }
          }
        case Hosted =>
        case Unknown => pushed := Err(Unsupported);
      }
      assert pushed == PushTool(d, before, tools[i]);
      if pushed.Err? {
        ConvertStaysFailed(d, tools, i + 1);
        return pushed;
      }
      out := pushed.value;
    }
    assert tools[..|tools|] == tools;
    return Ok(out);
  }

  lemma {:induction false} PushAllStaysFailed(d: Dialect, out: Converted, namespace: string, children: seq<Function>,
      j: nat)
    requires j <= |children| && PushAll(d, out, namespace, children[..j]).Err?
    ensures PushAll(d, out, namespace, children) == PushAll(d, out, namespace, children[..j])
    decreases |children|
  {
    if j == |children| {
      assert children[..j] == children;
    } else {
      assert children[..|children| - 1][..j] == children[..j];
      PushAllStaysFailed(d, out, namespace, children[..|children| - 1], j);
    }
  }

  lemma {:induction false} ConvertStaysFailed(d: Dialect, tools: seq<Tool>, i: nat)
    requires i <= |tools| && Convert(d, tools[..i]).Err?
    ensures Convert(d, tools) == Convert(d, tools[..i])
    decreases |tools|
  {
    if i == |tools| {
      assert tools[..i] == tools;
    } else {
      assert tools[..|tools| - 1][..i] == tools[..i];
      ConvertStaysFailed(d, tools[..|tools| - 1], i);
    }
  }

  // What is declared.

  function DeclaredIn(namespace: string, children: seq<Function>): seq<ToolIdentity> {
    if children == [] then []
    else
      var last := children[|children| - 1];
      DeclaredIn(namespace, children[..|children| - 1]) + [ToolIdentity(last.name.GetOr(""), Some(namespace))]
  }

  function DeclaredBy(t: Tool): seq<ToolIdentity> {
    match t
    case Plain(f) => [ToolIdentity(f.name.GetOr(""), None)]
    case Namespace(name, children) => DeclaredIn(name.GetOr(""), children.GetOr([]))
    case _ => []
  }

  /** The identities of all declared function tools, in order. */
  function Declared(tools: seq<Tool>): seq<ToolIdentity> {
    if tools == [] then [] else Declared(tools[..|tools| - 1]) + DeclaredBy(tools[|tools| - 1])
  }

  predicate ChildrenWellFormed(d: Dialect, children: seq<Function>) {
    forall k :: 0 <= k < |children| ==> children[k].isFunction && Named(d, children[k])
  }

  predicate WellFormedTool(d: Dialect, t: Tool) {
    match t
    case Plain(f) => Named(d, f)
    case Namespace(name, children) => name.Some? && children.Some? && ChildrenWellFormed(d, children.value)
    case Hosted => true
    case Unknown => false
  }

  predicate WellFormed(d: Dialect, tools: seq<Tool>) { forall k :: 0 <= k < |tools| ==> WellFormedTool(d, tools[k]) }

  predicate DistinctWires(ids: seq<ToolIdentity>) {
    forall i, j :: 0 <= i < j < |ids| ==> WireName(ids[i]) != WireName(ids[j])
  }

  /** The conversion lists and names exactly these tools, in this order. */
  predicate Converts(out: Converted, ids: seq<ToolIdentity>) {
    && DistinctWires(ids)
    && |out.tools| == |ids|
    && (forall k :: 0 <= k < |ids| ==> out.tools[k].name == WireName(ids[k]))
    && (forall k :: 0 <= k < |ids| ==> WireName(ids[k]) in out.names && out.names[WireName(ids[k])] == ids[k])
    && (forall wire :: wire in out.names ==> out.names[wire] in ids && WireName(out.names[wire]) == wire)
  }

  lemma PushConverts(d: Dialect, out: Converted, namespace: Option<string>, f: Function, ids: seq<ToolIdentity>)
    requires Converts(out, ids)
    ensures var r := Push(d, out, namespace, f);
            var more := ids + [ToolIdentity(f.name.GetOr(""), namespace)];
            && (r.Ok? <==> f.isFunction && Named(d, f) && DistinctWires(more))
            && (r.Ok? ==> Converts(r.value, more))
  {
    hide WireName;
    var id := ToolIdentity(f.name.GetOr(""), namespace);
    var more := ids + [id];
    assert more[|ids|] == id && forall k :: 0 <= k < |ids| ==> more[k] == ids[k];
    if WireName(id) in out.names {
      var k :| 0 <= k < |ids| && ids[k] == out.names[WireName(id)];
      assert WireName(more[k]) == WireName(more[|ids|]);
    }
  }

  lemma DistinctPrefix(a: seq<ToolIdentity>, b: seq<ToolIdentity>)
    requires DistinctWires(a + b)
    ensures DistinctWires(a)
  {
    assert forall k :: 0 <= k < |a| ==> (a + b)[k] == a[k];
  }

  lemma ChildrenSplit(d: Dialect, children: seq<Function>)
    requires children != []
    ensures var init, last := children[..|children| - 1], children[|children| - 1];
            ChildrenWellFormed(d, children) <==> ChildrenWellFormed(d, init) && last.isFunction && Named(d, last)
  {
    hide Named;
    assert forall k :: 0 <= k < |children| - 1 ==> children[k] == children[..|children| - 1][k];
  }

  lemma {:induction false} PushAllConverts(d: Dialect, out: Converted, namespace: string, children: seq<Function>,
      ids: seq<ToolIdentity>)
    requires Converts(out, ids)
    ensures var r := PushAll(d, out, namespace, children);
            var more := ids + DeclaredIn(namespace, children);
            && (r.Ok? <==> ChildrenWellFormed(d, children) && DistinctWires(more))
            && (r.Ok? ==> Converts(r.value, more))
  {
    if children == [] {
      assert ids + [] == ids;
    } else {
      hide Converts, DistinctWires, Push, Named, ChildrenWellFormed;
      var init, last := children[..|children| - 1], children[|children| - 1];
      var before := ids + DeclaredIn(namespace, init);
      var id := ToolIdentity(last.name.GetOr(""), Some(namespace));
      PushAllConverts(d, out, namespace, init, ids);
      assert before + [id] == ids + DeclaredIn(namespace, children);
      if DistinctWires(before + [id]) {
        DistinctPrefix(before, [id]);
      }
      ChildrenSplit(d, children);
      if PushAll(d, out, namespace, init).Ok? {
        PushConverts(d, PushAll(d, out, namespace, init).value, Some(namespace), last, before);
      }
    }
  }

  lemma PushToolConverts(d: Dialect, out: Converted, t: Tool, ids: seq<ToolIdentity>)
    requires Converts(out, ids)
    ensures var r := PushTool(d, out, t);
            var more := ids + DeclaredBy(t);
            && (r.Ok? <==> WellFormedTool(d, t) && DistinctWires(more))
            && (r.Ok? ==> Converts(r.value, more))
  {
    match t {
      case Plain(f) => PushConverts(d, out, None, f.(isFunction := true), ids);
      case Namespace(name, children) =>
        if name.Some? && children.Some? {
          PushAllConverts(d, out, name.value, children.value, ids);
        }
      case _ => assert ids + [] == ids;
    }
    hide Converts, ChildrenWellFormed;
  }

  /**
   Main law: conversion succeeds exactly when every declaration is well formed and no two wire names
   collide; then the tools are listed in order under their wire names, and the names map is a
   bijection between wire names and declared identities.
   */
  lemma {:induction false} ConversionIsExact(d: Dialect, tools: seq<Tool>)
    ensures var r := Convert(d, tools);
            && (r.Ok? <==> WellFormed(d, tools) && DistinctWires(Declared(tools)))
            && (r.Ok? ==> Converts(r.value, Declared(tools)))
  {
    if tools != [] {
      hide Converts, DistinctWires, PushTool, WellFormedTool, DeclaredBy;
      var init, last := tools[..|tools| - 1], tools[|tools| - 1];
      ConversionIsExact(d, init);
      assert WellFormed(d, tools) <==> WellFormed(d, init) && WellFormedTool(d, last) by {
        assert forall k :: 0 <= k < |init| ==> tools[k] == init[k];
      }
      if DistinctWires(Declared(tools)) {
        DistinctPrefix(Declared(init), DeclaredBy(last));
      }
      if Convert(d, init).Ok? {
        PushToolConverts(d, Convert(d, init).value, last, Declared(init));
      }
    }
  }

  // The schemas.

  function SchemasIn(children: seq<Function>): seq<string> {
    if children == [] then [] else SchemasIn(children[..|children| - 1]) + [children[|children| - 1].schema]
  }

  /** The schemas of all declared function tools, in order. */
  function Schemas(tools: seq<Tool>): seq<string> {
    if tools == [] then []
    else
      Schemas(tools[..|tools| - 1])
      + match tools[|tools| - 1]
        case Plain(f) => [f.schema]
        case Namespace(_, children) => SchemasIn(children.GetOr([]))
        case _ => []
  }

  function SchemasOf(tools: seq<WireTool>): seq<string> {
    if tools == [] then [] else SchemasOf(tools[..|tools| - 1]) + [tools[|tools| - 1].schema]
  }

  lemma PushedSchema(d: Dialect, out: Converted, namespace: Option<string>, f: Function)
    ensures var r := Push(d, out, namespace, f);
            r.Ok? ==> SchemasOf(r.value.tools) == SchemasOf(out.tools) + [f.schema]
  {
    var r := Push(d, out, namespace, f);
    if r.Ok? {
      assert r.value.tools[..|out.tools|] == out.tools;
    }
  }

  lemma {:induction false} PushedSchemas(d: Dialect, out: Converted, namespace: string, children: seq<Function>)
    ensures var r := PushAll(d, out, namespace, children);
            r.Ok? ==> SchemasOf(r.value.tools) == SchemasOf(out.tools) + SchemasIn(children)
  {
    if children == [] {
      assert SchemasOf(out.tools) + [] == SchemasOf(out.tools);
    } else {
      hide Push, SchemasOf;
      var init := children[..|children| - 1];
      PushedSchemas(d, out, namespace, init);
      var before := PushAll(d, out, namespace, init);
      if before.Ok? {
        PushedSchema(d, before.value, Some(namespace), children[|children| - 1]);
      }
    }
  }

  /** Conversion sends every declared tool's own schema, in the order of the tools. */
  lemma {:induction false} SchemasAreKept(d: Dialect, tools: seq<Tool>)
    ensures match Convert(d, tools)
            case Err(_) => true
            case Ok(out) => SchemasOf(out.tools) == Schemas(tools)
  {
    if tools != [] {
      hide Push, PushAll, SchemasOf;
      var init, last := tools[..|tools| - 1], tools[|tools| - 1];
      SchemasAreKept(d, init);
      var before := Convert(d, init);
      if before.Ok? {
        match last {
          case Plain(f) => PushedSchema(d, before.value, None, f.(isFunction := true));
          case Namespace(name, children) =>
            PushedSchemas(d, before.value, name.GetOr(""), children.GetOr([]));
          case _ => assert Schemas(init) + [] == Schemas(init);
        }
      }
    } else {
      assert SchemasOf([]) == [];
    }
  }

  // Why a declaration is refused.

  /** The fault of one function tool next to those already converted, if it has one. */
  function FaultOf(d: Dialect, out: Converted, namespace: Option<string>, f: Function): Option<ToolError> {
    if !f.isFunction then Some(if d == Messages then Malformed else Unsupported)
    else if f.name.None? || (d == Messages && f.name == Some("")) then Some(Malformed)
    else if WireName(ToolIdentity(f.name.value, namespace)) in out.names
    then Some(Duplicate(WireName(ToolIdentity(f.name.value, namespace)))) else None
  }

  /** The first tool at fault, and in a namespace its first child, decides the error: of the fault it has. */
  lemma FaultIsReported(d: Dialect, tools: seq<Tool>, t: Tool, before: seq<Function>, f: Function,
                        later: seq<Function>)
    requires Convert(d, tools).Ok?
    ensures var out := Convert(d, tools).value; var r := Convert(d, tools + [t]);
            && (t.Unknown? ==> r == Err(Unsupported))
            && (t.Hosted? ==> r == Ok(out))
            && (t.Plain? && FaultOf(d, out, None, t.declared.(isFunction := true)).Some? ==>
                  r == Err(FaultOf(d, out, None, t.declared.(isFunction := true)).value))
            && (t.Namespace? && (t.name.None? || t.children.None?) ==> r == Err(Malformed))
            && (t.Namespace? && t.name.Some? && t.children == Some(before + [f] + later)
                && PushAll(d, out, t.name.value, before).Ok?
                && FaultOf(d, PushAll(d, out, t.name.value, before).value, t.name, f).Some? ==>
                  r == Err(FaultOf(d, PushAll(d, out, t.name.value, before).value, t.name, f).value))
  {
    var out := Convert(d, tools).value;
    assert (tools + [t])[..|tools|] == tools;
    if t.Namespace? && t.name.Some? && t.children == Some(before + [f] + later) {
      var children := before + [f] + later;
      assert children[..|before| + 1] == before + [f] && (before + [f])[..|before|] == before;
      if PushAll(d, out, t.name.value, before + [f]).Err? {
        PushAllStaysFailed(d, out, t.name.value, children, |before| + 1);
      }
    }
    hide WireName;
  }

  /** Wire names and identities correspond one to one. */
  predicate OneToOne(names: Names) {
    forall a, b :: a in names && b in names && names[a] == names[b] ==> a == b
  }

  /** On output every declared tool is itself again, whatever flattening did to its name. */
  lemma {:induction false} DeclaredToolsComeBack(d: Dialect, tools: seq<Tool>)
    ensures match Convert(d, tools)
            case Err(_) => true
            case Ok(out) =>
              && OneToOne(out.names)
              && (forall id :: id in Declared(tools) ==> IdentityOf(out.names, WireName(id)) == id)
              && (forall wire :: wire in out.names ==> IdentityOf(out.names, wire) in Declared(tools))
  {
    ConversionIsExact(d, tools);
    hide WireName, Declared, Convert, WellFormed;
  }

  /** The tool the client asks for. */
  datatype Choice = Mode(text: string) | HostedChoice | Pick(name: Option<string>, namespace: Option<string>)

  /** A wire name of this identity, found by going through the map. */
  method FindWire(names: Names, id: ToolIdentity) returns (r: Option<string>)
    ensures r.Some? ==> r.value in names && names[r.value] == id
    ensures r.None? ==> forall wire :: wire in names ==> names[wire] != id
  {
    var left := names.Keys;
    while left != {}
      invariant left <= names.Keys
      invariant forall wire :: wire in names && wire !in left ==> names[wire] != id
      decreases |left|
    {
      var wire :| wire in left;
      if names[wire] == id {
        return Some(wire);
      }
      left := left - {wire};
    }
    return None;
  }

  /** The forced tool by wire name, `Ok(None)` when the choice forces none; Chat passes a plain name through. */
  method ChooseTool(d: Dialect, names: Names, choice: Choice) returns (r: Result<Option<string>, ToolError>)
    ensures choice.Mode? ==>
              r == if d.Chat? || choice.text in {"auto", "none", "required"} then Ok(None) else Err(Malformed)
    ensures choice.HostedChoice? ==> r == Ok(None)
    ensures choice.Pick? && choice.name.Some? && (choice.namespace.Some? || d.Messages?) ==>
              var id := ToolIdentity(choice.name.value, choice.namespace);
              && (r.Ok? ==> r.value.Some? && r.value.value in names && names[r.value.value] == id)
              && (r.Err? ==> forall wire :: wire in names ==> names[wire] != id)
    ensures choice.Pick? && choice.name.Some? && choice.namespace.None? && d.Chat? ==> r == Ok(choice.name)
    ensures choice.Pick? && choice.name.None? ==> r.Err?
  {
    match choice {
      case Mode(text) =>
        if d.Chat? || text == "auto" || text == "none" || text == "required" {
          return Ok(None);
        }
        return Err(Malformed);
      case HostedChoice => return Ok(None);
      case Pick(name, namespace) =>
        if name.None? {
          return Err(Malformed);
        }
        if namespace.None? && d.Chat? {
          return Ok(name);
        }
        var found := FindWire(names, ToolIdentity(name.value, namespace));
        return if found.Some? then Ok(found) else Err(Unsupported);
    }
  }

  /** A choice resolves, in the converted names, exactly for a declared tool, and then to its one wire name. */
  lemma ChoicesResolve(d: Dialect, tools: seq<Tool>, id: ToolIdentity, wire: string)
    ensures match Convert(d, tools)
            case Err(_) => true
            case Ok(out) => (wire in out.names && out.names[wire] == id) <==>
                (id in Declared(tools) && wire == WireName(id))
  {
    ConversionIsExact(d, tools);
    hide WireName, Declared, Convert, WellFormed;
  }
}
