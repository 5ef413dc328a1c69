/**
  Cleaning tool schemas for hosted NIM (providers/nvidia_nim/request.py): boolean subschemas (section 4.3.2 of
  JSON Schema Core, draft 2020-12) are removed wherever the walk treats a value as a schema.
 */
module NimSchema {
  import opened Prelude

  datatype Json = Null | Bool(truth: bool) | Number(number: real) | Str(text: string)
                | List(items: seq<Json>) | Obj(members: seq<Member>)

  /** A dictionary entry; a dictionary keeps its entries in insertion order. */
  datatype Member = Member(key: string, value: Json)

  const SCHEMA_VALUE_KEYS: set<string> := {
    "additionalProperties", "additionalItems", "unevaluatedProperties", "unevaluatedItems", "items", "contains",
    "propertyNames", "if", "then", "else", "not"
  }
  const SCHEMA_LIST_KEYS: set<string> := {"allOf", "anyOf", "oneOf", "prefixItems"}
  const SCHEMA_MAP_KEYS: set<string> := {"properties", "patternProperties", "$defs", "definitions", "dependentSchemas"}

  // What the walk does, by cases on the value.

  function Sanitize(v: Json): Option<Json>
    decreases v, 0
  {
    match v
    case Bool(_) => None
    case Obj(members) => Some(Obj(SanitizeMembers(members)))
    case List(items) => Some(List(SanitizeItems(items)))
    case _ => Some(v)
  }

  function SanitizeItems(items: seq<Json>): seq<Json>
    decreases items, 0
  {
    if items == [] then []
    else
      SanitizeItems(items[..|items| - 1])
      + match Sanitize(items[|items| - 1]) { case Some(w) => [w] case None => [] }
  }

  function SanitizeMembers(members: seq<Member>): seq<Member>
    decreases members, 0
  {
    if members == [] then []
    else
      SanitizeMembers(members[..|members| - 1])
      + match SanitizeMember(members[|members| - 1]) { case Some(m) => [m] case None => [] }
  }

  function SanitizeMap(members: seq<Member>): seq<Member>
    decreases members, 0
  {
    if members == [] then []
    else
      var m := members[|members| - 1];
      SanitizeMap(members[..|members| - 1])
      + match Sanitize(m.value) { case Some(w) => [Member(m.key, w)] case None => [] }
  }

  function SanitizeMember(m: Member): Option<Member>
    decreases m, 1
  {
    if m.key in SCHEMA_VALUE_KEYS then
      match Sanitize(m.value) { case Some(w) => Some(Member(m.key, w)) case None => None }
    else if m.key in SCHEMA_LIST_KEYS && m.value.List? then
      var items := SanitizeItems(m.value.items);
      if items == [] then None else Some(Member(m.key, List(items)))
    else if m.key in SCHEMA_MAP_KEYS && m.value.Obj? then
      Some(Member(m.key, Obj(SanitizeMap(m.value.members))))
    else Some(m)
  }

  // The walk itself.

  method SanitizeNimSchemaNode(v: Json) returns (keep: bool, w: Json)
    ensures Sanitize(v) == if keep then Some(w) else None
    decreases v, 1
  {
    if v.Bool? { return false, Null; }
    if v.Obj? {
      var sanitized: seq<Member> := [];
      for i := 0 to |v.members|
        invariant sanitized == SanitizeMembers(v.members[..i])
      {
        var m := v.members[i];
        assert v.members[..i + 1][..i] == v.members[..i];
        if m.key in SCHEMA_VALUE_KEYS {
          var kept, value := SanitizeNimSchemaNode(m.value);
          if kept { sanitized := sanitized + [Member(m.key, value)]; }
        } else if m.key in SCHEMA_LIST_KEYS && m.value.List? {
          var items := SanitizeList(m.value.items);
          if items != [] { sanitized := sanitized + [Member(m.key, List(items))]; }
        } else if m.key in SCHEMA_MAP_KEYS && m.value.Obj? {
          var cleaned := SanitizeDictionary(m.value.members);
          sanitized := sanitized + [Member(m.key, Obj(cleaned))];
        } else {
          sanitized := sanitized + [m];
        }
      }
      assert v.members[..|v.members|] == v.members;
      return true, Obj(sanitized);
    }
    if v.List? {
      var items := SanitizeList(v.items);
      return true, List(items);
    }
    return true, v;
  }

  method SanitizeList(items: seq<Json>) returns (kept: seq<Json>)
    ensures kept == SanitizeItems(items)
    decreases items, 0
  {
    kept := [];
    for i := 0 to |items|
      invariant kept == SanitizeItems(items[..i])
    {
      assert items[..i + 1][..i] == items[..i];
      var keep, w := SanitizeNimSchemaNode(items[i]);
      if keep { kept := kept + [w]; }
    }
    assert items[..|items|] == items;
  }

  method SanitizeDictionary(members: seq<Member>) returns (kept: seq<Member>)
    ensures kept == SanitizeMap(members)
    decreases members, 0
  {
    kept := [];
    for i := 0 to |members|
      invariant kept == SanitizeMap(members[..i])
    {
      assert members[..i + 1][..i] == members[..i];
      var keep, w := SanitizeNimSchemaNode(members[i].value);
      if keep { kept := kept + [Member(members[i].key, w)]; }
    }
    assert members[..|members|] == members;
  }

  // ---------------------------------------------------------------------------------------------
  // The normal form: no boolean where the walk looks for a schema, no empty combinator list.

  ghost predicate Normal(v: Json)
    decreases v, 0
  {
    && !v.Bool?
    && (v.List? ==> forall i :: 0 <= i < |v.items| ==> Normal(v.items[i]))
    && (v.Obj? ==> forall i :: 0 <= i < |v.members| ==> NormalMember(v.members[i]))
  }

  ghost predicate NormalMember(m: Member)
    decreases m, 1
  {
    if m.key in SCHEMA_VALUE_KEYS then Normal(m.value)
    else if m.key in SCHEMA_LIST_KEYS && m.value.List? then
      m.value.items != [] && forall i :: 0 <= i < |m.value.items| ==> Normal(m.value.items[i])
    else if m.key in SCHEMA_MAP_KEYS && m.value.Obj? then
      forall i :: 0 <= i < |m.value.members| ==> Normal(m.value.members[i].value)
    else true
  }

  lemma {:induction false} ResultIsNormal(v: Json)
    ensures Sanitize(v).None? <==> v.Bool?
    ensures Sanitize(v).Some? ==> Normal(Sanitize(v).value)
    decreases v, 0
  {
    match v
    case List(items) => ItemsAreNormal(items);
    case Obj(members) => MembersAreNormal(members);
    case _ =>
  }

  lemma {:induction false} ItemsAreNormal(items: seq<Json>)
    ensures forall i :: 0 <= i < |SanitizeItems(items)| ==> Normal(SanitizeItems(items)[i])
    decreases items, 0
  {
    if items != [] {
      ItemsAreNormal(items[..|items| - 1]);
      ResultIsNormal(items[|items| - 1]);
    }
  }

  lemma {:induction false} MapIsNormal(members: seq<Member>)
    ensures forall i :: 0 <= i < |SanitizeMap(members)| ==> Normal(SanitizeMap(members)[i].value)
    decreases members, 0
  {
    if members != [] {
      MapIsNormal(members[..|members| - 1]);
      ResultIsNormal(members[|members| - 1].value);
    }
  }

  lemma {:induction false} MembersAreNormal(members: seq<Member>)
    ensures forall i :: 0 <= i < |SanitizeMembers(members)| ==> NormalMember(SanitizeMembers(members)[i])
    decreases members, 0
  {
    if members != [] {
      MembersAreNormal(members[..|members| - 1]);
      MemberIsNormal(members[|members| - 1]);
    }
  }

  lemma {:induction false} MemberIsNormal(m: Member)
    ensures SanitizeMember(m).Some? ==> NormalMember(SanitizeMember(m).value)
    decreases m, 1
  {
    if m.key in SCHEMA_VALUE_KEYS {
      ResultIsNormal(m.value);
    } else if m.key in SCHEMA_LIST_KEYS && m.value.List? {
      ItemsAreNormal(m.value.items);
    } else if m.key in SCHEMA_MAP_KEYS && m.value.Obj? {
      MapIsNormal(m.value.members);
    }
  }

  lemma {:induction false} NormalIsKept(v: Json)
    requires Normal(v)
    ensures Sanitize(v) == Some(v)
    decreases v, 0
  {
    match v
    case List(items) => NormalItemsAreKept(items);
    case Obj(members) => NormalMembersAreKept(members);
    case _ =>
  }

  lemma {:induction false} NormalItemsAreKept(items: seq<Json>)
    requires forall i :: 0 <= i < |items| ==> Normal(items[i])
    ensures SanitizeItems(items) == items
    decreases items, 0
  {
    if items != [] {
      var front, last := items[..|items| - 1], items[|items| - 1];
      NormalItemsAreKept(front);
      NormalIsKept(last);
      assert items == front + [last];
    }
  }

  lemma {:induction false} NormalMapIsKept(members: seq<Member>)
    requires forall i :: 0 <= i < |members| ==> Normal(members[i].value)
    ensures SanitizeMap(members) == members
    decreases members, 0
  {
    if members != [] {
      var front, last := members[..|members| - 1], members[|members| - 1];
      NormalMapIsKept(front);
      NormalIsKept(last.value);
      assert members == front + [last];
    }
  }

  lemma {:induction false} NormalMembersAreKept(members: seq<Member>)
    requires forall i :: 0 <= i < |members| ==> NormalMember(members[i])
    ensures SanitizeMembers(members) == members
    decreases members, 0
  {
    if members != [] {
      var front, last := members[..|members| - 1], members[|members| - 1];
      NormalMembersAreKept(front);
      NormalMemberIsKept(last);
      assert members == front + [last];
    }
  }

  lemma {:induction false} NormalMemberIsKept(m: Member)
    requires NormalMember(m)
    ensures SanitizeMember(m) == Some(m)
    decreases m, 1
  {
    if m.key in SCHEMA_VALUE_KEYS {
      NormalIsKept(m.value);
    } else if m.key in SCHEMA_LIST_KEYS && m.value.List? {
      NormalItemsAreKept(m.value.items);
    } else if m.key in SCHEMA_MAP_KEYS && m.value.Obj? {
      NormalMapIsKept(m.value.members);
    }
  }

  /** Cleaning is the identity exactly on values in normal form. */
  lemma UnchangedIffNormal(v: Json)
    ensures Sanitize(v) == Some(v) <==> Normal(v)
  {
    ResultIsNormal(v);
    if Normal(v) { NormalIsKept(v); }
  }

  /** A second cleaning changes nothing. */
  lemma Idempotent(v: Json)
    requires Sanitize(v).Some?
    ensures Sanitize(Sanitize(v).value) == Sanitize(v)
  {
    ResultIsNormal(v);
    NormalIsKept(Sanitize(v).value);
  }

  // ---------------------------------------------------------------------------------------------
  // Conservation: apart from the booleans, everything stays, with the keys that lead to it and in order.

  /** A fact of the document and the keys leading to it. */
  datatype Fact = Leaf(path: seq<string>, value: Json) | IsList(path: seq<string>) | IsObj(path: seq<string>)
                | Plain(path: seq<string>, value: Json)

  function Facts(path: seq<string>, v: Json): seq<Fact>
    decreases v, 0
  {
    match v
    case Bool(_) => []
    case List(items) => [IsList(path)] + ItemFacts(path, items)
    case Obj(members) => [IsObj(path)] + MemberFacts(path, members)
    case _ => [Leaf(path, v)]
  }

  function ItemFacts(path: seq<string>, items: seq<Json>): seq<Fact>
    decreases items, 0
  {
    if items == [] then [] else ItemFacts(path, items[..|items| - 1]) + Facts(path, items[|items| - 1])
  }

  function MapFacts(path: seq<string>, members: seq<Member>): seq<Fact>
    decreases members, 0
  {
    if members == [] then []
    else
      var m := members[|members| - 1];
      MapFacts(path, members[..|members| - 1]) + Facts(path + [m.key], m.value)
  }

  function MemberFacts(path: seq<string>, members: seq<Member>): seq<Fact>
    decreases members, 0
  {
    if members == [] then []
    else MemberFacts(path, members[..|members| - 1]) + OneMemberFacts(path, members[|members| - 1])
  }

  function OneMemberFacts(path: seq<string>, m: Member): seq<Fact>
    decreases m, 1
  {
    var inner := path + [m.key];
    if m.key in SCHEMA_VALUE_KEYS then Facts(inner, m.value)
    else if m.key in SCHEMA_LIST_KEYS && m.value.List? then ItemFacts(inner, m.value.items)
    else if m.key in SCHEMA_MAP_KEYS && m.value.Obj? then [IsObj(inner)] + MapFacts(inner, m.value.members)
    else [Plain(inner, m.value)]
  }

  /** Cleaning loses, adds, moves and reorders no fact of the document. */
  lemma {:induction false} FactsAreKept(path: seq<string>, v: Json)
    ensures Facts(path, v) == match Sanitize(v) { case Some(w) => Facts(path, w) case None => [] }
    decreases v, 0
  {
    match v
    case List(items) => ItemFactsAreKept(path, items);
    case Obj(members) => MemberFactsAreKept(path, members);
    case _ =>
  }

  lemma {:induction false} ItemFactsAreKept(path: seq<string>, items: seq<Json>)
    ensures ItemFacts(path, SanitizeItems(items)) == ItemFacts(path, items)
    decreases items, 0
  {
    if items != [] {
      var front, last := items[..|items| - 1], items[|items| - 1];
      ItemFactsAreKept(path, front);
      FactsAreKept(path, last);
      var kept := SanitizeItems(front);
      if Sanitize(last).Some? {
        assert (kept + [Sanitize(last).value])[..|kept|] == kept;
      } else {
        assert kept + [] == kept && ItemFacts(path, front) + [] == ItemFacts(path, front);
      }
    }
  }

  lemma {:induction false} MapFactsAreKept(path: seq<string>, members: seq<Member>)
    ensures MapFacts(path, SanitizeMap(members)) == MapFacts(path, members)
    decreases members, 0
  {
    if members != [] {
      var front, last := members[..|members| - 1], members[|members| - 1];
      MapFactsAreKept(path, front);
      FactsAreKept(path + [last.key], last.value);
      var kept := SanitizeMap(front);
      if Sanitize(last.value).Some? {
        assert (kept + [Member(last.key, Sanitize(last.value).value)])[..|kept|] == kept;
      } else {
        assert kept + [] == kept && MapFacts(path, front) + [] == MapFacts(path, front);
      }
    }
  }

  lemma {:induction false} MemberFactsAreKept(path: seq<string>, members: seq<Member>)
    ensures MemberFacts(path, SanitizeMembers(members)) == MemberFacts(path, members)
    decreases members, 0
  {
    if members != [] {
      var front, last := members[..|members| - 1], members[|members| - 1];
      MemberFactsAreKept(path, front);
      OneMemberFactsAreKept(path, last);
      var kept := SanitizeMembers(front);
      if SanitizeMember(last).Some? {
        assert (kept + [SanitizeMember(last).value])[..|kept|] == kept;
      } else {
        assert kept + [] == kept && MemberFacts(path, front) + [] == MemberFacts(path, front);
      }
    }
  }

  lemma {:induction false} OneMemberFactsAreKept(path: seq<string>, m: Member)
    ensures OneMemberFacts(path, m) == match SanitizeMember(m) { case Some(w) => OneMemberFacts(path, w) case None => [] }
    decreases m, 1
  {
    if m.key in SCHEMA_VALUE_KEYS {
      FactsAreKept(path + [m.key], m.value);
    } else if m.key in SCHEMA_LIST_KEYS && m.value.List? {
      ItemFactsAreKept(path + [m.key], m.value.items);
    } else if m.key in SCHEMA_MAP_KEYS && m.value.Obj? {
      MapFactsAreKept(path + [m.key], m.value.members);
    }
  }

  // ---------------------------------------------------------------------------------------------
  // A tool list: only the parameter schemas of function tools are cleaned.

  function Get(members: seq<Member>, key: string): (r: Option<Json>)
    ensures r.Some? <==> exists i :: 0 <= i < |members| && members[i].key == key
  {
    if members == [] then None
    else if members[0].key == key then Some(members[0].value)
    else
      assert forall i :: 0 <= i < |members[1..]| ==> members[1..][i] == members[i + 1];
      Get(members[1..], key)
  }

  /** Assigning to a key: in place when it is there, at the end when it is not. */
  function Set(members: seq<Member>, key: string, value: Json): seq<Member> {
    if members == [] then [Member(key, value)]
    else if members[0].key == key then [Member(key, value)] + members[1..]
    else [members[0]] + Set(members[1..], key, value)
  }

  lemma {:induction false} SetThenGet(members: seq<Member>, key: string, value: Json, other: string)
    ensures Get(Set(members, key, value), other) == if other == key then Some(value) else Get(members, other)
  {
    if members != [] && members[0].key != key {
      SetThenGet(members[1..], key, value, other);
      assert ([members[0]] + Set(members[1..], key, value))[1..] == Set(members[1..], key, value);
    } else if members != [] {
      assert ([Member(key, value)] + members[1..])[1..] == members[1..];
    }
  }

  function SanitizeTool(tool: Json): Json {
    if tool.Obj? && Get(tool.members, "function").Some? && Get(tool.members, "function").value.Obj? then
      var function_ := Get(tool.members, "function").value.members;
      var parameters := Get(function_, "parameters");
      if parameters.Some? && parameters.value.Obj? then
        Obj(Set(tool.members, "function",
                Obj(Set(function_, "parameters", Obj(SanitizeMembers(parameters.value.members))))))
      else Obj(Set(tool.members, "function", Obj(function_)))
    else tool
  }

  /** The schema of a tool, when it has one. */
  function ParametersOf(tool: Json): Option<Json> {
    if tool.Obj? && Get(tool.members, "function").Some? && Get(tool.members, "function").value.Obj?
    then Get(Get(tool.members, "function").value.members, "parameters")
    else None
  }

  /** A tool's schema becomes normal when it is an object and stays otherwise; the tool's other fields stay. */
  lemma ToolKeepsTheRest(tool: Json, key: string)
    requires tool.Obj?
    ensures SanitizeTool(tool).Obj?
    ensures key != "function" ==> Get(SanitizeTool(tool).members, key) == Get(tool.members, key)
    ensures ParametersOf(tool).Some? && ParametersOf(tool).value.Obj? ==>
              ParametersOf(SanitizeTool(tool)) == Sanitize(ParametersOf(tool).value)
              && Normal(Sanitize(ParametersOf(tool).value).value)
    ensures !(ParametersOf(tool).Some? && ParametersOf(tool).value.Obj?) ==>
              ParametersOf(SanitizeTool(tool)) == ParametersOf(tool)
  {
    if Get(tool.members, "function").Some? && Get(tool.members, "function").value.Obj? {
      var function_ := Get(tool.members, "function").value.members;
      var parameters := Get(function_, "parameters");
      if parameters.Some? && parameters.value.Obj? {
        var cleaned := Obj(SanitizeMembers(parameters.value.members));
        ResultIsNormal(parameters.value);
        SetThenGet(function_, "parameters", cleaned, "parameters");
        var function' := Obj(Set(function_, "parameters", cleaned));
        SetThenGet(tool.members, "function", function', "function");
        SetThenGet(tool.members, "function", function', key);
      } else {
        SetThenGet(tool.members, "function", Obj(function_), "function");
        SetThenGet(tool.members, "function", Obj(function_), key);
      }
    }
  }

  /** The other fields of a function stay too. */
  lemma FunctionKeepsTheRest(tool: Json, key: string)
    requires tool.Obj? && Get(tool.members, "function").Some? && Get(tool.members, "function").value.Obj?
    requires key != "parameters"
    ensures var after := Get(SanitizeTool(tool).members, "function");
            after.Some? && after.value.Obj?
            && Get(after.value.members, key) == Get(Get(tool.members, "function").value.members, key)
  {
    var function_ := Get(tool.members, "function").value.members;
    var parameters := Get(function_, "parameters");
    if parameters.Some? && parameters.value.Obj? {
      var cleaned := Obj(SanitizeMembers(parameters.value.members));
      SetThenGet(function_, "parameters", cleaned, key);
      SetThenGet(tool.members, "function", Obj(Set(function_, "parameters", cleaned)), "function");
    } else {
      SetThenGet(tool.members, "function", Obj(function_), "function");
    }
  }

  /** The tools of a request body are cleaned one by one, in place; a body without a tool list stays. */
  method SanitizeNimToolSchemas(body: seq<Member>) returns (r: seq<Member>)
    ensures !(Get(body, "tools").Some? && Get(body, "tools").value.List?) ==> r == body
    ensures Get(body, "tools").Some? && Get(body, "tools").value.List? ==>
              && Get(r, "tools").Some? && Get(r, "tools").value.List?
              && |Get(r, "tools").value.items| == |Get(body, "tools").value.items|
              && (forall i :: 0 <= i < |Get(r, "tools").value.items| ==>
                    Get(r, "tools").value.items[i] == SanitizeTool(Get(body, "tools").value.items[i]))
    ensures forall key :: key != "tools" ==> Get(r, key) == Get(body, key)
  {
    var tools := Get(body, "tools");
    if tools.None? || !tools.value.List? { return body; }
    var sanitizedTools: seq<Json> := [];
    for i := 0 to |tools.value.items|
      invariant |sanitizedTools| == i
      invariant forall k :: 0 <= k < i ==> sanitizedTools[k] == SanitizeTool(tools.value.items[k])
    {
      var tool := tools.value.items[i];
      if tool.Obj? {
        var sanitizedTool := tool.members;
        var function_ := Get(tool.members, "function");
        if function_.Some? && function_.value.Obj? {
          var sanitizedFunction := function_.value.members;
          var parameters := Get(sanitizedFunction, "parameters");
          if parameters.Some? && parameters.value.Obj? {
            var _, cleaned := SanitizeNimSchemaNode(parameters.value);
            sanitizedFunction := Set(sanitizedFunction, "parameters", cleaned);
          }
          sanitizedTool := Set(sanitizedTool, "function", Obj(sanitizedFunction));
        }
        sanitizedTools := sanitizedTools + [Obj(sanitizedTool)];
      } else {
        sanitizedTools := sanitizedTools + [tool];
      }
    }
    r := Set(body, "tools", List(sanitizedTools));
    forall key
      ensures Get(r, key) == if key == "tools" then Some(List(sanitizedTools)) else Get(body, key)
    {
      SetThenGet(body, "tools", List(sanitizedTools), key);
    }
  }
}
