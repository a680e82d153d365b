/** Splitting an OpenAPI document into tool requests, and building each
    operation's input schema (Services/Impl/ImportService.cs,
    SplitSwaggerToTools and the private helpers below it).

    Each step is specified by a function and implemented by a method that
    follows the source's loops; the method's postcondition is equality with
    the function, and the lemmas state what the functions guarantee. */
module SchemaBuilder {
  import opened Base
  import opened JsonModel
  import opened Entities

  // ===========================================================================
  // Parameters (`ExtractSchemaFromParameters`).

  /** One parsed entry of an operation's `parameters` array. */
  datatype Param = Param(source: string, name: string, required: bool, schema: Json)

  /** A parameter group: its properties in insertion order and its required names. */
  datatype Group = Group(properties: seq<(string, Json)>, required: seq<string>)

  /** `schema["description"] = description` on the cloned schema; only an
      object accepts a member. */
  function Described(schema: Json, description: Option<string>): (r: Result<Json>)
    ensures r.Success? <==> schema.Obj?
    ensures r.Success? ==> r.value.Obj? && Get(r.value.members, "description") == Some(StringNode(description))
  {
    if !schema.Obj? then Failure(NotAnObject)
    else Success(SetMember(schema, "description", StringNode(description)))
  }

  /** One entry: a JSON null entry is skipped (None); `in` defaults to
      "query", `required` to false; `name` and `schema` must be present. */
  function ParseParameter(item: Json): (r: Result<Option<Param>>)
    ensures r.Success? && item.Null? ==> r.value.None?
    ensures r.Success? && !item.Null? ==> r.value.Some?
  {
    if item.Null? then Success(None)
    else
      var source :- StringAt(item, "in");
      var name :- StringAt(item, "name");
      if name.None? then Failure(Missing)
      else
        var description :- StringAt(item, "description");
        var required :- BoolAt(item, "required");
        var schema :- Required(Index(item, "schema"));
        var described :- Described(schema, description);
        Success(Some(Param(source.GetOr("query"), name.value, required.GetOr(false), described)))
  }

  /** The entries of `items` read by `parse` and appended to `acc`, stopping
      at the first entry that cannot be read. The reader of one entry is a
      parameter so that the lemmas about the traversal do not depend on it. */
  function ParseEach(parse: Json -> Result<Option<Param>>, acc: seq<Param>, items: seq<Json>): Result<seq<Param>>
    decreases |items|
  {
    if items == [] then Success(acc)
    else
      var p :- parse(items[0]);
      ParseEach(parse, if p.Some? then acc + [p.value] else acc, items[1..])
  }

  /** The parameters of an operation's `parameters` array, in order. */
  function ParseParameters(items: seq<Json>): Result<seq<Param>> {
    ParseEach(ParseParameter, [], items)
  }

  /** A reader that skips exactly the JSON null entries. */
  ghost predicate SkipsNullOnly(parse: Json -> Result<Option<Param>>) {
    forall x :: parse(x).Success? ==> (parse(x).value.None? <==> x.Null?)
  }

  function NonNull(items: seq<Json>): (r: seq<Json>)
    ensures forall k :: 0 <= k < |r| ==> r[k] != Null
  {
    if items == [] then []
    else (if items[0].Null? then [] else [items[0]]) + NonNull(items[1..])
  }

  lemma {:induction false} ParseEachCount(parse: Json -> Result<Option<Param>>, acc: seq<Param>, items: seq<Json>, ps: seq<Param>)
    requires SkipsNullOnly(parse) && ParseEach(parse, acc, items) == Success(ps)
    ensures |ps| == |acc| + |NonNull(items)| && ps[..|acc|] == acc
    decreases |items|
  {
    if items != [] {
      var p := parse(items[0]).value;
      var acc' := if p.Some? then acc + [p.value] else acc;
      ParseEachCount(parse, acc', items[1..], ps);
      assert ps[..|acc|] == ps[..|acc'|][..|acc|];
    }
  }

  lemma {:induction false} ParseEachEntry(parse: Json -> Result<Option<Param>>, acc: seq<Param>, items: seq<Json>, ps: seq<Param>, k: nat)
    requires SkipsNullOnly(parse) && ParseEach(parse, acc, items) == Success(ps)
    requires k < |NonNull(items)|
    ensures |acc| + k < |ps| && parse(NonNull(items)[k]) == Success(Some(ps[|acc| + k]))
    decreases |items|
  {
    var rest := NonNull(items[1..]);
    var p := parse(items[0]).value;
    if items[0].Null? {
      assert NonNull(items) == rest;
      ParseEachEntry(parse, acc, items[1..], ps, k);
    } else {
      var acc' := acc + [p.value];
      assert NonNull(items) == [items[0]] + rest;
      if k == 0 {
        ParseEachCount(parse, acc', items[1..], ps);
        assert ps[|acc|] == ps[..|acc'|][|acc|];
      } else {
        assert NonNull(items)[k] == rest[k - 1];
        ParseEachEntry(parse, acc', items[1..], ps, k - 1);
      }
    }
  }

  lemma ParseParameterSkipsNullOnly()
    ensures SkipsNullOnly(ParseParameter)
  {
  }

  /** Exactly one parameter per non-null entry, in order, each read from its entry. */
  lemma ParametersOnePerEntry(items: seq<Json>, ps: seq<Param>)
    requires ParseParameters(items) == Success(ps)
    ensures |ps| == |NonNull(items)|
    ensures forall k :: 0 <= k < |ps| ==> ParseParameter(NonNull(items)[k]) == Success(Some(ps[k]))
  {
    ParseParameterSkipsNullOnly();
    ParseEachCount(ParseParameter, [], items, ps);
    forall k | 0 <= k < |ps|
      ensures ParseParameter(NonNull(items)[k]) == Success(Some(ps[k]))
    {
      ParseEachEntry(ParseParameter, [], items, ps, k);
    }
  }

  /** Adding one parameter: its group is created on first use, the schema is
      stored under its name (the last one wins, in the first one's place),
      and a required name is appended to the group's list. */
  function AddParam(groups: seq<(string, Group)>, p: Param): seq<(string, Group)> {
    var g := Get(groups, p.source).GetOr(Group([], []));
    Put(groups, p.source,
        Group(Put(g.properties, p.name, p.schema), if p.required then g.required + [p.name] else g.required))
  }

  function GroupParams(ps: seq<Param>): seq<(string, Group)> {
    if ps == [] then [] else AddParam(GroupParams(ps[..|ps| - 1]), ps[|ps| - 1])
  }

  function NameArray(names: seq<string>): (r: seq<Json>)
    ensures |r| == |names| && forall i :: 0 <= i < |names| ==> r[i] == Str(names[i])
  {
    seq(|names|, i requires 0 <= i < |names| => Str(names[i]))
  }

  /** `{ "type": "object", "properties": …, "required": [ … ] }` for one group. */
  function GroupObject(g: Group): Json {
    Obj([("type", Str("object")), ("properties", Obj(g.properties)), ("required", Arr(NameArray(g.required)))])
  }

  function GroupSchemas(groups: seq<(string, Group)>): (r: seq<(string, Json)>)
    ensures Keys(r) == Keys(groups)
    ensures forall i :: 0 <= i < |groups| ==> r[i].1 == GroupObject(groups[i].1)
  {
    seq(|groups|, i requires 0 <= i < |groups| => (groups[i].0, GroupObject(groups[i].1)))
  }

  /** The schema of every parameter source that occurs in `items`. */
  function ParameterSchemas(items: seq<Json>): (r: Result<seq<(string, Json)>>)
    ensures r.Success? ==> ParseParameters(items).Success?
    ensures r.Success? ==> Keys(r.value) == Dedup(Sources(ParseParameters(items).value))
  {
    var ps :- ParseParameters(items);
    GroupOrder(ps);
    Success(GroupSchemas(GroupParams(ps)))
  }

  method ExtractSchemaFromParameters(items: seq<Json>) returns (r: Result<seq<(string, Json)>>)
    ensures r == ParameterSchemas(items)
  {
    var groups: seq<(string, Group)> := [];
    ghost var ps: seq<Param> := [];
    for i := 0 to |items|
      invariant ParseEach(ParseParameter, ps, items[i..]) == ParseParameters(items)
      invariant groups == GroupParams(ps)
    {
      assert items[i..][1..] == items[i + 1..];
      var p := ParseParameter(items[i]);
      if p.Failure? {
        return Failure(p.error);
      }
      if p.value.Some? {
        assert (ps + [p.value.value])[..|ps|] == ps;
        groups := AddParam(groups, p.value.value);
        ps := ps + [p.value.value];
      }
    }
    assert items[|items|..] == [];
    return Success(GroupSchemas(groups));
  }

  // Grouping, stated against independent per-source views of the parameters.

  function Sources(ps: seq<Param>): (r: seq<string>)
    ensures |r| == |ps| && forall i :: 0 <= i < |ps| ==> r[i] == ps[i].source
  {
    seq(|ps|, i requires 0 <= i < |ps| => ps[i].source)
  }

  /** The names of the parameters from `source`, in order. */
  function NamesFrom(ps: seq<Param>, source: string): seq<string> {
    if ps == [] then []
    else
      var last := ps[|ps| - 1];
      NamesFrom(ps[..|ps| - 1], source) + (if last.source == source then [last.name] else [])
  }

  /** The names of the required parameters from `source`, in order, repeats kept. */
  function RequiredFrom(ps: seq<Param>, source: string): seq<string> {
    if ps == [] then []
    else
      var last := ps[|ps| - 1];
      RequiredFrom(ps[..|ps| - 1], source) + (if last.source == source && last.required then [last.name] else [])
  }

  /** The schema of the last parameter from `source` called `name`. */
  function LastSchema(ps: seq<Param>, source: string, name: string): Option<Json> {
    if ps == [] then None
    else
      var last := ps[|ps| - 1];
      if last.source == source && last.name == name then Some(last.schema)
      else LastSchema(ps[..|ps| - 1], source, name)
  }

  function GroupOf(ps: seq<Param>, source: string): Group {
    Get(GroupParams(ps), source).GetOr(Group([], []))
  }

  /** A parameter from another source leaves a group alone. */
  lemma GroupOfOther(ps: seq<Param>, source: string)
    requires ps != [] && ps[|ps| - 1].source != source
    ensures GroupOf(ps, source) == GroupOf(ps[..|ps| - 1], source)
  {
    var groups := GroupParams(ps[..|ps| - 1]);
    var p := ps[|ps| - 1];
    var g := Get(groups, p.source).GetOr(Group([], []));
    PutKeepsOthers(groups, p.source,
      Group(Put(g.properties, p.name, p.schema), if p.required then g.required + [p.name] else g.required), source);
  }

  /** The groups appear in the order their source first occurs. */
  lemma {:induction false} GroupOrder(ps: seq<Param>)
    ensures Keys(GroupParams(ps)) == Dedup(Sources(ps))
  {
    if ps != [] {
      var init := ps[..|ps| - 1];
      GroupOrder(init);
      assert Sources(ps)[..|ps| - 1] == Sources(init);
    }
  }

  /** Each group holds one property per distinct name, in first-occurrence order. */
  lemma {:induction false} GroupPropertyOrder(ps: seq<Param>, source: string)
    ensures Keys(GroupOf(ps, source).properties) == Dedup(NamesFrom(ps, source))
  {
    if ps != [] {
      var init := ps[..|ps| - 1];
      var last := ps[|ps| - 1];
      GroupPropertyOrder(init, source);
      var names := NamesFrom(ps, source);
      if last.source == source {
        assert names == NamesFrom(init, source) + [last.name];
        assert names[..|names| - 1] == NamesFrom(init, source);
        assert GroupOf(ps, source).properties == Put(GroupOf(init, source).properties, last.name, last.schema);
      } else {
        assert names == NamesFrom(init, source);
        GroupOfOther(ps, source);
      }
    }
  }

  /** Each group lists its required names in order, repeats kept. */
  lemma {:induction false} GroupRequiredNames(ps: seq<Param>, source: string)
    ensures GroupOf(ps, source).required == RequiredFrom(ps, source)
  {
    if ps != [] {
      var init := ps[..|ps| - 1];
      var last := ps[|ps| - 1];
      GroupRequiredNames(init, source);
      if last.source != source {
        GroupOfOther(ps, source);
      }
    }
  }

  /** Each property holds the schema of the last parameter of that name. */
  lemma {:induction false} GroupPropertySchema(ps: seq<Param>, source: string, name: string)
    ensures Get(GroupOf(ps, source).properties, name) == LastSchema(ps, source, name)
  {
    if ps != [] {
      var init := ps[..|ps| - 1];
      var last := ps[|ps| - 1];
      GroupPropertySchema(init, source, name);
      if last.source == source {
        assert GroupOf(ps, source).properties == Put(GroupOf(init, source).properties, last.name, last.schema);
        if last.name != name {
          PutKeepsOthers(GroupOf(init, source).properties, last.name, last.schema, name);
        }
      } else {
        GroupOfOther(ps, source);
      }
    }
  }

  // ===========================================================================
  // `$ref` resolution (`SwaggerSchemaToStandard`).

  /** The text after the last '/' of a reference (the whole text when there is none). */
  function LastSegment(reference: string): string {
    if reference == [] || reference[|reference| - 1] == '/' then []
    else LastSegment(reference[..|reference| - 1]) + [reference[|reference| - 1]]
  }

  /** The segment is what follows the last '/' (`LastIndexOf('/') + 1`). */
  lemma {:induction false} LastSegmentAfterSlash(reference: string)
    ensures LastSegment(reference) == reference[LastIndexOf(reference, '/') + 1..]
  {
    if reference != [] && reference[|reference| - 1] != '/' {
      var init := reference[..|reference| - 1];
      LastSegmentAfterSlash(init);
      assert LastIndexOf(reference, '/') == LastIndexOf(init, '/');
      assert reference[LastIndexOf(init, '/') + 1..] == init[LastIndexOf(init, '/') + 1..] + [reference[|reference| - 1]];
    }
  }

  /** The nesting bound for reference chains: one more than the number of
      component schemas, so that only a cyclic chain can exhaust it. */
  function RefFuel(root: Json): nat {
    match Index(root, "components")
    case Success(Some(components)) =>
      (match Index(components, "schemas")
       case Success(Some(Obj(m))) => |m| + 1
       case _ => 1)
    case _ => 1
  }

  /** The `$ref` of a schema node, or of its `items` when its type is "array". */
  function ReferenceOf(node: Json): Result<Option<Json>> {
    var kind :- StringAt(node, "type");
    var target :- if kind == Some("array") then Required(Index(node, "items")) else Success(node);
    Index(target, "$ref")
  }

  /** The exceptions schema conversion can raise: a malformed node, a missing
      member or an over-long reference chain, never a content-type error. */
  predicate SchemaError(e: Error) {
    e.NotAnObject? || e.WrongKind? || e.Missing? || e.RefTooDeep?
  }

  /** `components.schemas[<last segment of the reference>]`. */
  function RefTarget(root: Json, refNode: Json): Result<Json> {
    var components :- Required(Index(root, "components"));
    var schemas :- Required(Index(components, "schemas"));
    var reference :- AsString(refNode);
    Required(Index(schemas, LastSegment(reference)))
  }

  /** `properties[key] = …` for each entry of `todo`, over the accumulated
      properties. */
  function ResolveProps(root: Json, acc: seq<(string, Json)>, todo: seq<(string, Json)>, fuel: nat): (r: Result<seq<(string, Json)>>)
    ensures r.Failure? ==> SchemaError(r.error)
    decreases fuel, 3, |todo|
  {
    if todo == [] then Success(acc)
    else
      var resolved :- ResolveProperty(root, todo[0].1, fuel);
      ResolveProps(root, Put(acc, todo[0].0, resolved), todo[1..], fuel)
  }

  /** A copy of the target schema whose properties are resolved one by one. */
  function ResolveTarget(root: Json, target: Json, fuel: nat): (r: Result<Json>)
    ensures r.Success? ==> r.value.Obj?
    ensures r.Failure? ==> SchemaError(r.error)
    decreases fuel, 4
  {
    var props :- Required(Index(target, "properties"));
    if !props.Obj? then Failure(NotAnObject)
    else
      var resolved :- ResolveProps(root, props.members, props.members, fuel);
      Success(SetMember(target, "properties", Obj(resolved)))
  }

  /** A schema node with its reference (or its `items` reference, for an
      array) replaced by the referenced component schema, whose properties
      are resolved in turn. */
  function ToStandard(root: Json, node: Json, fuel: nat): (r: Result<Json>)
    ensures r.Success? ==> node.Obj? && r.value.Obj?
    ensures r.Failure? ==> SchemaError(r.error)
    decreases fuel, 1
  {
    var reference :- ReferenceOf(node);
    match reference
    case None => Success(node)
    case Some(refNode) => ResolveRef(root, refNode, fuel)
  }

  /** The component schema a reference names, with its properties resolved
      one nesting level further down. */
  function ResolveRef(root: Json, refNode: Json, fuel: nat): (r: Result<Json>)
    ensures r.Success? ==> r.value.Obj?
    ensures r.Failure? ==> SchemaError(r.error)
    decreases fuel, 0
  {
    if fuel == 0 then Failure(RefTooDeep)
    else
      match RefTarget(root, refNode)
      case Failure(e) => Failure(e)
      case Success(target) => ResolveTarget(root, target, fuel - 1)
  }

  /** One property of a referenced schema: its resolved schema, and its own
      description (when present) over the referenced one. */
  function ResolveProperty(root: Json, schema: Json, fuel: nat): (r: Result<Json>)
    ensures r.Success? ==> r.value.Obj?
    ensures r.Failure? ==> SchemaError(r.error)
    decreases fuel, 2
  {
    if schema.Null? then Failure(Missing)
    else
      var standard :- ToStandard(root, schema, fuel);
      var description := MemberOf(schema, "description");
      Success(if description.Some? then SetMember(standard, "description", description.value) else standard)
  }

  method SwaggerSchemaToStandard(root: Json, node: Json, fuel: nat) returns (r: Result<Json>)
    ensures r == ToStandard(root, node, fuel)
    decreases fuel, 1
  {
    var reference :- ReferenceOf(node);
    if reference.None? {
      return Success(node);
    }
    r := ResolveReference(root, reference.value, fuel);
  }

  method ResolveReference(root: Json, refNode: Json, fuel: nat) returns (r: Result<Json>)
    ensures r == ResolveRef(root, refNode, fuel)
    decreases fuel, 0
  {
    if fuel == 0 {
      return Failure(RefTooDeep);
    }
    match RefTarget(root, refNode)
    case Failure(e) =>
      return Failure(e);
    case Success(target) =>
      r := ResolveTargetSchema(root, target, fuel - 1);
  }

  /** The copy of a referenced schema and the loop over its properties. */
  method ResolveTargetSchema(root: Json, target: Json, fuel: nat) returns (r: Result<Json>)
    ensures r == ResolveTarget(root, target, fuel)
    decreases fuel, 4
  {
    var props :- Required(Index(target, "properties"));
    if !props.Obj? {
      return Failure(NotAnObject);
    }
    var todo := props.members;
    var properties := todo;
    for i := 0 to |todo|
      invariant ResolveProps(root, properties, todo[i..], fuel) == ResolveProps(root, todo, todo, fuel)
    {
      assert todo[i..][1..] == todo[i + 1..];
      var (key, schema) := todo[i];
      if schema.Null? {
        return Failure(Missing);
      }
      var standard :- SwaggerSchemaToStandard(root, schema, fuel);
      var description := MemberOf(schema, "description");
      var entry := standard;
      if description.Some? {
        entry := SetMember(entry, "description", description.value);
      }
      properties := Put(properties, key, entry);
    }
    assert todo[|todo|..] == [];
    return Success(SetMember(target, "properties", Obj(properties)));
  }

  /** A schema that is not an array and has no reference is kept as it is,
      whatever its `type`. */
  lemma NoReferenceUnchanged(root: Json, node: Json, fuel: nat)
    requires StringAt(node, "type").Success? && StringAt(node, "type").value != Some("array")
    requires Index(node, "$ref") == Success(None)
    ensures ToStandard(root, node, fuel) == Success(node)
  {
  }

  /** An array whose `items` carry a reference becomes the referenced
      component schema itself: the array wrapper is dropped. */
  lemma ArrayReferenceResolved(root: Json, node: Json, items: Json, refNode: Json, fuel: nat)
    requires StringAt(node, "type") == Success(Some("array"))
    requires Index(node, "items") == Success(Some(items))
    requires Index(items, "$ref") == Success(Some(refNode))
    ensures ToStandard(root, node, fuel) == ResolveRef(root, refNode, fuel)
  {
  }

  /** An array whose `items` carry no reference is kept as it is, even when
      the array node itself has a `$ref` member. */
  lemma ArrayWithoutReferenceUnchanged(root: Json, node: Json, items: Json, fuel: nat)
    requires StringAt(node, "type") == Success(Some("array"))
    requires Index(node, "items") == Success(Some(items))
    requires Index(items, "$ref") == Success(None)
    ensures ToStandard(root, node, fuel) == Success(node)
  {
  }

  /** Resolving properties keeps the property names and their order. */
  lemma {:induction false} ResolvePropsKeepsKeys(root: Json, acc: seq<(string, Json)>, todo: seq<(string, Json)>, fuel: nat)
    requires forall k :: k in Keys(todo) ==> k in Keys(acc)
    requires ResolveProps(root, acc, todo, fuel).Success?
    ensures Keys(ResolveProps(root, acc, todo, fuel).value) == Keys(acc)
    decreases |todo|
  {
    if todo != [] {
      var resolved := ResolveProperty(root, todo[0].1, fuel).value;
      assert todo[0].0 in Keys(todo);
      assert forall k :: k in Keys(todo[1..]) ==> k in Keys(todo);
      ResolvePropsKeepsKeys(root, Put(acc, todo[0].0, resolved), todo[1..], fuel);
    }
  }

  /** With distinct property names, each property ends up as its own
      resolution. */
  lemma {:induction false} ResolvePropsEntry(root: Json, acc: seq<(string, Json)>, todo: seq<(string, Json)>, fuel: nat, j: nat)
    requires NoDuplicates(Keys(todo)) && j < |todo|
    requires ResolveProps(root, acc, todo, fuel).Success?
    ensures ResolveProperty(root, todo[j].1, fuel).Success?
    ensures Get(ResolveProps(root, acc, todo, fuel).value, todo[j].0) == Some(ResolveProperty(root, todo[j].1, fuel).value)
    decreases |todo|
  {
    var resolved := ResolveProperty(root, todo[0].1, fuel).value;
    var acc' := Put(acc, todo[0].0, resolved);
    assert Keys(todo[1..]) == Keys(todo)[1..];
    if j == 0 {
      ResolvePropsUntouched(root, acc', todo[1..], fuel, todo[0].0);
    } else {
      ResolvePropsEntry(root, acc', todo[1..], fuel, j - 1);
    }
  }

  lemma {:induction false} ResolvePropsUntouched(root: Json, acc: seq<(string, Json)>, todo: seq<(string, Json)>, fuel: nat, key: string)
    requires key !in Keys(todo)
    requires ResolveProps(root, acc, todo, fuel).Success?
    ensures Get(ResolveProps(root, acc, todo, fuel).value, key) == Get(acc, key)
    decreases |todo|
  {
    if todo != [] {
      assert todo[0].0 == Keys(todo)[0];
      assert Keys(todo[1..]) == Keys(todo)[1..];
      var resolved := ResolveProperty(root, todo[0].1, fuel).value;
      ResolvePropsUntouched(root, Put(acc, todo[0].0, resolved), todo[1..], fuel, key);
      PutKeepsOthers(acc, todo[0].0, resolved, key);
    }
  }

  /** A property's own description wins over the referenced schema's. */
  lemma PropertyDescriptionWins(root: Json, schema: Json, fuel: nat, description: Json)
    requires Index(schema, "description") == Success(Some(description))
    requires ResolveProperty(root, schema, fuel).Success?
    ensures Index(ResolveProperty(root, schema, fuel).value, "description") == Success(Some(description))
  {
  }

  // ===========================================================================
  // Request body (`ExtractSchemaFromBody`).

  /** The parameter source of a supported content type. */
  function BodySource(contentType: string): (r: Option<string>)
    ensures r.Some? <==> contentType in {"application/json", "application/x-www-form-urlencoded"}
    ensures contentType == "application/json" ==> r == Some("json")
    ensures contentType == "application/x-www-form-urlencoded" ==> r == Some("form")
  {
    if contentType == "application/json" then Some("json")
    else if contentType == "application/x-www-form-urlencoded" then Some("form")
    else None
  }

  lemma AppendFreshKey(m: seq<(string, Json)>, key: string, value: Json)
    requires key !in Keys(m)
    ensures NoDuplicates(Keys(m)) ==> NoDuplicates(Keys(m + [(key, value)]))
  {
    assert Keys(m + [(key, value)]) == Keys(m) + [key];
  }

  /** The position of the first supported content type. */
  function FirstSupported(content: seq<(string, Json)>): (r: Option<nat>)
    ensures r.Some? ==> r.value < |content| && BodySource(content[r.value].0).Some?
    ensures r.Some? ==> forall j :: 0 <= j < r.value ==> BodySource(content[j].0).None?
    ensures r.None? ==> forall j :: 0 <= j < |content| ==> BodySource(content[j].0).None?
  {
    if content == [] then None
    else if BodySource(content[0].0).Some? then Some(0)
    else
      match FirstSupported(content[1..])
      case None => None
      case Some(k) => Some(k + 1)
  }

  /** `merged` extended by the body schema of the first supported content
      type; a source the parameters already produced is refused, and so is a
      body with no supported content type. */
  function BodySchemas(root: Json, requestBody: Json, merged: seq<(string, Json)>, fuel: nat): (r: Result<seq<(string, Json)>>)
    ensures r.Success? ==> |r.value| == |merged| + 1 && r.value[..|merged|] == merged
    ensures r.Success? ==> r.value[|merged|].0 !in Keys(merged) && r.value[|merged|].1.Obj?
    ensures r.Success? && NoDuplicates(Keys(merged)) ==> NoDuplicates(Keys(r.value))
  {
    var content :- Required(Index(requestBody, "content"));
    if !content.Obj? then Failure(NotAnObject)
    else
      match FirstSupported(content.members)
      case None => Failure(UnsupportedContent(Keys(content.members)))
      case Some(i) =>
        var source := BodySource(content.members[i].0).value;
        if source in Keys(merged) then Failure(DuplicateSource(source))
        else if content.members[i].1.Null? then Failure(Missing)
        else
          var schema :- Required(Index(content.members[i].1, "schema"));
          var standard :- ToStandard(root, schema, fuel);
          AppendFreshKey(merged, source, standard);
          Success(merged + [(source, standard)])
  }

  /** A body whose content has no supported type is refused with the list of
      its content types, and only such a body is refused that way. */
  lemma BodyUnsupported(root: Json, requestBody: Json, members: seq<(string, Json)>, merged: seq<(string, Json)>, fuel: nat)
    requires Index(requestBody, "content") == Success(Some(Obj(members)))
    ensures FirstSupported(members).None? ==> BodySchemas(root, requestBody, merged, fuel) == Failure(UnsupportedContent(Keys(members)))
    ensures BodySchemas(root, requestBody, merged, fuel).Failure? && BodySchemas(root, requestBody, merged, fuel).error.UnsupportedContent?
      ==> FirstSupported(members).None?
  {
  }

  /** The body key is the source of the first supported content type; a key
      the parameters already produced is refused. */
  lemma BodyDuplicateSource(root: Json, requestBody: Json, members: seq<(string, Json)>, merged: seq<(string, Json)>, fuel: nat, i: nat)
    requires Index(requestBody, "content") == Success(Some(Obj(members)))
    requires FirstSupported(members) == Some(i)
    requires BodySource(members[i].0).value in Keys(merged)
    ensures BodySchemas(root, requestBody, merged, fuel) == Failure(DuplicateSource(BodySource(members[i].0).value))
  {
  }

  /** The new entry pairs the first supported content type's source with the
      standard form of that entry's `schema`; a conversion failure is passed
      on unchanged. */
  lemma BodySchemaUsed(root: Json, requestBody: Json, members: seq<(string, Json)>, merged: seq<(string, Json)>, fuel: nat, i: nat, schema: Json)
    requires Index(requestBody, "content") == Success(Some(Obj(members)))
    requires FirstSupported(members) == Some(i)
    requires BodySource(members[i].0).value !in Keys(merged)
    requires Index(members[i].1, "schema") == Success(Some(schema))
    ensures ToStandard(root, schema, fuel).Success? ==>
      BodySchemas(root, requestBody, merged, fuel) == Success(merged + [(BodySource(members[i].0).value, ToStandard(root, schema, fuel).value)])
    ensures ToStandard(root, schema, fuel).Failure? ==>
      BodySchemas(root, requestBody, merged, fuel) == Failure(ToStandard(root, schema, fuel).error)
  {
  }

  method ExtractSchemaFromBody(root: Json, requestBody: Json, merged: seq<(string, Json)>, fuel: nat) returns (r: Result<seq<(string, Json)>>)
    ensures r == BodySchemas(root, requestBody, merged, fuel)
  {
    var content := Required(Index(requestBody, "content"));
    if content.Failure? {
      return Failure(content.error);
    }
    if !content.value.Obj? {
      return Failure(NotAnObject);
    }
    var members := content.value.members;
    for i := 0 to |members|
      invariant forall j :: 0 <= j < i ==> BodySource(members[j].0).None?
    {
      var source := BodySource(members[i].0);
      if source.None? {
        continue;
      }
      if source.value in Keys(merged) {
        return Failure(DuplicateSource(source.value));
      }
      if members[i].1.Null? {
        return Failure(Missing);
      }
      var schema := Required(Index(members[i].1, "schema"));
      if schema.Failure? {
        return Failure(schema.error);
      }
      var standard := SwaggerSchemaToStandard(root, schema.value, fuel);
      if standard.Failure? {
        return Failure(standard.error);
      }
      return Success(merged + [(source.value, standard.value)]);
    }
    return Failure(UnsupportedContent(Keys(members)));
  }

  // ===========================================================================
  // The merged input schema (`BuildInputSchema`).

  /** The parameter sources of an operation and their schemas: the groups of
      a `parameters` array (ignored unless it is an array), then the body. */
  function MergedInputs(op: Json, root: Json): (r: Result<seq<(string, Json)>>)
    ensures r.Success? ==> NoDuplicates(Keys(r.value))
  {
    var fromParameters :- ParameterInputs(op);
    var body := MemberOf(op, "requestBody");
    if body.Some? then BodySchemas(root, body.value, fromParameters, RefFuel(root)) else Success(fromParameters)
  }

  /** The groups of the `parameters` member when it is an array, and none otherwise. */
  function ParameterInputs(op: Json): (r: Result<seq<(string, Json)>>)
    ensures r.Success? ==> op.Obj? && NoDuplicates(Keys(r.value))
  {
    var parameters :- Index(op, "parameters");
    if parameters.Some? && parameters.value.Arr? then ParameterSchemas(parameters.value.items) else Success([])
  }

  method CollectParameters(op: Json) returns (r: Result<seq<(string, Json)>>)
    ensures r == ParameterInputs(op)
  {
    var parameters :- Index(op, "parameters");
    if parameters.Some? && parameters.value.Arr? {
      r := ExtractSchemaFromParameters(parameters.value.items);
    } else {
      r := Success([]);
    }
  }

  /** The fixed envelope: one required `parameters` object whose properties
      are the sources and whose required list names every source. */
  function MergeSchema(sources: seq<(string, Json)>): (r: Json)
    ensures r.Obj? && Keys(r.members) == ["type", "properties", "required"]
    ensures var parameters := Obj([("type", Str("object")), ("properties", Obj(sources)), ("required", Arr(NameArray(Keys(sources))))]);
      Get(r.members, "properties") == Some(Obj([("parameters", parameters)]))
  {
    Obj([("type", Str("object")),
         ("properties", Obj([("parameters", Obj([("type", Str("object")),
                                                ("properties", Obj(sources)),
                                                ("required", Arr(NameArray(Keys(sources))))]))])),
         ("required", Arr([Str("parameters")]))])
  }

  /** The serialised input schema, or "" when the operation has no inputs. */
  function InputSchemaText(op: Json, root: Json, serialize: Json -> string): (r: Result<string>) {
    var merged :- MergedInputs(op, root);
    if merged == [] then Success("") else Success(serialize(MergeSchema(merged)))
  }

  method BuildInputSchema(op: Json, root: Json, serialize: Json -> string) returns (r: Result<string>)
    ensures r == InputSchemaText(op, root, serialize)
  {
    var merged :- CollectParameters(op);
    var body := MemberOf(op, "requestBody");
    if body.Some? {
      merged :- ExtractSchemaFromBody(root, body.value, merged, RefFuel(root));
    }
    if merged == [] {
      return Success("");
    }
    return Success(serialize(MergeSchema(merged)));
  }

  /** An operation whose parameters are grouped by source: the merged schema
      lists the sources in first-occurrence order, each with its group. */
  lemma ParametersOnlyMerge(op: Json, root: Json, items: seq<Json>, ps: seq<Param>)
    requires Index(op, "parameters") == Success(Some(Arr(items)))
    requires Index(op, "requestBody") == Success(None)
    requires ParseParameters(items) == Success(ps)
    ensures MergedInputs(op, root).Success?
    ensures Keys(MergedInputs(op, root).value) == Dedup(Sources(ps))
    ensures forall source :: source in Sources(ps) ==> Get(MergedInputs(op, root).value, source) == Some(GroupObject(GroupOf(ps, source)))
  {
    GroupOrder(ps);
    var groups := GroupParams(ps);
    var merged := MergedInputs(op, root).value;
    forall source | source in Sources(ps)
      ensures Get(merged, source) == Some(GroupObject(GroupOf(ps, source)))
    {
      GetGroupSchema(groups, source);
    }
  }

  lemma {:induction false} GetGroupSchema(groups: seq<(string, Group)>, source: string)
    requires source in Keys(groups)
    ensures Get(GroupSchemas(groups), source) == Some(GroupObject(Get(groups, source).value))
  {
    if groups[0].0 != source {
      assert Keys(groups) == [groups[0].0] + Keys(groups[1..]);
      GetGroupSchema(groups[1..], source);
      assert GroupSchemas(groups)[1..] == GroupSchemas(groups[1..]);
    }
  }

  /** No inputs, no schema. */
  lemma NoInputsNoSchema(op: Json, root: Json, serialize: Json -> string)
    requires op.Obj? && Index(op, "parameters") == Success(None) && Index(op, "requestBody") == Success(None)
    ensures InputSchemaText(op, root, serialize) == Success("")
  {
  }

  // ===========================================================================
  // Splitting a document into tool requests (`SplitSwaggerToTools`).

  /** `summary ?? description ?? ""`. */
  function OperationDescription(op: Json): (r: Result<string>)
    ensures r.Success? ==> op.Obj?
    ensures r.Success? && StringAt(op, "summary").Success? && StringAt(op, "summary").value.Some? ==>
      r.value == StringAt(op, "summary").value.value
    ensures StringAt(op, "summary") == Success(None) && StringAt(op, "description").Success? ==>
      r == Success(StringAt(op, "description").value.GetOr(""))
    ensures r.Failure? <==>
      StringAt(op, "summary").Failure? || (StringAt(op, "summary") == Success(None) && StringAt(op, "description").Failure?)
  {
    var summary :- StringAt(op, "summary");
    if summary.Some? then Success(summary.value)
    else
      var description :- StringAt(op, "description");
      Success(description.GetOr(""))
  }

  /** The tool request of one operation: upper-cased method, the path as
      written, no name, and the merged input schema. */
  function OperationTool(importId: int, path: string, verb: string, op: Json, root: Json, codec: Codec): (r: Result<CreateToolRequest>)
    ensures r.Success? ==> r.value.name.None? && r.value.importId == importId
  {
    var description :- OperationDescription(op);
    var schema :- InputSchemaText(op, root, codec.serialize);
    Success(CreateToolRequest(importId, ToUpper(verb), path, None, description, schema))
  }

  /** The fields of a built request and where each comes from. */
  lemma OperationToolFields(importId: int, path: string, verb: string, op: Json, root: Json, codec: Codec, t: CreateToolRequest)
    requires OperationTool(importId, path, verb, op, root, codec) == Success(t)
    ensures t.httpMethod == ToUpper(verb) && t.requestPath == path
    ensures OperationDescription(op) == Success(t.description)
    ensures InputSchemaText(op, root, codec.serialize) == Success(t.inputSchema)
  {
  }

  /** The step that turns one operation of a document into a request. */
  type ToolBuilder = (string, string, Json) -> Result<CreateToolRequest>

  function Builder(importId: int, root: Json, codec: Codec): ToolBuilder {
    (path: string, verb: string, op: Json) => OperationTool(importId, path, verb, op, root, codec)
  }

  /** The requests of one path item's operations appended to `acc`; JSON null
      operations are skipped. The per-operation step is a parameter so that
      the lemmas about the traversal do not depend on it. */
  function SplitOps(build: ToolBuilder, acc: seq<CreateToolRequest>, path: string, ops: seq<(string, Json)>): Result<seq<CreateToolRequest>>
    decreases |ops|
  {
    if ops == [] then Success(acc)
    else if ops[0].1.Null? then SplitOps(build, acc, path, ops[1..])
    else
      var tool :- build(path, ops[0].0, ops[0].1);
      SplitOps(build, acc + [tool], path, ops[1..])
  }

  /** The requests of every path item appended to `acc`; a JSON null path item
      is skipped, any other value that is not an object is refused. */
  function SplitPaths(build: ToolBuilder, acc: seq<CreateToolRequest>, paths: seq<(string, Json)>): Result<seq<CreateToolRequest>>
    decreases |paths|
  {
    if paths == [] then Success(acc)
    else if paths[0].1.Null? then SplitPaths(build, acc, paths[1..])
    else if !paths[0].1.Obj? then Failure(NotAnObject)
    else
      var acc' :- SplitOps(build, acc, paths[0].0, paths[0].1.members);
      SplitPaths(build, acc', paths[1..])
  }

  /** The tool requests of a document: none when it is `null` or has no `paths`. */
  function SplitSpec(text: string, importId: int, codec: Codec): Result<seq<CreateToolRequest>> {
    var root :- codec.parse(text);
    var paths :- if root.Null? then Success(None) else Index(root, "paths");
    match paths
    case None => Success([])
    case Some(p) => if !p.Obj? then Failure(NotAnObject) else SplitPaths(Builder(importId, root, codec), [], p.members)
  }

  method SplitSwaggerToTools(text: string, importId: int, codec: Codec) returns (r: Result<seq<CreateToolRequest>>)
    ensures r == SplitSpec(text, importId, codec)
  {
    var parsed := codec.parse(text);
    if parsed.Failure? {
      return Failure(parsed.error);
    }
    var root := parsed.value;
    if root.Null? {
      return Success([]);
    }
    var paths := Index(root, "paths");
    if paths.Failure? {
      return Failure(paths.error);
    }
    if paths.value.None? {
      return Success([]);
    }
    if !paths.value.value.Obj? {
      return Failure(NotAnObject);
    }
    var pathItems := paths.value.value.members;
    ghost var build := Builder(importId, root, codec);
    var tools: seq<CreateToolRequest> := [];
    for i := 0 to |pathItems|
      invariant SplitPaths(build, tools, pathItems[i..]) == SplitSpec(text, importId, codec)
    {
      assert pathItems[i..][1..] == pathItems[i + 1..];
      var (path, item) := pathItems[i];
      if item.Null? {
        continue;
      }
      if !item.Obj? {
        return Failure(NotAnObject);
      }
      var ops := item.members;
      ghost var before := tools;
      for j := 0 to |ops|
        invariant SplitOps(build, tools, path, ops[j..]) == SplitOps(build, before, path, ops)
      {
        assert ops[j..][1..] == ops[j + 1..];
        var (verb, op) := ops[j];
        if op.Null? {
          continue;
        }
        var description := OperationDescription(op);
        if description.Failure? {
          return Failure(description.error);
        }
        var schema := BuildInputSchema(op, root, codec.serialize);
        if schema.Failure? {
          return Failure(schema.error);
        }
        tools := tools + [CreateToolRequest(importId, ToUpper(verb), path, None, description.value, schema.value)];
      }
      assert ops[|ops|..] == [];
    }
    assert pathItems[|pathItems|..] == [];
    return Success(tools);
  }

  // Coverage: one request per non-null operation of an object path item.

  function OpsOf(path: string, ops: seq<(string, Json)>): seq<(string, string, Json)> {
    if ops == [] then []
    else (if ops[0].1.Null? then [] else [(path, ops[0].0, ops[0].1)]) + OpsOf(path, ops[1..])
  }

  function Operations(paths: seq<(string, Json)>): seq<(string, string, Json)> {
    if paths == [] then []
    else (if paths[0].1.Obj? then OpsOf(paths[0].0, paths[0].1.members) else []) + Operations(paths[1..])
  }

  lemma {:induction false} SplitOpsCovers(build: ToolBuilder, acc: seq<CreateToolRequest>, path: string, ops: seq<(string, Json)>, r: seq<CreateToolRequest>)
    requires SplitOps(build, acc, path, ops) == Success(r)
    ensures |r| == |acc| + |OpsOf(path, ops)| && r[..|acc|] == acc
    ensures forall k :: 0 <= k < |OpsOf(path, ops)| ==>
      var o := OpsOf(path, ops)[k]; build(o.0, o.1, o.2) == Success(r[|acc| + k])
    decreases |ops|
  {
    if ops != [] {
      var rest := OpsOf(path, ops[1..]);
      if ops[0].1.Null? {
        SplitOpsCovers(build, acc, path, ops[1..], r);
        assert OpsOf(path, ops) == rest;
      } else {
        var tool := build(path, ops[0].0, ops[0].1).value;
        SplitOpsCovers(build, acc + [tool], path, ops[1..], r);
        assert OpsOf(path, ops) == [(path, ops[0].0, ops[0].1)] + rest;
        assert r[..|acc|] == r[..|acc| + 1][..|acc|];
        assert r[|acc|] == r[..|acc| + 1][|acc|];
      }
    }
  }

  lemma {:induction false} SplitPathsCovers(build: ToolBuilder, acc: seq<CreateToolRequest>, paths: seq<(string, Json)>, r: seq<CreateToolRequest>)
    requires SplitPaths(build, acc, paths) == Success(r)
    ensures |r| == |acc| + |Operations(paths)| && r[..|acc|] == acc
    ensures forall k :: 0 <= k < |Operations(paths)| ==>
      var o := Operations(paths)[k]; build(o.0, o.1, o.2) == Success(r[|acc| + k])
    decreases |paths|
  {
    if paths != [] {
      var rest := Operations(paths[1..]);
      if paths[0].1.Null? {
        SplitPathsCovers(build, acc, paths[1..], r);
        assert Operations(paths) == rest;
      } else {
        var ops := paths[0].1.members;
        var mid := SplitOps(build, acc, paths[0].0, ops).value;
        SplitOpsCovers(build, acc, paths[0].0, ops, mid);
        SplitPathsCovers(build, mid, paths[1..], r);
        var first := OpsOf(paths[0].0, ops);
        assert Operations(paths) == first + rest;
        assert r[..|acc|] == r[..|mid|][..|acc|];
        forall k | 0 <= k < |Operations(paths)|
          ensures var o := Operations(paths)[k]; build(o.0, o.1, o.2) == Success(r[|acc| + k])
        {
          if k < |first| {
            assert r[|acc| + k] == r[..|mid|][|acc| + k] == mid[|acc| + k];
          } else {
            assert Operations(paths)[k] == rest[k - |first|];
          }
        }
      }
    }
  }

  /** The step `Builder` hands to the traversal is `OperationTool`. */
  lemma BuilderIsOperationTool(importId: int, root: Json, codec: Codec, path: string, verb: string, op: Json)
    ensures Builder(importId, root, codec)(path, verb, op) == OperationTool(importId, path, verb, op, root, codec)
  {
  }

  /** A document with an object under `paths` is split by the traversal. */
  lemma SplitSpecPaths(text: string, importId: int, codec: Codec, root: Json, pathItems: seq<(string, Json)>)
    requires codec.parse(text) == Success(root) && Index(root, "paths") == Success(Some(Obj(pathItems)))
    ensures SplitSpec(text, importId, codec) == SplitPaths(Builder(importId, root, codec), [], pathItems)
  {
  }

  /** A split document yields exactly one request per non-null operation, in
      document order, the k-th built from the k-th operation. */
  lemma SplitCoversOperations(text: string, importId: int, codec: Codec, root: Json, pathItems: seq<(string, Json)>, r: seq<CreateToolRequest>, k: nat)
    requires codec.parse(text) == Success(root) && Index(root, "paths") == Success(Some(Obj(pathItems)))
    requires SplitSpec(text, importId, codec) == Success(r)
    requires k < |r|
    ensures |r| == |Operations(pathItems)|
    ensures var o := Operations(pathItems)[k]; OperationTool(importId, o.0, o.1, o.2, root, codec) == Success(r[k])
  {
    var build := Builder(importId, root, codec);
    SplitSpecPaths(text, importId, codec, root, pathItems);
    SplitPathsCovers(build, [], pathItems, r);
    var o := Operations(pathItems)[k];
    assert build(o.0, o.1, o.2) == Success(r[k]);
    BuilderIsOperationTool(importId, root, codec, o.0, o.1, o.2);
  }

  /** Every request a split produces is unnamed. */
  lemma SplitToolsUnnamed(text: string, importId: int, codec: Codec, r: seq<CreateToolRequest>)
    requires SplitSpec(text, importId, codec) == Success(r)
    ensures forall k :: 0 <= k < |r| ==> r[k].name.None? && r[k].importId == importId
  {
    var root := codec.parse(text).value;
    if !root.Null? {
      var paths := Index(root, "paths").value;
      if paths.Some? {
        var items := paths.value.members;
        forall k | 0 <= k < |r|
          ensures r[k].name.None? && r[k].importId == importId
        {
          SplitCoversOperations(text, importId, codec, root, items, r, k);
        }
      }
    }
  }

  /** A document without `paths` yields no requests. */
  lemma NoPathsNoTools(text: string, importId: int, codec: Codec, root: Json)
    requires codec.parse(text) == Success(root) && root.Obj? && "paths" !in Keys(root.members)
    ensures SplitSpec(text, importId, codec) == Success([])
  {
  }
}
