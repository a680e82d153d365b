/** JSON documents as values, with the access rules of the mutable JSON node
    API the source uses: objects are ordered member lists, `node[key]` fails
    on a node that is not an object, and a JSON `null` member reads the same
    as a missing one. */
module JsonModel {
  import opened Base

  datatype Json =
    | Null
    | Bool(b: bool)
    | Number(text: string)  // the number's literal text, as written in the document
    | Str(s: string)
    | Arr(items: seq<Json>)
    | Obj(members: seq<(string, Json)>)

  /** Text <-> document conversions. Parsing and compact serialisation are
      not modelled; every operation that needs them receives them here. */
  datatype Codec = Codec(parse: string -> Result<Json>, serialize: Json -> string)

  /** The member `key` of an object node; absent when missing or JSON null. */
  function MemberOf(obj: Json, key: string): (r: Option<Json>)
    requires obj.Obj?
    ensures r.Some? ==> r.value != Null
  {
    match Get(obj.members, key)
    case None => None
    case Some(v) => if v.Null? then None else Some(v)
  }

  /** `node[key]`: fails on a node that is not an object. */
  function Index(node: Json, key: string): (r: Result<Option<Json>>)
    ensures r.Failure? <==> !node.Obj?
    ensures r.Success? ==> r.value == MemberOf(node, key)
  {
    if !node.Obj? then Failure(NotAnObject) else Success(MemberOf(node, key))
  }

  /** `node[key]!`: the member must be there. */
  function Required(r: Result<Option<Json>>): Result<Json> {
    match r
    case Failure(e) => Failure(e)
    case Success(None) => Failure(Missing)
    case Success(Some(v)) => Success(v)
  }

  /** `value.GetValue<string>()`. */
  function AsString(v: Json): Result<string> {
    if v.Str? then Success(v.s) else Failure(WrongKind)
  }

  /** `node[key]?.GetValue<string>()`. */
  function StringAt(node: Json, key: string): Result<Option<string>> {
    var v :- Index(node, key);
    match v
    case None => Success(None)
    case Some(x) =>
      var s :- AsString(x);
      Success(Some(s))
  }

  /** `node[key]?.GetValue<bool>()`. */
  function BoolAt(node: Json, key: string): Result<Option<bool>> {
    var v :- Index(node, key);
    match v
    case None => Success(None)
    case Some(Bool(b)) => Success(Some(b))
    case Some(_) => Failure(WrongKind)
  }

  /** `obj[key] = value` on an object node. */
  function SetMember(obj: Json, key: string, value: Json): (r: Json)
    requires obj.Obj?
    ensures r.Obj? && Get(r.members, key) == Some(value)
    ensures Keys(r.members) == if key in Keys(obj.members) then Keys(obj.members) else Keys(obj.members) + [key]
  {
    Obj(Put(obj.members, key, value))
  }

  /** The node a nullable string converts to (`JsonNode? n = s`). */
  function StringNode(s: Option<string>): Json {
    match s
    case None => Null
    case Some(t) => Str(t)
  }

  // ---------------------------------------------------------------------------
  // Element view (`JsonElement`), used for tool-call arguments.

  /** `TryGetProperty(key)`: the last member with that name, a JSON null included. */
  function Property(members: seq<(string, Json)>, key: string): (r: Option<Json>)
    ensures r.None? <==> key !in Keys(members)
  {
    if members == [] then None
    else
      var last := members[|members| - 1];
      assert Keys(members) == Keys(members[..|members| - 1]) + [last.0];
      if last.0 == key then Some(last.1) else Property(members[..|members| - 1], key)
  }

  /** `JsonElement.ToString()`: the text of a string, "" for null, "True"/"False",
      a number's literal text, and the JSON text of an object or array. */
  function ElementText(v: Json, codec: Codec): string {
    match v
    case Str(s) => s
    case Null => ""
    case Bool(b) => if b then "True" else "False"
    case Number(t) => t
    case _ => codec.serialize(v)
  }
}
