/**
 * JavaScript values as the two dispatchers see them: the values `JSON.parse`
 * produces, plus `BigInt`, the one kind of value here that `JSON.stringify`
 * refuses.  Objects keep their members in insertion order, as JavaScript does.
 */
module JsValues {
  import opened Wrappers

  datatype Json =
    | JNull
    | JBool(b: bool)
    | JNum(n: int)
    | JStr(s: string)
    | JArr(items: seq<Json>)
    | JObj(members: seq<Member>)
    /** A `BigInt`: never produced by `JSON.parse`, rejected by `JSON.stringify`. */
    | JBigInt(big: int)

  datatype Member = Member(key: string, value: Json)

  /**
   * The JavaScript engine functions the handlers call and whose internals are
   * not modelled: `JSON.parse` (an error result carries the `SyntaxError`'s
   * message) and the `String(...)` coercion `JSON.parse` applies to a
   * non-string argument.
   */
  datatype JsRuntime = JsRuntime(parse: string -> Result<Json, string>, toText: Json -> string)

  /** The message of the `TypeError` that `JSON.stringify` throws on a `BigInt`. */
  const BigIntMessage := "Do not know how to serialize a BigInt"

  /** JavaScript truthiness: `null`, `false`, `0`, `0n` and `""` are falsy. */
  predicate Truthy(v: Json) {
    match v
    case JNull => false
    case JBool(b) => b
    case JNum(n) => n != 0
    case JStr(s) => s != ""
    case JBigInt(n) => n != 0
    case _ => true
  }

  /** The value of the first member named `key`, if the value is an object that has one. */
  function Get(v: Json, key: string): Option<Json> {
    if v.JObj? then Lookup(v.members, key) else None
  }

  function Lookup(ms: seq<Member>, key: string): Option<Json> {
    if |ms| == 0 then None
    else if ms[0].key == key then Some(ms[0].value)
    else Lookup(ms[1..], key)
  }

  /** The member at index `i` is the one found when no earlier member has its key. */
  lemma {:induction false} LookupFirst(ms: seq<Member>, key: string, i: nat)
    requires i < |ms| && ms[i].key == key
    requires forall j :: 0 <= j < i ==> ms[j].key != key
    ensures Lookup(ms, key) == Some(ms[i].value)
  {
    if i > 0 {
      assert ms[0].key != key;
      assert forall j :: 0 <= j < i - 1 ==> ms[1..][j] == ms[j + 1];
      LookupFirst(ms[1..], key, i - 1);
    }
  }

  /** A value `JSON.stringify` accepts: no `BigInt` anywhere inside it. */
  predicate Serializable(v: Json) {
    match v
    case JBigInt(_) => false
    case JArr(items) => forall i :: 0 <= i < |items| ==> Serializable(items[i])
    case JObj(ms) => forall i :: 0 <= i < |ms| ==> Serializable(ms[i].value)
    case _ => true
  }

  /**
   * A `parse` that behaves like `JSON.parse` in the one respect the
   * handlers depend on: it never yields a `BigInt`, so whatever it yields
   * `JSON.stringify` accepts.
   */
  ghost predicate ParseYieldsSerializable(rt: JsRuntime) {
    forall s :: rt.parse(s).Ok? ==> Serializable(rt.parse(s).value)
  }

  /**
   * The walk `JSON.stringify` makes over a value, reduced to whether it
   * throws: arrays element by element, objects member by member, failing at
   * the first `BigInt` it meets.
   */
  function Stringify(v: Json): (r: Outcome<string>)
    ensures r.Pass? <==> Serializable(v)
    ensures r.Fail? ==> r.error == BigIntMessage
  {
    match v
    case JBigInt(_) => Fail(BigIntMessage)
    case JArr(items) => StringifyItems(items)
    case JObj(ms) => StringifyMembers(ms)
    case _ => Pass
  }

  function StringifyItems(items: seq<Json>): (r: Outcome<string>)
    ensures r.Pass? <==> forall i :: 0 <= i < |items| ==> Serializable(items[i])
    ensures r.Fail? ==> r.error == BigIntMessage
  {
    if |items| == 0 then Pass
    else
      match Stringify(items[0])
      case Fail(m) => Fail(m)
      case Pass => StringifyItems(items[1..])
  }

  function StringifyMembers(ms: seq<Member>): (r: Outcome<string>)
    ensures r.Pass? <==> forall i :: 0 <= i < |ms| ==> Serializable(ms[i].value)
    ensures r.Fail? ==> r.error == BigIntMessage
  {
    if |ms| == 0 then Pass
    else
      match Stringify(ms[0].value)
      case Fail(m) => Fail(m)
      case Pass => StringifyMembers(ms[1..])
  }
}
