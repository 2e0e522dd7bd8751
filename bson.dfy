/**
 * The BSON values the builders produce. `bson.M` (an unordered document) is a
 * Dafny map, `bson.A` and every Go slice are sequences, and Go's `nil` is `Null`.
 * A `primitive.Regex` keeps its pattern and its options.
 *
 * Most builders return a document with exactly one key, the name of a MongoDB
 * operator, whose value is the operand. `Op` builds such a document and
 * `SingleOperand` decodes it again; the two are inverse to each other.
 */
module Bson {

  datatype Option<T> = None | Some(value: T)

  datatype Value =
    | Null
    | Bool(b: bool)
    | Int(i: int)
    | Str(s: string)
    | Regex(pattern: string, options: string)
    | Doc(fields: map<string, Value>)
    | Arr(items: seq<Value>)

  /** The operand of `v` when `v` is a document whose only key is `name`. */
  function SingleOperand(v: Value, name: string): (r: Option<Value>)
    ensures r.Some? <==> v.Doc? && v.fields.Keys == {name}
  {
    if v.Doc? && v.fields.Keys == {name} then Some(v.fields[name]) else None
  }

  /** The one-key document `{name: operand}`. */
  function Op(name: string, operand: Value): (r: Value)
    ensures SingleOperand(r, name) == Some(operand)
    ensures r.Doc? && |r.fields| == 1
  {
    var m := map[name := operand];
    assert m.Keys == {name};
    Doc(m)
  }

  /** The fields of the operand document of the one-key document `v`, or none at all. */
  function ArgMap(v: Value, name: string): map<string, Value>
  {
    match SingleOperand(v, name)
    case Some(Doc(m)) => m
    case _ => map[]
  }

  /** The keys of the operand document of `v`. */
  function ArgKeys(v: Value, name: string): set<string>
  {
    ArgMap(v, name).Keys
  }

  /** The value stored under `key` in the operand document of `v`. */
  function Arg(v: Value, name: string, key: string): Option<Value>
  {
    var m := ArgMap(v, name);
    if key in m then Some(m[key]) else None
  }

  /** `Op` and `SingleOperand` are inverse: decoding gives back exactly the name and operand. */
  lemma OpRoundTrip(v: Value, name: string, operand: Value)
    ensures SingleOperand(v, name) == Some(operand) <==> v == Op(name, operand)
    ensures forall other :: other != name ==> SingleOperand(Op(name, operand), other) == None
  {
  }
}
