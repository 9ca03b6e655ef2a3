/**
 The JavaScript values that flow through the Assemble task's option handling.

 An option value is either an array (`List`) or anything else (`Single`).
 The elements of an array, and every non-array value, are `Elem`s. Objects
 (plain objects, functions and arrays nested inside an option list) carry an
 identity `ref`. Dafny's structural `==` on `Elem` coincides with the
 SameValueZero equality lodash uses to de-duplicate (two objects are equal only
 when they are the same object, `NaN` equals `NaN`, and there is one zero) as
 long as each identity is carried by one property map (`RefsConsistent`).
 */
module JsValues {

  /** A JavaScript value other than a top-level array. */
  datatype Elem =
    | Undefined
    | Null
    | Bool(b: bool)
    | Num(n: int)
    | NaN
    | Str(s: string)
    | Obj(ref: nat, props: map<string, Elem>)

  /** An option value: an array of elements, or a single non-array value. */
  datatype Value = Single(e: Elem) | List(elems: seq<Elem>)

  /** JavaScript truthiness of a non-array value. */
  predicate Truthy(e: Elem)
  {
    match e
    case Undefined => false
    case Null => false
    case Bool(b) => b
    case Num(n) => n != 0
    case NaN => false
    case Str(s) => s != ""
    case Obj(_, _) => true
  }

  /** JavaScript truthiness of an option value; an array is always truthy. */
  predicate TruthyValue(v: Value)
  {
    match v
    case Single(e) => Truthy(e)
    case List(_) => true
  }

  /** JavaScript `v || fallback`: the left operand when it is truthy, else the right one. */
  function OrElse(v: Value, fallback: Value): (r: Value)
    ensures TruthyValue(v) ==> r == v
    ensures !TruthyValue(v) ==> r == fallback
  {
    if TruthyValue(v) then v else fallback
  }

  /** Property lookup `m[key]` on a plain JavaScript object: `undefined` when the key is missing. */
  function Lookup(m: map<string, Value>, key: string): (v: Value)
    ensures key in m ==> v == m[key]
    ensures key !in m ==> v == Single(Undefined)
  {
    if key in m then m[key] else Single(Undefined)
  }

  /**
   `v.key` read on an option value: the property of an object, and `undefined`
   on a primitive (and, in this model, on an array).
   */
  function Prop(v: Value, key: string): (r: Elem)
    ensures (v.Single? && v.e.Obj? && key in v.e.props) ==> r == v.e.props[key]
    ensures !(v.Single? && v.e.Obj? && key in v.e.props) ==> r == Undefined
  {
    match v
    case Single(Obj(_, props)) => if key in props then props[key] else Undefined
    case _ => Undefined
  }

  /**
   lodash's SameValueZero on elements: objects are the same only when they are
   the same object, whatever their properties; `NaN` equals `NaN`.
   */
  predicate SameValueZero(x: Elem, y: Elem)
  {
    if x.Obj? || y.Obj? then x.Obj? && y.Obj? && x.ref == y.ref else x == y
  }

  /** Every object identity in `s` is carried by one property map: no stale snapshot of a changed object. */
  predicate RefsConsistent(s: seq<Elem>)
  {
    forall i, j :: 0 <= i < |s| && 0 <= j < |s| && s[i].Obj? && s[j].Obj? && s[i].ref == s[j].ref ==> s[i] == s[j]
  }

  /** Among elements whose identities are consistent, Dafny's `==` is SameValueZero. */
  lemma SameValueZeroIsEquality(s: seq<Elem>, i: nat, j: nat)
    requires RefsConsistent(s) && i < |s| && j < |s|
    ensures SameValueZero(s[i], s[j]) <==> s[i] == s[j]
  {
  }

  /** Two snapshots of one object with different properties: SameValueZero holds, `==` does not. */
  lemma SnapshotsOfOneObject()
    ensures SameValueZero(Obj(1, map[]), Obj(1, map["a" := Num(1)]))
    ensures Obj(1, map[]) != Obj(1, map["a" := Num(1)])
    ensures !RefsConsistent([Obj(1, map[]), Obj(1, map["a" := Num(1)])])
  {
    assert "a" in Obj(1, map["a" := Num(1)]).props;
    var s := [Obj(1, map[]), Obj(1, map["a" := Num(1)])];
    assert s[0].ref == s[1].ref && s[0] != s[1];
  }

  /**
   `arrayify`: an array stays as it is; any other value becomes a
   one-element array.
   */
  function Arrayify(v: Value): (r: seq<Elem>)
    ensures v.List? ==> r == v.elems
    ensures v.Single? ==> r == [v.e]
  {
    match v
    case List(xs) => xs
    case Single(e) => [e]
  }
}
