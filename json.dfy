/**
 * The part of JSON the calibration records use: scalars and objects whose
 * members keep their insertion order, as an OrderedDict does.
 */
module Jsonable {
  import opened Wrappers
  import opened Fields

  datatype Json = Leaf(v: Value) | Obj(members: seq<(string, Json)>)

  /** The error where Python raises for a document of the wrong shape (`.get` on a number, a float of a dict). */
  datatype Malformed = NotAnObject | NotAScalar(key: string)

  function Keys(members: seq<(string, Json)>): (ks: seq<string>)
    ensures |ks| == |members|
    ensures forall i :: 0 <= i < |members| ==> ks[i] == members[i].0
  {
    if members == [] then [] else [members[0].0] + Keys(members[1..])
  }

  /**
   * `jdict.get(key)`: the value of the last member with that key (json.loads
   * keeps the last of duplicated keys), and None when there is none.
   */
  function Get(members: seq<(string, Json)>, key: string): (j: Json)
    ensures key !in Keys(members) ==> j == Leaf(Absent)
    ensures members != [] && members[|members| - 1].0 == key ==> j == members[|members| - 1].1
  {
    if members == [] then Leaf(Absent)
    else if members[|members| - 1].0 == key then members[|members| - 1].1
    else Get(members[..|members| - 1], key)
  }

  /** Python's `not jdict`: None, a zero, or an empty object. */
  predicate Falsy(j: Json)
  {
    match j
    case Leaf(v) => v.Absent? || v == Int(0) || v == Real(0) || v == Real(0x8000_0000)
    case Obj(members) => members == []
  }

  /** A member read as a number: an object there is refused. */
  function Scalar(j: Json, key: string): (r: Result<Value, Malformed>)
    ensures r.Success? <==> j.Leaf?
    ensures r.Success? ==> r.value == j.v
  {
    match j
    case Leaf(v) => Success(v)
    case Obj(_) => Failure(NotAScalar(key))
  }

  /** What `get` finds under each of `keys`, in order. */
  function Lookups(members: seq<(string, Json)>, keys: seq<string>): (js: seq<Json>)
    ensures |js| == |keys|
    ensures forall i :: 0 <= i < |keys| ==> js[i] == Get(members, keys[i])
  {
    seq(|keys|, i requires 0 <= i < |keys| => Get(members, keys[i]))
  }

  /** Two objects that agree on `keys`. */
  predicate Agree(m: seq<(string, Json)>, m': seq<(string, Json)>, keys: seq<string>)
  {
    forall i :: 0 <= i < |keys| ==> Get(m, keys[i]) == Get(m', keys[i])
  }

  predicate Distinct(ks: seq<string>)
  {
    forall i, j :: 0 <= i < j < |ks| ==> ks[i] != ks[j]
  }

  /** In an object whose keys are distinct, each member is what `get` finds under its key. */
  lemma {:induction false} GetAt(members: seq<(string, Json)>, i: nat)
    requires i < |members| && Distinct(Keys(members))
    ensures Get(members, members[i].0) == members[i].1
    decreases |members|
  {
    var last := |members| - 1;
    if i < last {
      var front := members[..last];
      assert Keys(front) == Keys(members)[..last];
      assert front[i] == members[i];
      GetAt(front, i);
    }
  }

  /** An object with the given keys and values, in order, as an OrderedDict filled one key at a time. */
  function Zip(keys: seq<string>, js: seq<Json>): (members: seq<(string, Json)>)
    requires |keys| == |js|
    ensures Keys(members) == keys
    ensures |members| == |keys| && forall i :: 0 <= i < |keys| ==> members[i] == (keys[i], js[i])
  {
    seq(|keys|, i requires 0 <= i < |keys| => (keys[i], js[i]))
  }

  /** Reading back the keys an object was built from gives back its values. */
  lemma LookupsZip(keys: seq<string>, js: seq<Json>)
    requires |keys| == |js| && Distinct(keys)
    ensures Lookups(Zip(keys, js), keys) == js
  {
    var m := Zip(keys, js);
    forall i | 0 <= i < |keys|
      ensures Lookups(m, keys)[i] == js[i]
    {
      GetAt(m, i);
    }
  }
}
