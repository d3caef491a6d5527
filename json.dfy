/** The shape of a JSON document as `encoding/json` produces it: which keys
    an object has, in which order, and what each holds. Escaping and the
    byte-level text are not modelled. */
module Json {

  datatype Json =
    | Str(s: string)
    | Arr(elems: seq<Json>)
    | Obj(members: seq<Member>)

  /** One `"key": value` pair of an object. */
  datatype Member = Member(key: string, value: Json)

  /** The keys of an object's members, in order. */
  function Keys(members: seq<Member>): (ks: seq<string>)
    ensures |ks| == |members|
    ensures forall i :: 0 <= i < |members| ==> ks[i] == members[i].key
  {
    if members == [] then [] else [members[0].key] + Keys(members[1..])
  }

  lemma KeysAppend(a: seq<Member>, b: seq<Member>)
    ensures Keys(a + b) == Keys(a) + Keys(b)
  {
    assert |Keys(a + b)| == |Keys(a) + Keys(b)|;
    forall i | 0 <= i < |a + b| ensures Keys(a + b)[i] == (Keys(a) + Keys(b))[i] {
    }
  }

  /** True when `j` is an object with a member named `key`. */
  predicate HasKey(j: Json, key: string) {
    j.Obj? && key in Keys(j.members)
  }
}
