/** The Gson element tree the payload encoder builds (`JsonObject`,
    `JsonArray`, `JsonPrimitive`, `JsonNull`). A `JsonObject` is a
    `LinkedTreeMap`: its members keep insertion order. */
module Json {
  import opened Wrappers

  datatype Json =
    | JNull
    | JString(str: string)
    | JNumber(num: real)
    | JArray(items: seq<Json>)
    | JObject(members: seq<(string, Json)>)

  /** The member names of an object, in order. */
  function Keys(members: seq<(string, Json)>): (ks: seq<string>)
    ensures |ks| == |members|
    ensures forall i :: 0 <= i < |members| ==> ks[i] == members[i].0
  {
    if members == [] then [] else [members[0].0] + Keys(members[1..])
  }

  /** `JsonObject.has(key)`. */
  predicate Has(members: seq<(string, Json)>, key: string) {
    members != [] && (members[0].0 == key || Has(members[1..], key))
  }

  /** `JsonObject.get(key)`. */
  function Lookup(members: seq<(string, Json)>, key: string): (v: Option<Json>)
    ensures v.None? <==> !Has(members, key)
  {
    if members == [] then None
    else if members[0].0 == key then Some(members[0].1)
    else Lookup(members[1..], key)
  }

  /** `JsonObject.add(key, value)` / `addProperty`: a new key is appended,
      an existing key keeps its position and takes the new value. */
  function Put(members: seq<(string, Json)>, key: string, value: Json): (r: seq<(string, Json)>)
    ensures !Has(members, key) ==> r == members + [(key, value)]
    ensures Has(members, key) ==> Keys(r) == Keys(members)
    ensures Lookup(r, key) == Some(value)
  {
    if members == [] then [(key, value)]
    else if members[0].0 == key then [(key, value)] + members[1..]
    else
      var rest := Put(members[1..], key, value);
      var r := [members[0]] + rest;
      assert r[1..] == rest;
      r
  }

  /** `get` finds the first member with the key. */
  lemma {:induction false} LookupAt(members: seq<(string, Json)>, key: string, i: nat)
    requires i < |members| && members[i].0 == key
    requires forall j :: 0 <= j < i ==> members[j].0 != key
    ensures Lookup(members, key) == Some(members[i].1)
  {
    if i > 0 {
      assert members[1..][i - 1] == members[i];
      LookupAt(members[1..], key, i - 1);
    }
  }

  lemma {:induction false} NotHas(members: seq<(string, Json)>, key: string)
    requires forall i :: 0 <= i < |members| ==> members[i].0 != key
    ensures !Has(members, key)
  {
    if members != [] {
      assert forall i :: 0 <= i < |members| - 1 ==> members[1..][i] == members[i + 1];
      NotHas(members[1..], key);
    }
  }
}
