/**
 * The values the parser produces, and the Python dict semantics of the
 * objects it assembles.
 */
module JsonValues {

  import opened Outcomes

  /**
   * A decoded value. `Float` keeps the literal text that Python would hand
   * to `float()`; integers are unbounded, as Python's are.
   */
  datatype Json =
    | Null
    | Bool(b: bool)
    | Int(n: int)
    | Float(text: string)
    | Str(s: string)
    | Arr(items: seq<Json>)
    | Obj(members: seq<(string, Json)>)

  /** The keys of an association list, in insertion order. */
  function Keys(members: seq<(string, Json)>): (ks: seq<string>)
    ensures |ks| == |members|
    ensures forall k :: 0 <= k < |members| ==> ks[k] == members[k].0
  {
    if members == [] then [] else [members[0].0] + Keys(members[1..])
  }

  /** No key occurs twice: the shape of a Python dict's items. */
  ghost predicate UniqueKeys(members: seq<(string, Json)>)
  {
    forall a, b :: 0 <= a < b < |members| ==> members[a].0 != members[b].0
  }

  /** `d.get(key)`: the value stored under `key`. */
  function Lookup(members: seq<(string, Json)>, key: string): (r: Option<Json>)
    ensures r.None? <==> key !in Keys(members)
    ensures r.Some? ==> (key, r.value) in members
  {
    if members == [] then None
    else if members[0].0 == key then Some(members[0].1)
    else Lookup(members[1..], key)
  }

  /**
   * `d[key] = value`: a key already present keeps its position and gets the
   * new value; a new key goes at the end.
   */
  function Assign(members: seq<(string, Json)>, key: string, value: Json): seq<(string, Json)>
  {
    if members == [] then [(key, value)]
    else if members[0].0 == key then [(key, value)] + members[1..]
    else [members[0]] + Assign(members[1..], key, value)
  }

  /** A store keeps the keys' order: an existing key stays where it is, a new one goes last. */
  lemma {:induction false} AssignKeys(members: seq<(string, Json)>, key: string, value: Json)
    ensures Keys(Assign(members, key, value)) == if key in Keys(members) then Keys(members) else Keys(members) + [key]
  {
    if members != [] && members[0].0 != key {
      AssignKeys(members[1..], key, value);
      assert Keys(members) == [members[0].0] + Keys(members[1..]);
      assert Keys(Assign(members, key, value)) == [members[0].0] + Keys(Assign(members[1..], key, value));
    } else if members != [] {
      assert Keys(members) == [key] + Keys(members[1..]);
    }
  }

  /** Storing under a new key appends the pair. */
  lemma {:induction false} AssignAppends(members: seq<(string, Json)>, key: string, value: Json)
    requires key !in Keys(members)
    ensures Assign(members, key, value) == members + [(key, value)]
  {
    if members != [] {
      assert Keys(members) == [members[0].0] + Keys(members[1..]);
      AssignAppends(members[1..], key, value);
      assert members == [members[0]] + members[1..];
    }
  }

  /** A store keeps the keys unique. */
  lemma AssignUnique(members: seq<(string, Json)>, key: string, value: Json)
    requires UniqueKeys(members)
    ensures UniqueKeys(Assign(members, key, value))
  {
    hide Assign, Keys;
    var r := Assign(members, key, value);
    AssignKeys(members, key, value);
    if key in Keys(members) {
      assert forall a :: 0 <= a < |r| ==> r[a].0 == Keys(r)[a] == members[a].0;
    } else {
      assert forall a :: 0 <= a < |members| ==> members[a].0 == Keys(members)[a] != key;
      assert forall a :: 0 <= a < |r| ==> r[a].0 == Keys(r)[a];
    }
  }

  /** A store brings in no member but the one stored: every member was there before or is the new one. */
  lemma {:induction false} AssignMembers(members: seq<(string, Json)>, key: string, value: Json)
    ensures forall p :: p in Assign(members, key, value) ==> p in members || p == (key, value)
  {
    if members != [] && members[0].0 != key {
      AssignMembers(members[1..], key, value);
    }
  }

  /** After a store, the key reads back the value stored last; other keys read back as before. */
  lemma {:induction false} AssignLookup(members: seq<(string, Json)>, key: string, value: Json, other: string)
    ensures Lookup(Assign(members, key, value), key) == Some(value)
    ensures other != key ==> Lookup(Assign(members, key, value), other) == Lookup(members, other)
  {
    if members != [] && members[0].0 != key {
      AssignLookup(members[1..], key, value, other);
      assert Assign(members, key, value)[1..] == Assign(members[1..], key, value);
    }
  }
}
