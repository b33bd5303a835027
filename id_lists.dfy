/**
 * The three list updates the admin pages apply to records keyed by their `_id`:
 * `prev.filter(x => x._id !== id)`, `prev.map(x => x._id === id ? v : x)` and
 * `list.find(x => x._id === id)`. The key is read by `idOf`.
 */
module IdLists {
  import opened Wrappers

  /** `s.filter(x => idOf(x) !== id)`: drops exactly the records with key `id`, keeping the rest. */
  function RemoveById<T>(s: seq<T>, idOf: T -> string, id: string): (r: seq<T>)
    ensures |r| <= |s|
    ensures forall i :: 0 <= i < |r| ==> idOf(r[i]) != id
  {
    if s == [] then []
    else (if idOf(s[0]) != id then [s[0]] else []) + RemoveById(s[1..], idOf, id)
  }

  /** What survives a removal is exactly the records of the list that carry another key. */
  lemma {:induction false} RemoveByIdMembers<T(!new)>(s: seq<T>, idOf: T -> string, id: string)
    ensures forall x :: x in RemoveById(s, idOf, id) <==> x in s && idOf(x) != id
  {
    if s != [] {
      RemoveByIdMembers(s[1..], idOf, id);
      assert s == [s[0]] + s[1..];
    }
  }

  /** `s.filter(x => idOf(x) === id)`: keeps exactly the records with key `id`. */
  function KeepById<T(==,!new)>(s: seq<T>, idOf: T -> string, id: string): (r: seq<T>)
    ensures |r| == CountId(s, idOf, id)
    ensures forall x :: x in r <==> x in s && idOf(x) == id
    ensures multiset(r) <= multiset(s)
  {
    if s == [] then []
    else
      assert s == [s[0]] + s[1..];
      (if idOf(s[0]) == id then [s[0]] else []) + KeepById(s[1..], idOf, id)
  }

  /** Removal works piece by piece, so the survivors keep their relative order. */
  lemma {:induction false} RemoveByIdAppend<T(!new)>(a: seq<T>, b: seq<T>, idOf: T -> string, id: string)
    ensures RemoveById(a + b, idOf, id) == RemoveById(a, idOf, id) + RemoveById(b, idOf, id)
  {
    if a != [] {
      RemoveByIdAppend(a[1..], b, idOf, id);
      var head := if idOf(a[0]) != id then [a[0]] else [];
      assert (a + b)[0] == a[0] && (a + b)[1..] == a[1..] + b;
      assert RemoveById(a + b, idOf, id) == head + RemoveById(a[1..] + b, idOf, id);
      assert RemoveById(a, idOf, id) == head + RemoveById(a[1..], idOf, id);
    } else {
      assert a + b == b;
    }
  }

  /** A list holding no record with key `id` comes back unchanged. */
  lemma {:induction false} RemoveByIdAbsent<T(!new)>(s: seq<T>, idOf: T -> string, id: string)
    requires forall i :: 0 <= i < |s| ==> idOf(s[i]) != id
    ensures RemoveById(s, idOf, id) == s
  {
    if s != [] {
      RemoveByIdAbsent(s[1..], idOf, id);
    }
  }

  /** Number of records in `s` whose key is `id`. */
  function CountId<T>(s: seq<T>, idOf: T -> string, id: string): nat {
    if s == [] then 0 else (if idOf(s[0]) == id then 1 else 0) + CountId(s[1..], idOf, id)
  }

  /** Removal shortens the list by exactly the number of records carrying the key. */
  lemma {:induction false} RemoveByIdLength<T(!new)>(s: seq<T>, idOf: T -> string, id: string)
    ensures |RemoveById(s, idOf, id)| == |s| - CountId(s, idOf, id)
  {
    if s != [] {
      RemoveByIdLength(s[1..], idOf, id);
    }
  }

  /** `s.map(x => idOf(x) === id ? v : x)`: every record with key `id` becomes `v`, the others stay where they are. */
  function ReplaceById<T>(s: seq<T>, idOf: T -> string, id: string, v: T): (r: seq<T>)
    ensures |r| == |s|
    ensures forall i :: 0 <= i < |s| && idOf(s[i]) != id ==> r[i] == s[i]
    ensures forall i :: 0 <= i < |s| && idOf(s[i]) == id ==> r[i] == v
  {
    if s == [] then []
    else [if idOf(s[0]) == id then v else s[0]] + ReplaceById(s[1..], idOf, id, v)
  }

  /** When the new record keeps the key, replacing leaves what a removal of that key would keep untouched. */
  lemma {:induction false} ReplaceThenRemove<T(!new)>(s: seq<T>, idOf: T -> string, id: string, v: T)
    requires idOf(v) == id
    ensures RemoveById(ReplaceById(s, idOf, id, v), idOf, id) == RemoveById(s, idOf, id)
  {
    if s != [] {
      ReplaceThenRemove(s[1..], idOf, id, v);
      assert ReplaceById(s, idOf, id, v)[1..] == ReplaceById(s[1..], idOf, id, v);
    }
  }

  /** Position of the first record with key `id`, or `|s|` when there is none. */
  function FirstIndexOf<T>(s: seq<T>, idOf: T -> string, id: string): (k: nat)
    ensures k <= |s|
    ensures forall j :: 0 <= j < k ==> idOf(s[j]) != id
    ensures k < |s| ==> idOf(s[k]) == id
  {
    if s == [] then 0
    else if idOf(s[0]) == id then 0
    else 1 + FirstIndexOf(s[1..], idOf, id)
  }

  /** `s.find(x => idOf(x) === id)`: the first record with key `id`, if any. */
  function FindById<T>(s: seq<T>, idOf: T -> string, id: string): (r: Option<T>)
    ensures r.None? <==> forall i :: 0 <= i < |s| ==> idOf(s[i]) != id
    ensures r.Some? ==> exists i :: 0 <= i < |s| && s[i] == r.value && idOf(s[i]) == id
                                    && forall j :: 0 <= j < i ==> idOf(s[j]) != id
  {
    var k := FirstIndexOf(s, idOf, id);
    if k < |s| then Some(s[k]) else None
  }

}
