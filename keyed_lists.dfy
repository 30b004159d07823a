/** The whole-list edits the server actions apply to lists of records identified by a key
    (the slug of a post or class, the id of a message or registration). */
module KeyedLists {
  import opened Wrappers
  import Seqs

  /** `findIndex(x => key(x) === k)`: the first position holding key `k`, or -1. */
  function IndexOfKey<T>(s: seq<T>, key: T -> string, k: string): (r: int)
    ensures -1 <= r < |s|
    ensures r >= 0 ==> key(s[r]) == k && forall j :: 0 <= j < r ==> key(s[j]) != k
    ensures r == -1 <==> forall j :: 0 <= j < |s| ==> key(s[j]) != k
  {
    if s == [] then -1
    else if key(s[0]) == k then 0
    else
      var i := IndexOfKey(s[1..], key, k);
      if i == -1 then -1 else i + 1
  }

  /** `find(x => key(x) === k)` found a record (a record object is always truthy). */
  predicate HasKey<T>(s: seq<T>, key: T -> string, k: string) {
    IndexOfKey(s, key, k) >= 0
  }

  /** `find(x => key(x) === k)`: the first record with key `k`, if any. */
  function FindByKey<T>(s: seq<T>, key: T -> string, k: string): (r: Option<T>)
    ensures r.Some? <==> HasKey(s, key, k)
    ensures r.Some? ==> key(r.value) == k && r.value == s[IndexOfKey(s, key, k)]
  {
    var i := IndexOfKey(s, key, k);
    if i == -1 then None else Some(s[i])
  }

  /** No two records share a key. */
  predicate KeysDistinct<T>(s: seq<T>, key: T -> string) {
    forall i, j :: 0 <= i < j < |s| ==> key(s[i]) != key(s[j])
  }

  /** `list[findIndex(...)] = x`: replaces the first record whose key is `key(x)`, or reports
      that there is none. */
  function ReplaceFirst<T>(s: seq<T>, key: T -> string, x: T): (r: Option<seq<T>>)
    ensures r.None? <==> !HasKey(s, key, key(x))
    ensures r.Some? ==> |r.value| == |s| && r.value[IndexOfKey(s, key, key(x))] == x
    ensures r.Some? ==> forall j :: 0 <= j < |s| && j != IndexOfKey(s, key, key(x)) ==> r.value[j] == s[j]
  {
    var i := IndexOfKey(s, key, key(x));
    if i == -1 then None else Some(s[i := x])
  }

  /** `list.filter(x => key(x) !== k)`: every record with key `k` removed. */
  function RemoveKey<T>(s: seq<T>, key: T -> string, k: string): (r: seq<T>)
    ensures forall i :: 0 <= i < |r| ==> key(r[i]) != k && r[i] in s
    ensures forall i :: 0 <= i < |s| && key(s[i]) != k ==> s[i] in r
    ensures !HasKey(r, key, k)
  {
    Seqs.Filter(s, (x: T) => key(x) != k)
  }

  lemma RemoveKeyUnfold<T>(s: seq<T>, key: T -> string, k: string)
    requires s != []
    ensures RemoveKey(s, key, k) == (if key(s[0]) != k then [s[0]] else []) + RemoveKey(s[1..], key, k)
  {
  }

  /** Removing keeps the other records in their original order. */
  lemma RemoveKeyIsSubsequence<T>(s: seq<T>, key: T -> string, k: string)
    ensures Seqs.IsSubsequence(RemoveKey(s, key, k), s)
  {
    Seqs.FilterIsSubsequence(s, (x: T) => key(x) != k);
  }

  /** Removing an absent key changes nothing. */
  lemma {:induction false} RemoveAbsentKey<T>(s: seq<T>, key: T -> string, k: string)
    requires !HasKey(s, key, k)
    ensures RemoveKey(s, key, k) == s
  {
    if s != [] {
      RemoveKeyUnfold(s, key, k);
      RemoveAbsentKey(s[1..], key, k);
      assert [s[0]] + s[1..] == s;
    }
  }

  /** Removing twice is removing once. */
  lemma RemoveKeyIdempotent<T>(s: seq<T>, key: T -> string, k: string)
    ensures RemoveKey(RemoveKey(s, key, k), key, k) == RemoveKey(s, key, k)
  {
    RemoveAbsentKey(RemoveKey(s, key, k), key, k);
  }

  /** Creating a record with a fresh key and then deleting that key gives the list back. */
  lemma PrependThenRemove<T>(s: seq<T>, key: T -> string, x: T)
    requires !HasKey(s, key, key(x))
    ensures RemoveKey([x] + s, key, key(x)) == s
  {
    RemoveKeyUnfold([x] + s, key, key(x));
    assert ([x] + s)[1..] == s;
    RemoveAbsentKey(s, key, key(x));
  }

  /** Prepending a record with a fresh key keeps keys distinct. */
  lemma PrependKeepsDistinct<T>(s: seq<T>, key: T -> string, x: T)
    requires KeysDistinct(s, key) && !HasKey(s, key, key(x))
    ensures KeysDistinct([x] + s, key)
  {
    var r := [x] + s;
    forall i, j | 0 <= i < j < |r|
      ensures key(r[i]) != key(r[j])
    {
      if i == 0 {
        assert r[j] == s[j - 1];
      } else {
        assert r[i] == s[i - 1] && r[j] == s[j - 1];
      }
    }
  }

  /** Replacing a record by one with the same key keeps keys distinct. */
  lemma ReplaceKeepsDistinct<T>(s: seq<T>, key: T -> string, x: T)
    requires KeysDistinct(s, key) && HasKey(s, key, key(x))
    ensures KeysDistinct(ReplaceFirst(s, key, x).value, key)
  {
  }

  /** Removing records keeps keys distinct. */
  lemma {:induction false} RemoveKeepsDistinct<T>(s: seq<T>, key: T -> string, k: string)
    requires KeysDistinct(s, key)
    ensures KeysDistinct(RemoveKey(s, key, k), key)
  {
    if s != [] {
      RemoveKeyUnfold(s, key, k);
      RemoveKeepsDistinct(s[1..], key, k);
      var rest := RemoveKey(s[1..], key, k);
      if key(s[0]) != k {
        var r := [s[0]] + rest;
        forall i, j | 0 <= i < j < |r|
          ensures key(r[i]) != key(r[j])
        {
          if i == 0 {
            assert r[j] == rest[j - 1];
            assert rest[j - 1] in s[1..];
          } else {
            assert r[i] == rest[i - 1] && r[j] == rest[j - 1];
          }
        }
      }
    }
  }
}
