/** The counting dictionaries `getAnalyticsData` folds page views into
    (src/app/actions/analytics-actions.ts:99-107, 126-136). A JavaScript object lists
    integer-like keys first and its other string keys in insertion order. The keys here are
    page paths, which start with '/', and referrer source names, none of them integer-like, so
    a dictionary is modelled as a list of key/count entries in insertion order. */
module Tally {

  type Entry = (string, nat)

  /** The counts in first-seen order, as `Object.entries` lists them. */
  type Tally = seq<Entry>

  function KeysOf(t: Tally): (r: seq<string>)
    ensures |r| == |t| && forall i :: 0 <= i < |t| ==> r[i] == t[i].0
  {
    if t == [] then [] else [t[0].0] + KeysOf(t[1..])
  }

  predicate Distinct(ks: seq<string>) {
    forall i, j :: 0 <= i < j < |ks| ==> ks[i] != ks[j]
  }

  /** No key has two entries. */
  predicate KeysDistinct(t: Tally) {
    Distinct(KeysOf(t))
  }

  /** `acc[key] || 0`. */
  function Lookup(t: Tally, key: string): nat {
    if t == [] then 0 else if t[0].0 == key then t[0].1 else Lookup(t[1..], key)
  }

  /** The sum of all counts. */
  function Total(t: Tally): nat {
    if t == [] then 0 else t[0].1 + Total(t[1..])
  }

  /** `acc[key] = (acc[key] || 0) + 1`: an existing key keeps its place, a new key goes last. */
  function Bump(t: Tally, key: string): Tally {
    if t == [] then [(key, 1)]
    else if t[0].0 == key then [(key, t[0].1 + 1)] + t[1..]
    else [t[0]] + Bump(t[1..], key)
  }

  /** The number of times `key` occurs in `keys`. */
  function Count(keys: seq<string>, key: string): nat {
    if keys == [] then 0
    else Count(keys[..|keys| - 1], key) + (if keys[|keys| - 1] == key then 1 else 0)
  }

  /** The dictionary a `reduce` over `keys` builds, one `Bump` per key. */
  function TallyOf(keys: seq<string>): Tally {
    if keys == [] then [] else Bump(TallyOf(keys[..|keys| - 1]), keys[|keys| - 1])
  }

  /** Bumping adds one to the key's count and leaves every other count alone. */
  lemma {:induction false} BumpLookup(t: Tally, key: string, other: string)
    ensures Lookup(Bump(t, key), other) == Lookup(t, other) + (if other == key then 1 else 0)
  {
    if t != [] && t[0].0 != key {
      BumpLookup(t[1..], key, other);
    }
  }

  /** Bumping adds one to the total. */
  lemma {:induction false} BumpTotal(t: Tally, key: string)
    ensures Total(Bump(t, key)) == Total(t) + 1
  {
    if t != [] && t[0].0 != key {
      BumpTotal(t[1..], key);
    }
  }

  /** Bumping keeps the keys where they are, and appends the key when it is new. */
  lemma {:induction false} BumpKeys(t: Tally, key: string)
    ensures KeysOf(Bump(t, key)) == if key in KeysOf(t) then KeysOf(t) else KeysOf(t) + [key]
  {
    if t == [] {
    } else if t[0].0 == key {
      assert KeysOf(Bump(t, key)) == [key] + KeysOf(t[1..]);
    } else {
      BumpKeys(t[1..], key);
      assert KeysOf(t) == [t[0].0] + KeysOf(t[1..]);
    }
  }

  /** Every count in the dictionary is the number of times its key was seen, and no key
      that was never seen has a count. */
  lemma {:induction false} TallyCounts(keys: seq<string>, key: string)
    ensures Lookup(TallyOf(keys), key) == Count(keys, key)
  {
    if keys != [] {
      TallyCounts(keys[..|keys| - 1], key);
      BumpLookup(TallyOf(keys[..|keys| - 1]), keys[|keys| - 1], key);
    }
  }

  /** The dictionary's keys are exactly the distinct keys seen, each once, in first-seen order. */
  lemma {:induction false} TallyKeys(keys: seq<string>)
    ensures KeysDistinct(TallyOf(keys))
    ensures forall k :: k in KeysOf(TallyOf(keys)) <==> k in keys
  {
    if keys != [] {
      var init := keys[..|keys| - 1];
      var last := keys[|keys| - 1];
      TallyKeys(init);
      BumpKeys(TallyOf(init), last);
      assert keys == init + [last];
      var ks := KeysOf(TallyOf(init));
      if last !in ks {
        AppendDistinct(ks, last);
      }
    }
  }

  lemma AppendDistinct(ks: seq<string>, k: string)
    requires Distinct(ks) && k !in ks
    ensures Distinct(ks + [k])
  {
  }

  /** The counts add up to the number of keys folded in. */
  lemma {:induction false} TallyTotal(keys: seq<string>)
    ensures Total(TallyOf(keys)) == |keys|
  {
    if keys != [] {
      TallyTotal(keys[..|keys| - 1]);
      BumpTotal(TallyOf(keys[..|keys| - 1]), keys[|keys| - 1]);
    }
  }

  /** With distinct keys, every entry's count is what `Lookup` gives for its key. */
  lemma {:induction false} EntryIsLookup(t: Tally, i: nat)
    requires KeysDistinct(t) && i < |t|
    ensures t[i].1 == Lookup(t, t[i].0)
  {
    if i > 0 {
      EntryIsLookup(t[1..], i - 1);
    }
  }

  /** Entry counts are exactly the occurrence counts of their keys. */
  lemma EntryCounts(keys: seq<string>, i: nat)
    requires i < |TallyOf(keys)|
    ensures TallyOf(keys)[i].1 == Count(keys, TallyOf(keys)[i].0)
  {
    TallyKeys(keys);
    EntryIsLookup(TallyOf(keys), i);
    TallyCounts(keys, TallyOf(keys)[i].0);
  }

  // ---- top entries ----

  predicate NonIncreasing(t: Tally) {
    forall i, j :: 0 <= i < j < |t| ==> t[i].1 >= t[j].1
  }

  /** Places an entry before the first entry whose count is not larger, so entries with
      equal counts keep their relative order. */
  function Insert(e: Entry, sorted: Tally): (r: Tally)
    ensures multiset(r) == multiset(sorted) + multiset{e}
    ensures |r| == |sorted| + 1
  {
    if sorted == [] || sorted[0].1 <= e.1 then [e] + sorted
    else
      assert sorted == [sorted[0]] + sorted[1..];
      [sorted[0]] + Insert(e, sorted[1..])
  }

  /** `.sort(([, a], [, b]) => b - a)`: a stable sort by descending count. */
  function SortByCount(t: Tally): (r: Tally)
    ensures multiset(r) == multiset(t)
    ensures |r| == |t|
  {
    if t == [] then []
    else
      assert t == [t[0]] + t[1..];
      Insert(t[0], SortByCount(t[1..]))
  }

  /** The entries with count `c`, in their order in `t`. */
  function WithCount(t: Tally, c: nat): (r: Tally)
    ensures |r| <= |t|
  {
    if t == [] then [] else (if t[0].1 == c then [t[0]] else []) + WithCount(t[1..], c)
  }

  lemma WithCountCons(x: Entry, t: Tally, c: nat)
    ensures WithCount([x] + t, c) == (if x.1 == c then [x] else []) + WithCount(t, c)
  {
    assert ([x] + t)[1..] == t;
  }

  lemma {:induction false} InsertWithCount(e: Entry, sorted: Tally, c: nat)
    ensures WithCount(Insert(e, sorted), c) == (if e.1 == c then [e] else []) + WithCount(sorted, c)
  {
    if sorted == [] || sorted[0].1 <= e.1 {
      WithCountCons(e, sorted, c);
    } else {
      var rest := Insert(e, sorted[1..]);
      assert Insert(e, sorted) == [sorted[0]] + rest;
      WithCountCons(sorted[0], rest, c);
      InsertWithCount(e, sorted[1..], c);
      assert sorted == [sorted[0]] + sorted[1..];
      WithCountCons(sorted[0], sorted[1..], c);
    }
  }

  /** The sort is stable: the entries of any one count come out in the order they went in,
      so entries with equal counts keep their first-seen order. */
  lemma {:induction false} SortStable(t: Tally, c: nat)
    ensures WithCount(SortByCount(t), c) == WithCount(t, c)
  {
    if t != [] {
      SortStable(t[1..], c);
      InsertWithCount(t[0], SortByCount(t[1..]), c);
    }
  }

  lemma {:induction false} InsertSorted(e: Entry, sorted: Tally)
    requires NonIncreasing(sorted)
    ensures NonIncreasing(Insert(e, sorted))
  {
    if sorted == [] || sorted[0].1 <= e.1 {
    } else {
      InsertSorted(e, sorted[1..]);
      var r := Insert(e, sorted);
      forall i, j | 0 <= i < j < |r|
        ensures r[i].1 >= r[j].1
      {
        if i == 0 {
          assert r[j] in multiset(sorted[1..]) + multiset{e};
          if r[j] == e {
          } else {
            assert r[j] in sorted[1..];
          }
        }
      }
    }
  }

  /** Sorting yields non-increasing counts. */
  lemma {:induction false} SortSorted(t: Tally)
    ensures NonIncreasing(SortByCount(t))
  {
    if t != [] {
      SortSorted(t[1..]);
      InsertSorted(t[0], SortByCount(t[1..]));
    }
  }

  /** `.slice(0, 5)` of the sorted entries. */
  function TopFive(t: Tally): (r: Tally)
    ensures |r| <= 5 && |r| <= |t|
  {
    var sorted := SortByCount(t);
    if |sorted| <= 5 then sorted else sorted[..5]
  }

  /** The first five entries of a non-increasing permutation of `t` are its largest ones. */
  lemma SliceFacts(t: Tally, sorted: Tally, top: Tally)
    requires multiset(sorted) == multiset(t) && NonIncreasing(sorted)
    requires top == if |sorted| <= 5 then sorted else sorted[..5]
    ensures NonIncreasing(top)
    ensures forall e :: e in top ==> e in t
    ensures |top| == if |t| < 5 then |t| else 5
    ensures forall e, i :: e in t && e !in top && 0 <= i < |top| ==> top[i].1 >= e.1
  {
    assert |multiset(sorted)| == |sorted| && |multiset(t)| == |t|;
    forall e | e in top
      ensures e in t
    {
      assert e in multiset(sorted);
      assert e in multiset(t);
    }
    forall e, i | e in t && e !in top && 0 <= i < |top|
      ensures top[i].1 >= e.1
    {
      assert e in multiset(t);
      assert e in multiset(sorted);
      var j :| 0 <= j < |sorted| && sorted[j] == e;
      assert forall k :: 0 <= k < |top| ==> top[k] == sorted[k] && top[k] != e;
      assert j >= |top|;
      assert top[i] == sorted[i];
    }
  }

  /** At most five entries, in non-increasing order, each one taken from the dictionary,
      and no entry left out has a larger count than any entry kept. */
  lemma TopFiveFacts(t: Tally)
    ensures NonIncreasing(TopFive(t))
    ensures forall e :: e in TopFive(t) ==> e in t
    ensures |TopFive(t)| == if |t| < 5 then |t| else 5
    ensures forall e, i :: e in t && e !in TopFive(t) && 0 <= i < |TopFive(t)| ==> TopFive(t)[i].1 >= e.1
  {
    SortSorted(t);
    SliceFacts(t, SortByCount(t), TopFive(t));
  }
}
