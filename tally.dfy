/** A counter kept in a Python dict (`d[k] = d.get(k, 0) + 1`), with the dict's insertion
    order, and the "five most common" cut `dict(sorted(d.items(), key=count, reverse=True)[:5])`. */
module Tally {
  import opened Text
  import opened Sorting

  datatype Entry = Entry(name: string, count: nat)

  function CountOf(e: Entry): int { e.count }

  /** `d.get(name, 0)`. */
  function Get(t: seq<Entry>, name: string): nat {
    if t == [] then 0 else if t[0].name == name then t[0].count else Get(t[1..], name)
  }

  /** Sum of all counts (`sum(d.values())`). */
  function Total(t: seq<Entry>): nat {
    if t == [] then 0 else t[0].count + Total(t[1..])
  }

  /** No name appears twice, as in a dict. */
  ghost predicate Distinct(t: seq<Entry>) {
    forall i, j :: 0 <= i < j < |t| ==> t[i].name != t[j].name
  }

  /** `d[name] = d.get(name, 0) + 1`: an existing key keeps its place, a new one goes last. */
  function Increment(t: seq<Entry>, name: string): (r: seq<Entry>)
    ensures |r| == |t| || (|r| == |t| + 1 && r[|t|] == Entry(name, 1))
    ensures forall i :: 0 <= i < |t| ==> r[i].name == t[i].name
  {
    if t == [] then [Entry(name, 1)]
    else if t[0].name == name then [Entry(name, t[0].count + 1)] + t[1..]
    else [t[0]] + Increment(t[1..], name)
  }

  /** Incrementing adds one to the named count, leaves the others alone and keeps the
      names distinct. */
  lemma {:induction false} IncrementCounts(t: seq<Entry>, name: string)
    ensures Get(Increment(t, name), name) == Get(t, name) + 1
    ensures forall n :: n != name ==> Get(Increment(t, name), n) == Get(t, n)
    ensures Total(Increment(t, name)) == Total(t) + 1
    ensures Distinct(t) ==> Distinct(Increment(t, name))
  {
    IncrementGet(t, name, name);
    forall n | n != name ensures Get(Increment(t, name), n) == Get(t, n) {
      IncrementGet(t, name, n);
    }
    IncrementTotal(t, name);
    if Distinct(t) {
      IncrementDistinct(t, name);
    }
  }

  lemma {:induction false} IncrementGet(t: seq<Entry>, name: string, n: string)
    ensures Get(Increment(t, name), n) == Get(t, n) + (if n == name then 1 else 0)
  {
    if t != [] && t[0].name != name {
      IncrementGet(t[1..], name, n);
      assert Increment(t, name)[1..] == Increment(t[1..], name);
    } else if t != [] {
      assert Increment(t, name)[1..] == t[1..];
    }
  }

  lemma {:induction false} IncrementTotal(t: seq<Entry>, name: string)
    ensures Total(Increment(t, name)) == Total(t) + 1
  {
    if t != [] && t[0].name != name {
      IncrementTotal(t[1..], name);
      assert Increment(t, name)[1..] == Increment(t[1..], name);
    } else if t != [] {
      assert Increment(t, name)[1..] == t[1..];
    }
  }

  lemma {:induction false} IncrementDistinct(t: seq<Entry>, name: string)
    requires Distinct(t)
    ensures Distinct(Increment(t, name))
  {
    if t != [] && t[0].name != name {
      var r := Increment(t, name);
      var rest := Increment(t[1..], name);
      assert Distinct(t[1..]);
      IncrementDistinct(t[1..], name);
      assert r[1..] == rest;
      forall j | 0 < j < |r| ensures r[0].name != r[j].name {
        if j - 1 < |t[1..]| {
          assert rest[j - 1].name == t[j].name;
        }
      }
    } else if t != [] {
      assert Increment(t, name)[1..] == t[1..];
    }
  }

  /** Number of occurrences of `x` in `s`. */
  function Occurrences<T(==)>(s: seq<T>, x: T): nat {
    if s == [] then 0 else (if s[|s| - 1] == x then 1 else 0) + Occurrences(s[..|s| - 1], x)
  }

  /** The dict obtained by counting `names` from left to right. */
  function Count(names: seq<string>): seq<Entry> {
    if names == [] then [] else Increment(Count(names[..|names| - 1]), names[|names| - 1])
  }

  /** Counting gives each name its number of occurrences, adds up to the number of names
      and holds each name once. */
  lemma {:induction false} CountCorrect(names: seq<string>)
    ensures forall n :: Get(Count(names), n) == Occurrences(names, n)
    ensures Total(Count(names)) == |names|
    ensures Distinct(Count(names))
  {
    if names != [] {
      CountCorrect(names[..|names| - 1]);
      IncrementCounts(Count(names[..|names| - 1]), names[|names| - 1]);
    }
  }

  /** The first `n` entries by count, ties kept in dict order. */
  function Top(t: seq<Entry>, n: nat): (r: seq<Entry>)
    ensures |r| <= n && |r| <= |t|
  {
    PyTake(SortDesc(t, CountOf), n)
  }

  /** What the cut keeps: at most `n` entries of the dict, in non-increasing count order,
      and no dropped entry has a larger count than a kept one. */
  lemma TopSelects(t: seq<Entry>, n: nat)
    ensures |Top(t, n)| == Min(n, |t|)
    ensures forall e :: e in Top(t, n) ==> e in t
    ensures forall i, j :: 0 <= i < j < |Top(t, n)| ==> Top(t, n)[i].count >= Top(t, n)[j].count
    ensures forall e, f :: e in t && e !in Top(t, n) && f in Top(t, n) ==> e.count <= f.count
  {
    var s := SortDesc(t, CountOf);
    var r := Top(t, n);
    assert r == s[..Min(n, |s|)];
    TopOfSorted(s, |r|, CountOf);
    TopBeatsRest(s, |r|, CountOf);
    forall e | e in r ensures e in t {
      assert e in multiset(r);
    }
    forall i, j | 0 <= i < j < |r| ensures r[i].count >= r[j].count {
      assert CountOf(r[i]) >= CountOf(r[j]);
    }
    forall e, f | e in t && e !in r && f in r ensures e.count <= f.count {
      assert e in multiset(t);
      assert CountOf(e) <= CountOf(f);
    }
  }

  /** Ties are kept in dict (first-seen) order: the kept entries of any one count are the
      first entries of that count in the dict, in dict order. */
  lemma TopKeepsTieOrder(t: seq<Entry>, n: nat, c: int)
    ensures WithKey(Top(t, n), CountOf, c) <= WithKey(t, CountOf, c)
  {
    var s := SortDesc(t, CountOf);
    SortStable(t, CountOf, c);
    WithKeyPrefix(s, Min(n, |s|), CountOf, c);
  }
}
