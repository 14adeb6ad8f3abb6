/** Python's `sorted`, as the compiler applies it to the keys of a section, to a
    list of names and to a set of module names.  Python's sort is stable; the
    insertion sort below is too, so equal keys keep their order. */
module Sorting {
  import opened Outcomes
  import opened Text
  import opened Values

  /** `s` in non-decreasing order of `key`. */
  predicate SortedBy<T>(s: seq<T>, key: T -> string)
  {
    forall i, j :: 0 <= i < j < |s| ==> LessEq(key(s[i]), key(s[j]))
  }

  /** `x` placed before the first element whose key is not below its own. */
  function Insert<T>(x: T, s: seq<T>, key: T -> string): (r: seq<T>)
    ensures multiset(r) == multiset(s) + multiset{x}
  {
    if |s| == 0 || LessEq(key(x), key(s[0])) then [x] + s
    else
      assert s == [s[0]] + s[1..];
      [s[0]] + Insert(x, s[1..], key)
  }

  function SortBy<T>(s: seq<T>, key: T -> string): (r: seq<T>)
    ensures multiset(r) == multiset(s)
  {
    if |s| == 0 then []
    else
      assert s == [s[0]] + s[1..];
      Insert(s[0], SortBy(s[1..], key), key)
  }

  lemma {:induction false} InsertSorted<T>(x: T, s: seq<T>, key: T -> string)
    requires SortedBy(s, key)
    ensures SortedBy(Insert(x, s, key), key)
    decreases |s|
  {
    if |s| > 0 && !LessEq(key(x), key(s[0])) {
      var rest := Insert(x, s[1..], key);
      InsertSorted(x, s[1..], key);
      LessEqTotal(key(x), key(s[0]));
      forall j | 0 <= j < |rest| ensures LessEq(key(s[0]), key(rest[j])) {
        assert rest[j] in multiset(rest);
        if rest[j] != x {
          var k :| 0 <= k < |s[1..]| && s[1..][k] == rest[j];
          assert s[1..][k] == s[k + 1];
        }
      }
      var r := [s[0]] + rest;
      assert Insert(x, s, key) == r;
      forall i, j | 0 <= i < j < |r| ensures LessEq(key(r[i]), key(r[j])) {
        if i == 0 {
          assert r[j] == rest[j - 1];
        } else {
          assert r[i] == rest[i - 1] && r[j] == rest[j - 1];
        }
      }
    } else {
      var r := [x] + s;
      assert Insert(x, s, key) == r;
      forall i, j | 0 <= i < j < |r| ensures LessEq(key(r[i]), key(r[j])) {
        if i == 0 {
          assert r[j] == s[j - 1];
          if j > 1 {
            LessEqTrans(key(x), key(s[0]), key(s[j - 1]));
          }
        } else {
          assert r[i] == s[i - 1] && r[j] == s[j - 1];
        }
      }
    }
  }

  /** The result of sorting is in order. */
  lemma {:induction false} SortBySorted<T>(s: seq<T>, key: T -> string)
    ensures SortedBy(SortBy(s, key), key)
    decreases |s|
  {
    if |s| > 0 {
      SortBySorted(s[1..], key);
      InsertSorted(s[0], SortBy(s[1..], key), key);
    }
  }

  // ---------------------------------------------------------------------------
  // Sorting dict items by key and lists of names

  /** The text of a string key; only ever applied where every key is a string. */
  function KeyText(e: (Value, Value)): string
  {
    if e.0.Str? then e.0.s else ""
  }

  function ItemText(v: Value): string
  {
    if v.Str? then v.s else ""
  }

  /** Keys Python can order among themselves: all strings, or too few to compare. */
  predicate OrderableKeys(es: Entries)
  {
    |es| <= 1 || forall i :: 0 <= i < |es| ==> es[i].0.Str?
  }

  predicate OrderableItems(items: seq<Value>)
  {
    |items| <= 1 || forall i :: 0 <= i < |items| ==> items[i].Str?
  }

  /** `dict(sorted(d.items(), key=lambda x: x[0]))`: an AttributeError on a
      non-dict, a TypeError when the keys cannot be compared. */
  function SortDict(v: Value): (r: Result<Value>)
    ensures r.Ok? <==> v.Dict? && OrderableKeys(v.entries)
    ensures r.Ok? ==> r.value.Dict? && multiset(r.value.entries) == multiset(v.entries)
  {
    if v.Dict? && OrderableKeys(v.entries) then Ok(Dict(SortBy(v.entries, KeyText))) else Crash
  }

  /** `sorted(l)` on a list. */
  function SortList(items: seq<Value>): (r: Result<seq<Value>>)
    ensures r.Ok? <==> OrderableItems(items)
    ensures r.Ok? ==> multiset(r.value) == multiset(items)
  {
    if OrderableItems(items) then Ok(SortBy(items, ItemText)) else Crash
  }

  /** Placing a pair whose key is new changes the lookup of that key only. */
  lemma {:induction false} LookupInsert(x: (Value, Value), s: Entries, k: Value)
    requires x.0 !in Keys(s)
    ensures Lookup(Insert(x, s, KeyText), k) == if k == x.0 then Some(x.1) else Lookup(s, k)
    decreases |s|
  {
    if |s| == 0 || LessEq(KeyText(x), KeyText(s[0])) {
      var r := [x] + s;
      assert Insert(x, s, KeyText) == r;
      assert r[1..] == s;
      assert r[0].0 == x.0;
    } else {
      var rest := Insert(x, s[1..], KeyText);
      var r := [s[0]] + rest;
      assert Insert(x, s, KeyText) == r;
      assert r[1..] == rest;
      assert Keys(s)[0] == s[0].0;
      assert x.0 !in Keys(s[1..]) by {
        forall i | 0 <= i < |s[1..]| ensures Keys(s[1..])[i] != x.0 {
          assert Keys(s[1..])[i] == s[1..][i].0 == s[i + 1].0 == Keys(s)[i + 1];
        }
      }
      LookupInsert(x, s[1..], k);
      if s[0].0 == k {
        assert Lookup(r, k) == Some(s[0].1);
      } else {
        assert Lookup(r, k) == Lookup(rest, k);
        assert Lookup(s, k) == Lookup(s[1..], k);
      }
    }
  }

  /** Sorting a dict's items keeps what every key maps to. */
  lemma {:induction false} SortByLookup(es: Entries, k: Value)
    requires UniqueKeys(es)
    ensures Lookup(SortBy(es, KeyText), k) == Lookup(es, k)
    decreases |es|
  {
    if |es| > 0 {
      var rest := SortBy(es[1..], KeyText);
      assert UniqueKeys(es[1..]) by {
        forall i, j | 0 <= i < j < |es[1..]| ensures es[1..][i].0 != es[1..][j].0 {
          assert es[1..][i] == es[i + 1] && es[1..][j] == es[j + 1];
        }
      }
      SortByLookup(es[1..], k);
      SortByLookup(es[1..], es[0].0);
      assert es[0].0 !in Keys(es[1..]) by {
        forall i | 0 <= i < |es[1..]| ensures Keys(es[1..])[i] != es[0].0 {
          assert es[1..][i] == es[i + 1];
        }
      }
      LookupInsert(es[0], rest, k);
    }
  }

  // ---------------------------------------------------------------------------
  // `sorted(list(s))` for a set of names

  function Identity(s: string): string
  {
    s
  }

  /** Strictly increasing: sorted, and no name twice. */
  predicate StrictlySorted(s: seq<string>)
  {
    forall i, j :: 0 <= i < j < |s| ==> LessEq(s[i], s[j]) && s[i] != s[j]
  }

  lemma SortedDistinct(s: seq<string>)
    requires SortedBy(s, Identity)
    requires forall i, j :: 0 <= i < j < |s| ==> s[i] != s[j]
    ensures StrictlySorted(s)
  {
  }

  /** The elements of a set, in order. */
  method SortedList(s: set<string>) returns (r: seq<string>)
    ensures StrictlySorted(r)
    ensures forall x :: x in r <==> x in s
    ensures |r| == |s|
  {
    var listed: seq<string> := [];
    var rest := s;
    while rest != {}
      invariant forall x :: x in s <==> x in listed || x in rest
      invariant forall x :: x in listed ==> x !in rest
      invariant forall i, j :: 0 <= i < j < |listed| ==> listed[i] != listed[j]
      invariant |listed| + |rest| == |s|
      decreases |rest|
    {
      var x :| x in rest;
      listed := listed + [x];
      rest := rest - {x};
    }
    r := SortBy(listed, Identity);
    SortBySorted(listed, Identity);
    forall x ensures x in r <==> x in listed {
      assert x in r <==> x in multiset(r);
      assert x in listed <==> x in multiset(listed);
    }
    forall i, j | 0 <= i < j < |r| ensures r[i] != r[j] {
      if r[i] == r[j] {
        DoubleCount(r, i, j);
        var p :| 0 <= p < |listed| && listed[p] == r[i];
        SingleCount(listed, p);
        assert false;
      }
    }
    SortedDistinct(r);
  }

  lemma {:induction false} DoubleCount(s: seq<string>, i: nat, j: nat)
    requires i < j < |s| && s[i] == s[j]
    ensures multiset(s)[s[i]] >= 2
  {
    assert s == s[..i] + [s[i]] + s[i + 1..j] + [s[j]] + s[j + 1..];
  }

  lemma {:induction false} SingleCount(s: seq<string>, p: nat)
    requires p < |s|
    requires forall i, j :: 0 <= i < j < |s| ==> s[i] != s[j]
    ensures multiset(s)[s[p]] == 1
  {
    assert s == s[..p] + [s[p]] + s[p + 1..];
    assert s[p] !in s[..p] by {
      forall i | 0 <= i < p ensures s[..p][i] != s[p] { assert s[..p][i] == s[i]; }
    }
    var after := s[p + 1..];
    assert s[p] !in after by {
      forall i | 0 <= i < |after| ensures after[i] != s[p] { assert after[i] == s[p + 1 + i]; }
    }
    assert multiset(s[..p])[s[p]] == 0;
    assert multiset(after)[s[p]] == 0;
  }
}
