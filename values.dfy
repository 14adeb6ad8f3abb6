/** The resource graph as the YAML loader hands it over: a dynamically typed
    value whose mappings keep their insertion order, as Python dicts do.

    A mapping is a sequence of key/value pairs.  Assigning to a key that is
    already there replaces its value in place; assigning to a new key appends
    it; deleting removes it.  A `!Conditional` key is a value of its own kind
    (`Cond`), so a raw graph can carry it at any depth. */
module Values {
  import opened Outcomes
  import opened Text

  /** A `!Conditional` mapping key: the plain key it stands for and the two
      conditions it is gated by. */
  datatype Conditional = Conditional(key: string, environment: string, region: string)

  datatype Value =
    | Null
    | Bool(b: bool)
    | Int(i: int)
    | Str(s: string)
    | List(items: seq<Value>)
    | Dict(entries: seq<(Value, Value)>)
    | Cond(cond: Conditional)

  type Entries = seq<(Value, Value)>

  /** The `!Conditional` YAML constructor: `key` is required, `environment` and
      `region` default to "any".  A mapping without `key` is refused. */
  function ConstructConditional(mapping: Entries): (r: Option<Conditional>)
    ensures r.Some? <==> (Lookup(mapping, Str("key")).Some? && Lookup(mapping, Str("key")).value.Str?
                          && StringOr(mapping, "environment").Some? && StringOr(mapping, "region").Some?)
    ensures r.Some? ==> Str(r.value.key) == Lookup(mapping, Str("key")).value
    ensures r.Some? && Str("environment") !in Keys(mapping) ==> r.value.environment == "any"
    ensures r.Some? && Str("region") !in Keys(mapping) ==> r.value.region == "any"
    ensures r.Some? && Str("environment") in Keys(mapping) ==> Lookup(mapping, Str("environment")) == Some(Str(r.value.environment))
    ensures r.Some? && Str("region") in Keys(mapping) ==> Lookup(mapping, Str("region")) == Some(Str(r.value.region))
  {
    match Lookup(mapping, Str("key"))
    case Some(Str(k)) =>
      (match (StringOr(mapping, "environment"), StringOr(mapping, "region"))
       case (Some(e), Some(g)) => Some(Conditional(k, e, g))
       case _ => None)
    case _ => None
  }

  /** The string stored under `name`, "any" when the key is absent, nothing when
      the stored value is not a string. */
  function StringOr(mapping: Entries, name: string): Option<string>
  {
    match Lookup(mapping, Str(name))
    case None => Some("any")
    case Some(Str(s)) => Some(s)
    case Some(_) => None
  }

  // ---------------------------------------------------------------------------
  // Mappings as ordered association lists

  function Keys(es: Entries): (ks: seq<Value>)
    ensures |ks| == |es|
    ensures forall i :: 0 <= i < |es| ==> ks[i] == es[i].0
  {
    if |es| == 0 then [] else [es[0].0] + Keys(es[1..])
  }

  /** `d.get(k)`: the value of the first pair with key `k`. */
  function Lookup(es: Entries, k: Value): (r: Option<Value>)
    ensures r.Some? <==> k in Keys(es)
  {
    if |es| == 0 then None
    else if es[0].0 == k then Some(es[0].1)
    else Lookup(es[1..], k)
  }

  /** `d[k] = v`: replace in place, or append a new key. */
  function Put(es: Entries, k: Value, v: Value): (r: Entries)
    ensures Lookup(r, k) == Some(v)
    ensures forall k' :: k' != k ==> Lookup(r, k') == Lookup(es, k')
    ensures Keys(r) == if k in Keys(es) then Keys(es) else Keys(es) + [k]
  {
    if |es| == 0 then [(k, v)]
    else if es[0].0 == k then
      ConsFacts((k, v), es[1..]);
      [(k, v)] + es[1..]
    else
      var rest := Put(es[1..], k, v);
      ConsFacts(es[0], rest);
      PutKeysStep(es, k, Keys(rest));
      [es[0]] + rest
  }

  /** The keys after an assignment below the first pair. */
  lemma {:induction false} PutKeysStep(es: Entries, k: Value, restKeys: seq<Value>)
    requires |es| > 0 && es[0].0 != k
    requires restKeys == if k in Keys(es[1..]) then Keys(es[1..]) else Keys(es[1..]) + [k]
    ensures [es[0].0] + restKeys == if k in Keys(es) then Keys(es) else Keys(es) + [k]
  {
    assert Keys(es) == [es[0].0] + Keys(es[1..]);
    assert k in Keys(es) <==> k in Keys(es[1..]);
  }

  /** Keys and lookups of a mapping with one more pair in front. */
  lemma ConsFacts(x: (Value, Value), rest: Entries)
    ensures Keys([x] + rest) == [x.0] + Keys(rest)
    ensures forall k :: Lookup([x] + rest, k) == if x.0 == k then Some(x.1) else Lookup(rest, k)
  {
    assert ([x] + rest)[1..] == rest;
  }

  /** `del d[k]`: every pair with key `k` removed, the others in order. */
  function Remove(es: Entries, k: Value): (r: Entries)
    ensures Lookup(r, k) == None
    ensures forall k' :: k' != k ==> Lookup(r, k') == Lookup(es, k')
    ensures forall k' :: k' in Keys(r) <==> k' in Keys(es) && k' != k
  {
    if |es| == 0 then []
    else if es[0].0 == k then Remove(es[1..], k)
    else
      var rest := Remove(es[1..], k);
      assert Keys([es[0]] + rest) == [es[0].0] + Keys(rest);
      [es[0]] + rest
  }

  /** What every Python dict satisfies: no key twice. */
  predicate UniqueKeys(es: Entries)
  {
    forall i, j :: 0 <= i < j < |es| ==> es[i].0 != es[j].0
  }

  lemma {:induction false} LookupUnique(es: Entries, i: nat)
    requires UniqueKeys(es) && i < |es|
    ensures Lookup(es, es[i].0) == Some(es[i].1)
  {
    if i > 0 {
      assert es[0].0 != es[i].0;
      assert es[1..][i - 1] == es[i];
      LookupUnique(es[1..], i - 1);
    }
  }

  lemma {:induction false} PutUnique(es: Entries, k: Value, v: Value)
    requires UniqueKeys(es)
    ensures UniqueKeys(Put(es, k, v))
  {
    if |es| > 0 && es[0].0 != k {
      UniqueHead(es);
      PutUnique(es[1..], k, v);
      ConsUnique(es[0], Put(es[1..], k, v));
    }
  }

  /** A pair whose key the rest lacks keeps the keys free of repeats. */
  lemma ConsUnique(x: (Value, Value), rest: Entries)
    requires UniqueKeys(rest) && x.0 !in Keys(rest)
    ensures UniqueKeys([x] + rest)
  {
    forall i, j | 0 <= i < j < |[x] + rest| ensures ([x] + rest)[i].0 != ([x] + rest)[j].0 {
      if i == 0 {
        assert ([x] + rest)[j].0 == Keys(rest)[j - 1];
      } else {
        assert ([x] + rest)[i] == rest[i - 1] && ([x] + rest)[j] == rest[j - 1];
      }
    }
  }

  lemma UniqueHead(items: Entries)
    requires UniqueKeys(items) && |items| > 0
    ensures UniqueKeys(items[1..])
    ensures Keys(items) == [items[0].0] + Keys(items[1..])
    ensures items[0].0 !in Keys(items[1..])
  {
    forall i, j | 0 <= i < j < |items[1..]| ensures items[1..][i].0 != items[1..][j].0 {
      assert items[1..][i] == items[i + 1] && items[1..][j] == items[j + 1];
    }
    forall i | 0 <= i < |items[1..]| ensures Keys(items[1..])[i] != items[0].0 {
      assert Keys(items[1..])[i] == items[i + 1].0;
    }
  }

  /** Assigning a key the value it already has changes nothing. */
  lemma {:induction false} PutSame(es: Entries, k: Value, v: Value)
    requires Lookup(es, k) == Some(v)
    ensures Put(es, k, v) == es
  {
    if es[0].0 == k {
      assert es == [(k, v)] + es[1..];
    } else {
      PutSame(es[1..], k, v);
      assert es == [es[0]] + es[1..];
    }
  }

  /** Assigning a new key appends it. */
  lemma {:induction false} PutNew(es: Entries, k: Value, v: Value)
    requires k !in Keys(es)
    ensures Put(es, k, v) == es + [(k, v)]
  {
    if |es| > 0 {
      NotInTail(es, k);
      PutCons(es, k, v);
      PutNew(es[1..], k, v);
      ConsAppend(es, (k, v));
    }
  }

  lemma NotInTail(es: Entries, k: Value)
    requires |es| > 0 && k !in Keys(es)
    ensures es[0].0 != k && k !in Keys(es[1..])
  {
    assert Keys(es) == [es[0].0] + Keys(es[1..]);
  }

  lemma PutCons(es: Entries, k: Value, v: Value)
    requires |es| > 0 && es[0].0 != k
    ensures Put(es, k, v) == [es[0]] + Put(es[1..], k, v)
  {
  }

  lemma ConsAppend<T>(s: seq<T>, x: T)
    requires |s| > 0
    ensures [s[0]] + (s[1..] + [x]) == s + [x]
  {
    assert s == [s[0]] + s[1..];
  }

  /** Moving the head of a sequence onto the end of the one before it. */
  lemma AppendHead<T>(acc: seq<T>, items: seq<T>)
    requires |items| > 0
    ensures (acc + [items[0]]) + items[1..] == acc + items
  {
    assert items == [items[0]] + items[1..];
  }

  lemma AppendAssoc<T>(a: seq<T>, b: seq<T>, c: seq<T>)
    ensures (a + b) + c == a + (b + c)
  {
  }

  // ---------------------------------------------------------------------------
  // Python's operations on values, with the exceptions they raise

  /** Values that can be dict keys or be looked up in a dict. */
  predicate Hashable(v: Value)
  {
    !v.List? && !v.Dict?
  }

  /** Python truthiness. */
  predicate Truthy(v: Value)
  {
    match v
    case Null => false
    case Bool(b) => b
    case Int(i) => i != 0
    case Str(s) => |s| > 0
    case List(items) => |items| > 0
    case Dict(es) => |es| > 0
    case Cond(_) => true
  }

  /** `x in c`: a key of a dict, an element of a list, a substring of a string. */
  function Member(x: Value, c: Value): Result<bool>
  {
    match c
    case Dict(es) => if Hashable(x) then Ok(x in Keys(es)) else Crash
    case List(items) => Ok(x in items)
    case Str(s) => if x.Str? then Ok(IsSubstring(x.s, s)) else Crash
    case _ => Crash
  }

  /** `'k' in c`. */
  function Has(c: Value, k: string): Result<bool>
  {
    Member(Str(k), c)
  }

  /** `v.get(k, default)`: only dicts have `get`. */
  function Get(v: Value, k: string, default: Value): Result<Value>
  {
    if v.Dict? then Ok(match Lookup(v.entries, Str(k)) case Some(x) => x case None => default)
    else Crash
  }

  /** `v[k]`: a KeyError when the key is missing, a TypeError on a non-dict. */
  function Index(v: Value, k: string): Result<Value>
  {
    if v.Dict? then (match Lookup(v.entries, Str(k)) case Some(x) => Ok(x) case None => Crash)
    else Crash
  }

  /** `v.items()`. */
  function Items(v: Value): Result<Entries>
  {
    if v.Dict? then Ok(v.entries) else Crash
  }

  /** `for x in v`: the elements of a list, the keys of a dict, the
      characters of a string. */
  function Iter(v: Value): Result<seq<Value>>
  {
    match v
    case List(items) => Ok(items)
    case Dict(es) => Ok(Keys(es))
    case Str(s) => Ok(seq(|s|, i requires 0 <= i < |s| => Str([s[i]])))
    case _ => Crash
  }

  /** `v[k] = x`. */
  function SetItem(v: Value, k: Value, x: Value): Result<Value>
  {
    if v.Dict? && Hashable(k) then Ok(Dict(Put(v.entries, k, x))) else Crash
  }

  /** `del v[k]`. */
  function DelItem(v: Value, k: Value): Result<Value>
  {
    if v.Dict? && k in Keys(v.entries) then Ok(Dict(Remove(v.entries, k))) else Crash
  }

  /** The value of a top-level section, or `default` when it is absent. */
  function SectionOr(g: Entries, name: string, default: Value): Value
  {
    match Lookup(g, Str(name)) case Some(x) => x case None => default
  }

  // ---------------------------------------------------------------------------
  // Key paths, as the graph's `d['a.b.c'] = v` assignment performs them

  /** Assign `v` at the key path: each step below the top descends into the
      dict found there, or into a fresh empty dict that replaces a missing or
      non-dict value. */
  function SetPath(es: Entries, path: seq<string>, v: Value): Entries
    requires |path| > 0
    decreases |path|
  {
    if |path| == 1 then Put(es, Str(path[0]), v)
    else
      var child := Child(es, path[0]);
      Put(es, Str(path[0]), Dict(SetPath(child, path[1..], v)))
  }

  /** The dict an assignment below `k` descends into. */
  function Child(es: Entries, k: string): Entries
  {
    match Lookup(es, Str(k)) case Some(Dict(c)) => c case _ => []
  }

  /** The value reached by following the key path through dicts. */
  function GetPath(es: Entries, path: seq<string>): Option<Value>
    requires |path| > 0
    decreases |path|
  {
    match Lookup(es, Str(path[0]))
    case None => None
    case Some(x) =>
      if |path| == 1 then Some(x)
      else if x.Dict? then GetPath(x.entries, path[1..])
      else None
  }

  /** Two key paths that part ways after a common prefix. */
  predicate Diverge(p: seq<string>, q: seq<string>)
    decreases |p|
  {
    |p| > 0 && |q| > 0 && (p[0] != q[0] || Diverge(p[1..], q[1..]))
  }

  /** After assigning at a path, the path leads to the assigned value... */
  lemma {:induction false} SetPathThenGet(es: Entries, path: seq<string>, v: Value)
    requires |path| > 0
    ensures GetPath(SetPath(es, path, v), path) == Some(v)
    decreases |path|
  {
    if |path| > 1 {
      var child := Child(es, path[0]);
      SetPathThenGet(child, path[1..], v);
    }
  }

  /** ...and every path that parts ways with it leads where it led before. */
  lemma {:induction false} SetPathOther(es: Entries, path: seq<string>, v: Value, q: seq<string>)
    requires Diverge(path, q)
    ensures GetPath(SetPath(es, path, v), q) == GetPath(es, q)
    decreases |path|
  {
    var after := SetPath(es, path, v);
    if path[0] == q[0] {
      assert Diverge(path[1..], q[1..]);
      GetPathChild(after, q);
      GetPathChild(es, q);
      assert Lookup(after, Str(path[0])) == Some(Dict(SetPath(Child(es, path[0]), path[1..], v)));
      SetPathOther(Child(es, path[0]), path[1..], v, q[1..]);
    } else {
      assert Lookup(after, Str(q[0])) == Lookup(es, Str(q[0]));
      GetPathSameTop(after, es, q);
    }
  }

  /** A key path reads only through the entry of its first key. */
  lemma GetPathSameTop(a: Entries, b: Entries, q: seq<string>)
    requires |q| > 0 && Lookup(a, Str(q[0])) == Lookup(b, Str(q[0]))
    ensures GetPath(a, q) == GetPath(b, q)
  {
  }

  /** Below the top, a key path reads on in the dict its first key holds. */
  lemma GetPathChild(es: Entries, q: seq<string>)
    requires |q| > 1
    ensures GetPath(es, q) == GetPath(Child(es, q[0]), q[1..])
  {
    if !(Lookup(es, Str(q[0])).Some? && Lookup(es, Str(q[0])).value.Dict?) {
      assert GetPath([], q[1..]) == None;
    }
  }
}
