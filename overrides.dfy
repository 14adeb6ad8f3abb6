/** Deployment-time overrides: the context's `overrides` mapping assigns values
    at key paths of the resolved graph, written with `/` or `.` between keys. */
module Overrides {
  import opened Outcomes
  import opened Text
  import opened Values

  /** The key path an override names: `/` is read as `.`, then the graph's
      dotted-key assignment splits at `.`. */
  function OverridePath(p: string): (r: seq<string>)
    ensures |r| > 0
    ensures forall i :: 0 <= i < |r| ==> '.' !in r[i]
    ensures Join(r, '.') == Replace(p, '/', '.')
  {
    JoinSplit(Replace(p, '/', '.'), '.');
    Split(Replace(p, '/', '.'), '.')
  }

  /** The overrides applied one after the other; a key that is not a string has
      no `replace` and raises. */
  function ApplyAll(graph: Entries, overrides: Entries): Result<Entries>
    decreases |overrides|
  {
    if |overrides| == 0 then Ok(graph)
    else if !overrides[0].0.Str? then Crash
    else ApplyAll(SetPath(graph, OverridePath(overrides[0].0.s), overrides[0].1), overrides[1..])
  }

  /** The graph after the context's overrides, or unchanged without any. */
  function Overridden(graph: Entries, ctx: Entries): Result<Entries>
  {
    match Lookup(ctx, Str("overrides"))
    case None => Ok(graph)
    case Some(v) => (var overrides :- Items(v); ApplyAll(graph, overrides))
  }

  /** `apply_overrides(resources_data, deploy_ctx)`. */
  method ApplyOverrides(graph: Entries, ctx: Entries) returns (r: Result<Entries>)
    ensures Str("overrides") !in Keys(ctx) ==> r == Ok(graph)
    ensures r == Overridden(graph, ctx)
  {
    var overrides: Entries;
    match Lookup(ctx, Str("overrides")) {
      case None => return Ok(graph);
      case Some(v) =>
        if !v.Dict? {
          return Crash;
        }
        overrides := v.entries;
    }
    var g := graph;
    var i := 0;
    while i < |overrides|
      invariant 0 <= i <= |overrides|
      invariant ApplyAll(g, overrides[i..]) == ApplyAll(graph, overrides)
    {
      assert overrides[i..][1..] == overrides[i + 1..];
      var (path, value) := overrides[i];
      if !path.Str? {
        return Crash;
      }
      var key := Replace(path.s, '/', '.');
      g := SetPath(g, Split(key, '.'), value);
      i := i + 1;
    }
    return Ok(g);
  }

  /** Where the path of every override diverges from `q`, the value at `q` is
      left as it was. */
  lemma {:induction false} OverridesKeepOthers(graph: Entries, overrides: Entries, q: seq<string>)
    requires |q| > 0
    requires forall i :: 0 <= i < |overrides| ==> overrides[i].0.Str? && Diverge(OverridePath(overrides[i].0.s), q)
    ensures ApplyAll(graph, overrides).Ok?
    ensures GetPath(ApplyAll(graph, overrides).value, q) == GetPath(graph, q)
    decreases |overrides|
  {
    if |overrides| > 0 {
      var p := OverridePath(overrides[0].0.s);
      SetPathOther(graph, p, overrides[0].1, q);
      assert forall i :: 0 <= i < |overrides[1..]| ==> overrides[1..][i] == overrides[i + 1];
      OverridesKeepOthers(SetPath(graph, p, overrides[0].1), overrides[1..], q);
    }
  }

  /** An override whose path no later override comes back to holds its value
      at that path afterwards. */
  lemma {:induction false} OverrideTakesEffect(graph: Entries, overrides: Entries, k: nat)
    requires k < |overrides|
    requires forall i :: 0 <= i < |overrides| ==> overrides[i].0.Str?
    requires forall j :: k < j < |overrides| ==> Diverge(OverridePath(overrides[j].0.s), OverridePath(overrides[k].0.s))
    ensures ApplyAll(graph, overrides).Ok?
    ensures GetPath(ApplyAll(graph, overrides).value, OverridePath(overrides[k].0.s)) == Some(overrides[k].1)
    decreases |overrides|
  {
    var p := OverridePath(overrides[0].0.s);
    var next := SetPath(graph, p, overrides[0].1);
    var rest := overrides[1..];
    TailStrKeys(overrides);
    if k == 0 {
      SetPathThenGet(graph, p, overrides[0].1);
      TailDiverge(overrides, p);
      OverridesKeepOthers(next, rest, p);
    } else {
      TailDivergeAfter(overrides, k);
      OverrideTakesEffect(next, rest, k - 1);
    }
  }

  lemma TailStrKeys(overrides: Entries)
    requires |overrides| > 0
    requires forall i :: 0 <= i < |overrides| ==> overrides[i].0.Str?
    ensures forall i :: 0 <= i < |overrides[1..]| ==> overrides[1..][i].0.Str?
  {
    assert forall i :: 0 <= i < |overrides[1..]| ==> overrides[1..][i] == overrides[i + 1];
  }

  /** Paths diverging from `p` after the first override still do so in the rest. */
  lemma TailDiverge(overrides: Entries, p: seq<string>)
    requires |overrides| > 0
    requires forall i :: 0 <= i < |overrides| ==> overrides[i].0.Str?
    requires forall j :: 0 < j < |overrides| ==> Diverge(OverridePath(overrides[j].0.s), p)
    ensures forall i :: 0 <= i < |overrides[1..]| ==> overrides[1..][i].0.Str? && Diverge(OverridePath(overrides[1..][i].0.s), p)
  {
    assert forall i :: 0 <= i < |overrides[1..]| ==> overrides[1..][i] == overrides[i + 1];
  }

  lemma TailDivergeAfter(overrides: Entries, k: nat)
    requires 0 < k < |overrides|
    requires forall i :: 0 <= i < |overrides| ==> overrides[i].0.Str?
    requires forall j :: k < j < |overrides| ==> Diverge(OverridePath(overrides[j].0.s), OverridePath(overrides[k].0.s))
    ensures overrides[1..][k - 1] == overrides[k]
    ensures forall j :: k - 1 < j < |overrides[1..]| ==>
      Diverge(OverridePath(overrides[1..][j].0.s), OverridePath(overrides[1..][k - 1].0.s))
  {
    assert forall i :: 0 <= i < |overrides[1..]| ==> overrides[1..][i] == overrides[i + 1];
  }
}
