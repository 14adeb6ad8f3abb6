/** Resolving `!Conditional` keys against the deployment context.

    A conditional key names the plain key it stands for and an environment and
    a region it is limited to ("any" for no limit, a leading `~` for "anything
    but").  Resolving rebuilds every nested mapping: plain keys are kept, a
    conditional entry is kept under its plain key when both its conditions hold
    and dropped otherwise.  A condition that is not "any" but whose context
    field is missing is fatal: one error is added and the run stops. */
module Conditionals {
  import opened Outcomes
  import opened Text
  import opened Values
  import opened Diagnostics

  /** Either a value, or the fatal stop with the error list it carries. */
  datatype Resolution<+T> = Resolved(value: T) | Fatal(errors: seq<Error>)

  /** `deploy_ctx.get(condition)`, where a null value counts as missing. */
  function ContextValue(ctx: Entries, condition: string): (r: Option<Value>)
    ensures r.Some? ==> Lookup(ctx, Str(condition)) == Some(r.value) && r.value != Null
    ensures r.None? ==> Lookup(ctx, Str(condition)) in {None, Some(Null)}
  {
    match Lookup(ctx, Str(condition))
    case Some(v) => if v == Null then None else Some(v)
    case None => None
  }

  /** Whether a leading `~` negates the condition value. */
  predicate Negated(value: string)
  {
    |value| > 0 && value[0] == '~'
  }

  /** One condition of a conditional key, checked against the context field
      named `condition`. */
  function CheckCondition(condition: string, value: string, ctx: Entries, errors: seq<Error>): (r: Resolution<bool>)
    ensures value == "any" ==> r == Resolved(true)
    ensures value != "any" ==> (r.Fatal? <==> ContextValue(ctx, condition).None?)
    ensures r.Fatal? ==> r.errors == errors + [MissingCondition(condition)]
    ensures value != "any" && r.Resolved? ==>
      r.value == (Negated(value) != (Str(LStrip(value, '~')) == ContextValue(ctx, condition).value))
  {
    if value == "any" then Resolved(true)
    else
      match ContextValue(ctx, condition)
      case None => Fatal(errors + [MissingCondition(condition)])
      case Some(current) =>
        var matches := Str(LStrip(value, '~')) == current;
        Resolved(if Negated(value) then !matches else matches)
  }

  /** A leading `~` turns the outcome of a check around. */
  lemma CheckNegation(condition: string, value: string, ctx: Entries, errors: seq<Error>)
    requires value != "any" && !Negated(value)
    ensures CheckCondition(condition, "~" + value, ctx, errors).Fatal? == CheckCondition(condition, value, ctx, errors).Fatal?
    ensures CheckCondition(condition, "~" + value, ctx, errors).Resolved? ==>
      CheckCondition(condition, "~" + value, ctx, errors).value == !CheckCondition(condition, value, ctx, errors).value
  {
    var negated := "~" + value;
    assert negated[0] == '~' && negated[1..] == value;
    assert LStrip(negated, '~') == LStrip(value, '~');
    assert Negated(negated) && negated != "any";
  }

  /** Every leading `~` is stripped, and they negate once, not once each. */
  lemma CheckRepeatedTilde(condition: string, value: string, ctx: Entries, errors: seq<Error>)
    ensures CheckCondition(condition, "~~" + value, ctx, errors) == CheckCondition(condition, "~" + value, ctx, errors)
  {
    var twice := "~~" + value;
    assert twice[0] == '~' && twice[1..] == "~" + value;
    assert LStrip(twice, '~') == LStrip("~" + value, '~');
    assert Negated(twice) && Negated("~" + value);
    assert twice != "any" && "~" + value != "any";
  }

  /** The condition values the context field can never satisfy when negated:
      a value made only of `~` compares the empty string with the context. */
  lemma CheckOnlyTildes(condition: string, ctx: Entries, errors: seq<Error>)
    requires ContextValue(ctx, condition) == Some(Str(""))
    ensures CheckCondition(condition, "~", ctx, errors) == Resolved(false)
  {
    assert "~"[1..] == "";
  }

  // ---------------------------------------------------------------------------
  // Resolving a graph

  /** `resolved[key] = value` on the graph: a string key is a dotted key path. */
  function Assign(acc: Entries, key: Value, v: Value): Entries
  {
    match key
    case Str(s) => SetPath(acc, Split(s, '.'), v)
    case _ => Put(acc, key, v)
  }

  /** A dict value is resolved; every other value, lists included, is kept. */
  function ResolveValue(v: Value, ctx: Entries, errors: seq<Error>): (r: Resolution<Value>)
    ensures r.Fatal? ==> |r.errors| == |errors| + 1 && r.errors[..|errors|] == errors
    ensures r.Fatal? ==> r.errors[|errors|] in {MissingCondition("environment"), MissingCondition("target_region")}
    ensures r.Resolved? && !v.Dict? ==> r.value == v
    ensures r.Resolved? && v.Dict? ==> r.value.Dict?
    decreases v, 1
  {
    if v.Dict? then
      match ResolveItems(v.entries, [], ctx, errors)
      case Resolved(es) => Resolved(Dict(es))
      case Fatal(e) => Fatal(e)
    else Resolved(v)
  }

  /** The loop over the items of one mapping, `acc` being the mapping built so
      far.  The value is resolved before the key's conditions are checked, and
      both conditions are checked before either is used. */
  function ResolveItems(items: Entries, acc: Entries, ctx: Entries, errors: seq<Error>): (r: Resolution<Entries>)
    ensures r.Fatal? ==> |r.errors| == |errors| + 1 && r.errors[..|errors|] == errors
    ensures r.Fatal? ==> r.errors[|errors|] in {MissingCondition("environment"), MissingCondition("target_region")}
    decreases items, 0
  {
    if |items| == 0 then Resolved(acc)
    else
      var item := items[0];
      assert item in items && item.0 < item && item.1 < item;
      match ResolveValue(item.1, ctx, errors)
      case Fatal(e) => Fatal(e)
      case Resolved(v) =>
        if item.0.Cond? then
          var c := item.0.cond;
          match CheckCondition("environment", c.environment, ctx, errors)
          case Fatal(e) => Fatal(e)
          case Resolved(inEnvironment) =>
            match CheckCondition("target_region", c.region, ctx, errors)
            case Fatal(e) => Fatal(e)
            case Resolved(inRegion) =>
              ResolveItems(items[1..], if inEnvironment && inRegion then Assign(acc, Str(c.key), v) else acc, ctx, errors)
        else ResolveItems(items[1..], Assign(acc, item.0, v), ctx, errors)
  }

  /** `resolve_conditionals(resources_data, deploy_ctx, errors)`. */
  function ResolveConditionals(graph: Entries, ctx: Entries, errors: seq<Error>): Resolution<Entries>
  {
    ResolveItems(graph, [], ctx, errors)
  }

  // ---------------------------------------------------------------------------
  // When resolving is fatal

  /** A conditional key that stops the run: a condition other than "any" whose
      context field is missing.  The environment check does not have to pass
      for the region to be checked. */
  predicate CondFatal(c: Conditional, ctx: Entries)
  {
    (c.environment != "any" && ContextValue(ctx, "environment").None?)
    || (c.region != "any" && ContextValue(ctx, "target_region").None?)
  }

  /** Some conditional key in the mapping tree below `v` stops the run. */
  predicate HasFatal(v: Value, ctx: Entries)
    decreases v, 1
  {
    v.Dict? && ItemsFatal(v.entries, ctx)
  }

  predicate ItemsFatal(items: Entries, ctx: Entries)
    decreases items, 0
  {
    if |items| == 0 then false
    else
      var item := items[0];
      assert item in items && item.0 < item && item.1 < item;
      (item.0.Cond? && CondFatal(item.0.cond, ctx)) || HasFatal(item.1, ctx) || ItemsFatal(items[1..], ctx)
  }

  /** Resolving stops exactly when some conditional key anywhere in the mapping
      tree names a missing context field, whatever the other checks give. */
  lemma {:induction false} ResolveValueFatal(v: Value, ctx: Entries, errors: seq<Error>)
    ensures ResolveValue(v, ctx, errors).Fatal? <==> HasFatal(v, ctx)
    decreases v, 1
  {
    if v.Dict? {
      ResolveItemsFatal(v.entries, [], ctx, errors);
    }
  }

  lemma {:induction false} ResolveItemsFatal(items: Entries, acc: Entries, ctx: Entries, errors: seq<Error>)
    ensures ResolveItems(items, acc, ctx, errors).Fatal? <==> ItemsFatal(items, ctx)
    decreases items, 0
  {
    if |items| > 0 {
      var item := items[0];
      assert item in items && item.0 < item && item.1 < item;
      ResolveValueFatal(item.1, ctx, errors);
      match ResolveValue(item.1, ctx, errors)
      case Fatal(_) =>
      case Resolved(v) =>
        if item.0.Cond? {
          var c := item.0.cond;
          var e := CheckCondition("environment", c.environment, ctx, errors);
          var g := CheckCondition("target_region", c.region, ctx, errors);
          if e.Resolved? && g.Resolved? {
            ResolveItemsFatal(items[1..], if e.value && g.value then Assign(acc, Str(c.key), v) else acc, ctx, errors);
          }
        } else {
          ResolveItemsFatal(items[1..], Assign(acc, item.0, v), ctx, errors);
        }
    }
  }

  /** The environment check failing does not shield a region condition whose
      context field is missing. */
  lemma MissingRegionFatal(c: Conditional, v: Value, ctx: Entries, errors: seq<Error>)
    requires !v.Dict?
    requires c.region != "any" && ContextValue(ctx, "target_region").None?
    requires CheckCondition("environment", c.environment, ctx, errors) == Resolved(false)
    ensures ResolveConditionals([(Cond(c), v)], ctx, errors) == Fatal(errors + [MissingCondition("target_region")])
  {
    var items := [(Cond(c), v)];
    assert items[0] == (Cond(c), v);
    assert ResolveValue(v, ctx, errors) == Resolved(v);
    assert CheckCondition("target_region", c.region, ctx, errors) == Fatal(errors + [MissingCondition("target_region")]);
  }

  // ---------------------------------------------------------------------------
  // What resolving keeps

  /** A mapping tree without conditional keys, without dotted string keys and
      without a key twice in any mapping. */
  predicate Plain(v: Value)
    decreases v, 1
  {
    v.Dict? ==> PlainItems(v.entries) && UniqueKeys(v.entries)
  }

  predicate PlainItems(items: Entries)
    decreases items, 0
  {
    if |items| == 0 then true
    else
      var item := items[0];
      assert item in items && item.1 < item;
      !item.0.Cond? && (item.0.Str? ==> '.' !in item.0.s) && Plain(item.1) && PlainItems(items[1..])
  }

  /** A graph without conditional keys resolves to itself. */
  lemma {:induction false} ResolvePlainValue(v: Value, ctx: Entries, errors: seq<Error>)
    requires Plain(v)
    ensures ResolveValue(v, ctx, errors) == Resolved(v)
    decreases v, 1
  {
    if v.Dict? {
      ResolvePlainItems(v.entries, [], ctx, errors);
      assert [] + v.entries == v.entries;
    }
  }

  lemma {:induction false} ResolvePlainItems(items: Entries, acc: Entries, ctx: Entries, errors: seq<Error>)
    requires PlainItems(items) && UniqueKeys(acc + items)
    ensures ResolveItems(items, acc, ctx, errors) == Resolved(acc + items)
    decreases items, 0
  {
    if |items| == 0 {
      assert acc + items == acc;
    } else {
      var item := items[0];
      assert item in items && item.0 < item && item.1 < item;
      ResolvePlainValue(item.1, ctx, errors);
      FreshHead(acc, items);
      PutNew(acc, item.0, item.1);
      AssignUndotted(acc, item.0, item.1);
      var next := acc + [item];
      AppendHead(acc, items);
      assert PlainItems(items[1..]) && UniqueKeys(next + items[1..]);
      ResolvePlainItems(items[1..], next, ctx, errors);
      assert ResolveItems(items, acc, ctx, errors) == ResolveItems(items[1..], next, ctx, errors);
    }
  }

  /** With no key twice, the next entry's key is not in the mapping built so far. */
  lemma FreshHead(acc: Entries, items: Entries)
    requires |items| > 0 && UniqueKeys(acc + items)
    ensures items[0].0 !in Keys(acc)
  {
    forall i | 0 <= i < |acc| ensures Keys(acc)[i] != items[0].0 {
      assert (acc + items)[i] == acc[i] && (acc + items)[|acc|] == items[0];
    }
  }

  /** An undotted key is assigned directly. */
  lemma AssignUndotted(acc: Entries, k: Value, v: Value)
    requires k.Str? ==> '.' !in k.s
    ensures Assign(acc, k, v) == Put(acc, k, v)
  {
    if k.Str? {
      assert Split(k.s, '.') == [k.s];
    }
  }

  // ---------------------------------------------------------------------------
  // Which value a key ends up with

  /** The key under which an entry is stored, or nothing when its conditions
      exclude it; only asked of entries whose checks do not stop the run. */
  function StoredUnder(key: Value, ctx: Entries): Option<Value>
  {
    if key.Cond? then
      var e := CheckCondition("environment", key.cond.environment, ctx, []);
      var g := CheckCondition("target_region", key.cond.region, ctx, []);
      if e == Resolved(true) && g == Resolved(true) then Some(Str(key.cond.key)) else None
    else Some(key)
  }

  /** The resolved value of the last entry stored under `k`: later entries
      win.  Only asked of entries whose checks do not stop the run, so every
      value resolves. */
  function LastStored(items: Entries, k: Value, ctx: Entries, errors: seq<Error>): Option<Value>
    requires !ItemsFatal(items, ctx)
  {
    if |items| == 0 then None
    else
      match LastStored(items[1..], k, ctx, errors)
      case Some(v) => Some(v)
      case None =>
        if StoredUnder(items[0].0, ctx) == Some(k) then Some(ResolvedValue(items[0].1, ctx, errors)) else None
  }

  /** The value an entry resolves to, when nothing below it stops the run. */
  function ResolvedValue(v: Value, ctx: Entries, errors: seq<Error>): (r: Value)
    requires !HasFatal(v, ctx)
    ensures ResolveValue(v, ctx, errors) == Resolved(r)
  {
    ResolveValueFatal(v, ctx, errors);
    ResolveValue(v, ctx, errors).value
  }

  /** Entries whose keys, plain or conditional, are not dotted; the values
      may be anything, nested mappings included. */
  predicate Flat(items: Entries)
  {
    forall i :: 0 <= i < |items| ==>
      (items[i].0.Str? ==> '.' !in items[i].0.s)
      && (items[i].0.Cond? ==> '.' !in items[i].0.cond.key)
  }

  lemma CheckIgnoresErrors(condition: string, value: string, ctx: Entries, errors: seq<Error>)
    ensures CheckCondition(condition, value, ctx, errors).Resolved? == CheckCondition(condition, value, ctx, []).Resolved?
    ensures CheckCondition(condition, value, ctx, errors).Resolved? ==>
      CheckCondition(condition, value, ctx, errors).value == CheckCondition(condition, value, ctx, []).value
  {
  }

  /** In a mapping that resolves, every key holds the resolved value of the
      last entry stored under it (a later accepted conditional overwrites an
      earlier entry, and a conditional guarding a mapping stores that mapping
      resolved), and keys that no entry is stored under keep their earlier
      value. */
  lemma {:induction false} ResolveLastWins(items: Entries, acc: Entries, ctx: Entries, errors: seq<Error>, k: Value)
    requires Flat(items) && !ItemsFatal(items, ctx)
    ensures ResolveItems(items, acc, ctx, errors).Resolved?
    ensures Lookup(ResolveItems(items, acc, ctx, errors).value, k)
      == match LastStored(items, k, ctx, errors) case Some(v) => Some(v) case None => Lookup(acc, k)
    decreases items
  {
    ResolveItemsFatal(items, acc, ctx, errors);
    if |items| > 0 {
      ResolveFlatStep(items, acc, ctx, errors);
      var next := StoreFlat(acc, items[0], ctx, errors);
      ResolveLastWins(items[1..], next, ctx, errors, k);
      StoreFlatLookup(acc, items[0], ctx, errors, k);
    }
  }

  /** What resolving one flat entry does to the mapping built so far. */
  function StoreFlat(acc: Entries, item: (Value, Value), ctx: Entries, errors: seq<Error>): Entries
    requires !HasFatal(item.1, ctx)
  {
    match StoredUnder(item.0, ctx)
    case Some(key) => Put(acc, key, ResolvedValue(item.1, ctx, errors))
    case None => acc
  }

  lemma StoreFlatLookup(acc: Entries, item: (Value, Value), ctx: Entries, errors: seq<Error>, k: Value)
    requires !HasFatal(item.1, ctx)
    ensures Lookup(StoreFlat(acc, item, ctx, errors), k)
      == if StoredUnder(item.0, ctx) == Some(k) then Some(ResolvedValue(item.1, ctx, errors)) else Lookup(acc, k)
  {
  }

  /** A flat entry whose checks pass is stored, resolved, where `StoredUnder` says. */
  lemma ResolveFlatStep(items: Entries, acc: Entries, ctx: Entries, errors: seq<Error>)
    requires |items| > 0 && Flat(items) && !ItemsFatal(items, ctx)
    ensures Flat(items[1..]) && !ItemsFatal(items[1..], ctx) && !HasFatal(items[0].1, ctx)
    ensures ResolveItems(items, acc, ctx, errors) == ResolveItems(items[1..], StoreFlat(acc, items[0], ctx, errors), ctx, errors)
  {
    var item := items[0];
    assert item in items && item.0 < item && item.1 < item;
    assert Flat(items[1..]) by {
      forall i | 0 <= i < |items[1..]| ensures items[1..][i] == items[i + 1] { }
    }
    var v := ResolvedValue(item.1, ctx, errors);
    if item.0.Cond? {
      var c := item.0.cond;
      CheckIgnoresErrors("environment", c.environment, ctx, errors);
      CheckIgnoresErrors("target_region", c.region, ctx, errors);
      AssignUndotted(acc, Str(c.key), v);
    } else {
      AssignUndotted(acc, item.0, v);
    }
  }
}
