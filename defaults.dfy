/** Default filling and shorthand rewriting (`preprocess_defaults`), applied to
    the merged graph before it is sorted and validated.

    Five normalisers run in a fixed order, each on its own top-level section:
    `search`, `functions`, `streams`, `tables` and `paths`.  The implementation
    mutates each entry of a section in place inside a `for` loop; here the loop
    is a method proved equal to a function that maps each entry, and the entry
    rewrite itself is a function.  Only the streams normaliser reports errors. */
module Defaults {
  import opened Outcomes
  import opened Values
  import opened Diagnostics

  /** The default delivery interval of a stream's bucket, in seconds. */
  const StreamIntervalSeconds := 300

  /** `v.get(k)` on a dict entry: `None` when the key is absent. */
  function Field(v: Value, k: string): Value
  {
    if v.Dict? then SectionOr(v.entries, k, Null) else Null
  }

  // ---------------------------------------------------------------------------
  // Sections whose entries are rewritten one by one

  /** Every value of a mapping rewritten by `f`, keys and order kept; the first
      entry `f` raises on ends the run. */
  function MapValues(es: Entries, f: Value -> Result<Value>): (r: Result<Entries>)
    ensures r.Ok? <==> forall i :: 0 <= i < |es| ==> f(es[i].1).Ok?
    ensures r.Ok? ==> |r.value| == |es|
    ensures r.Ok? ==> forall i :: 0 <= i < |es| ==> r.value[i] == (es[i].0, f(es[i].1).value)
    decreases |es|
  {
    if |es| == 0 then Ok([])
    else
      var v :- f(es[0].1);
      var rest :- MapValues(es[1..], f);
      assert forall i :: 1 <= i < |es| ==> es[1..][i - 1] == es[i];
      Ok([(es[0].0, v)] + rest)
  }

  /** `for _, entry in resources_data.get(name, {}).items(): <rewrite entry>`:
      an absent section is left absent, one that is not a mapping raises. */
  function SectionDefaults(g: Entries, name: string, f: Value -> Result<Value>): (r: Result<Entries>)
    ensures r.Ok? ==> Keys(r.value) == Keys(g)
    ensures Lookup(g, Str(name)).None? ==> r == Ok(g)
    ensures Lookup(g, Str(name)).Some? ==>
      (r.Ok? <==> Lookup(g, Str(name)).value.Dict? && MapValues(Lookup(g, Str(name)).value.entries, f).Ok?)
    ensures r.Ok? && Lookup(g, Str(name)).Some? ==>
      Lookup(r.value, Str(name)) == Some(Dict(MapValues(Lookup(g, Str(name)).value.entries, f).value))
  {
    match Lookup(g, Str(name))
    case None => Ok(g)
    case Some(section) =>
      var es :- Items(section);
      var rewritten :- MapValues(es, f);
      Ok(Put(g, Str(name), Dict(rewritten)))
  }

  /** A section's loop leaves every other section as it was. */
  lemma SectionDefaultsOther(g: Entries, name: string, f: Value -> Result<Value>, k: Value)
    requires SectionDefaults(g, name, f).Ok? && k != Str(name)
    ensures Lookup(SectionDefaults(g, name, f).value, k) == Lookup(g, k)
  {
  }

  /** The loop over a mapping's values, rewriting each in place. */
  method DefaultValues(es: Entries, f: Value -> Result<Value>) returns (r: Result<Entries>)
    ensures r == MapValues(es, f)
  {
    var done: Entries := [];
    var i := 0;
    while i < |es|
      invariant 0 <= i <= |es| && |done| == i
      invariant forall j :: 0 <= j < i ==> f(es[j].1).Ok? && done[j] == (es[j].0, f(es[j].1).value)
    {
      var v := f(es[i].1);
      if v.Crash? {
        return Crash;
      }
      done := done + [(es[i].0, v.value)];
      i := i + 1;
    }
    assert MapValues(es, f).Ok?;
    assert done == MapValues(es, f).value;
    return Ok(done);
  }

  /** One section's loop, writing the rewritten mapping back. */
  method ProcessSection(g: Entries, name: string, f: Value -> Result<Value>) returns (r: Result<Entries>)
    ensures r == SectionDefaults(g, name, f)
  {
    match Lookup(g, Str(name)) {
      case None =>
        return Ok(g);
      case Some(section) =>
        if !section.Dict? {
          return Crash;
        }
        var rewritten := DefaultValues(section.entries, f);
        if rewritten.Crash? {
          return Crash;
        }
        return Ok(Put(g, Str(name), Dict(rewritten.value)));
    }
  }

  // ---------------------------------------------------------------------------
  // `process_default_searches`

  /** An empty `search` section becomes `{searchable: {}}`. */
  function SearchDefaults(g: Entries): (r: Entries)
    ensures Keys(r) == Keys(g)
    ensures Lookup(g, Str("search")).Some? && !Truthy(Lookup(g, Str("search")).value) ==>
      Lookup(r, Str("search")) == Some(Dict([(Str("searchable"), Dict([]))]))
    ensures Lookup(g, Str("search")).None? || Truthy(Lookup(g, Str("search")).value) ==> r == g
    ensures forall k :: k != Str("search") ==> Lookup(r, k) == Lookup(g, k)
  {
    match Lookup(g, Str("search"))
    case Some(v) => if Truthy(v) then g else Put(g, Str("search"), Dict([(Str("searchable"), Dict([]))]))
    case None => g
  }

  // ---------------------------------------------------------------------------
  // `process_default_functions`

  /** `transform_lambda_poll`: a queue named by a bare string. */
  function PollDefault(poll: Value): Value
  {
    if poll.Str? then Dict([(Str("name"), poll)]) else poll
  }

  function NamePolls(fn: Entries, polls: Value): Result<Entries>
  {
    var ps :- Iter(polls);
    Ok(Put(fn, Str("polls"), List(seq(|ps|, i requires 0 <= i < |ps| => PollDefault(ps[i])))))
  }

  /** One function: string polls become `{name: s}` and an empty `searches`
      becomes `['searchable']`.  Anything but a mapping has no `get` and
      raises. */
  function FunctionDefaults(fn: Value): (r: Result<Value>)
    ensures r.Ok? <==> fn.Dict? && (Truthy(Field(fn, "polls")) ==> Iter(Field(fn, "polls")).Ok?)
    ensures r.Ok? ==> r.value.Dict? && Keys(r.value.entries) == Keys(fn.entries)
    ensures r.Ok? && Truthy(Field(fn, "polls")) ==>
      var ps := Iter(Field(fn, "polls")).value;
      var polls := Lookup(r.value.entries, Str("polls"));
      polls.Some? && polls.value.List? && |polls.value.items| == |ps|
      && forall i :: 0 <= i < |ps| ==> polls.value.items[i] == if ps[i].Str? then Dict([(Str("name"), ps[i])]) else ps[i]
    ensures r.Ok? && !Truthy(Field(fn, "polls")) ==>
      Lookup(r.value.entries, Str("polls")) == Lookup(fn.entries, Str("polls"))
    ensures r.Ok? && Lookup(fn.entries, Str("searches")).Some? ==>
      Lookup(r.value.entries, Str("searches")) ==
        if Truthy(Lookup(fn.entries, Str("searches")).value) then Lookup(fn.entries, Str("searches"))
        else Some(List([Str("searchable")]))
    ensures r.Ok? ==> forall k :: k != Str("polls") && k != Str("searches") ==>
      Lookup(r.value.entries, k) == Lookup(fn.entries, k)
  {
    if !fn.Dict? then Crash
    else
      var polls := SectionOr(fn.entries, "polls", Null);
      var withPolls :- if Truthy(polls) then NamePolls(fn.entries, polls) else Ok(fn.entries);
      match Lookup(withPolls, Str("searches"))
      case Some(searches) =>
        if Truthy(searches) then Ok(Dict(withPolls)) else Ok(Dict(Put(withPolls, Str("searches"), List([Str("searchable")]))))
      case None => Ok(Dict(withPolls))
  }

  /** `if k not in d: d[k] = default`. */
  function SetDefault(es: Entries, k: string, default: Value): (r: Entries)
    ensures Lookup(r, Str(k)) == Some(SectionOr(es, k, default))
    ensures forall k' :: k' != Str(k) ==> Lookup(r, k') == Lookup(es, k')
    ensures Keys(r) == if Str(k) in Keys(es) then Keys(es) else Keys(es) + [Str(k)]
  {
    if Str(k) in Keys(es) then es else Put(es, Str(k), default)
  }

  /** Two such defaults on one value.  On anything but a mapping, `in` either
      raises or finds both names (a list holding them, a string containing
      them), and the assignment a missing name calls for raises. */
  function FillMissing(v: Value, k1: string, d1: Value, k2: string, d2: Value): (r: Result<Value>)
    ensures v.Dict? ==> r.Ok? && r.value.Dict?
    ensures v.Dict? ==> Lookup(r.value.entries, Str(k1)) == Some(SectionOr(v.entries, k1, d1))
    ensures v.Dict? && k1 != k2 ==> Lookup(r.value.entries, Str(k2)) == Some(SectionOr(v.entries, k2, d2))
    ensures v.Dict? ==> forall k :: k != Str(k1) && k != Str(k2) ==> Lookup(r.value.entries, k) == Lookup(v.entries, k)
    ensures !v.Dict? ==> r == if Has(v, k1) == Ok(true) && Has(v, k2) == Ok(true) then Ok(v) else Crash
  {
    if v.Dict? then Ok(Dict(SetDefault(SetDefault(v.entries, k1, d1), k2, d2)))
    else if Has(v, k1) == Ok(true) && Has(v, k2) == Ok(true) then Ok(v)
    else Crash
  }

  // ---------------------------------------------------------------------------
  // `process_default_streams`

  /** One bucket of a stream: `bucketprefix` and `intervalinseconds` filled in
      only where missing. */
  function BucketDefaults(bucket: Value): Result<Value>
  {
    FillMissing(bucket, "bucketprefix", Str(""), "intervalinseconds", Int(StreamIntervalSeconds))
  }

  /** `'buckets' in stream and 'bucketname' in stream`. */
  function BothBucketForms(stream: Value): Result<bool>
  {
    var hasBuckets :- Has(stream, "buckets");
    if hasBuckets then Has(stream, "bucketname") else Ok(false)
  }

  /** The single bucket a stream's `bucketname` shorthand stands for. */
  function PrivateBucket(stream: Entries): Value
  {
    Dict([(Str("bucketname"), SectionOr(stream, "bucketname", Null)),
          (Str("bucketprefix"), SectionOr(stream, "bucketprefix", Str(""))),
          (Str("intervalinseconds"), SectionOr(stream, "intervalinseconds", Null))])
  }

  /** The `bucketname` shorthand rewritten as `buckets.private`; the three
      shorthand keys are removed from the stream.  A value that is not a
      mapping but holds the name cannot be indexed by it and raises. */
  function PromoteBucketName(stream: Value): (r: Result<Value>)
    ensures Has(stream, "bucketname") == Ok(false) ==> r == Ok(stream)
    ensures stream.Dict? && Str("bucketname") in Keys(stream.entries) ==>
      r.Ok? && r.value.Dict?
      && Lookup(r.value.entries, Str("buckets")) == Some(Dict([(Str("private"), PrivateBucket(stream.entries))]))
      && Str("bucketname") !in Keys(r.value.entries)
      && Str("bucketprefix") !in Keys(r.value.entries)
      && Str("intervalinseconds") !in Keys(r.value.entries)
    ensures stream.Dict? && Str("bucketname") in Keys(stream.entries) ==>
      forall k :: k != Str("buckets") && k != Str("bucketname") && k != Str("bucketprefix") && k != Str("intervalinseconds") ==>
        Lookup(r.value.entries, k) == Lookup(stream.entries, k)
  {
    var named :- Has(stream, "bucketname");
    if !named then Ok(stream)
    else if !stream.Dict? then Crash
    else
      var withBuckets := Put(stream.entries, Str("buckets"), Dict([(Str("private"), PrivateBucket(stream.entries))]));
      Ok(Dict(Remove(Remove(Remove(withBuckets, Str("bucketname")), Str("bucketprefix")), Str("intervalinseconds"))))
  }

  /** One stream without the conflict: the shorthand promoted, then every
      bucket defaulted. */
  function StreamDefaults(stream: Value): Result<Value>
  {
    var promoted :- PromoteBucketName(stream);
    if !promoted.Dict? then Crash
    else
      match Lookup(promoted.entries, Str("buckets"))
      case None => Ok(promoted)
      case Some(buckets) =>
        var es :- Items(buckets);
        var defaulted :- MapValues(es, BucketDefaults);
        Ok(Dict(Put(promoted.entries, Str("buckets"), Dict(defaulted))))
  }

  /** The streams loop from the given point on: a stream with both forms is
      reported and left out of the rebuilt section, every other is rewritten
      into it.  `kept` is the section rebuilt so far, `found` the errors. */
  function RebuildStreams(streams: Entries, kept: Entries, found: seq<Error>): Result<(Entries, seq<Error>)>
    decreases |streams|
  {
    if |streams| == 0 then Ok((kept, found))
    else
      var both :- BothBucketForms(streams[0].1);
      if both then RebuildStreams(streams[1..], kept, found + [StreamBothBucketForms(streams[0].1)])
      else
        var stream :- StreamDefaults(streams[0].1);
        RebuildStreams(streams[1..], Put(kept, streams[0].0, stream), found)
  }

  /** `process_default_streams`: the rebuilt section replaces the old one only
      when some stream made it in. */
  function StreamsStep(st: State): Result<State>
  {
    var streams :- Items(SectionOr(st.graph, "streams", Dict([])));
    var rebuilt :- RebuildStreams(streams, [], []);
    if |rebuilt.0| > 0 then Ok(State(Put(st.graph, Str("streams"), Dict(rebuilt.0)), st.errors + rebuilt.1))
    else Ok(State(st.graph, st.errors + rebuilt.1))
  }

  /** One stream, with its loop over the buckets. */
  method ProcessStream(stream: Value) returns (r: Result<Value>)
    ensures r == StreamDefaults(stream)
  {
    var promoted := PromoteBucketName(stream);
    if promoted.Crash? || !promoted.value.Dict? {
      return Crash;
    }
    var s := promoted.value;
    match Lookup(s.entries, Str("buckets")) {
      case None =>
        return Ok(s);
      case Some(buckets) =>
        if !buckets.Dict? {
          return Crash;
        }
        var defaulted := DefaultValues(buckets.entries, BucketDefaults);
        if defaulted.Crash? {
          return Crash;
        }
        return Ok(Dict(Put(s.entries, Str("buckets"), Dict(defaulted.value))));
    }
  }

  method ProcessDefaultStreams(st: State) returns (r: Result<State>)
    ensures r == StreamsStep(st)
  {
    var section := SectionOr(st.graph, "streams", Dict([]));
    if !section.Dict? {
      return Crash;
    }
    var streams := section.entries;
    var kept: Entries := [];
    var found: seq<Error> := [];
    var i := 0;
    assert streams[0..] == streams;
    while i < |streams|
      invariant 0 <= i <= |streams|
      invariant RebuildStreams(streams[i..], kept, found) == RebuildStreams(streams, [], [])
    {
      assert streams[i..][1..] == streams[i + 1..];
      var (name, stream) := streams[i];
      var both := BothBucketForms(stream);
      if both.Crash? {
        return Crash;
      }
      if both.value {
        found := found + [StreamBothBucketForms(stream)];
      } else {
        var rewritten := ProcessStream(stream);
        if rewritten.Crash? {
          return Crash;
        }
        kept := Put(kept, name, rewritten.value);
      }
      i := i + 1;
    }
    if |kept| > 0 {
      return Ok(State(Put(st.graph, Str("streams"), Dict(kept)), st.errors + found));
    }
    return Ok(State(st.graph, st.errors + found));
  }

  // ---------------------------------------------------------------------------
  // `process_default_tables`

  /** One table: a truthy trigger given as a function name becomes
      `{function: name}`, and the trigger gets `viewtype` and
      `startingposition` where missing. */
  function TableDefaults(table: Value): (r: Result<Value>)
    ensures r.Ok? ==> table.Dict? && r.value.Dict? && Keys(r.value.entries) == Keys(table.entries)
    ensures r.Ok? ==> forall k :: k != Str("trigger") ==> Lookup(r.value.entries, k) == Lookup(table.entries, k)
    ensures table.Dict? && !Truthy(Field(table, "trigger")) ==> r == Ok(table)
    ensures table.Dict? && Field(table, "trigger").Str? && Truthy(Field(table, "trigger")) ==>
      r.Ok? && Lookup(r.value.entries, Str("trigger")) ==
        Some(Dict([(Str("function"), Field(table, "trigger")), (Str("viewtype"), Str("new-and-old")), (Str("startingposition"), Str("latest"))]))
    ensures table.Dict? && Field(table, "trigger").Dict? && Truthy(Field(table, "trigger")) ==>
      var trigger := Field(table, "trigger").entries;
      r.Ok? && Lookup(r.value.entries, Str("trigger")).Some?
      && Lookup(r.value.entries, Str("trigger")).value.Dict?
      && var config := Lookup(r.value.entries, Str("trigger")).value.entries;
      Lookup(config, Str("viewtype")) == Some(SectionOr(trigger, "viewtype", Str("new-and-old")))
      && Lookup(config, Str("startingposition")) == Some(SectionOr(trigger, "startingposition", Str("latest")))
      && forall k :: k != Str("viewtype") && k != Str("startingposition") ==> Lookup(config, k) == Lookup(trigger, k)
  {
    if !table.Dict? then Crash
    else
      var trigger := SectionOr(table.entries, "trigger", Null);
      if !Truthy(trigger) then Ok(table)
      else
        var config := if trigger.Str? then Dict([(Str("function"), trigger)]) else trigger;
        NamedTrigger(trigger);
        var filled :- FillMissing(config, "viewtype", Str("new-and-old"), "startingposition", Str("latest"));
        Ok(Dict(Put(table.entries, Str("trigger"), filled)))
  }

  /** The trigger a function name stands for, with both defaults. */
  lemma NamedTrigger(name: Value)
    ensures FillMissing(Dict([(Str("function"), name)]), "viewtype", Str("new-and-old"), "startingposition", Str("latest"))
      == Ok(Dict([(Str("function"), name), (Str("viewtype"), Str("new-and-old")), (Str("startingposition"), Str("latest"))]))
  {
    var fn, viewtype, position := (Str("function"), name), (Str("viewtype"), Str("new-and-old")), (Str("startingposition"), Str("latest"));
    assert [fn] + [viewtype] + [position] == [fn, viewtype, position];
    FillSingle([fn]);
  }

  /** Both defaults added to a mapping holding only the function. */
  lemma FillSingle(one: Entries)
    requires |one| == 1 && one[0].0 == Str("function")
    ensures FillMissing(Dict(one), "viewtype", Str("new-and-old"), "startingposition", Str("latest"))
      == Ok(Dict(one + [(Str("viewtype"), Str("new-and-old"))] + [(Str("startingposition"), Str("latest"))]))
  {
    var two := one + [(Str("viewtype"), Str("new-and-old"))];
    assert SetDefault(one, "viewtype", Str("new-and-old")) == two by {
      assert Keys(one)[0] == one[0].0;
      PutNew(one, Str("viewtype"), Str("new-and-old"));
    }
    assert SetDefault(two, "startingposition", Str("latest")) == two + [(Str("startingposition"), Str("latest"))] by {
      assert Keys(two)[0] == two[0].0 && Keys(two)[1] == two[1].0;
      PutNew(two, Str("startingposition"), Str("latest"));
    }
  }

  // ---------------------------------------------------------------------------
  // `process_default_paths`

  /** The integration a path entry ends up with. */
  function Integration(path: Value): Value
    requires path.Dict?
  {
    SectionOr(path.entries, "integration", Str("lambda"))
  }

  /** One path: the integration defaults to `lambda`; then a dynamo path gets
      `action = GetItem`, an sqs path `method = post` and a lambda path
      `greedy = true`, each only where unset.  Anything but a mapping raises:
      either `in` does, or the assignment of `integration`, or `get`. */
  function PathDefaults(path: Value): (r: Result<Value>)
    ensures r.Ok? <==> path.Dict?
    ensures r.Ok? ==> r.value.Dict? && Lookup(r.value.entries, Str("integration")) == Some(Integration(path))
    ensures r.Ok? ==> (Lookup(r.value.entries, Str("action")) ==
      if Integration(path) == Str("dynamo") then Some(SectionOr(path.entries, "action", Str("GetItem")))
      else Lookup(path.entries, Str("action")))
    ensures r.Ok? ==> (Lookup(r.value.entries, Str("method")) ==
      if Integration(path) == Str("sqs") then Some(SectionOr(path.entries, "method", Str("post")))
      else Lookup(path.entries, Str("method")))
    ensures r.Ok? ==> (Lookup(r.value.entries, Str("greedy")) ==
      if Integration(path) == Str("lambda") then Some(SectionOr(path.entries, "greedy", Bool(true)))
      else Lookup(path.entries, Str("greedy")))
    ensures r.Ok? ==> forall k :: k != Str("integration") && k != Str("action") && k != Str("method") && k != Str("greedy") ==>
      Lookup(r.value.entries, k) == Lookup(path.entries, k)
  {
    if !path.Dict? then Crash
    else
      var es := SetDefault(path.entries, "integration", Str("lambda"));
      assert SectionOr(es, "integration", Null) == Integration(path);
      SetDefaultElsewhere(path.entries, "integration", Str("lambda"), "action", Str("GetItem"));
      SetDefaultElsewhere(path.entries, "integration", Str("lambda"), "method", Str("post"));
      SetDefaultElsewhere(path.entries, "integration", Str("lambda"), "greedy", Bool(true));
      Ok(Dict(IntegrationDefaults(es)))
  }

  /** A default for one name leaves what another name reads as it was. */
  lemma SetDefaultElsewhere(es: Entries, k: string, default: Value, other: string, otherDefault: Value)
    requires other != k
    ensures SectionOr(SetDefault(es, k, default), other, otherDefault) == SectionOr(es, other, otherDefault)
  {
    assert Lookup(SetDefault(es, k, default), Str(other)) == Lookup(es, Str(other));
  }

  /** The `match` on the integration. */
  function IntegrationDefaults(es: Entries): (r: Entries)
    ensures Lookup(r, Str("action")) ==
      if SectionOr(es, "integration", Null) == Str("dynamo") then Some(SectionOr(es, "action", Str("GetItem")))
      else Lookup(es, Str("action"))
    ensures Lookup(r, Str("method")) ==
      if SectionOr(es, "integration", Null) == Str("sqs") then Some(SectionOr(es, "method", Str("post")))
      else Lookup(es, Str("method"))
    ensures Lookup(r, Str("greedy")) ==
      if SectionOr(es, "integration", Null) == Str("lambda") then Some(SectionOr(es, "greedy", Bool(true)))
      else Lookup(es, Str("greedy"))
    ensures forall k :: k != Str("action") && k != Str("method") && k != Str("greedy") ==> Lookup(r, k) == Lookup(es, k)
  {
    var integration := SectionOr(es, "integration", Null);
    if integration == Str("dynamo") then Put(es, Str("action"), SectionOr(es, "action", Str("GetItem")))
    else if integration == Str("sqs") then Put(es, Str("method"), SectionOr(es, "method", Str("post")))
    else if integration == Str("lambda") then SetDefault(es, "greedy", Bool(true))
    else es
  }

  // ---------------------------------------------------------------------------
  // `preprocess_defaults`

  function DefaultsStep(st: State): Result<State>
  {
    var searched := SearchDefaults(st.graph);
    var functions :- SectionDefaults(searched, "functions", FunctionDefaults);
    var streamed :- StreamsStep(State(functions, st.errors));
    var tables :- SectionDefaults(streamed.graph, "tables", TableDefaults);
    var paths :- SectionDefaults(tables, "paths", PathDefaults);
    Ok(State(paths, streamed.errors))
  }

  method PreprocessDefaults(st: State) returns (r: Result<State>)
    ensures r == DefaultsStep(st)
  {
    var searched := SearchDefaults(st.graph);
    var functions := ProcessSection(searched, "functions", FunctionDefaults);
    if functions.Crash? {
      return Crash;
    }
    var streamed := ProcessDefaultStreams(State(functions.value, st.errors));
    if streamed.Crash? {
      return Crash;
    }
    var tables := ProcessSection(streamed.value.graph, "tables", TableDefaults);
    if tables.Crash? {
      return Crash;
    }
    var paths := ProcessSection(tables.value, "paths", PathDefaults);
    if paths.Crash? {
      return Crash;
    }
    return Ok(State(paths.value, streamed.value.errors));
  }

  // ---------------------------------------------------------------------------
  // What the streams loop does

  /** The error reported for each stream giving both bucket forms, in order. */
  function Conflicting(streams: Entries): seq<Error>
    decreases |streams|
  {
    if |streams| == 0 then []
    else (if BothBucketForms(streams[0].1) == Ok(true) then [StreamBothBucketForms(streams[0].1)] else [])
         + Conflicting(streams[1..])
  }

  /** The loop adds exactly one error per conflicting stream. */
  lemma {:induction false} RebuildStreamsErrors(streams: Entries, kept: Entries, found: seq<Error>)
    requires RebuildStreams(streams, kept, found).Ok?
    ensures RebuildStreams(streams, kept, found).value.1 == found + Conflicting(streams)
    decreases |streams|
  {
    if |streams| > 0 {
      var rest := Conflicting(streams[1..]);
      if BothBucketForms(streams[0].1).value {
        var e := StreamBothBucketForms(streams[0].1);
        RebuildStreamsErrors(streams[1..], kept, found + [e]);
        assert Conflicting(streams) == [e] + rest;
        AppendAssoc(found, [e], rest);
      } else {
        RebuildStreamsErrors(streams[1..], Put(kept, streams[0].0, StreamDefaults(streams[0].1).value), found);
        assert Conflicting(streams) == [] + rest;
        assert [] + rest == rest;
      }
    }
  }

  /** A conflicting stream keeps whatever the rebuilt section already had under
      its name (nothing, at the start); any other stream is in it, rewritten. */
  lemma {:induction false} RebuildStreamsLookup(streams: Entries, kept: Entries, found: seq<Error>, k: Value)
    requires UniqueKeys(streams)
    requires RebuildStreams(streams, kept, found).Ok?
    ensures k !in Keys(streams) ==> Lookup(RebuildStreams(streams, kept, found).value.0, k) == Lookup(kept, k)
    ensures k in Keys(streams) && BothBucketForms(Lookup(streams, k).value) == Ok(true) ==>
      Lookup(RebuildStreams(streams, kept, found).value.0, k) == Lookup(kept, k)
    ensures k in Keys(streams) && BothBucketForms(Lookup(streams, k).value) != Ok(true) ==>
      StreamDefaults(Lookup(streams, k).value).Ok?
      && Lookup(RebuildStreams(streams, kept, found).value.0, k) == Some(StreamDefaults(Lookup(streams, k).value).value)
    decreases |streams|
  {
    if |streams| > 0 {
      var (n, s) := streams[0];
      var rest := streams[1..];
      assert UniqueKeys(rest) by {
        forall i, j | 0 <= i < j < |rest| ensures rest[i].0 != rest[j].0 {
          assert rest[i] == streams[i + 1] && rest[j] == streams[j + 1];
        }
      }
      assert n !in Keys(rest) by {
        forall i | 0 <= i < |rest| ensures Keys(rest)[i] != n {
          assert rest[i] == streams[i + 1];
        }
      }
      assert Keys(streams) == [n] + Keys(rest);
      if BothBucketForms(s).value {
        RebuildStreamsLookup(rest, kept, found + [StreamBothBucketForms(s)], k);
      } else {
        var d := StreamDefaults(s).value;
        RebuildStreamsLookup(rest, Put(kept, n, d), found, k);
      }
    }
  }

  /** A stream giving both bucket forms is reported and, once some other
      stream survives, missing from the rebuilt section. */
  lemma ConflictingStreamDropped(st: State, es: Entries, name: Value, other: Value)
    requires Lookup(st.graph, Str("streams")) == Some(Dict(es)) && UniqueKeys(es)
    requires StreamsStep(st).Ok?
    requires name in Keys(es) && BothBucketForms(Lookup(es, name).value) == Ok(true)
    requires other in Keys(es) && BothBucketForms(Lookup(es, other).value) == Ok(false)
    ensures StreamsStep(st).value.errors == st.errors + Conflicting(es)
    ensures var after := Lookup(StreamsStep(st).value.graph, Str("streams"));
      after.Some? && after.value.Dict? && name !in Keys(after.value.entries)
      && StreamDefaults(Lookup(es, other).value).Ok?
      && Lookup(after.value.entries, other) == Some(StreamDefaults(Lookup(es, other).value).value)
  {
    assert SectionOr(st.graph, "streams", Dict([])) == Dict(es);
    var rebuilt := RebuildStreams(es, [], []).value;
    RebuildStreamsErrors(es, [], []);
    assert rebuilt.1 == Conflicting(es);
    RebuildStreamsLookup(es, [], [], name);
    RebuildStreamsLookup(es, [], [], other);
    assert other in Keys(rebuilt.0);
    assert StreamsStep(st) == Ok(State(Put(st.graph, Str("streams"), Dict(rebuilt.0)), st.errors + rebuilt.1));
  }

  /** When every stream conflicts, the section is left as it was. */
  lemma AllStreamsConflicting(st: State, es: Entries)
    requires Lookup(st.graph, Str("streams")) == Some(Dict(es)) && UniqueKeys(es)
    requires forall i :: 0 <= i < |es| ==> BothBucketForms(es[i].1) == Ok(true)
    ensures StreamsStep(st) == Ok(State(st.graph, st.errors + Conflicting(es)))
  {
    assert SectionOr(st.graph, "streams", Dict([])) == Dict(es);
    AllConflictingRebuild(es, [], []);
    RebuildStreamsErrors(es, [], []);
    var rebuilt := RebuildStreams(es, [], []).value;
    assert rebuilt.1 == Conflicting(es);
  }

  lemma {:induction false} AllConflictingRebuild(es: Entries, kept: Entries, found: seq<Error>)
    requires forall i :: 0 <= i < |es| ==> BothBucketForms(es[i].1) == Ok(true)
    ensures RebuildStreams(es, kept, found).Ok? && RebuildStreams(es, kept, found).value.0 == kept
    decreases |es|
  {
    if |es| > 0 {
      assert forall i :: 0 <= i < |es[1..]| ==> es[1..][i] == es[i + 1];
      AllConflictingRebuild(es[1..], kept, found + [StreamBothBucketForms(es[0].1)]);
    }
  }

  /** The `bucketname` shorthand becomes the single bucket `private`, whose
      prefix defaults to the empty string and whose interval is the stream's
      own, `None` when the stream has none. */
  lemma BucketNamePromoted(stream: Value)
    requires stream.Dict? && Str("bucketname") in Keys(stream.entries)
    ensures StreamDefaults(stream).Ok?
    ensures var r := StreamDefaults(stream).value;
      r.Dict? && Str("bucketname") !in Keys(r.entries)
      && Lookup(r.entries, Str("buckets")) == Some(Dict([(Str("private"), Dict([
           (Str("bucketname"), Lookup(stream.entries, Str("bucketname")).value),
           (Str("bucketprefix"), SectionOr(stream.entries, "bucketprefix", Str(""))),
           (Str("intervalinseconds"), SectionOr(stream.entries, "intervalinseconds", Null))]))]))
  {
    var promoted := PromoteBucketName(stream).value;
    var private := PrivateBucket(stream.entries);
    PrivateBucketComplete(stream.entries);
    MapValuesSingle(Str("private"), private, BucketDefaults);
    var r := Put(promoted.entries, Str("buckets"), Dict([(Str("private"), private)]));
    assert StreamDefaults(stream) == Ok(Dict(r));
  }

  lemma MapValuesSingle(k: Value, v: Value, f: Value -> Result<Value>)
    requires f(v) == Ok(v)
    ensures MapValues([(k, v)], f) == Ok([(k, v)])
  {
    var es := [(k, v)];
    assert es[1..] == [];
    assert MapValues(es[1..], f) == Ok([]);
    assert es[0].1 == v;
    assert [(es[0].0, v)] + [] == es;
  }

  /** The promoted bucket already has both defaulted fields. */
  lemma PrivateBucketComplete(stream: Entries)
    ensures BucketDefaults(PrivateBucket(stream)) == Ok(PrivateBucket(stream))
  {
    var es := PrivateBucket(stream).entries;
    assert Keys(es) == [Str("bucketname"), Str("bucketprefix"), Str("intervalinseconds")] by {
      assert Keys(es) == [es[0].0] + Keys(es[1..]);
      assert Keys(es[1..]) == [es[1].0] + Keys(es[2..]);
      assert Keys(es[2..]) == [es[2].0] + Keys(es[3..]);
    }
  }

  // ---------------------------------------------------------------------------
  // Each normaliser is idempotent

  ghost predicate Idempotent(f: Value -> Result<Value>)
  {
    forall v :: f(v).Ok? ==> f(f(v).value) == f(v)
  }

  /** Rewriting every value with an idempotent rewrite is idempotent. */
  lemma MapValuesIdempotent(es: Entries, f: Value -> Result<Value>)
    requires Idempotent(f) && MapValues(es, f).Ok?
    ensures MapValues(MapValues(es, f).value, f) == MapValues(es, f)
  {
    var m := MapValues(es, f).value;
    assert forall i :: 0 <= i < |m| ==> f(m[i].1) == f(es[i].1);
    assert MapValues(m, f).Ok?;
    assert MapValues(m, f).value == m;
  }

  lemma FillMissingIdempotent(v: Value, k1: string, d1: Value, k2: string, d2: Value)
    requires FillMissing(v, k1, d1, k2, d2).Ok?
    ensures FillMissing(FillMissing(v, k1, d1, k2, d2).value, k1, d1, k2, d2) == FillMissing(v, k1, d1, k2, d2)
  {
    if v.Dict? {
      var r := FillMissing(v, k1, d1, k2, d2).value;
      assert Str(k1) in Keys(r.entries) && Str(k2) in Keys(r.entries) by {
        assert Lookup(r.entries, Str(k1)).Some?;
        if k1 != k2 {
          assert Lookup(r.entries, Str(k2)).Some?;
        }
      }
    }
  }

  /** A truthy collection that can be iterated has something to iterate. */
  lemma IterTruthy(v: Value)
    requires Truthy(v) && Iter(v).Ok?
    ensures |Iter(v).value| > 0
  {
  }

  lemma FunctionDefaultsIdempotent(fn: Value)
    requires FunctionDefaults(fn).Ok?
    ensures FunctionDefaults(FunctionDefaults(fn).value) == FunctionDefaults(fn)
  {
    var r := FunctionDefaults(fn).value;
    DefaultedPollsNamed(fn);
    DefaultedSearchesSet(fn);
    FunctionFixed(r.entries);
  }

  /** After the defaults, truthy polls are a list with no bare name left. */
  lemma DefaultedPollsNamed(fn: Value)
    requires FunctionDefaults(fn).Ok?
    ensures
      var polls := SectionOr(FunctionDefaults(fn).value.entries, "polls", Null);
      Truthy(polls) ==> polls.List? && forall i :: 0 <= i < |polls.items| ==> !polls.items[i].Str?
  {
    var r := FunctionDefaults(fn).value;
    var polls := Field(fn, "polls");
    if Truthy(polls) {
      IterTruthy(polls);
      assert Field(r, "polls") == Lookup(r.entries, Str("polls")).value;
    } else {
      assert Field(r, "polls") == polls;
    }
  }

  /** After the defaults, a `searches` entry is never empty. */
  lemma DefaultedSearchesSet(fn: Value)
    requires FunctionDefaults(fn).Ok?
    ensures
      var searches := Lookup(FunctionDefaults(fn).value.entries, Str("searches"));
      searches.Some? ==> Truthy(searches.value)
  {
  }

  /** A function whose polls are already named and whose `searches` is not
      empty is left as it is. */
  lemma FunctionFixed(es: Entries)
    requires Truthy(SectionOr(es, "polls", Null)) ==>
      SectionOr(es, "polls", Null).List? && forall i :: 0 <= i < |SectionOr(es, "polls", Null).items| ==> !SectionOr(es, "polls", Null).items[i].Str?
    requires Lookup(es, Str("searches")).Some? ==> Truthy(Lookup(es, Str("searches")).value)
    ensures FunctionDefaults(Dict(es)) == Ok(Dict(es))
  {
    var polls := SectionOr(es, "polls", Null);
    if Truthy(polls) {
      var items := polls.items;
      var named := seq(|items|, i requires 0 <= i < |items| => PollDefault(items[i]));
      assert named == items;
      assert Lookup(es, Str("polls")) == Some(polls);
      PutSame(es, Str("polls"), List(items));
      assert NamePolls(es, polls) == Ok(es);
    }
  }

  lemma TableDefaultsIdempotent(table: Value)
    requires TableDefaults(table).Ok?
    ensures TableDefaults(TableDefaults(table).value) == TableDefaults(table)
  {
    var trigger := Field(table, "trigger");
    if Truthy(trigger) {
      var r := TableDefaults(table).value;
      var config := if trigger.Str? then Dict([(Str("function"), trigger)]) else trigger;
      var filled := FillMissing(config, "viewtype", Str("new-and-old"), "startingposition", Str("latest")).value;
      assert r.entries == Put(table.entries, Str("trigger"), filled);
      FillMissingIdempotent(config, "viewtype", Str("new-and-old"), "startingposition", Str("latest"));
      assert Field(r, "trigger") == filled;
      if filled.Dict? {
        assert Str("viewtype") in Keys(filled.entries) by {
          assert Lookup(filled.entries, Str("viewtype")).Some?;
        }
      }
      assert Truthy(filled) && !filled.Str?;
      PutSame(r.entries, Str("trigger"), filled);
    }
  }

  lemma PathDefaultsIdempotent(path: Value)
    requires PathDefaults(path).Ok?
    ensures PathDefaults(PathDefaults(path).value) == PathDefaults(path)
  {
    var r := PathDefaults(path).value;
    assert Str("integration") in Keys(r.entries) by {
      assert Lookup(r.entries, Str("integration")).Some?;
    }
    assert SetDefault(r.entries, "integration", Str("lambda")) == r.entries;
    var integration := Integration(path);
    assert SectionOr(r.entries, "integration", Null) == integration;
    if integration == Str("dynamo") {
      PutSame(r.entries, Str("action"), SectionOr(r.entries, "action", Str("GetItem")));
    } else if integration == Str("sqs") {
      PutSame(r.entries, Str("method"), SectionOr(r.entries, "method", Str("post")));
    } else if integration == Str("lambda") {
      assert Lookup(r.entries, Str("greedy")).Some?;
    }
  }

  lemma DefaultsIdempotentEntries()
    ensures Idempotent(FunctionDefaults)
    ensures Idempotent(BucketDefaults)
    ensures Idempotent(TableDefaults)
    ensures Idempotent(PathDefaults)
  {
    forall v | FunctionDefaults(v).Ok? ensures FunctionDefaults(FunctionDefaults(v).value) == FunctionDefaults(v) {
      FunctionDefaultsIdempotent(v);
    }
    forall v | BucketDefaults(v).Ok? ensures BucketDefaults(BucketDefaults(v).value) == BucketDefaults(v) {
      FillMissingIdempotent(v, "bucketprefix", Str(""), "intervalinseconds", Int(StreamIntervalSeconds));
    }
    forall v | TableDefaults(v).Ok? ensures TableDefaults(TableDefaults(v).value) == TableDefaults(v) {
      TableDefaultsIdempotent(v);
    }
    forall v | PathDefaults(v).Ok? ensures PathDefaults(PathDefaults(v).value) == PathDefaults(v) {
      PathDefaultsIdempotent(v);
    }
  }

  // ---------------------------------------------------------------------------
  // Sections already normalised are left alone

  /** Every entry of the section is a fixed point of its rewrite. */
  ghost predicate Normalised(section: Option<Value>, f: Value -> Result<Value>)
  {
    section.Some? ==> section.value.Dict? && MapValues(section.value.entries, f) == Ok(section.value.entries)
  }

  lemma SectionDefaultsFixed(g: Entries, name: string, f: Value -> Result<Value>)
    requires Normalised(Lookup(g, Str(name)), f)
    ensures SectionDefaults(g, name, f) == Ok(g)
  {
    if Lookup(g, Str(name)).Some? {
      PutSame(g, Str(name), Lookup(g, Str(name)).value);
    }
  }

  lemma SectionDefaultsNormalises(g: Entries, name: string, f: Value -> Result<Value>)
    requires Idempotent(f) && SectionDefaults(g, name, f).Ok?
    ensures Normalised(Lookup(SectionDefaults(g, name, f).value, Str(name)), f)
  {
    if Lookup(g, Str(name)).Some? {
      MapValuesIdempotent(Lookup(g, Str(name)).value.entries, f);
    }
  }

  /** A stream the loop keeps as it is. */
  ghost predicate StreamNormal(s: Value)
  {
    BothBucketForms(s) == Ok(false) && StreamDefaults(s) == Ok(s)
  }

  /** A stream without the shorthand whose buckets are all defaulted is
      normal. */
  lemma NormalStream(s: Value)
    requires s.Dict? && Str("bucketname") !in Keys(s.entries)
    requires Lookup(s.entries, Str("buckets")).Some? ==>
      Lookup(s.entries, Str("buckets")).value.Dict?
      && MapValues(Lookup(s.entries, Str("buckets")).value.entries, BucketDefaults) == Ok(Lookup(s.entries, Str("buckets")).value.entries)
    ensures StreamNormal(s)
  {
    assert PromoteBucketName(s) == Ok(s);
    if Lookup(s.entries, Str("buckets")).Some? {
      PutSame(s.entries, Str("buckets"), Lookup(s.entries, Str("buckets")).value);
    }
  }

  lemma StreamDefaultsNormal(s: Value)
    requires BothBucketForms(s) == Ok(false) && StreamDefaults(s).Ok?
    ensures StreamNormal(StreamDefaults(s).value)
  {
    DefaultsIdempotentEntries();
    var promoted := PromoteBucketName(s).value;
    var r := StreamDefaults(s).value;
    assert Str("bucketname") !in Keys(promoted.entries) by {
      if Str("bucketname") in Keys(s.entries) {
        assert Has(s, "buckets") == Ok(false);
      }
    }
    match Lookup(promoted.entries, Str("buckets")) {
      case None =>
        assert r == promoted;
      case Some(buckets) =>
        var d := MapValues(buckets.entries, BucketDefaults).value;
        assert r == Dict(Put(promoted.entries, Str("buckets"), Dict(d)));
        MapValuesIdempotent(buckets.entries, BucketDefaults);
    }
    NormalStream(r);
  }

  /** The rebuilt section: no name twice, every stream normal. */
  ghost predicate RebuiltNormal(kept: Entries)
  {
    UniqueKeys(kept) && forall k :: k in Keys(kept) ==> StreamNormal(Lookup(kept, k).value)
  }

  lemma {:induction false} RebuildStreamsNormal(streams: Entries, kept: Entries, found: seq<Error>)
    requires RebuiltNormal(kept) && RebuildStreams(streams, kept, found).Ok?
    ensures RebuiltNormal(RebuildStreams(streams, kept, found).value.0)
    decreases |streams|
  {
    if |streams| > 0 {
      if BothBucketForms(streams[0].1).value {
        RebuildStreamsNormal(streams[1..], kept, found + [StreamBothBucketForms(streams[0].1)]);
      } else {
        var d := StreamDefaults(streams[0].1).value;
        StreamDefaultsNormal(streams[0].1);
        PutUnique(kept, streams[0].0, d);
        RebuildStreamsNormal(streams[1..], Put(kept, streams[0].0, d), found);
      }
    }
  }

  /** Rebuilding a section of normal streams gives it back. */
  lemma {:induction false} RebuildNormalStreams(streams: Entries, kept: Entries, found: seq<Error>)
    requires UniqueKeys(kept + streams)
    requires forall i :: 0 <= i < |streams| ==> StreamNormal(streams[i].1)
    ensures RebuildStreams(streams, kept, found) == Ok((kept + streams, found))
    decreases |streams|
  {
    if |streams| == 0 {
      assert kept + streams == kept;
    } else {
      var (n, s) := streams[0];
      assert n !in Keys(kept) by {
        forall i | 0 <= i < |kept| ensures Keys(kept)[i] != n {
          assert (kept + streams)[i] == kept[i] && (kept + streams)[|kept|] == streams[0];
        }
      }
      assert StreamNormal(s);
      PutNew(kept, n, s);
      assert RebuildStreams(streams, kept, found) == RebuildStreams(streams[1..], kept + [(n, s)], found);
      AppendHead(kept, streams);
      assert forall i :: 0 <= i < |streams[1..]| ==> StreamNormal(streams[1..][i].1) by {
        forall i | 0 <= i < |streams[1..]| ensures StreamNormal(streams[1..][i].1) {
          assert streams[1..][i] == streams[i + 1];
        }
      }
      RebuildNormalStreams(streams[1..], kept + [(n, s)], found);
    }
  }

  /** The streams section is as the loop would leave it. */
  ghost predicate StreamsNormalised(section: Option<Value>)
  {
    section.Some? ==>
      section.value.Dict?
      && var rebuilt := RebuildStreams(section.value.entries, [], []);
      rebuilt.Ok? && (rebuilt.value.0 == [] || rebuilt.value.0 == section.value.entries)
  }

  lemma StreamsStepFixed(st: State)
    requires StreamsNormalised(Lookup(st.graph, Str("streams")))
    ensures StreamsStep(st).Ok? && StreamsStep(st).value.graph == st.graph
  {
    match Lookup(st.graph, Str("streams")) {
      case None =>
        assert RebuildStreams([], [], []) == Ok(([], []));
      case Some(section) =>
        PutSame(st.graph, Str("streams"), section);
    }
  }

  lemma StreamsStepNormalises(st: State)
    requires StreamsStep(st).Ok?
    ensures StreamsNormalised(Lookup(StreamsStep(st).value.graph, Str("streams")))
  {
    var streams := Items(SectionOr(st.graph, "streams", Dict([]))).value;
    var kept := RebuildStreams(streams, [], []).value.0;
    if |kept| > 0 {
      assert RebuiltNormal([]);
      RebuildStreamsNormal(streams, [], []);
      forall i | 0 <= i < |kept| ensures StreamNormal(kept[i].1) {
        LookupUnique(kept, i);
      }
      assert [] + kept == kept;
      RebuildNormalStreams(kept, [], []);
    }
  }

  /** The streams loop rewrites no other section and adds none. */
  lemma StreamsStepKeeps(st: State, k: Value)
    requires StreamsStep(st).Ok?
    ensures Keys(StreamsStep(st).value.graph) == Keys(st.graph)
    ensures k != Str("streams") ==> Lookup(StreamsStep(st).value.graph, k) == Lookup(st.graph, k)
  {
    if Lookup(st.graph, Str("streams")).None? {
      assert RebuildStreams([], [], []) == Ok(([], []));
    }
  }

  /** The defaults only append to the errors: the streams conflicts. */
  lemma DefaultsKeepErrors(st: State)
    requires DefaultsStep(st).Ok?
    ensures st.errors <= DefaultsStep(st).value.errors
  {
    var g1 := SearchDefaults(st.graph);
    var g2 := SectionDefaults(g1, "functions", FunctionDefaults).value;
    var st3 := StreamsStep(State(g2, st.errors)).value;
    assert DefaultsStep(st).value.errors == st3.errors;
  }

  /** The five sections the defaults touch. */
  predicate Defaulted(k: Value)
  {
    k == Str("search") || k == Str("functions") || k == Str("streams") || k == Str("tables") || k == Str("paths")
  }

  /** Defaults add no section and remove none, and leave every other
      section as it was. */
  lemma DefaultsKeepOtherSections(st: State)
    requires DefaultsStep(st).Ok?
    ensures Keys(DefaultsStep(st).value.graph) == Keys(st.graph)
    ensures forall k :: !Defaulted(k) ==> Lookup(DefaultsStep(st).value.graph, k) == Lookup(st.graph, k)
  {
    forall k | !Defaulted(k) ensures Lookup(DefaultsStep(st).value.graph, k) == Lookup(st.graph, k) {
      AfterDefaultsOther(st, k);
    }
    AfterDefaultsOther(st, Str("search"));
  }

  /** Where a lookup of one section stands after each normaliser that is not
      its own. */
  lemma AfterDefaultsOther(st: State, k: Value)
    requires DefaultsStep(st).Ok?
    ensures Keys(DefaultsStep(st).value.graph) == Keys(st.graph)
    ensures k != Str("search") && k != Str("functions") && k != Str("streams") && k != Str("tables") && k != Str("paths") ==>
      Lookup(DefaultsStep(st).value.graph, k) == Lookup(st.graph, k)
    ensures k == Str("search") ==> Lookup(DefaultsStep(st).value.graph, k) == Lookup(SearchDefaults(st.graph), k)
    ensures k == Str("functions") ==>
      Lookup(DefaultsStep(st).value.graph, k) == Lookup(SectionDefaults(SearchDefaults(st.graph), "functions", FunctionDefaults).value, k)
    ensures k == Str("streams") ==>
      var g2 := SectionDefaults(SearchDefaults(st.graph), "functions", FunctionDefaults).value;
      Lookup(DefaultsStep(st).value.graph, k) == Lookup(StreamsStep(State(g2, st.errors)).value.graph, k)
  {
    var g1 := SearchDefaults(st.graph);
    var g2 := SectionDefaults(g1, "functions", FunctionDefaults).value;
    var st3 := StreamsStep(State(g2, st.errors)).value;
    var g4 := SectionDefaults(st3.graph, "tables", TableDefaults).value;
    StreamsStepKeeps(State(g2, st.errors), k);
    if k != Str("tables") && k != Str("paths") {
      SectionDefaultsOther(st3.graph, "tables", TableDefaults, k);
      SectionDefaultsOther(g4, "paths", PathDefaults, k);
    }
    if k != Str("functions") && k != Str("streams") && k != Str("tables") && k != Str("paths") {
      SectionDefaultsOther(g1, "functions", FunctionDefaults, k);
    }
  }

  /** `preprocess_defaults` applied to its own result changes nothing more in
      the graph (only the streams conflict, when no stream survives it, is
      reported again). */
  lemma DefaultsIdempotent(st: State, errors: seq<Error>)
    requires DefaultsStep(st).Ok?
    ensures DefaultsStep(State(DefaultsStep(st).value.graph, errors)).Ok?
    ensures DefaultsStep(State(DefaultsStep(st).value.graph, errors)).value.graph == DefaultsStep(st).value.graph
  {
    AfterDefaultsSearch(st);
    AfterDefaultsFunctions(st);
    AfterDefaultsStreams(st);
    AfterDefaultsTables(st);
    AfterDefaultsPaths(st);
    DefaultedFixed(DefaultsStep(st).value.graph, errors);
  }

  lemma AfterDefaultsSearch(st: State)
    requires DefaultsStep(st).Ok?
    ensures var g := DefaultsStep(st).value.graph;
      Lookup(g, Str("search")).None? || Truthy(Lookup(g, Str("search")).value)
  {
    AfterDefaultsOther(st, Str("search"));
    SearchDefaultsTruthy(st.graph);
  }

  lemma SearchDefaultsTruthy(g: Entries)
    ensures var s := Lookup(SearchDefaults(g), Str("search")); s.None? || Truthy(s.value)
  {
    match Lookup(g, Str("search")) {
      case None =>
      case Some(v) =>
        if !Truthy(v) {
          assert Truthy(Dict([(Str("searchable"), Dict([]))]));
        }
    }
  }

  lemma AfterDefaultsFunctions(st: State)
    requires DefaultsStep(st).Ok?
    ensures Normalised(Lookup(DefaultsStep(st).value.graph, Str("functions")), FunctionDefaults)
  {
    AfterDefaultsOther(st, Str("functions"));
    DefaultsIdempotentEntries();
    SectionDefaultsNormalises(SearchDefaults(st.graph), "functions", FunctionDefaults);
  }

  lemma AfterDefaultsStreams(st: State)
    requires DefaultsStep(st).Ok?
    ensures StreamsNormalised(Lookup(DefaultsStep(st).value.graph, Str("streams")))
  {
    AfterDefaultsOther(st, Str("streams"));
    var g1 := SearchDefaults(st.graph);
    var g2 := SectionDefaults(g1, "functions", FunctionDefaults).value;
    StreamsStepNormalises(State(g2, st.errors));
  }

  lemma AfterDefaultsTables(st: State)
    requires DefaultsStep(st).Ok?
    ensures Normalised(Lookup(DefaultsStep(st).value.graph, Str("tables")), TableDefaults)
  {
    var g1 := SearchDefaults(st.graph);
    var g2 := SectionDefaults(g1, "functions", FunctionDefaults).value;
    var st3 := StreamsStep(State(g2, st.errors)).value;
    var g4 := SectionDefaults(st3.graph, "tables", TableDefaults).value;
    assert DefaultsStep(st).value.graph == SectionDefaults(g4, "paths", PathDefaults).value;
    SectionDefaultsOther(g4, "paths", PathDefaults, Str("tables"));
    DefaultsIdempotentEntries();
    SectionDefaultsNormalises(st3.graph, "tables", TableDefaults);
  }

  lemma AfterDefaultsPaths(st: State)
    requires DefaultsStep(st).Ok?
    ensures Normalised(Lookup(DefaultsStep(st).value.graph, Str("paths")), PathDefaults)
  {
    var g1 := SearchDefaults(st.graph);
    var g2 := SectionDefaults(g1, "functions", FunctionDefaults).value;
    var st3 := StreamsStep(State(g2, st.errors)).value;
    var g4 := SectionDefaults(st3.graph, "tables", TableDefaults).value;
    DefaultsIdempotentEntries();
    SectionDefaultsNormalises(g4, "paths", PathDefaults);
  }

  /** A graph whose five sections are each normalised is a fixed point. */
  lemma DefaultedFixed(g: Entries, errors: seq<Error>)
    requires Lookup(g, Str("search")).None? || Truthy(Lookup(g, Str("search")).value)
    requires Normalised(Lookup(g, Str("functions")), FunctionDefaults)
    requires StreamsNormalised(Lookup(g, Str("streams")))
    requires Normalised(Lookup(g, Str("tables")), TableDefaults)
    requires Normalised(Lookup(g, Str("paths")), PathDefaults)
    ensures DefaultsStep(State(g, errors)).Ok? && DefaultsStep(State(g, errors)).value.graph == g
  {
    assert SearchDefaults(g) == g;
    SectionDefaultsFixed(g, "functions", FunctionDefaults);
    StreamsStepFixed(State(g, errors));
    SectionDefaultsFixed(g, "tables", TableDefaults);
    SectionDefaultsFixed(g, "paths", PathDefaults);
  }
}
