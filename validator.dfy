/** The semantic checks run on the fully preprocessed resource graph.  Each
    check walks one section and appends an error to the shared error list for
    every rule an entry breaks; none of them changes the graph, which every
    member here takes as a value and none returns.  A value of the wrong shape
    (a section that is not a mapping, a missing `public`, `queue` or
    `function` key, an unhashable reference) raises, as the implementation
    does, and ends in `Crash`.

    Every check is specified as a function from the errors gathered so far to
    the errors after it, the way the implementation threads one list through
    all of them. */
module Validator {
  import opened Outcomes
  import opened Values
  import opened Files
  import opened Diagnostics

  // ---------------------------------------------------------------------------
  // Walking a sequence

  /** Each element's errors appended in turn to `acc`. */
  function Collect<T>(xs: seq<T>, check: T -> Result<seq<Error>>, acc: seq<Error>): (r: Result<seq<Error>>)
    ensures r.Ok? <==> forall i :: 0 <= i < |xs| ==> check(xs[i]).Ok?
    decreases |xs|
  {
    if |xs| == 0 then Ok(acc)
    else
      assert forall i :: 0 < i < |xs| ==> xs[1..][i - 1] == xs[i];
      var found :- check(xs[0]);
      Collect(xs[1..], check, acc + found)
  }

  /** Each element checked in turn by a step that extends the error list. */
  function Fold<T>(xs: seq<T>, step: (seq<Error>, T) -> Result<seq<Error>>, acc: seq<Error>): Result<seq<Error>>
    decreases |xs|
  {
    if |xs| == 0 then Ok(acc)
    else
      var next :- step(acc, xs[0]);
      Fold(xs[1..], step, next)
  }

  lemma CollectStep<T>(xs: seq<T>, i: nat, check: T -> Result<seq<Error>>, acc: seq<Error>)
    requires i < |xs| && check(xs[i]).Ok?
    ensures Collect(xs[i..], check, acc) == Collect(xs[i + 1..], check, acc + check(xs[i]).value)
  {
    assert xs[i..][0] == xs[i];
    assert xs[i..][1..] == xs[i + 1..];
  }

  /** A check that raises on the next element makes the rest of the run raise. */
  lemma CollectCrash<T>(xs: seq<T>, i: nat, check: T -> Result<seq<Error>>, acc: seq<Error>)
    requires i < |xs| && check(xs[i]).Crash?
    ensures Collect(xs[i..], check, acc).Crash?
  {
    assert xs[i..][0] == xs[i];
  }

  /** A step that raises ends the run with it. */
  lemma FoldCrash<T>(xs: seq<T>, i: nat, step: (seq<Error>, T) -> Result<seq<Error>>, acc: seq<Error>)
    requires i < |xs| && step(acc, xs[i]).Crash?
    ensures Fold(xs[i..], step, acc).Crash?
  {
    assert xs[i..][0] == xs[i];
  }

  lemma FoldStep<T>(xs: seq<T>, i: nat, step: (seq<Error>, T) -> Result<seq<Error>>, acc: seq<Error>)
    requires i < |xs| && step(acc, xs[i]).Ok?
    ensures Fold(xs[i..], step, acc) == Fold(xs[i + 1..], step, step(acc, xs[i]).value)
  {
    assert xs[i..][0] == xs[i];
    assert xs[i..][1..] == xs[i + 1..];
  }

  /** An error is in the result exactly when it was there before or the check
      of some element reports it. */
  lemma {:induction false} CollectMember<T>(xs: seq<T>, check: T -> Result<seq<Error>>, acc: seq<Error>, e: Error)
    requires Collect(xs, check, acc).Ok?
    ensures e in Collect(xs, check, acc).value <==> e in acc || exists i :: 0 <= i < |xs| && e in check(xs[i]).value
    decreases |xs|
  {
    if |xs| > 0 {
      var found := check(xs[0]).value;
      CollectMember(xs[1..], check, acc + found, e);
      if exists j :: 0 <= j < |xs[1..]| && e in check(xs[1..][j]).value {
        var j :| 0 <= j < |xs[1..]| && e in check(xs[1..][j]).value;
        assert xs[1..][j] == xs[j + 1];
      }
      if exists i :: 0 <= i < |xs| && e in check(xs[i]).value {
        var i :| 0 <= i < |xs| && e in check(xs[i]).value;
        if i > 0 {
          assert xs[1..][i - 1] == xs[i];
        }
      }
    }
  }

  /** The errors gathered before are kept, in front. */
  lemma {:induction false} CollectGrows<T>(xs: seq<T>, check: T -> Result<seq<Error>>, acc: seq<Error>)
    requires Collect(xs, check, acc).Ok?
    ensures acc <= Collect(xs, check, acc).value
    decreases |xs|
  {
    if |xs| > 0 {
      CollectGrows(xs[1..], check, acc + check(xs[0]).value);
    }
  }

  /** Steps that keep the errors gathered before keep them over the walk. */
  lemma {:induction false} FoldGrows<T>(xs: seq<T>, step: (seq<Error>, T) -> Result<seq<Error>>, acc: seq<Error>)
    requires forall a, i :: 0 <= i < |xs| && step(a, xs[i]).Ok? ==> a <= step(a, xs[i]).value
    requires Fold(xs, step, acc).Ok?
    ensures acc <= Fold(xs, step, acc).value
    decreases |xs|
  {
    if |xs| > 0 {
      assert forall i :: 0 <= i < |xs[1..]| ==> xs[1..][i] == xs[i + 1];
      assert acc <= step(acc, xs[0]).value;
      FoldGrows(xs[1..], step, step(acc, xs[0]).value);
    }
  }

  /** Checks that report at most one error each add at most one per element. */
  lemma {:induction false} CollectAtMostOne<T>(xs: seq<T>, check: T -> Result<seq<Error>>, acc: seq<Error>)
    requires Collect(xs, check, acc).Ok?
    requires forall i :: 0 <= i < |xs| ==> |check(xs[i]).value| <= 1
    ensures |Collect(xs, check, acc).value| <= |acc| + |xs|
    decreases |xs|
  {
    if |xs| > 0 {
      assert forall i :: 0 <= i < |xs[1..]| ==> xs[1..][i] == xs[i + 1];
      CollectAtMostOne(xs[1..], check, acc + check(xs[0]).value);
    }
  }

  /** When no element reports anything the errors are as they were. */
  lemma {:induction false} CollectNone<T>(xs: seq<T>, check: T -> Result<seq<Error>>, acc: seq<Error>)
    requires forall i :: 0 <= i < |xs| ==> check(xs[i]) == Ok([])
    ensures Collect(xs, check, acc) == Ok(acc)
    decreases |xs|
  {
    if |xs| > 0 {
      assert forall i :: 0 <= i < |xs[1..]| ==> xs[1..][i] == xs[i + 1];
      assert acc + [] == acc;
      CollectNone(xs[1..], check, acc);
    }
  }

  /** When only the element at `p` reports anything, its errors are all that
      is added. */
  lemma {:induction false} CollectOnly<T>(xs: seq<T>, check: T -> Result<seq<Error>>, acc: seq<Error>, p: nat)
    requires p < |xs| && check(xs[p]).Ok?
    requires forall i :: 0 <= i < |xs| && i != p ==> check(xs[i]) == Ok([])
    ensures Collect(xs, check, acc) == Ok(acc + check(xs[p]).value)
    decreases |xs|
  {
    assert forall i :: 0 <= i < |xs[1..]| ==> xs[1..][i] == xs[i + 1];
    if p == 0 {
      CollectNone(xs[1..], check, acc + check(xs[0]).value);
    } else {
      assert acc + [] == acc;
      CollectOnly(xs[1..], check, acc, p - 1);
    }
  }

  /** `resources_data.get(name, {}).items()`. */
  function SectionItems(g: Entries, name: string): Result<Entries>
  {
    Items(SectionOr(g, name, Dict([])))
  }

  /** `d.get(k)` with a key that is itself a value of the graph: a TypeError
      when `d` is not a dict or `k` cannot be hashed; `None` when absent. */
  function GetKey(d: Value, k: Value): Result<Value>
  {
    if d.Dict? && Hashable(k) then Ok(match Lookup(d.entries, k) case Some(x) => x case None => Null)
    else Crash
  }

  /** `d.values()`. */
  function ValuesOf(d: Value): (r: Result<seq<Value>>)
    ensures r.Ok? ==> d.Dict? && |r.value| == |d.entries|
  {
    if d.Dict? then Ok(seq(|d.entries|, i requires 0 <= i < |d.entries| => d.entries[i].1)) else Crash
  }

  // ---------------------------------------------------------------------------
  // Buckets

  /** Only the bucket named `private` is checked: it must not be public. */
  function BucketCheck(bucket: (Value, Value)): Result<seq<Error>>
  {
    if bucket.0 != Str("private") then Ok([])
    else
      var public :- Index(bucket.1, "public");
      Ok(if Truthy(public) then [PrivateBucketPublic(bucket.0)] else [])
  }

  function BucketErrors(g: Entries, errors: seq<Error>): Result<seq<Error>>
  {
    var buckets :- SectionItems(g, "buckets");
    Collect(buckets, BucketCheck, errors)
  }

  /** `validate_buckets`. */
  method ValidateBuckets(g: Entries, errors: seq<Error>) returns (r: Result<seq<Error>>)
    ensures r == BucketErrors(g, errors)
  {
    var section := SectionItems(g, "buckets");
    if section.Crash? {
      return Crash;
    }
    var buckets := section.value;
    var acc := errors;
    var i := 0;
    while i < |buckets|
      invariant 0 <= i <= |buckets|
      invariant Collect(buckets[i..], BucketCheck, acc) == Collect(buckets, BucketCheck, errors)
    {
      var (bucket, details) := buckets[i];
      if bucket == Str("private") {
        var public := Index(details, "public");
        if public.Crash? {
          return Crash;
        }
        CollectStep(buckets, i, BucketCheck, acc);
        if Truthy(public.value) {
          acc := acc + [PrivateBucketPublic(bucket)];
        } else {
          assert acc + [] == acc;
        }
      } else {
        CollectStep(buckets, i, BucketCheck, acc);
        assert acc + [] == acc;
      }
      i := i + 1;
    }
    assert buckets[i..] == [];
    return Ok(acc);
  }

  /** The private bucket set public, the only thing the bucket check refuses. */
  predicate PublicPrivate(buckets: Entries)
  {
    match Lookup(buckets, Str("private"))
    case None => false
    case Some(details) => Index(details, "public").Ok? && Truthy(Index(details, "public").value)
  }

  /** In a mapping of buckets, exactly one error when `private` is public and
      none otherwise. */
  lemma BucketsOneError(g: Entries, buckets: Entries, errors: seq<Error>)
    requires Lookup(g, Str("buckets")) == Some(Dict(buckets)) && UniqueKeys(buckets)
    requires BucketErrors(g, errors).Ok?
    ensures BucketErrors(g, errors).value == errors + if PublicPrivate(buckets) then [PrivateBucketPublic(Str("private"))] else []
  {
    if p :| 0 <= p < |buckets| && buckets[p].0 == Str("private") {
      forall i | 0 <= i < |buckets| && i != p ensures BucketCheck(buckets[i]) == Ok([]) {
      }
      CollectOnly(buckets, BucketCheck, errors, p);
      LookupUnique(buckets, p);
    } else {
      CollectNone(buckets, BucketCheck, errors);
      assert Str("private") !in Keys(buckets);
      assert errors + [] == errors;
    }
  }

  // ---------------------------------------------------------------------------
  // Streams

  /** One bucket entry of a stream: it names a bucket of the graph, or an
      external bucket by ARN, and exactly one of the two. */
  function StreamBucketCheck(g: Entries, stream: Value, bucket: Value): Result<seq<Error>>
  {
    var named :- Has(bucket, "bucketname");
    var external :- Has(bucket, "extbucketarn");
    if !named && !external then Ok([StreamBucketUnnamed(stream)])
    else if named && external then Ok([StreamBucketBothForms(stream)])
    else if named then
      var name :- Index(bucket, "bucketname");
      var buckets :- Index(Dict(g), "buckets");
      var found :- GetKey(buckets, name);
      Ok(if found == Null then [StreamBucketUnknown(stream, name)] else [])
    else
      var arn :- Index(bucket, "extbucketarn");
      if !arn.Str? then Crash
      else Ok(if ValidArn(arn.s) then [] else [StreamArnInvalid(stream)])
  }

  /** An S3 bucket ARN, or the placeholder an override is expected to replace. */
  predicate ValidArn(arn: string)
  {
    "arn:aws:s3:::" <= arn || arn == "<overriden>"
  }

  function StreamBucketCheckFor(g: Entries, stream: Value): Value -> Result<seq<Error>>
  {
    bucket => StreamBucketCheck(g, stream, bucket)
  }

  /** The bucket entries of one stream. */
  function StreamStep(g: Entries, acc: seq<Error>, stream: (Value, Value)): Result<seq<Error>>
  {
    var buckets :- Get(stream.1, "buckets", Dict([]));
    var values :- ValuesOf(buckets);
    Collect(values, StreamBucketCheckFor(g, stream.0), acc)
  }

  function StreamStepFor(g: Entries): (seq<Error>, (Value, Value)) -> Result<seq<Error>>
  {
    (acc, stream) => StreamStep(g, acc, stream)
  }

  function StreamErrors(g: Entries, errors: seq<Error>): Result<seq<Error>>
  {
    var streams :- SectionItems(g, "streams");
    Fold(streams, StreamStepFor(g), errors)
  }

  /** `validate_streams`: the stream entries, and within each its buckets. */
  method ValidateStreams(g: Entries, errors: seq<Error>) returns (r: Result<seq<Error>>)
    ensures r == StreamErrors(g, errors)
  {
    var section := SectionItems(g, "streams");
    if section.Crash? {
      return Crash;
    }
    var streams := section.value;
    var acc := errors;
    var i := 0;
    while i < |streams|
      invariant 0 <= i <= |streams|
      invariant Fold(streams[i..], StreamStepFor(g), acc) == Fold(streams, StreamStepFor(g), errors)
    {
      var (stream, details) := streams[i];
      var listed := Get(details, "buckets", Dict([]));
      if listed.Crash? || !listed.value.Dict? {
        return Crash;
      }
      var values := ValuesOf(listed.value).value;
      ghost var before := acc;
      var j := 0;
      while j < |values|
        invariant 0 <= j <= |values|
        invariant Collect(values[j..], StreamBucketCheckFor(g, stream), acc)
               == Collect(values, StreamBucketCheckFor(g, stream), before)
      {
        var found := StreamBucketCheck(g, stream, values[j]);
        if found.Crash? {
          return Crash;
        }
        CollectStep(values, j, StreamBucketCheckFor(g, stream), acc);
        acc := acc + found.value;
        j := j + 1;
      }
      assert values[j..] == [];
      assert StreamStep(g, before, streams[i]) == Ok(acc);
      FoldStep(streams, i, StreamStepFor(g), before);
      i := i + 1;
    }
    assert streams[i..] == [];
    return Ok(acc);
  }

  /** Each bucket entry of a stream adds at most one error, and which one
      follows the order of the rules: neither form, then both forms, then an
      unknown bucket name, then an ARN that is not one. */
  lemma StreamBucketOneRule(g: Entries, stream: Value, bucket: Value)
    requires StreamBucketCheck(g, stream, bucket).Ok?
    ensures |StreamBucketCheck(g, stream, bucket).value| <= 1
    ensures StreamBucketCheck(g, stream, bucket).value == [StreamBucketUnnamed(stream)]
      <==> Has(bucket, "bucketname") == Ok(false) && Has(bucket, "extbucketarn") == Ok(false)
    ensures StreamBucketCheck(g, stream, bucket).value == [StreamBucketBothForms(stream)]
      <==> Has(bucket, "bucketname") == Ok(true) && Has(bucket, "extbucketarn") == Ok(true)
    ensures Has(bucket, "bucketname") == Ok(true) && Has(bucket, "extbucketarn") == Ok(false) ==>
      StreamBucketCheck(g, stream, bucket).value
        == if GetKey(Index(Dict(g), "buckets").value, Index(bucket, "bucketname").value).value == Null
           then [StreamBucketUnknown(stream, Index(bucket, "bucketname").value)] else []
    ensures Has(bucket, "bucketname") == Ok(false) && Has(bucket, "extbucketarn") == Ok(true) ==>
      StreamBucketCheck(g, stream, bucket).value
        == if ValidArn(Index(bucket, "extbucketarn").value.s) then [] else [StreamArnInvalid(stream)]
  {
  }

  /** A stream adds at most one error per bucket entry. */
  lemma StreamErrorsBounded(g: Entries, acc: seq<Error>, stream: (Value, Value))
    requires StreamStep(g, acc, stream).Ok?
    ensures |StreamStep(g, acc, stream).value| <= |acc| + |Get(stream.1, "buckets", Dict([])).value.entries|
  {
    var values := ValuesOf(Get(stream.1, "buckets", Dict([])).value).value;
    forall i | 0 <= i < |values| ensures |StreamBucketCheckFor(g, stream.0)(values[i]).value| <= 1 {
      StreamBucketOneRule(g, stream.0, values[i]);
    }
    CollectAtMostOne(values, StreamBucketCheckFor(g, stream.0), acc);
  }

  // ---------------------------------------------------------------------------
  // Functions

  /** The list of a function naming entries of another section. */
  function RefField(kind: RefKind): string
  {
    match kind
    case BucketRef => "buckets"
    case TableRef => "tables"
    case PollRef => "polls"
    case SendRef => "send"
    case StreamRef => "streams"
  }

  /** The section those entries must be keys of. */
  function RefTarget(kind: RefKind): string
  {
    match kind
    case BucketRef => "buckets"
    case TableRef => "tables"
    case PollRef => "queues"
    case SendRef => "queues"
    case StreamRef => "streams"
  }

  /** The name a reference gives: a poll names its queue under `name`. */
  function RefKey(kind: RefKind, ref: Value): Result<Value>
  {
    if kind == PollRef then Index(ref, "name") else Ok(ref)
  }

  function RefCheck(g: Entries, kind: RefKind, lambda: Value, ref: Value): Result<seq<Error>>
  {
    var key :- RefKey(kind, ref);
    var target :- Index(Dict(g), RefTarget(kind));
    var present :- Member(key, target);
    Ok(if present then [] else [LambdaRefInvalid(kind, lambda, key)])
  }

  function RefCheckFor(g: Entries, kind: RefKind, lambda: Value): Value -> Result<seq<Error>>
  {
    ref => RefCheck(g, kind, lambda, ref)
  }

  /** The references of one kind a function makes. */
  function RefErrors(g: Entries, kind: RefKind, lambda: Value, details: Value, acc: seq<Error>): Result<seq<Error>>
  {
    var listed :- Get(details, RefField(kind), List([]));
    var refs :- Iter(listed);
    Collect(refs, RefCheckFor(g, kind, lambda), acc)
  }

  /** Buckets, tables, polled queues, queues sent to and streams, in that order. */
  function FunctionStep(g: Entries, acc: seq<Error>, fn: (Value, Value)): Result<seq<Error>>
  {
    var buckets :- RefErrors(g, BucketRef, fn.0, fn.1, acc);
    var tables :- RefErrors(g, TableRef, fn.0, fn.1, buckets);
    var polls :- RefErrors(g, PollRef, fn.0, fn.1, tables);
    var sends :- RefErrors(g, SendRef, fn.0, fn.1, polls);
    RefErrors(g, StreamRef, fn.0, fn.1, sends)
  }

  function FunctionStepFor(g: Entries): (seq<Error>, (Value, Value)) -> Result<seq<Error>>
  {
    (acc, fn) => FunctionStep(g, acc, fn)
  }

  function LambdaErrors(g: Entries, errors: seq<Error>): Result<seq<Error>>
  {
    var functions :- SectionItems(g, "functions");
    Fold(functions, FunctionStepFor(g), errors)
  }

  /** One of the inner loops of `validate_lambda`. */
  method CheckRefs(g: Entries, kind: RefKind, lambda: Value, details: Value, errors: seq<Error>) returns (r: Result<seq<Error>>)
    ensures r == RefErrors(g, kind, lambda, details, errors)
  {
    var listed := Get(details, RefField(kind), List([]));
    if listed.Crash? {
      return Crash;
    }
    var iterated := Iter(listed.value);
    if iterated.Crash? {
      return Crash;
    }
    r := CheckRefList(g, kind, lambda, iterated.value, errors);
  }

  /** The loop itself, over the references already listed. */
  method CheckRefList(g: Entries, kind: RefKind, lambda: Value, refs: seq<Value>, errors: seq<Error>) returns (r: Result<seq<Error>>)
    ensures r == Collect(refs, RefCheckFor(g, kind, lambda), errors)
  {
    var check := RefCheckFor(g, kind, lambda);
    var acc := errors;
    var i := 0;
    while i < |refs|
      invariant 0 <= i <= |refs|
      invariant Collect(refs[i..], check, acc) == Collect(refs, check, errors)
    {
      var found := check(refs[i]);
      if found.Crash? {
        CollectCrash(refs, i, check, acc);
        return Crash;
      }
      CollectStep(refs, i, check, acc);
      acc := acc + found.value;
      i := i + 1;
    }
    assert refs[i..] == [];
    return Ok(acc);
  }

  /** `validate_lambda`. */
  method ValidateLambda(g: Entries, errors: seq<Error>) returns (r: Result<seq<Error>>)
    ensures r == LambdaErrors(g, errors)
  {
    var section := SectionItems(g, "functions");
    if section.Crash? {
      return Crash;
    }
    var functions := section.value;
    var acc := errors;
    var i := 0;
    while i < |functions|
      invariant 0 <= i <= |functions|
      invariant Fold(functions[i..], FunctionStepFor(g), acc) == Fold(functions, FunctionStepFor(g), errors)
    {
      var (lambda, details) := functions[i];
      var buckets := CheckRefs(g, BucketRef, lambda, details, acc);
      if buckets.Crash? { return Crash; }
      var tables := CheckRefs(g, TableRef, lambda, details, buckets.value);
      if tables.Crash? { return Crash; }
      var polls := CheckRefs(g, PollRef, lambda, details, tables.value);
      if polls.Crash? { return Crash; }
      var sends := CheckRefs(g, SendRef, lambda, details, polls.value);
      if sends.Crash? { return Crash; }
      var streams := CheckRefs(g, StreamRef, lambda, details, sends.value);
      if streams.Crash? { return Crash; }
      assert FunctionStep(g, acc, functions[i]) == streams;
      FoldStep(functions, i, FunctionStepFor(g), acc);
      acc := streams.value;
      i := i + 1;
    }
    assert functions[i..] == [];
    return Ok(acc);
  }

  /** A reference is reported exactly when it names no entry of its target
      section. */
  lemma RefReported(g: Entries, kind: RefKind, lambda: Value, details: Value, acc: seq<Error>, name: Value)
    requires RefErrors(g, kind, lambda, details, acc).Ok?
    ensures var refs := Iter(Get(details, RefField(kind), List([])).value).value;
      (LambdaRefInvalid(kind, lambda, name) in RefErrors(g, kind, lambda, details, acc).value)
      <==> || LambdaRefInvalid(kind, lambda, name) in acc
           || exists i :: 0 <= i < |refs| && RefKey(kind, refs[i]) == Ok(name)
                          && Member(name, Lookup(g, Str(RefTarget(kind))).value) == Ok(false)
  {
    var refs := Iter(Get(details, RefField(kind), List([])).value).value;
    var e := LambdaRefInvalid(kind, lambda, name);
    CollectMember(refs, RefCheckFor(g, kind, lambda), acc, e);
    forall i | 0 <= i < |refs|
      ensures e in RefCheckFor(g, kind, lambda)(refs[i]).value
        <==> RefKey(kind, refs[i]) == Ok(name) && Member(name, Lookup(g, Str(RefTarget(kind))).value) == Ok(false)
    {
      RefCheckReports(g, kind, lambda, refs[i], name);
    }
  }

  /** One reference yields the error for `name` exactly when it names `name`
      and the target section lacks it. */
  lemma RefCheckReports(g: Entries, kind: RefKind, lambda: Value, ref: Value, name: Value)
    requires RefCheck(g, kind, lambda, ref).Ok?
    ensures Lookup(g, Str(RefTarget(kind))).Some?
    ensures LambdaRefInvalid(kind, lambda, name) in RefCheck(g, kind, lambda, ref).value
      <==> RefKey(kind, ref) == Ok(name) && Member(name, Lookup(g, Str(RefTarget(kind))).value) == Ok(false)
  {
  }

  /** Each reference adds at most one error. */
  lemma RefErrorsBounded(g: Entries, kind: RefKind, lambda: Value, details: Value, acc: seq<Error>)
    requires RefErrors(g, kind, lambda, details, acc).Ok?
    ensures |RefErrors(g, kind, lambda, details, acc).value| <= |acc| + |Iter(Get(details, RefField(kind), List([])).value).value|
  {
    var refs := Iter(Get(details, RefField(kind), List([])).value).value;
    var check := RefCheckFor(g, kind, lambda);
    assert RefErrors(g, kind, lambda, details, acc) == Collect(refs, check, acc);
    forall i | 0 <= i < |refs| ensures |check(refs[i]).value| <= 1 {
      RefCheckAtMostOne(g, kind, lambda, refs[i]);
    }
    CollectAtMostOne(refs, check, acc);
  }

  lemma RefCheckAtMostOne(g: Entries, kind: RefKind, lambda: Value, ref: Value)
    ensures RefCheck(g, kind, lambda, ref).Ok? ==> |RefCheck(g, kind, lambda, ref).value| <= 1
  {
  }

  // ---------------------------------------------------------------------------
  // Paths

  /** A lambda path is protected by an authorizer of the graph or marked open,
      not both. */
  function LambdaPathErrors(g: Entries, path: Value, details: Entries, acc: seq<Error>): Result<seq<Error>>
  {
    var authorizer := SectionOr(details, "authorizer", Null);
    var open := SectionOr(details, "open", Null);
    var access := if Truthy(authorizer) && Truthy(open) then acc + [LambdaPathBothAccess]
                  else if !Truthy(authorizer) && !Truthy(open) then acc + [LambdaPathNoAccess]
                  else acc;
    if !Truthy(authorizer) then Ok(access)
    else
      var known :- Member(authorizer, SectionOr(g, "authorizers", Dict([])));
      Ok(if known then access else access + [LambdaPathAuthorizerUnknown(path)])
  }

  /** `validate_lambda_path`. */
  method ValidateLambdaPath(g: Entries, path: Value, details: Entries, errors: seq<Error>) returns (r: Result<seq<Error>>)
    ensures r == LambdaPathErrors(g, path, details, errors)
  {
    var authorizer := SectionOr(details, "authorizer", Null);
    var open := SectionOr(details, "open", Null);
    var acc := errors;
    if Truthy(authorizer) && Truthy(open) {
      acc := acc + [LambdaPathBothAccess];
    }
    if !Truthy(authorizer) && !Truthy(open) {
      acc := acc + [LambdaPathNoAccess];
    }
    if Truthy(authorizer) {
      var known := Member(authorizer, SectionOr(g, "authorizers", Dict([])));
      if known.Crash? {
        return Crash;
      }
      if !known.value {
        acc := acc + [LambdaPathAuthorizerUnknown(path)];
      }
    }
    return Ok(acc);
  }

  /** A lambda path adds exactly one access error when it has both an
      authorizer and `open` or neither, and one more when the authorizer is
      not an authorizer of the graph. */
  lemma LambdaPathRules(g: Entries, path: Value, details: Entries, acc: seq<Error>)
    requires LambdaPathErrors(g, path, details, acc).Ok?
    ensures var authorizer := SectionOr(details, "authorizer", Null);
      var open := SectionOr(details, "open", Null);
      var unknown := Truthy(authorizer) && Member(authorizer, SectionOr(g, "authorizers", Dict([]))) == Ok(false);
      var added := LambdaPathErrors(g, path, details, acc).value[|acc|..];
      && acc <= LambdaPathErrors(g, path, details, acc).value
      && |added| == (if Truthy(authorizer) == Truthy(open) then 1 else 0) + (if unknown then 1 else 0)
      && (LambdaPathBothAccess in added <==> Truthy(authorizer) && Truthy(open))
      && (LambdaPathNoAccess in added <==> !Truthy(authorizer) && !Truthy(open))
      && (LambdaPathAuthorizerUnknown(path) in added <==> unknown)
  {
    var authorizer := SectionOr(details, "authorizer", Null);
    var open := SectionOr(details, "open", Null);
    var r := LambdaPathErrors(g, path, details, acc).value;
    var access := if Truthy(authorizer) && Truthy(open) then [LambdaPathBothAccess]
                  else if !Truthy(authorizer) && !Truthy(open) then [LambdaPathNoAccess]
                  else [];
    if Truthy(authorizer) && Member(authorizer, SectionOr(g, "authorizers", Dict([]))) == Ok(false) {
      assert r == acc + (access + [LambdaPathAuthorizerUnknown(path)]);
      assert r[|acc|..] == access + [LambdaPathAuthorizerUnknown(path)];
    } else {
      assert r == acc + access;
      assert r[|acc|..] == access;
    }
  }

  /** The two templates a dynamo or SQS integration maps requests and
      responses through. */
  datatype Side = Request | Response

  function FileKey(side: Side): string
  {
    if side == Request then "requestTemplateFile" else "responseTemplateFile"
  }

  function InlineKey(side: Side): string
  {
    if side == Request then "requestTemplate" else "responseTemplate"
  }

  function FileMissing(side: Side, path: Value): Error
  {
    if side == Request then RequestTemplateFileMissing(path) else ResponseTemplateFileMissing(path)
  }

  function BothTemplates(side: Side, path: Value): Error
  {
    if side == Request then RequestTemplateBoth(path) else ResponseTemplateBoth(path)
  }

  function NoTemplate(side: Side, path: Value): Error
  {
    if side == Request then RequestTemplateMissing(path) else ResponseTemplateMissing(path)
  }

  /** A template file named (a non-empty value under the file key). */
  predicate NamesFile(details: Entries, side: Side)
  {
    Truthy(SectionOr(details, FileKey(side), Null))
  }

  predicate Inline(details: Entries, side: Side)
  {
    Str(InlineKey(side)) in Keys(details)
  }

  /** The file of one side must exist, and must not come with an inline
      template as well. */
  function TemplateFileErrors(fs: FileSystem, root: Path, path: Value, details: Entries, side: Side, acc: seq<Error>): Result<seq<Error>>
  {
    var file := SectionOr(details, FileKey(side), Null);
    if Truthy(file) && !file.Str? then Crash
    else Ok(acc + FileAdded(fs, root, path, details, side))
  }

  /** The errors the file check of one side adds. */
  function FileAdded(fs: FileSystem, root: Path, path: Value, details: Entries, side: Side): seq<Error>
  {
    var file := SectionOr(details, FileKey(side), Null);
    if !Truthy(file) || !file.Str? then []
    else
      (if Exists(fs, Join(root, file.s)) then [] else [FileMissing(side, path)])
      + (if Inline(details, side) then [BothTemplates(side, path)] else [])
  }

  /** The error a side without any template adds. */
  function MissingAdded(path: Value, details: Entries, side: Side): seq<Error>
  {
    if NamesFile(details, side) || Inline(details, side) then [] else [NoTemplate(side, path)]
  }

  /** Both sides' files, then a missing request template, then a missing
      response template. */
  function TemplateErrors(fs: FileSystem, root: Path, path: Value, details: Entries, acc: seq<Error>): Result<seq<Error>>
  {
    var request :- TemplateFileErrors(fs, root, path, details, Request, acc);
    var response :- TemplateFileErrors(fs, root, path, details, Response, request);
    Ok(response + MissingAdded(path, details, Request) + MissingAdded(path, details, Response))
  }

  /** One side of `validate_request_response_templates`: the errors about its
      file, and whether the side has a template at all. */
  method CheckTemplateFile(fs: FileSystem, root: Path, path: Value, details: Entries, side: Side, errors: seq<Error>)
    returns (r: Result<seq<Error>>, provided: bool)
    ensures r == TemplateFileErrors(fs, root, path, details, side, errors)
    ensures r.Ok? ==> (provided <==> NamesFile(details, side) || Inline(details, side))
  {
    var acc := errors;
    provided := false;
    var file := SectionOr(details, FileKey(side), Null);
    if Truthy(file) {
      if !file.Str? {
        return Crash, provided;
      }
      var added: seq<Error> := [];
      if !Exists(fs, Join(root, file.s)) {
        added := [FileMissing(side, path)];
      }
      if Str(InlineKey(side)) in Keys(details) {
        added := added + [BothTemplates(side, path)];
      } else {
        assert added + [] == added;
      }
      acc := acc + added;
      provided := true;
    } else {
      assert acc + [] == acc;
    }
    if Str(InlineKey(side)) in Keys(details) {
      provided := true;
    }
    return Ok(acc), provided;
  }

  /** `validate_request_response_templates`, with its two flags. */
  method ValidateTemplates(fs: FileSystem, root: Path, path: Value, details: Entries, errors: seq<Error>) returns (r: Result<seq<Error>>)
    ensures r == TemplateErrors(fs, root, path, details, errors)
  {
    var requestErrors, request := CheckTemplateFile(fs, root, path, details, Request, errors);
    if requestErrors.Crash? {
      return Crash;
    }
    var responseErrors, response := CheckTemplateFile(fs, root, path, details, Response, requestErrors.value);
    if responseErrors.Crash? {
      return Crash;
    }
    var acc := responseErrors.value;
    if !request {
      acc := acc + [RequestTemplateMissing(path)];
    } else {
      assert acc + [] == acc;
    }
    if !response {
      acc := acc + [ResponseTemplateMissing(path)];
    } else {
      assert acc + [] == acc;
    }
    return Ok(acc);
  }

  /** What the template rules say about one side: its file missing, its two
      templates, or no template at all. */
  predicate TemplateRule(fs: FileSystem, root: Path, path: Value, details: Entries, side: Side, e: Error)
  {
    || (e == FileMissing(side, path) && NamesFile(details, side)
        && SectionOr(details, FileKey(side), Null).Str?
        && !Exists(fs, Join(root, SectionOr(details, FileKey(side), Null).s)))
    || (e == BothTemplates(side, path) && NamesFile(details, side) && Inline(details, side))
    || (e == NoTemplate(side, path) && !NamesFile(details, side) && !Inline(details, side))
  }

  lemma FileAddedMember(fs: FileSystem, root: Path, path: Value, details: Entries, side: Side, e: Error)
    requires NamesFile(details, side) ==> SectionOr(details, FileKey(side), Null).Str?
    ensures e in FileAdded(fs, root, path, details, side)
      <==> TemplateRule(fs, root, path, details, side, e) && e != NoTemplate(side, path)
  {
    var file := SectionOr(details, FileKey(side), Null);
    if Truthy(file) && file.Str? {
      FileAddedNamed(fs, root, path, details, side, file.s, e);
    } else {
      assert FileAdded(fs, root, path, details, side) == [];
    }
  }

  lemma FileAddedNamed(fs: FileSystem, root: Path, path: Value, details: Entries, side: Side, file: string, e: Error)
    requires SectionOr(details, FileKey(side), Null) == Str(file) && file != ""
    ensures e in FileAdded(fs, root, path, details, side)
      <==> (e == FileMissing(side, path) && !Exists(fs, Join(root, file))) || (e == BothTemplates(side, path) && Inline(details, side))
  {
    var added := FileAdded(fs, root, path, details, side);
    if Exists(fs, Join(root, file)) {
      assert added == if Inline(details, side) then [BothTemplates(side, path)] else [];
    } else {
      assert added == [FileMissing(side, path)] + if Inline(details, side) then [BothTemplates(side, path)] else [];
    }
  }

  /** What the file check of one side can report. */
  lemma TemplateFileReports(fs: FileSystem, root: Path, path: Value, details: Entries, side: Side, acc: seq<Error>, e: Error)
    requires TemplateFileErrors(fs, root, path, details, side, acc).Ok?
    ensures acc <= TemplateFileErrors(fs, root, path, details, side, acc).value
    ensures e in TemplateFileErrors(fs, root, path, details, side, acc).value <==>
      || e in acc
      || (TemplateRule(fs, root, path, details, side, e) && e != NoTemplate(side, path))
  {
    FileAddedMember(fs, root, path, details, side, e);
  }

  lemma TemplateAppends(fs: FileSystem, root: Path, path: Value, details: Entries, acc: seq<Error>)
    requires TemplateErrors(fs, root, path, details, acc).Ok?
    ensures NamesFile(details, Request) ==> SectionOr(details, FileKey(Request), Null).Str?
    ensures NamesFile(details, Response) ==> SectionOr(details, FileKey(Response), Null).Str?
    ensures TemplateErrors(fs, root, path, details, acc).value
      == acc + (FileAdded(fs, root, path, details, Request) + FileAdded(fs, root, path, details, Response)
                + MissingAdded(path, details, Request) + MissingAdded(path, details, Response))
  {
    var a := FileAdded(fs, root, path, details, Request);
    var b := FileAdded(fs, root, path, details, Response);
    var c := MissingAdded(path, details, Request);
    var d := MissingAdded(path, details, Response);
    var request := TemplateFileErrors(fs, root, path, details, Request, acc);
    assert request == Ok(acc + a);
    var response := TemplateFileErrors(fs, root, path, details, Response, acc + a);
    assert response == Ok((acc + a) + b);
    Concat4(acc, a, b, c, d);
  }

  /** Regrouping the four appended error lists; kept apart from its one
      caller so that the regrouping is proved in a small context. */
  lemma Concat4(acc: seq<Error>, a: seq<Error>, b: seq<Error>, c: seq<Error>, d: seq<Error>)
    ensures (((acc + a) + b) + c) + d == acc + (a + b + c + d)
  {
  }

  /** A path's templates add exactly the errors the rules of its two sides
      give, and keep the errors before them. */
  lemma TemplateReports(fs: FileSystem, root: Path, path: Value, details: Entries, acc: seq<Error>, e: Error)
    requires TemplateErrors(fs, root, path, details, acc).Ok?
    ensures acc <= TemplateErrors(fs, root, path, details, acc).value
    ensures e in TemplateErrors(fs, root, path, details, acc).value <==>
      || e in acc
      || TemplateRule(fs, root, path, details, Request, e)
      || TemplateRule(fs, root, path, details, Response, e)
  {
    TemplateAppends(fs, root, path, details, acc);
    var a := FileAdded(fs, root, path, details, Request);
    var b := FileAdded(fs, root, path, details, Response);
    var c := MissingAdded(path, details, Request);
    var d := MissingAdded(path, details, Response);
    SideAddedMember(fs, root, path, details, Request, e);
    SideAddedMember(fs, root, path, details, Response, e);
    assert e in acc + (a + b + c + d) <==> e in acc || e in a || e in b || e in c || e in d;
  }

  /** The errors the rules of one side add, wherever they come from. */
  lemma SideAddedMember(fs: FileSystem, root: Path, path: Value, details: Entries, side: Side, e: Error)
    requires NamesFile(details, side) ==> SectionOr(details, FileKey(side), Null).Str?
    ensures TemplateRule(fs, root, path, details, side, e)
      <==> e in FileAdded(fs, root, path, details, side) || e in MissingAdded(path, details, side)
  {
    FileAddedMember(fs, root, path, details, side, e);
  }

  /** A side's template is reported missing exactly when the side has neither
      a file nor an inline template. */
  lemma TemplateMissingRule(fs: FileSystem, root: Path, path: Value, details: Entries, side: Side)
    requires TemplateErrors(fs, root, path, details, []).Ok?
    ensures NoTemplate(side, path) in TemplateErrors(fs, root, path, details, []).value
      <==> !NamesFile(details, side) && !Inline(details, side)
  {
    TemplateReports(fs, root, path, details, [], NoTemplate(side, path));
    NoTemplateRule(fs, root, path, details, Request, side);
    NoTemplateRule(fs, root, path, details, Response, side);
  }

  /** Only the rule of the side itself reports that side as lacking a template. */
  lemma NoTemplateRule(fs: FileSystem, root: Path, path: Value, details: Entries, rule: Side, side: Side)
    ensures TemplateRule(fs, root, path, details, rule, NoTemplate(side, path))
      <==> rule == side && !NamesFile(details, side) && !Inline(details, side)
  {
  }

  /** A side is reported for two templates exactly when it has both. */
  lemma TemplateBothRule(fs: FileSystem, root: Path, path: Value, details: Entries, side: Side)
    requires TemplateErrors(fs, root, path, details, []).Ok?
    ensures BothTemplates(side, path) in TemplateErrors(fs, root, path, details, []).value
      <==> NamesFile(details, side) && Inline(details, side)
  {
    var other := if side == Request then Response else Request;
    TemplateReports(fs, root, path, details, [], BothTemplates(side, path));
    assert !TemplateRule(fs, root, path, details, other, BothTemplates(side, path)) by {
      assert BothTemplates(side, path) != FileMissing(other, path);
      assert BothTemplates(side, path) != BothTemplates(other, path);
      assert BothTemplates(side, path) != NoTemplate(other, path);
    }
  }

  /** A side's file is reported exactly when it is named and absent; the
      other side's keys play no part in it. */
  lemma TemplateFileRule(fs: FileSystem, root: Path, path: Value, details: Entries, side: Side)
    requires TemplateErrors(fs, root, path, details, []).Ok?
    ensures FileMissing(side, path) in TemplateErrors(fs, root, path, details, []).value
      <==> NamesFile(details, side) && !Exists(fs, Join(root, SectionOr(details, FileKey(side), Null).s))
  {
    TemplateReports(fs, root, path, details, [], FileMissing(side, path));
    TemplateFileReports(fs, root, path, details, side, [], FileMissing(side, path));
  }

  /** An SQS path must name a queue of the graph; its templates are checked too. */
  function SqsPathErrors(fs: FileSystem, root: Path, g: Entries, path: Value, details: Entries, acc: seq<Error>): Result<seq<Error>>
  {
    var queue :- Index(Dict(details), "queue");
    var queues :- Index(Dict(g), "queues");
    var known :- Member(queue, queues);
    TemplateErrors(fs, root, path, details, if known then acc else acc + [SqsQueueUnknown(path)])
  }

  /** `validate_sqs_path`. */
  method ValidateSqsPath(fs: FileSystem, root: Path, g: Entries, path: Value, details: Entries, errors: seq<Error>) returns (r: Result<seq<Error>>)
    ensures r == SqsPathErrors(fs, root, g, path, details, errors)
  {
    var queue := Index(Dict(details), "queue");
    var queues := Index(Dict(g), "queues");
    if queue.Crash? || queues.Crash? {
      return Crash;
    }
    var known := Member(queue.value, queues.value);
    if known.Crash? {
      return Crash;
    }
    var acc := errors;
    if !known.value {
      acc := acc + [SqsQueueUnknown(path)];
    }
    r := ValidateTemplates(fs, root, path, details, acc);
  }

  /** An SQS path is reported for its queue exactly when the queue is not a
      queue of the graph. */
  lemma SqsUnknownQueue(fs: FileSystem, root: Path, g: Entries, path: Value, details: Entries)
    requires SqsPathErrors(fs, root, g, path, details, []).Ok?
    ensures SqsQueueUnknown(path) in SqsPathErrors(fs, root, g, path, details, []).value
      <==> Member(Lookup(details, Str("queue")).value, Lookup(g, Str("queues")).value) == Ok(false)
  {
    var known := Member(Lookup(details, Str("queue")).value, Lookup(g, Str("queues")).value).value;
    var acc: seq<Error> := if known then [] else [] + [SqsQueueUnknown(path)];
    SqsPathChecksTemplates(fs, root, g, path, details, []);
    TemplateReports(fs, root, path, details, acc, SqsQueueUnknown(path));
    QueueNotTemplateRule(fs, root, path, details, Request);
    QueueNotTemplateRule(fs, root, path, details, Response);
    assert SqsQueueUnknown(path) in acc <==> !known;
  }

  /** No template rule reports an unknown queue. */
  lemma QueueNotTemplateRule(fs: FileSystem, root: Path, path: Value, details: Entries, side: Side)
    ensures !TemplateRule(fs, root, path, details, side, SqsQueueUnknown(path))
  {
  }

  /** An SQS path that passes its queue check goes on to its templates. */
  lemma SqsPathChecksTemplates(fs: FileSystem, root: Path, g: Entries, path: Value, details: Entries, acc: seq<Error>)
    requires SqsPathErrors(fs, root, g, path, details, acc).Ok?
    ensures Lookup(details, Str("queue")).Some? && Lookup(g, Str("queues")).Some?
    ensures Member(Lookup(details, Str("queue")).value, Lookup(g, Str("queues")).value).Ok?
    ensures var known := Member(Lookup(details, Str("queue")).value, Lookup(g, Str("queues")).value).value;
      SqsPathErrors(fs, root, g, path, details, acc)
        == TemplateErrors(fs, root, path, details, if known then acc else acc + [SqsQueueUnknown(path)])
  {
  }

  /** A path is checked by its integration, `lambda` when it names none; other
      integrations are not checked. */
  function PathStep(fs: FileSystem, root: Path, g: Entries, acc: seq<Error>, path: (Value, Value)): Result<seq<Error>>
  {
    var integration :- Get(path.1, "integration", Str("lambda"));
    if integration == Str("lambda") then LambdaPathErrors(g, path.0, path.1.entries, acc)
    else if integration == Str("dynamo") then TemplateErrors(fs, root, path.0, path.1.entries, acc)
    else if integration == Str("sqs") then SqsPathErrors(fs, root, g, path.0, path.1.entries, acc)
    else Ok(acc)
  }

  function PathStepFor(fs: FileSystem, root: Path, g: Entries): (seq<Error>, (Value, Value)) -> Result<seq<Error>>
  {
    (acc, path) => PathStep(fs, root, g, acc, path)
  }

  function PathErrors(fs: FileSystem, root: Path, g: Entries, errors: seq<Error>): Result<seq<Error>>
  {
    var paths :- SectionItems(g, "paths");
    Fold(paths, PathStepFor(fs, root, g), errors)
  }

  /** `validate_paths`. */
  method ValidatePaths(fs: FileSystem, root: Path, g: Entries, errors: seq<Error>) returns (r: Result<seq<Error>>)
    ensures r == PathErrors(fs, root, g, errors)
  {
    var section := SectionItems(g, "paths");
    if section.Crash? {
      return Crash;
    }
    var paths := section.value;
    var acc := errors;
    var i := 0;
    while i < |paths|
      invariant 0 <= i <= |paths|
      invariant Fold(paths[i..], PathStepFor(fs, root, g), acc) == Fold(paths, PathStepFor(fs, root, g), errors)
    {
      var (path, details) := paths[i];
      var integration := Get(details, "integration", Str("lambda"));
      if integration.Crash? {
        FoldCrash(paths, i, PathStepFor(fs, root, g), acc);
        return Crash;
      }
      var next: Result<seq<Error>>;
      if integration.value == Str("lambda") {
        next := ValidateLambdaPath(g, path, details.entries, acc);
      } else if integration.value == Str("dynamo") {
        next := ValidateTemplates(fs, root, path, details.entries, acc);
      } else if integration.value == Str("sqs") {
        next := ValidateSqsPath(fs, root, g, path, details.entries, acc);
      } else {
        next := Ok(acc);
      }
      assert next == PathStep(fs, root, g, acc, paths[i]);
      if next.Crash? {
        FoldCrash(paths, i, PathStepFor(fs, root, g), acc);
        return Crash;
      }
      FoldStep(paths, i, PathStepFor(fs, root, g), acc);
      acc := next.value;
      i := i + 1;
    }
    assert paths[i..] == [];
    return Ok(acc);
  }

  /** A path whose integration is none of `lambda`, `dynamo` and `sqs` adds
      no error. */
  lemma OtherIntegrationUnchecked(fs: FileSystem, root: Path, g: Entries, acc: seq<Error>, path: (Value, Value))
    requires path.1.Dict? && Lookup(path.1.entries, Str("integration")).Some?
    requires Lookup(path.1.entries, Str("integration")).value !in {Str("lambda"), Str("dynamo"), Str("sqs")}
    ensures PathStep(fs, root, g, acc, path) == Ok(acc)
  {
  }

  // ---------------------------------------------------------------------------
  // Imports and authorizers

  function ImportCheck(fs: FileSystem, root: Path, item: Value): Result<seq<Error>>
  {
    if !item.Str? then Crash
    else Ok(if Exists(fs, Join(root, item.s)) then [] else [ImportNotDirectory(item)])
  }

  function ImportCheckFor(fs: FileSystem, root: Path): Value -> Result<seq<Error>>
  {
    item => ImportCheck(fs, root, item)
  }

  /** Every listed import must exist below the resources directory. */
  function ImportErrors(fs: FileSystem, root: Path, g: Entries, errors: seq<Error>): Result<seq<Error>>
  {
    var imports := SectionOr(g, "import", Null);
    if !Truthy(imports) then Ok(errors)
    else
      var items :- Iter(imports);
      Collect(items, ImportCheckFor(fs, root), errors)
  }

  /** `validate_import`. */
  method ValidateImport(fs: FileSystem, root: Path, g: Entries, errors: seq<Error>) returns (r: Result<seq<Error>>)
    ensures r == ImportErrors(fs, root, g, errors)
  {
    var imports := SectionOr(g, "import", Null);
    if !Truthy(imports) {
      return Ok(errors);
    }
    var iterated := Iter(imports);
    if iterated.Crash? {
      return Crash;
    }
    var items := iterated.value;
    var acc := errors;
    var i := 0;
    while i < |items|
      invariant 0 <= i <= |items|
      invariant Collect(items[i..], ImportCheckFor(fs, root), acc) == Collect(items, ImportCheckFor(fs, root), errors)
    {
      if !items[i].Str? {
        return Crash;
      }
      CollectStep(items, i, ImportCheckFor(fs, root), acc);
      if !Exists(fs, Join(root, items[i].s)) {
        acc := acc + [ImportNotDirectory(items[i])];
      } else {
        assert acc + [] == acc;
      }
      i := i + 1;
    }
    assert items[i..] == [];
    return Ok(acc);
  }

  /** An import is reported exactly when it is listed and does not exist. */
  lemma ImportReported(fs: FileSystem, root: Path, items: seq<Value>, acc: seq<Error>, item: Value)
    requires Collect(items, ImportCheckFor(fs, root), acc).Ok?
    requires ImportNotDirectory(item) !in acc
    ensures ImportNotDirectory(item) in Collect(items, ImportCheckFor(fs, root), acc).value
      <==> item in items && !Exists(fs, Join(root, item.s))
  {
    CollectMember(items, ImportCheckFor(fs, root), acc, ImportNotDirectory(item));
    if item in items {
      var i :| 0 <= i < |items| && items[i] == item;
      assert ImportCheck(fs, root, items[i]).Ok?;
    }
  }

  /** An authorizer has one kind of identity source and calls a function of
      the graph. */
  function AuthorizerStep(g: Entries, acc: seq<Error>, authorizer: (Value, Value)): Result<seq<Error>>
  {
    var token :- Has(authorizer.1, "token");
    var query :- Has(authorizer.1, "query");
    var headers :- Has(authorizer.1, "headers");
    var counted := if Count([token, query, headers], true) != 1 then acc + [AuthorizerTypeCount(authorizer.0)] else acc;
    var fn :- Index(authorizer.1, "function");
    var known :- Member(fn, SectionOr(g, "functions", Dict([])));
    Ok(if known then counted else counted + [AuthorizerFunctionUnknown(authorizer.0)])
  }

  function AuthorizerStepFor(g: Entries): (seq<Error>, (Value, Value)) -> Result<seq<Error>>
  {
    (acc, authorizer) => AuthorizerStep(g, acc, authorizer)
  }

  function AuthorizerErrors(g: Entries, errors: seq<Error>): Result<seq<Error>>
  {
    var authorizers :- SectionItems(g, "authorizers");
    Fold(authorizers, AuthorizerStepFor(g), errors)
  }

  /** `list.count(x)`. */
  function Count(s: seq<bool>, x: bool): nat
  {
    if |s| == 0 then 0 else (if s[0] == x then 1 else 0) + Count(s[1..], x)
  }

  /** Exactly one of three flags is set. */
  predicate OneOf(a: bool, b: bool, c: bool)
  {
    if a then !b && !c else b != c
  }

  lemma CountThree(a: bool, b: bool, c: bool)
    ensures Count([a, b, c], true) == 1 <==> OneOf(a, b, c)
  {
    assert [a, b, c][1..] == [b, c];
    assert [b, c][1..] == [c];
    assert [c][1..] == [];
    assert Count([c], true) == if c then 1 else 0;
    assert Count([b, c], true) == (if b then 1 else 0) + (if c then 1 else 0);
  }

  /** `validate_authorizers`. */
  method ValidateAuthorizers(g: Entries, errors: seq<Error>) returns (r: Result<seq<Error>>)
    ensures r == AuthorizerErrors(g, errors)
  {
    var section := SectionItems(g, "authorizers");
    if section.Crash? {
      return Crash;
    }
    var authorizers := section.value;
    var acc := errors;
    var i := 0;
    while i < |authorizers|
      invariant 0 <= i <= |authorizers|
      invariant Fold(authorizers[i..], AuthorizerStepFor(g), acc) == Fold(authorizers, AuthorizerStepFor(g), errors)
    {
      var (authorizer, details) := authorizers[i];
      var step := CheckAuthorizer(g, acc, authorizer, details);
      if step.Crash? {
        assert authorizers[i..][0] == authorizers[i];
        return Crash;
      }
      FoldStep(authorizers, i, AuthorizerStepFor(g), acc);
      acc := step.value;
      i := i + 1;
    }
    assert authorizers[i..] == [];
    return Ok(acc);
  }

  /** The body of the loop over the authorizers: one of them checked. */
  method CheckAuthorizer(g: Entries, errors: seq<Error>, authorizer: Value, details: Value) returns (r: Result<seq<Error>>)
    ensures r == AuthorizerStep(g, errors, (authorizer, details))
  {
    var acc := errors;
    var token := Has(details, "token");
    var query := Has(details, "query");
    var headers := Has(details, "headers");
    if token.Crash? || query.Crash? || headers.Crash? {
      return Crash;
    }
    var present := [token.value, query.value, headers.value];
    if Count(present, true) != 1 {
      acc := acc + [AuthorizerTypeCount(authorizer)];
    }
    var fn := Index(details, "function");
    if fn.Crash? {
      return Crash;
    }
    var known := Member(fn.value, SectionOr(g, "functions", Dict([])));
    if known.Crash? {
      return Crash;
    }
    if !known.value {
      acc := acc + [AuthorizerFunctionUnknown(authorizer)];
    }
    return Ok(acc);
  }

  /** An authorizer is refused for its identity sources exactly when it has
      none or several, and for its function exactly when that is not a
      function of the graph. */
  lemma AuthorizerRules(g: Entries, acc: seq<Error>, authorizer: (Value, Value))
    requires AuthorizerStep(g, acc, authorizer).Ok?
    ensures acc <= AuthorizerStep(g, acc, authorizer).value
    ensures var added := AuthorizerStep(g, acc, authorizer).value[|acc|..];
      && (AuthorizerTypeCount(authorizer.0) in added
          <==> !OneOf(Has(authorizer.1, "token").value, Has(authorizer.1, "query").value, Has(authorizer.1, "headers").value))
      && (AuthorizerFunctionUnknown(authorizer.0) in added
          <==> Member(Lookup(authorizer.1.entries, Str("function")).value, SectionOr(g, "functions", Dict([]))) == Ok(false))
  {
    var details := authorizer.1;
    var token, query, headers := Has(details, "token").value, Has(details, "query").value, Has(details, "headers").value;
    CountThree(token, query, headers);
    var counted := if OneOf(token, query, headers) then [] else [AuthorizerTypeCount(authorizer.0)];
    var unknown := if Member(Lookup(details.entries, Str("function")).value, SectionOr(g, "functions", Dict([]))) == Ok(false)
                   then [AuthorizerFunctionUnknown(authorizer.0)] else [];
    var r := AuthorizerStep(g, acc, authorizer).value;
    assert r == acc + (counted + unknown);
    assert r[|acc|..] == counted + unknown;
  }

  // ---------------------------------------------------------------------------
  // All checks

  /** The semantic checks in the order `validate` runs them. */
  function ValidationErrors(fs: FileSystem, root: Path, g: Entries, errors: seq<Error>): Result<seq<Error>>
  {
    var buckets :- BucketErrors(g, errors);
    var streams :- StreamErrors(g, buckets);
    var functions :- LambdaErrors(g, streams);
    var paths :- PathErrors(fs, root, g, functions);
    var imports :- ImportErrors(fs, root, g, paths);
    AuthorizerErrors(g, imports)
  }

  /** `validate`, without its schema step. */
  method Validate(fs: FileSystem, root: Path, g: Entries, errors: seq<Error>) returns (r: Result<seq<Error>>)
    ensures r == ValidationErrors(fs, root, g, errors)
  {
    var e1 := ValidateBuckets(g, errors);
    if e1.Crash? { return Crash; }
    var e2 := ValidateStreams(g, e1.value);
    if e2.Crash? { return Crash; }
    var e3 := ValidateLambda(g, e2.value);
    if e3.Crash? { return Crash; }
    var e4 := ValidatePaths(fs, root, g, e3.value);
    if e4.Crash? { return Crash; }
    var e5 := ValidateImport(fs, root, g, e4.value);
    if e5.Crash? { return Crash; }
    r := ValidateAuthorizers(g, e5.value);
  }

  /** A graph with none of the checked sections passes. */
  lemma EmptyGraphValid(fs: FileSystem, root: Path, errors: seq<Error>)
    ensures ValidationErrors(fs, root, [], errors) == Ok(errors)
  {
  }

  // ---------------------------------------------------------------------------
  // Validation only appends

  lemma StreamStepGrows(g: Entries, acc: seq<Error>, stream: (Value, Value))
    requires StreamStep(g, acc, stream).Ok?
    ensures acc <= StreamStep(g, acc, stream).value
  {
    var values := ValuesOf(Get(stream.1, "buckets", Dict([])).value).value;
    CollectGrows(values, StreamBucketCheckFor(g, stream.0), acc);
  }

  lemma RefErrorsGrow(g: Entries, kind: RefKind, lambda: Value, details: Value, acc: seq<Error>)
    requires RefErrors(g, kind, lambda, details, acc).Ok?
    ensures acc <= RefErrors(g, kind, lambda, details, acc).value
  {
    var refs := Iter(Get(details, RefField(kind), List([])).value).value;
    CollectGrows(refs, RefCheckFor(g, kind, lambda), acc);
  }

  lemma FunctionStepGrows(g: Entries, acc: seq<Error>, fn: (Value, Value))
    requires FunctionStep(g, acc, fn).Ok?
    ensures acc <= FunctionStep(g, acc, fn).value
  {
    var buckets := RefErrors(g, BucketRef, fn.0, fn.1, acc).value;
    var tables := RefErrors(g, TableRef, fn.0, fn.1, buckets).value;
    var polls := RefErrors(g, PollRef, fn.0, fn.1, tables).value;
    var sends := RefErrors(g, SendRef, fn.0, fn.1, polls).value;
    RefErrorsGrow(g, BucketRef, fn.0, fn.1, acc);
    RefErrorsGrow(g, TableRef, fn.0, fn.1, buckets);
    RefErrorsGrow(g, PollRef, fn.0, fn.1, tables);
    RefErrorsGrow(g, SendRef, fn.0, fn.1, polls);
    RefErrorsGrow(g, StreamRef, fn.0, fn.1, sends);
  }

  lemma PathStepGrows(fs: FileSystem, root: Path, g: Entries, acc: seq<Error>, path: (Value, Value))
    requires PathStep(fs, root, g, acc, path).Ok?
    ensures acc <= PathStep(fs, root, g, acc, path).value
  {
    var integration := Get(path.1, "integration", Str("lambda")).value;
    if integration == Str("lambda") {
      LambdaPathRules(g, path.0, path.1.entries, acc);
    } else if integration == Str("dynamo") {
      TemplateReports(fs, root, path.0, path.1.entries, acc, LambdaPathNoAccess);
    } else if integration == Str("sqs") {
      var details := path.1.entries;
      var known := Member(Lookup(details, Str("queue")).value, Lookup(g, Str("queues")).value).value;
      var start := if known then acc else acc + [SqsQueueUnknown(path.0)];
      TemplateReports(fs, root, path.0, details, start, LambdaPathNoAccess);
    }
  }

  /** The checks only ever append to the errors they are given. */
  lemma ValidationGrows(fs: FileSystem, root: Path, g: Entries, errors: seq<Error>)
    requires ValidationErrors(fs, root, g, errors).Ok?
    ensures errors <= ValidationErrors(fs, root, g, errors).value
  {
    var buckets := BucketErrors(g, errors).value;
    CollectGrows(SectionItems(g, "buckets").value, BucketCheck, errors);
    var streams := StreamErrors(g, buckets).value;
    var streamItems := SectionItems(g, "streams").value;
    forall a, i | 0 <= i < |streamItems| && StreamStepFor(g)(a, streamItems[i]).Ok?
      ensures a <= StreamStepFor(g)(a, streamItems[i]).value
    {
      StreamStepGrows(g, a, streamItems[i]);
    }
    FoldGrows(streamItems, StreamStepFor(g), buckets);
    var functions := LambdaErrors(g, streams).value;
    var functionItems := SectionItems(g, "functions").value;
    forall a, i | 0 <= i < |functionItems| && FunctionStepFor(g)(a, functionItems[i]).Ok?
      ensures a <= FunctionStepFor(g)(a, functionItems[i]).value
    {
      FunctionStepGrows(g, a, functionItems[i]);
    }
    FoldGrows(functionItems, FunctionStepFor(g), streams);
    var paths := PathErrors(fs, root, g, functions).value;
    var pathItems := SectionItems(g, "paths").value;
    forall a, i | 0 <= i < |pathItems| && PathStepFor(fs, root, g)(a, pathItems[i]).Ok?
      ensures a <= PathStepFor(fs, root, g)(a, pathItems[i]).value
    {
      PathStepGrows(fs, root, g, a, pathItems[i]);
    }
    FoldGrows(pathItems, PathStepFor(fs, root, g), functions);
    var imports := ImportErrors(fs, root, g, paths).value;
    if Truthy(SectionOr(g, "import", Null)) {
      CollectGrows(Iter(SectionOr(g, "import", Null)).value, ImportCheckFor(fs, root), paths);
    }
    var authorizerItems := SectionItems(g, "authorizers").value;
    forall a, i | 0 <= i < |authorizerItems| && AuthorizerStepFor(g)(a, authorizerItems[i]).Ok?
      ensures a <= AuthorizerStepFor(g)(a, authorizerItems[i]).value
    {
      AuthorizerRules(g, a, authorizerItems[i]);
    }
    FoldGrows(authorizerItems, AuthorizerStepFor(g), imports);
  }
}
