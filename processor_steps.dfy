/**
 * The step-by-step logic of the charts-engine processor
 * (src/server/components/charts-engine/components/processor/index.ts):
 * how the chart parameters are merged, how sources are filtered for a
 * UI-only run, how a failed fetch is classified, how private-parameter
 * controls are disabled, how forbidden fields are redacted, the
 * array/object rule of the library-config merge, how module logs are
 * collected, and the error-code switch of the top-level catch.
 *
 * The string values of the error-code constants are not part of this
 * model: each code is taken to be its constant's name. The numeric status
 * constants are a parameter (`Statuses`).
 */
module ProcessorSteps {
  import opened Js

  type Params = map<string, Value>

  const HOOKS_ERROR := "HOOKS_ERROR"
  const CONFIG_LOADING_ERROR := "CONFIG_LOADING_ERROR"
  const DEPS_RESOLVE_ERROR := "DEPS_RESOLVE_ERROR"
  const DATA_FETCHING_ERROR := "DATA_FETCHING_ERROR"
  const ROWS_NUMBER_OVERSIZE := "ROWS_NUMBER_OVERSIZE"
  const SEGMENTS_OVERSIZE := "SEGMENTS_OVERSIZE"
  const TABLE_OVERSIZE := "TABLE_OVERSIZE"
  const RUNTIME_ERROR := "RUNTIME_ERROR"
  const RUNTIME_TIMEOUT_ERROR := "RUNTIME_TIMEOUT_ERROR"
  const REQUEST_SIZE_LIMIT_EXCEEDED := "REQUEST_SIZE_LIMIT_EXCEEDED"
  const ALL_REQUESTS_SIZE_LIMIT_EXCEEDED := "ALL_REQUESTS_SIZE_LIMIT_EXCEEDED"

  /** The status-code constants of the charts engine. */
  datatype Statuses = Statuses(
    oversize: int,
    runtimeError: int,
    runtimeTimeout: int,
    fetching400: int,
    fetchingLimitExceeded: int,
    fetching500: int)

  /** What `Processor.process` resolves to: a success result, an
      `{error, sources}` response, or a rejected promise. */
  datatype Response =
    | Success(result: map<string, Value>)
    | Failure(error: Value, sources: Value)
    | Rejected(error: Value)

  /** The keys an object spread `{...v}` copies, for a plain-object `v`. */
  function SpreadOf(v: Value): Params
  {
    if v.Obj? then v.fields else map[]
  }

  // ---------------------------------------------------------------------------
  // Parameters

  /** A parameter value as lines 481-486 leave it: arrays stay, anything
      else is wrapped in a one-element array. */
  function AsArray(v: Value): (r: Value)
    ensures r.Arr?
    ensures v.Arr? ==> r == v
    ensures !v.Arr? ==> r.items == [v]
  {
    if v.Arr? then v else Arr([v])
  }

  /** Every value of `params` wrapped by `AsArray`. */
  function Wrapped(params: Params): Params
  {
    map k | k in params :: AsArray(params[k])
  }

  /** After `params = Object.assign({}, usedParams, override)` and the
      wrapping loop, an override beats the default for the same key, a
      default stays where there is no override, and every value is an
      array. */
  lemma WrappedParamsPrecedence(used: Params, override: Params)
    ensures Wrapped(used + override).Keys == used.Keys + override.Keys
    ensures forall k :: k in override ==> Wrapped(used + override)[k] == AsArray(override[k])
    ensures forall k :: k in used && k !in override ==> Wrapped(used + override)[k] == AsArray(used[k])
    ensures forall k :: k in Wrapped(used + override) ==> Wrapped(used + override)[k].Arr?
  {
  }

  /** The loop of lines 481-486, wrapping the parameters in place. */
  method WrapParams(params: Params) returns (r: Params)
    ensures r == Wrapped(params)
  {
    r := params;
    var rest := params.Keys;
    while rest != {}
      invariant rest <= params.Keys
      invariant r.Keys == params.Keys
      invariant forall k :: k in params && k !in rest ==> r[k] == AsArray(params[k])
      invariant forall k :: k in rest ==> r[k] == params[k]
      decreases |rest|
    {
      var k :| k in rest;
      if !r[k].Arr? {
        r := r[k := Arr([r[k]])];
      }
      rest := rest - {k};
    }
  }

  /** `params[key]`, undefined for a missing key. */
  function Lookup(params: Params, key: string): Value
  {
    if key in params then params[key] else Undefined
  }

  /** `usedParams` after lines 490-492: its own keys, each holding the
      value `params` has for it. */
  function Synced(used: Params, params: Params): Params
  {
    map k | k in used :: Lookup(params, k)
  }

  /** The loop of lines 490-492, rewriting `usedParams` key by key. */
  method SyncUsedParams(used: Params, params: Params) returns (r: Params)
    ensures r == Synced(used, params)
  {
    r := used;
    var rest := used.Keys;
    while rest != {}
      invariant rest <= used.Keys
      invariant r.Keys == used.Keys
      invariant forall k :: k in used && k !in rest ==> r[k] == Lookup(params, k)
      decreases |rest|
    {
      var k :| k in rest;
      r := r[k := Lookup(params, k)];
      rest := rest - {k};
    }
  }

  /** When `params` has every key of `usedParams` (as it does after line
      478), every key of the synced `usedParams` holds exactly
      `params[key]`, and it has no other keys. */
  lemma SyncedHoldsParams(used: Params, params: Params)
    requires used.Keys <= params.Keys
    ensures Synced(used, params).Keys == used.Keys
    ensures forall k :: k in used ==> Synced(used, params)[k] == params[k]
  {
  }

  /** `updateParams({userParamsOverride, params, usedParams})`, whose
      definition is not part of this model: each overridden key is taken
      to be overwritten in both maps. */
  function UpdateParams(override: Params, params: Params, used: Params): (Params, Params)
  {
    (params + override, used + override)
  }

  /** The parameters after a sequence of `updateParams` overrides, applied
      in order. */
  function ApplyOverrides(params: Params, overrides: seq<Params>): Params
    decreases |overrides|
  {
    if overrides == [] then params
    else ApplyOverrides(params, overrides[..|overrides| - 1]) + overrides[|overrides| - 1]
  }

  /** The last override that sets a key decides its value. */
  lemma {:induction false} LastOverrideWins(params: Params, overrides: seq<Params>, i: nat, key: string)
    requires i < |overrides| && key in overrides[i]
    requires forall j :: i < j < |overrides| ==> key !in overrides[j]
    ensures key in ApplyOverrides(params, overrides)
    ensures ApplyOverrides(params, overrides)[key] == overrides[i][key]
    decreases |overrides|
  {
    if i < |overrides| - 1 {
      LastOverrideWins(params, overrides[..|overrides| - 1], i, key);
    }
  }

  /** A key no override sets keeps its value, or stays absent. */
  lemma {:induction false} UnsetKeyKept(params: Params, overrides: seq<Params>, key: string)
    requires forall j :: 0 <= j < |overrides| ==> key !in overrides[j]
    ensures key in ApplyOverrides(params, overrides) <==> key in params
    ensures key in params ==> ApplyOverrides(params, overrides)[key] == params[key]
    decreases |overrides|
  {
    if overrides != [] {
      UnsetKeyKept(params, overrides[..|overrides| - 1], key);
    }
  }

  // ---------------------------------------------------------------------------
  // Sources

  /** The test of line 538: a source is kept for a UI-only run when it is an
      object with a truthy `ui`. */
  predicate KeptForUi(source: Value)
  {
    IsObject(source) && Truthy(Prop(source, "ui"))
  }

  /** The sources a UI-only run keeps. */
  function UiSources(sources: map<string, Value>): (r: map<string, Value>)
    ensures forall k :: k in r <==> k in sources && KeptForUi(sources[k])
    ensures forall k :: k in r ==> r[k] == sources[k]
  {
    map k | k in sources && KeptForUi(sources[k]) :: sources[k]
  }

  /** The loop of lines 535-541. */
  method FilterUiSources(sources: map<string, Value>) returns (r: map<string, Value>)
    ensures r == UiSources(sources)
  {
    r := map[];
    var rest := sources.Keys;
    while rest != {}
      invariant rest <= sources.Keys
      invariant forall k :: k in r <==> k in sources && k !in rest && KeptForUi(sources[k])
      invariant forall k :: k in r ==> r[k] == sources[k]
      decreases |rest|
    {
      var k :| k in rest;
      if KeptForUi(sources[k]) {
        r := r[k := sources[k]];
      }
      rest := rest - {k};
    }
  }

  /** `resolvedSources[name].body` for every fetched source (lines 657-666). */
  function Bodies(resolved: map<string, Value>): map<string, Value>
  {
    map k | k in resolved :: Prop(resolved[k], "body")
  }

  /** A source after `delete source.body`. */
  function WithoutBody(source: Value): (r: Value)
  {
    if source.Obj? then Obj(source.fields - {"body"}, source.kind) else source
  }

  /** Every fetched source with its body deleted. */
  function WithoutBodies(resolved: map<string, Value>): map<string, Value>
  {
    map k | k in resolved :: WithoutBody(resolved[k])
  }

  /** Splitting the bodies off loses nothing: putting a body back into its
      source gives the fetched source again, and the stripped source has no
      body left. */
  lemma BodiesSplitLosslessly(resolved: map<string, Value>, k: string)
    requires k in resolved && Has(resolved[k], "body")
    ensures !Has(WithoutBodies(resolved)[k], "body")
    ensures Obj(WithoutBodies(resolved)[k].fields["body" := Bodies(resolved)[k]], resolved[k].kind) == resolved[k]
  {
    var f := resolved[k].fields;
    assert (f - {"body"})["body" := f["body"]] == f;
  }

  /** The `reduce` of lines 657-666: the bodies are collected and deleted
      from the sources; a null or undefined source makes the `.body` read
      throw. */
  method SplitBodies(resolved: map<string, Value>) returns (r: Result<(map<string, Value>, map<string, Value>)>)
    ensures r.Throws? <==> exists k :: k in resolved && IsNullish(resolved[k])
    ensures r.Throws? ==> r.error == TypeError
    ensures r.Ok? ==> r.value.0 == Bodies(resolved) && r.value.1 == WithoutBodies(resolved)
  {
    var data: map<string, Value> := map[];
    var stripped := resolved;
    var rest := resolved.Keys;
    while rest != {}
      invariant rest <= resolved.Keys
      invariant stripped.Keys == resolved.Keys
      invariant forall k :: k in resolved && k !in rest ==> !IsNullish(resolved[k])
      invariant forall k :: k in data <==> k in resolved && k !in rest
      invariant forall k :: k in data ==> data[k] == Prop(resolved[k], "body")
      invariant forall k :: k in resolved ==> stripped[k] == if k in rest then resolved[k] else WithoutBody(resolved[k])
      decreases |rest|
    {
      var k :| k in rest;
      if IsNullish(resolved[k]) {
        return Throws(TypeError);
      }
      data := data[k := Prop(resolved[k], "body")];
      stripped := stripped[k := WithoutBody(resolved[k])];
      rest := rest - {k};
    }
    r := Ok((data, stripped));
  }

  // ---------------------------------------------------------------------------
  // Fetch failures

  /** The code of a fetch-failure response (lines 598-614): 403 and 404
      statuses are remapped, anything else keeps `DATA_FETCHING_ERROR`. */
  function FetchErrorCode(error: Value): (r: string)
    ensures r == "ENTRY_FORBIDDEN" <==> Has(error, "status") && Prop(error, "status") == Num(403)
    ensures r == "ENTRY_NOT_FOUND" <==> Has(error, "status") && Prop(error, "status") == Num(404)
    ensures r == DATA_FETCHING_ERROR <==> !(Has(error, "status") && Prop(error, "status") in {Num(403), Num(404)})
  {
    if Has(error, "status") && Prop(error, "status") == Num(403) then "ENTRY_FORBIDDEN"
    else if Has(error, "status") && Prop(error, "status") == Num(404) then "ENTRY_NOT_FOUND"
    else DATA_FETCHING_ERROR
  }

  /** `399 < possibleStatus && possibleStatus < 500` with
      `possibleStatus = sourceResult && sourceResult.status`: a source with
      no numeric status is not a client error. */
  predicate ClientError(sourceResult: Value)
  {
    var status := Prop(sourceResult, "status");
    status.Num? && 399 < status.n < 500
  }

  /** The size-limit test of lines 637-642. */
  predicate SizeLimitExceeded(sourceResult: Value)
  {
    Prop(sourceResult, "code") == Str(REQUEST_SIZE_LIMIT_EXCEEDED)
    || Prop(sourceResult, "code") == Str(ALL_REQUESTS_SIZE_LIMIT_EXCEEDED)
  }

  /** `Object.values(error)`; the flags depend only on which values occur. */
  function ValuesOf(error: Value): set<Value>
  {
    match error
    case Obj(fields, _) => fields.Values
    case Arr(items) => set v | v in items
    case _ => {}
  }

  datatype FetchFlags = FetchFlags(maybe400: bool, maybe500: bool, sizeLimitExceeded: bool)

  /** The flags once every source result has been looked at. */
  function Flags(results: set<Value>): FetchFlags
  {
    FetchFlags(
      exists v :: v in results && ClientError(v),
      exists v :: v in results && !ClientError(v),
      exists v :: v in results && SizeLimitExceeded(v))
  }

  /** Looking at one more source result. */
  lemma FlagsAdd(done: set<Value>, v: Value)
    ensures Flags(done + {v}) ==
            FetchFlags(Flags(done).maybe400 || ClientError(v), Flags(done).maybe500 || !ClientError(v),
                       Flags(done).sizeLimitExceeded || SizeLimitExceeded(v))
  {
    assert v in done + {v};
  }

  /** The loop of lines 625-643, with a null or undefined source result
      counted as a source with no status. */
  method ClassifySources(results: set<Value>) returns (flags: FetchFlags)
    ensures flags == Flags(results)
  {
    flags := FetchFlags(false, false, false);
    var rest := results;
    while rest != {}
      invariant rest <= results
      invariant flags == Flags(results - rest)
      decreases |rest|
    {
      var v :| v in rest;
      var client := ClientError(v);
      var limit := SizeLimitExceeded(v);
      FlagsAdd(results - rest, v);
      assert results - (rest - {v}) == (results - rest) + {v};
      flags := FetchFlags(flags.maybe400 || client, flags.maybe500 || !client, flags.sizeLimitExceeded || limit);
      rest := rest - {v};
    }
    assert results - rest == results;
  }

  /** The loop of lines 625-643 as written: `sourceResult.code` is read
      even when the guard `sourceResult &&` above it found a null or
      undefined source result, so such a result throws. */
  function FlagsAsWritten(results: set<Value>): (r: Result<FetchFlags>)
    ensures r.Throws? <==> exists v :: v in results && IsNullish(v)
    ensures r.Ok? ==> r.value == Flags(results)
  {
    if exists v :: v in results && IsNullish(v) then Throws(TypeError) else Ok(Flags(results))
  }

  /** A fetch error `{source: null}` makes the classification as written
      throw, where the guard at line 629 shows a missing source result was
      meant to count as a source with no status. */
  lemma NullSourceResultThrows()
    ensures FlagsAsWritten(ValuesOf(Object(map["source" := Null]))).Throws?
    ensures Flags(ValuesOf(Object(map["source" := Null]))) == FetchFlags(false, true, false)
  {
    var e := Object(map["source" := Null]);
    assert "source" in e.fields && e.fields["source"] == Null;
    assert e.fields.Values == {Null};
    assert !ClientError(Null) && !SizeLimitExceeded(Null);
  }

  datatype FetchStatus = SourceFetching400 | SourceFetchingLimitExceeded | SourceFetching500

  /** The choice of lines 645-651. */
  function StatusOfFlags(f: FetchFlags): FetchStatus
  {
    if f.maybe400 && !f.maybe500 then SourceFetching400
    else if f.sizeLimitExceeded then SourceFetchingLimitExceeded
    else SourceFetching500
  }

  /** The status of a failed fetch: the 400 default when every source
      failed with a client error, else the limit status when some source
      exceeded a size limit, else the 500 default. */
  function FetchStatusOf(results: set<Value>): (r: FetchStatus)
    ensures r == SourceFetching400 <==> results != {} && forall v :: v in results ==> ClientError(v)
    ensures r == SourceFetchingLimitExceeded <==>
              (results == {} || exists v :: v in results && !ClientError(v))
              && exists v :: v in results && SizeLimitExceeded(v)
    ensures r == SourceFetching500 <==>
              (results == {} || exists v :: v in results && !ClientError(v))
              && forall v :: v in results ==> !SizeLimitExceeded(v)
  {
    StatusOfFlags(Flags(results))
  }

  /** Because the all-4xx test comes first, a size-limit failure among
      client errors only still gets the 400 default. */
  lemma SizeLimitAmongClientErrors(results: set<Value>, v: Value)
    requires v in results && SizeLimitExceeded(v)
    requires forall w :: w in results ==> ClientError(w)
    ensures FetchStatusOf(results) == SourceFetching400
  {
  }

  /** A source with no status counts as a non-client error, so it rules
      out the 400 default. */
  lemma NoStatusRulesOut400(results: set<Value>, v: Value)
    requires v in results && !Prop(v, "status").Num?
    ensures FetchStatusOf(results) != SourceFetching400
  {
  }

  function StatusCode(st: Statuses, s: FetchStatus): int
  {
    match s
    case SourceFetching400 => st.fetching400
    case SourceFetchingLimitExceeded => st.fetchingLimitExceeded
    case SourceFetching500 => st.fetching500
  }

  /** `...(error.debug)` for a truthy plain-object `debug`. */
  function DebugFields(error: Value): Params
  {
    if Has(error, "debug") && Truthy(Prop(error, "debug")) then SpreadOf(Prop(error, "debug")) else map[]
  }

  /** The error object of a fetch-failure response (lines 593-651): the
      code, the debug message with the error's own `debug` spread over it,
      the failing sources and the status. */
  function FetchFailureError(st: Statuses, error: Value, message: string, status: FetchStatus): Value
  {
    Object(map[
      "code" := Str(FetchErrorCode(error)),
      "debug" := Object(map["message" := Str(message)] + DebugFields(error)),
      "details" := Object(map["sources" := error]),
      "statusCode" := Num(StatusCode(st, status))])
  }

  /** What the fetch `catch` of lines 587-655 returns, `message` being what
      `getMessageFromUnknownError` gives for the error. A thrown primitive
      or `Error` instance gives only `'Internal fetching error'`. */
  function FetchFailureResponse(st: Statuses, error: Value, message: string): (r: Response)
    ensures r.Failure? && r.sources == Undefined
    ensures r.error == Str("Internal fetching error") <==> !IsObject(error) || IsErrorInstance(error)
    ensures IsObject(error) && !IsErrorInstance(error) ==>
              Prop(r.error, "code") == Str(FetchErrorCode(error))
              && Prop(Prop(r.error, "details"), "sources") == error
              && Prop(r.error, "statusCode") == Num(StatusCode(st, FetchStatusOf(ValuesOf(error))))
  {
    if !IsObject(error) || IsErrorInstance(error) then Failure(Str("Internal fetching error"), Undefined)
    else Failure(FetchFailureError(st, error, message, FetchStatusOf(ValuesOf(error))), Undefined)
  }

  /** The fetch `catch`, running the classification loop. */
  method FetchFailure(st: Statuses, error: Value, message: string) returns (r: Response)
    ensures r == FetchFailureResponse(st, error, message)
  {
    if !IsObject(error) || IsErrorInstance(error) {
      return Failure(Str("Internal fetching error"), Undefined);
    }
    var flags := ClassifySources(ValuesOf(error));
    r := Failure(FetchFailureError(st, error, message, StatusOfFlags(flags)), Undefined);
  }

  // ---------------------------------------------------------------------------
  // UI controls

  /** The controls of a UI scheme (lines 759-770): the UI tab's exports when
      they are an array, or an object whose `controls` is an array. */
  function UiSchemeControls(exports: Value): (r: Option<seq<Value>>)
    ensures exports.Arr? ==> r == Some(exports.items)
    ensures exports.Obj? ==> (r.Some? <==> Prop(exports, "controls").Arr?)
    ensures exports.Obj? && r.Some? ==> r.value == Prop(exports, "controls").items
    ensures !exports.Arr? && !exports.Obj? ==> r == None
  {
    if exports.Arr? then Some(exports.items)
    else if exports.Obj? && "controls" in exports.fields && exports.fields["controls"].Arr? then Some(exports.fields["controls"].items)
    else None
  }

  /** The UI scheme holding the given controls in place of its own. */
  function WithControls(scheme: Value, controls: seq<Value>): Value
  {
    if scheme.Arr? then Arr(controls)
    else if scheme.Obj? then Obj(scheme.fields["controls" := Arr(controls)], scheme.kind)
    else scheme
  }

  /** A control after lines 776-778: an object whose `param` is private gets
      `disabled = true` and keeps every other property; any other control is
      untouched. */
  function DisableIfPrivate(control: Value, privateParams: seq<Value>): (r: Value)
    ensures control.Obj? && Prop(control, "param") in privateParams ==>
              r.Obj? && r.kind == control.kind && Prop(r, "disabled") == Bool(true)
              && forall key :: key != "disabled" ==> Prop(r, key) == Prop(control, key)
    ensures !(control.Obj? && Prop(control, "param") in privateParams) ==> r == control
  {
    if control.Obj? && Prop(control, "param") in privateParams
    then Obj(control.fields["disabled" := Bool(true)], control.kind)
    else control
  }

  /** The `forEach` of lines 775-779: no control is removed or reordered;
      reading `param` of a null or undefined control throws. */
  method DisablePrivateControls(controls: seq<Value>, privateParams: seq<Value>) returns (r: Result<seq<Value>>)
    ensures r.Throws? <==> exists i :: 0 <= i < |controls| && IsNullish(controls[i])
    ensures r.Throws? ==> r.error == TypeError
    ensures r.Ok? ==> |r.value| == |controls|
    ensures r.Ok? ==> forall i :: 0 <= i < |controls| ==> r.value[i] == DisableIfPrivate(controls[i], privateParams)
  {
    var out := controls;
    for i := 0 to |controls|
      invariant |out| == |controls|
      invariant forall j :: 0 <= j < i ==> !IsNullish(controls[j])
      invariant forall j :: 0 <= j < i ==> out[j] == DisableIfPrivate(controls[j], privateParams)
      invariant forall j :: i <= j < |controls| ==> out[j] == controls[j]
    {
      if IsNullish(controls[i]) {
        return Throws(TypeError);
      }
      out := out[i := DisableIfPrivate(controls[i], privateParams)];
    }
    r := Ok(out);
  }

  // ---------------------------------------------------------------------------
  // Forbidden fields

  /** The success result after lines 937-943: every forbidden field holding
      a truthy value is deleted, every other field is unchanged. */
  function Redacted(result: map<string, Value>, forbidden: seq<string>): (r: map<string, Value>)
    ensures forall k :: k in r <==> k in result && !(k in forbidden && Truthy(result[k]))
    ensures forall k :: k in r ==> r[k] == result[k]
  {
    map k | k in result && !(k in forbidden && Truthy(result[k])) :: result[k]
  }

  /** Redacting twice deletes nothing more. */
  lemma RedactionIdempotent(result: map<string, Value>, forbidden: seq<string>)
    ensures Redacted(Redacted(result, forbidden), forbidden) == Redacted(result, forbidden)
  {
  }

  /** After redaction no forbidden field is truthy. */
  lemma RedactedHasNoTruthyForbidden(result: map<string, Value>, forbidden: seq<string>)
    ensures forall f :: f in forbidden && f in Redacted(result, forbidden) ==> !Truthy(Redacted(result, forbidden)[f])
  {
  }

  /** The `forEach` of lines 938-942, deleting field by field. */
  method RemoveForbiddenFields(result: map<string, Value>, forbidden: seq<string>) returns (r: map<string, Value>)
    ensures r == Redacted(result, forbidden)
  {
    r := result;
    for i := 0 to |forbidden|
      invariant r == Redacted(result, forbidden[..i])
    {
      if forbidden[i] in r && Truthy(r[forbidden[i]]) {
        r := r - {forbidden[i]};
      }
      assert forbidden[..i + 1] == forbidden[..i] + [forbidden[i]];
    }
    assert forbidden[..|forbidden|] == forbidden;
  }

  // ---------------------------------------------------------------------------
  // Library-config merge

  /** `mergeArrayWithObject(a, b)` (lines 112-119): when `a` is an array and
      `b` a non-array object, every element of `a` merged with `b`;
      otherwise undefined. `merge` is lodash's, not part of this model. */
  function MergeArrayWithObject(a: Value, b: Value, merge: (Value, Value) -> Value): (r: Option<Value>)
    ensures r.Some? <==> a.Arr? && b.Obj?
    ensures r.Some? ==> (r.value.Arr? && |r.value.items| == |a.items|
                         && forall i :: 0 <= i < |a.items| ==> r.value.items[i] == merge(a.items[i], b))
  {
    if a.Arr? && b.Obj? then Some(Arr(seq(|a.items|, i requires 0 <= i < |a.items| => merge(a.items[i], b))))
    else None
  }

  /** The `mergeWith` customizer of lines 830-832; `None` leaves the pair to
      lodash's own merge. */
  function LibraryMergeCustomizer(a: Value, b: Value, merge: (Value, Value) -> Value): Option<Value>
  {
    var ab := MergeArrayWithObject(a, b, merge);
    if ab.Some? then ab else MergeArrayWithObject(b, a, merge)
  }

  /** The customizer applies to an array against an object in either order
      and to nothing else: an override object is merged into every base
      element, and the base object is merged into every element of an
      override array. */
  lemma CustomizerBroadcasts(a: Value, b: Value, merge: (Value, Value) -> Value)
    ensures LibraryMergeCustomizer(a, b, merge).Some? <==> (a.Arr? && b.Obj?) || (a.Obj? && b.Arr?)
    ensures a.Arr? && b.Obj? ==> LibraryMergeCustomizer(a, b, merge) == MergeArrayWithObject(a, b, merge)
    ensures a.Obj? && b.Arr? ==> LibraryMergeCustomizer(a, b, merge) == MergeArrayWithObject(b, a, merge)
  {
  }

  // ---------------------------------------------------------------------------
  // Module logs

  /** A built module: its name and the log lines its run produced. */
  datatype ModuleResult = ModuleResult(name: string, logs: Option<seq<seq<Value>>>)

  /** The item `{type: 'string', value: '[name]'}` put in front of every
      log line of a module. */
  function ModuleTag(name: string): Value
  {
    Object(map["type" := Str("string"), "value" := Str("[" + name + "]")])
  }

  /** A module's log lines, each with the module's tag in front. */
  function TaggedLines(m: ModuleResult): (r: seq<seq<Value>>)
    ensures m.logs.None? ==> r == []
    ensures m.logs.Some? ==> (|r| == |m.logs.value|
                              && forall i :: 0 <= i < |r| ==> r[i] == [ModuleTag(m.name)] + m.logs.value[i])
  {
    if m.logs.Some? then seq(|m.logs.value|, i requires 0 <= i < |m.logs.value| => [ModuleTag(m.name)] + m.logs.value[i])
    else []
  }

  /** Every module's tagged lines, module after module. */
  function ModulesLogs(modules: seq<ModuleResult>): seq<seq<Value>>
    decreases |modules|
  {
    if modules == [] then [] else ModulesLogs(modules[..|modules| - 1]) + TaggedLines(modules[|modules| - 1])
  }

  /** The module logs of two runs of modules are those of the first, then
      those of the second. */
  lemma {:induction false} ModulesLogsAppend(a: seq<ModuleResult>, b: seq<ModuleResult>)
    ensures ModulesLogs(a + b) == ModulesLogs(a) + ModulesLogs(b)
    decreases |b|
  {
    if b == [] {
      assert a + b == a;
    } else {
      var front, last := b[..|b| - 1], b[|b| - 1];
      assert (a + b)[..|a + b| - 1] == a + front;
      assert (a + b)[|a + b| - 1] == last;
      calc {
        ModulesLogs(a + b);
        ModulesLogs(a + front) + TaggedLines(last);
        { ModulesLogsAppend(a, front); }
        ModulesLogs(a) + ModulesLogs(front) + TaggedLines(last);
        ModulesLogs(a) + ModulesLogs(b);
      }
    }
  }

  /** A log line of module `m`: its tag, then one of its own lines. */
  predicate ModuleLine(m: ModuleResult, line: seq<Value>)
  {
    m.logs.Some? && |line| >= 1 && line[0] == ModuleTag(m.name) && line[1..] in m.logs.value
  }

  /** Every collected log line starts with the tag of a module it came from
      and goes on with one of that module's own lines. */
  lemma {:induction false} ModulesLogsTagged(modules: seq<ModuleResult>, i: nat)
    requires i < |ModulesLogs(modules)|
    ensures exists j :: 0 <= j < |modules| && ModuleLine(modules[j], ModulesLogs(modules)[i])
    decreases |modules|
  {
    var last := |modules| - 1;
    var front := ModulesLogs(modules[..last]);
    if i < |front| {
      ModulesLogsTagged(modules[..last], i);
      var j :| 0 <= j < last && ModuleLine(modules[..last][j], front[i]);
      assert modules[..last][j] == modules[j];
    } else {
      var line := TaggedLines(modules[last])[i - |front|];
      assert line[1..] == modules[last].logs.value[i - |front|];
      assert ModuleLine(modules[last], line);
    }
  }

  /** The inner `forEach` of lines 105-107: every line of one module gets
      the module's tag in front. */
  method TagModuleLines(m: ModuleResult) returns (lines: seq<seq<Value>>)
    ensures lines == TaggedLines(m)
  {
    lines := [];
    if m.logs.Some? {
      var logs := m.logs.value;
      for j := 0 to |logs|
        invariant lines == TaggedLines(m)[..j]
      {
        lines := lines + [[ModuleTag(m.name)] + logs[j]];
      }
    }
  }

  /** `collectModulesLogs` (lines 92-110): the modules' tagged lines are
      appended to the stored ones, module after module. */
  method CollectModulesLogs(modules: seq<ModuleResult>, stored: seq<seq<Value>>) returns (r: seq<seq<Value>>)
    ensures r == stored + ModulesLogs(modules)
  {
    r := stored;
    for i := 0 to |modules|
      invariant r == stored + ModulesLogs(modules[..i])
    {
      var lines := TagModuleLines(modules[i]);
      assert modules[..i + 1][..i] == modules[..i];
      r := r + lines;
    }
    assert modules[..|modules|] == modules;
  }

  // ---------------------------------------------------------------------------
  // Early failures

  /** The response of lines 342-357 when the hooks fail to initialise:
      `hookError`'s own fields spread over the `HOOKS_ERROR` code, or a
      generic message. */
  function HooksFailure(hookError: Value, message: string): (r: Value)
    ensures Truthy(hookError) ==> r == Object(map["code" := Str(HOOKS_ERROR)] + SpreadOf(hookError))
    ensures !Truthy(hookError) ==> (Prop(r, "code") == Str(HOOKS_ERROR)
                                    && Prop(r, "message") == Str("Unhandled error init hooks"))
  {
    if Truthy(hookError) then Object(map["code" := Str(HOOKS_ERROR)] + SpreadOf(hookError))
    else Object(map[
      "code" := Str(HOOKS_ERROR),
      "message" := Str("Unhandled error init hooks"),
      "debug" := Object(map["message" := Str(message)])])
  }

  /** The reason of lines 383-391: `stackTrace` when the error has a truthy
      one, except that a 403 or 404 status names the cause. */
  function DepsReason(error: Value): (r: Value)
    ensures Has(error, "status") && Prop(error, "status") == Num(403) ==> r == Str("access denied")
    ensures Has(error, "status") && Prop(error, "status") == Num(404) ==> r == Str("not found")
    ensures !(Has(error, "status") && Prop(error, "status") in {Num(403), Num(404)}) ==>
              r == Or(if Has(error, "stackTrace") then Prop(error, "stackTrace") else Bool(false), Str("internal error"))
  {
    if Has(error, "status") && Prop(error, "status") == Num(403) then Str("access denied")
    else if Has(error, "status") && Prop(error, "status") == Num(404) then Str("not found")
    else Or(if Has(error, "stackTrace") then Prop(error, "stackTrace") else Bool(false), Str("internal error"))
  }

  /** The file named in a dependency failure (lines 393-404). */
  function DepsFilename(error: Value): Value
  {
    var er := Prop(error, "executionResult");
    var sandbox := if Has(error, "executionResult") && IsObject(er) && Has(er, "filename") then Prop(er, "filename") else Null;
    var axios := if error.Obj? && error.kind == AxiosErrorInstance && Has(error, "description") then Prop(error, "description") else Null;
    Or(Or(sandbox, axios), Str("required modules"))
  }

  /** What a dependency failure says went wrong, after `Error resolving `
      (lines 408-414): the error's `description` when it has one, else the
      module and the reason. */
  function DepsStackTraceText(error: Value): (r: string)
    ensures !IsObject(error) ==> r == "required modules: internal error"
    ensures IsObject(error) && Has(error, "description") ==> r == ToStr(Prop(error, "description"))
    ensures IsObject(error) && !Has(error, "description") ==>
              r == "module (" + ToStr(DepsFilename(error)) + "): " + ToStr(DepsReason(error))
  {
    if !IsObject(error) then "required modules: internal error"
    else if Has(error, "description") then ToStr(Prop(error, "description"))
    else "module (" + ToStr(DepsFilename(error)) + "): " + ToStr(DepsReason(error))
  }

  /** The response of lines 367-421 when the modules fail to build, with
      `message` from `getMessageFromUnknownError`: the status is passed on
      only when it is a number. */
  function DepsFailure(error: Value, message: string): (r: Value)
    ensures Prop(r, "code") == Str(DEPS_RESOLVE_ERROR)
    ensures Prop(Prop(r, "details"), "stackTrace") == Str("Error resolving " + DepsStackTraceText(error))
    ensures Prop(r, "statusCode") == (if Has(error, "status") && Prop(error, "status").Num? then Prop(error, "status") else Undefined)
  {
    var details := Object(map["stackTrace" := Str("Error resolving " + DepsStackTraceText(error))]);
    if !IsObject(error) then
      Object(map["code" := Str(DEPS_RESOLVE_ERROR), "details" := details, "debug" := Object(map[])])
    else
      Object(map[
        "code" := Str(DEPS_RESOLVE_ERROR),
        "details" := details,
        "statusCode" := if Has(error, "status") && Prop(error, "status").Num? then Prop(error, "status") else Undefined,
        "debug" := Object(map["message" := Str(message)])])
  }

  /** The response of lines 429-451 when the Shared tab fails. */
  function SharedFailure(message: string): (r: Value)
    ensures Prop(r, "code") == Str(RUNTIME_ERROR)
    ensures Prop(Prop(r, "details"), "description") == Str("Invalid JSON in Shared tab")
  {
    Object(map[
      "code" := Str(RUNTIME_ERROR),
      "details" := Object(map["description" := Str("Invalid JSON in Shared tab")]),
      "debug" := Object(map["message" := Str(message)])])
  }

  // ---------------------------------------------------------------------------
  // The top-level catch

  predicate PassedThroughCode(code: Value)
  {
    code == Str(CONFIG_LOADING_ERROR) || code == Str(DEPS_RESOLVE_ERROR) || code == Str(DATA_FETCHING_ERROR)
  }

  predicate OversizeCode(code: Value)
  {
    code == Str(ROWS_NUMBER_OVERSIZE) || code == Str(SEGMENTS_OVERSIZE) || code == Str(TABLE_OVERSIZE)
  }

  /** The codes the catch answers with an `{error, sources}` response. */
  predicate KnownCode(code: Value)
  {
    PassedThroughCode(code) || OversizeCode(code) || code == Str(RUNTIME_ERROR) || code == Str(RUNTIME_TIMEOUT_ERROR)
  }

  /** The `tabName` of a runtime error: `error.executionResult.filename`
      when there is an execution result, `''` otherwise. */
  function TabName(error: Value): Value
  {
    if Truthy(Prop(error, "executionResult")) then Prop(Prop(error, "executionResult"), "filename") else Str("")
  }

  /** The `stackTrace` of a runtime error: the execution result's
      `stackTrace`, or else its `stack`, prepared; `''` when neither is
      truthy. */
  function RuntimeStackTrace(error: Value, prepare: Value -> Value): Value
  {
    var er := Or(Prop(error, "executionResult"), Object(map[]));
    var stack := Or(Prop(er, "stackTrace"), Prop(er, "stack"));
    if Truthy(stack) then prepare(stack) else Str("")
  }

  /** What the `catch` of lines 946-1047 makes of an error thrown during the
      run, `resolved` being the fetched sources (undefined before the
      fetch) and `prepare` the stack-trace preparer. */
  function CatchResponse(st: Statuses, error: Value, resolved: Value, prepare: Value -> Value): (r: Response)
    ensures r.Rejected? <==> (!IsObject(error) || !KnownCode(Prop(error, "code")))
    ensures r.Rejected? ==> r.error == error
    ensures IsObject(error) && PassedThroughCode(Prop(error, "code")) ==> r == Failure(error, Undefined)
    ensures IsObject(error) && OversizeCode(Prop(error, "code")) ==>
              r == Failure(Object(map[
                "code" := Prop(error, "code"),
                "details" := Prop(error, "details"),
                "statusCode" := Num(st.oversize)]), Undefined)
    ensures IsObject(error) && Prop(error, "code") == Str(RUNTIME_ERROR) ==>
              r.Failure?
              && Prop(r.error, "code") == Str(RUNTIME_ERROR)
              && Prop(r.error, "statusCode") == Num(st.runtimeError)
              && Prop(Prop(r.error, "details"), "tabName") == TabName(error)
              && Prop(Prop(r.error, "details"), "stackTrace") == RuntimeStackTrace(error, prepare)
              && r.sources == (if Truthy(resolved) then resolved else Undefined)
    ensures IsObject(error) && Prop(error, "code") == Str(RUNTIME_TIMEOUT_ERROR) ==>
              r == Failure(Object(map[
                "code" := Str(RUNTIME_TIMEOUT_ERROR),
                "statusCode" := Num(st.runtimeTimeout)]), Undefined)
  {
    if !IsObject(error) then Rejected(error)
    else
      var code := Prop(error, "code");
      if PassedThroughCode(code) then Failure(error, Undefined)
      else if OversizeCode(code) then
        Failure(Object(map["code" := code, "details" := Prop(error, "details"), "statusCode" := Num(st.oversize)]), Undefined)
      else if code == Str(RUNTIME_ERROR) then
        Failure(Object(map[
          "code" := Str(RUNTIME_ERROR),
          "details" := Object(map["stackTrace" := RuntimeStackTrace(error, prepare), "tabName" := TabName(error)]),
          "statusCode" := Num(st.runtimeError)]),
          if Truthy(resolved) then resolved else Undefined)
      else if code == Str(RUNTIME_TIMEOUT_ERROR) then
        Failure(Object(map["code" := Str(RUNTIME_TIMEOUT_ERROR), "statusCode" := Num(st.runtimeTimeout)]), Undefined)
      else Rejected(error)
  }

  /** The catch answers with an `{error, sources}` response exactly for the
      eight known codes. */
  lemma CatchAnswersKnownCodes(st: Statuses, error: Value, resolved: Value, prepare: Value -> Value)
    requires IsObject(error)
    requires Prop(error, "code").Str?
    ensures CatchResponse(st, error, resolved, prepare).Failure? <==>
              Prop(error, "code").s in {CONFIG_LOADING_ERROR, DEPS_RESOLVE_ERROR, DATA_FETCHING_ERROR,
                                        ROWS_NUMBER_OVERSIZE, SEGMENTS_OVERSIZE, TABLE_OVERSIZE,
                                        RUNTIME_ERROR, RUNTIME_TIMEOUT_ERROR}
  {
  }
}
