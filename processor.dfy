/**
 * `Processor.process` (src/server/components/charts-engine/components/processor/index.ts):
 * one run of a chart script, tab by tab. After the hooks, the modules and
 * the Shared tab, the Params tab gives the parameter defaults, the Sources
 * tab names the data sources, the fetcher loads them, and the library
 * config, Config, JS and UI tabs build the chart; the result is assembled,
 * given the entry's identity and redacted. A UI-only run skips the Config
 * and JS tabs and fetches only the sources marked for the UI.
 *
 * The chart builder (which runs each tab in the sandbox), the data
 * fetcher, the hooks, lodash `merge`/`mergeWith`, the serialiser and the
 * params helpers `normalizeParams`, `resolveParams` and
 * `transformParamsToActionParams` are parameters: the model states what
 * the processor does with their answers.
 */
module Processor {
  import opened Js
  import opened ProcessorSteps

  /** What the sandbox gave for one tab: its exports, the error in its
      runtime metadata (undefined when none) and its `Editor.updateParams`
      and `Editor.updateActionParams` overrides. */
  datatype TabRun = TabRun(exports: Value, error: Value, userParamsOverride: Params, userActionParamsOverride: Params)

  /** What the sandbox gave for the JS tab. */
  datatype ChartRun = ChartRun(
    tab: TabRun,
    userConfigOverride: Value,
    libraryConfigOverride: Value,
    extra: Value,
    chartsInsights: Value,
    sideMarkdown: Value,
    dataSourcesInfos: Value,
    exportFilename: Value)

  datatype HooksInit = HooksReady | HooksFailed(hookError: Value, error: Value)

  /** The chart builder as the answers of its calls; `Throws` is a call
      that rejects. The Params tab also reports what it wrote into the
      `usedParams` object it was given. */
  datatype Builder = Builder(
    modules: Result<seq<ModuleResult>>,
    shared: Result<bool>,
    params: (Params, Params) -> Result<(TabRun, Params)>,
    urls: Params -> Result<TabRun>,
    library: (map<string, Value>, Params) -> Result<Option<TabRun>>,
    config: (map<string, Value>, Params) -> Result<TabRun>,
    chart: (map<string, Value>, map<string, Value>, Params, Params) -> Result<ChartRun>,
    ui: (map<string, Value>, Params, Params) -> Result<TabRun>)

  /** The collaborators of a run. */
  datatype Env = Env(
    hooks: HooksInit,
    fetch: map<string, Value> -> Result<map<string, Value>>,
    normalize: Params -> (Params, Params),
    resolve: Params -> Params,
    toActionParams: Params -> Params,
    merge: (Value, Value) -> Value,
    mergeLibrary: (Value, Value) -> Value,
    stringify: Value -> Value,
    message: Value -> string,
    prepareStack: Value -> Value,
    statuses: Statuses)

  /** The arguments of `Processor.process` the model uses;
      `responseConfig` is the feature flag and `includeConfig` option that
      make the whole stored config the response's `_confStorageConfig`. */
  datatype Request = Request(
    paramsOverride: Params,
    widgetConfig: Value,
    config: map<string, Value>,
    uiOnly: bool,
    forbiddenFields: Option<seq<string>>,
    privateParams: Option<seq<Value>>,
    configName: string,
    configId: string,
    revId: Value,
    responseConfig: bool,
    timings: Value)

  datatype Tab = ParamsTab | SourcesTab | LibraryTab | ConfigTab | JsTab | UiTab

  /** The tabs of a complete run, in the order they run. */
  function TabOrder(uiOnly: bool): seq<Tab>
  {
    if uiOnly then [ParamsTab, SourcesTab, LibraryTab, UiTab]
    else [ParamsTab, SourcesTab, LibraryTab, ConfigTab, JsTab, UiTab]
  }

  /** What a run went through: the tabs it ran, the parameters after the
      merge of lines 478-486 and after the Params tab, the `usedParams`
      after the Params tab, the later tabs' overrides in the order applied,
      the final parameters, the sources handed to the fetcher and what the
      JS and UI tabs gave, when they ran. */
  datatype Trace = Trace(
    ran: seq<Tab>,
    mergedParams: Params,
    resolvedParams: Params,
    used: Params,
    overrides: seq<Params>,
    finalParams: Params,
    fetched: Option<map<string, Value>>,
    chartRun: Option<ChartRun>,
    uiRun: Option<TabRun>)

  /** The `updateParams` overrides of the JS tab, when it ran, and of the
      UI tab, in the order lines 744-748 and 788-792 apply them. */
  function ScriptOverrides(chart: Option<ChartRun>, ui: TabRun): seq<Params>
  {
    (if chart.Some? then [chart.value.tab.userParamsOverride] else []) + [ui.userParamsOverride]
  }

  /** The precedence of the script overrides after the Params tab: the UI
      tab's override wins, then the JS tab's, and a key neither sets keeps
      the value it had after the Params tab. */
  lemma ScriptOverridePrecedence(params: Params, chart: Option<ChartRun>, ui: TabRun, key: string)
    ensures var r := ApplyOverrides(params, ScriptOverrides(chart, ui));
            key in ui.userParamsOverride ==> key in r && r[key] == ui.userParamsOverride[key]
    ensures var r := ApplyOverrides(params, ScriptOverrides(chart, ui));
            key !in ui.userParamsOverride && chart.Some? && key in chart.value.tab.userParamsOverride ==>
              key in r && r[key] == chart.value.tab.userParamsOverride[key]
    ensures var r := ApplyOverrides(params, ScriptOverrides(chart, ui));
            key !in ui.userParamsOverride && (chart.None? || key !in chart.value.tab.userParamsOverride) ==>
              (key in r <==> key in params) && (key in params ==> r[key] == params[key])
  {
    if chart.Some? {
      ApplyTwo(params, chart.value.tab.userParamsOverride, ui.userParamsOverride);
    } else {
      var o := ScriptOverrides(chart, ui);
      assert o == [ui.userParamsOverride] && o[..0] == [];
    }
  }

  /** The `params` and `usedParams` the UI tab is given: those after the JS
      tab's override, when the JS tab ran. */
  function BeforeUi(chart: Option<ChartRun>, params: Params, used: Params): (Params, Params)
  {
    if chart.Some? then UpdateParams(chart.value.tab.userParamsOverride, params, used) else (params, used)
  }

  /** `usedParams` agrees with `params` on each of its keys. */
  predicate UsedAgree(used: Params, params: Params)
  {
    used.Keys <= params.Keys && forall k :: k in used ==> used[k] == params[k]
  }

  /** Applying the same override to both maps keeps them agreeing. */
  lemma UpdateKeepsAgreement(override: Params, params: Params, used: Params)
    requires UsedAgree(used, params)
    ensures UsedAgree(UpdateParams(override, params, used).1, UpdateParams(override, params, used).0)
  {
  }

  /** `updateActionParams`, whose definition is not part of this model:
      taken to overwrite each overridden key. */
  function UpdateActionParams(override: Params, actionParams: Params): Params
  {
    actionParams + override
  }

  /** Lines 472-500: the Params tab's defaults (with what it wrote into
      `usedParams` winning), the caller's overrides over them, each value
      wrapped in an array, `usedParams` synced, then the tab's own
      `updateParams` overrides. */
  method ParamsStage(tab: TabRun, written: Params, override: Params, actionOverride: Params)
    returns (merged: Params, params: Params, used: Params, actionParams: Params)
    ensures merged == Wrapped(SpreadOf(tab.exports) + written + override)
    ensures params == merged + tab.userParamsOverride
    ensures used == Synced(SpreadOf(tab.exports) + written, merged) + tab.userParamsOverride
    ensures UsedAgree(used, params)
    ensures actionParams == UpdateActionParams(tab.userActionParamsOverride, actionOverride)
  {
    var defaults := SpreadOf(tab.exports) + written;
    merged := WrapParams(defaults + override);
    used := SyncUsedParams(defaults, merged);
    SyncedHoldsParams(defaults, merged);
    UpdateKeepsAgreement(tab.userParamsOverride, merged, used);
    var updated := UpdateParams(tab.userParamsOverride, merged, used);
    params, used := updated.0, updated.1;
    actionParams := UpdateActionParams(tab.userActionParamsOverride, actionOverride);
  }

  const BaseKeys: set<string> :=
    {"sources", "uiScheme", "params", "usedParams", "actionParams", "widgetConfig", "defaultParams", "extra", "timings"}

  /** The result object of lines 803-813. */
  function BaseResult(
    sources: Value, uiScheme: Value, params: Params, used: Params, actionParams: Params,
    defaults: Params, req: Request, toActionParams: Params -> Params): (r: map<string, Value>)
    ensures r.Keys == BaseKeys
    ensures r["params"] == Object(params + toActionParams(actionParams))
  {
    map[
      "sources" := sources,
      "uiScheme" := uiScheme,
      "params" := Object(params + toActionParams(actionParams)),
      "usedParams" := Object(used),
      "actionParams" := Object(actionParams),
      "widgetConfig" := req.widgetConfig,
      "defaultParams" := Object(defaults),
      "extra" := Object(map[]),
      "timings" := req.timings]
  }

  /** `result.extra` of lines 880-887: the JS tab's `extra` with the
      insights, the side markdown and a truthy export file name. */
  function ChartExtra(chart: ChartRun): (r: Value)
    ensures Prop(r, "chartsInsights") == chart.chartsInsights
    ensures Prop(r, "sideMarkdown") == chart.sideMarkdown
    ensures Truthy(chart.exportFilename) ==> Prop(r, "exportFilename") == chart.exportFilename
  {
    var base := if Truthy(chart.extra) then SpreadOf(chart.extra) else map[];
    var extra := base["chartsInsights" := chart.chartsInsights]["sideMarkdown" := chart.sideMarkdown];
    Object(if Truthy(chart.exportFilename) then extra["exportFilename" := chart.exportFilename] else extra)
  }

  const ChartKeys: set<string> := {"data", "config", "publicAuthor", "highchartsConfig", "extra", "sources"}

  /** The fields lines 818-889 add when the JS tab ran. */
  function WithChart(
    result: map<string, Value>, chart: ChartRun, userConfig: Value, libraryConfig: Value,
    resolved: map<string, Value>, publicAuthor: Value, env: Env): (r: map<string, Value>)
    ensures r.Keys == result.Keys + ChartKeys
    ensures r["data"] == chart.tab.exports
    ensures r["config"] == env.stringify(env.merge(userConfig, chart.userConfigOverride))
    ensures r["highchartsConfig"] == env.stringify(env.mergeLibrary(libraryConfig, chart.libraryConfigOverride))
  {
    result["data" := chart.tab.exports]
          ["config" := env.stringify(env.merge(userConfig, chart.userConfigOverride))]
          ["publicAuthor" := publicAuthor]
          ["highchartsConfig" := env.stringify(env.mergeLibrary(libraryConfig, chart.libraryConfigOverride))]
          ["extra" := ChartExtra(chart)]
          ["sources" := env.merge(Object(resolved), chart.dataSourcesInfos)]
  }

  const InjectedKeys: set<string> := {"_confStorageConfig", "key", "id", "type", "revId", "params", "actionParams"}

  /** `injectConfigAndParams` (lines 248-285): the entry's key, id, type
      and revision, the stored config, and the plain `params` and
      `actionParams` over whatever the result held for them. */
  function InjectConfigAndParams(
    result: map<string, Value>, config: map<string, Value>, req: Request,
    params: Params, actionParams: Params): (r: map<string, Value>)
    ensures r.Keys == result.Keys + InjectedKeys
    ensures r["params"] == Object(params) && r["actionParams"] == Object(actionParams)
    ensures r["key"] == Or(Lookup(config, "key"), Str(req.configName))
    ensures r["id"] == Or(Lookup(config, "entryId"), Str(req.configId))
    ensures r["revId"] == Or(Lookup(config, "revId"), req.revId)
    ensures r["type"] == Lookup(config, "type")
    ensures forall k :: k in result && k !in InjectedKeys ==> r[k] == result[k]
  {
    var key := Or(Lookup(config, "key"), Str(req.configName));
    var entryId := Or(Lookup(config, "entryId"), Str(req.configId));
    var revId := Or(Lookup(config, "revId"), req.revId);
    var stored :=
      if req.responseConfig then config
      else map["type" := Lookup(config, "type"), "meta" := Lookup(config, "meta")];
    result["_confStorageConfig" := Object(stored["key" := key]["entryId" := entryId]["revId" := revId])]
          ["key" := key]
          ["id" := entryId]
          ["type" := Lookup(config, "type")]
          ["revId" := revId]
          ["params" := Object(params)]
          ["actionParams" := Object(actionParams)]
  }

  /** The response's `params` are the final parameters alone: the action
      parameters merged into them at line 806 are overwritten by
      `injectConfigAndParams`. */
  lemma ResponseParamsOmitActionParams(
    sources: Value, uiScheme: Value, params: Params, used: Params, actionParams: Params,
    defaults: Params, req: Request, toActionParams: Params -> Params, config: map<string, Value>)
    requires toActionParams(actionParams).Keys !! params.Keys
    requires toActionParams(actionParams) != map[]
    ensures BaseResult(sources, uiScheme, params, used, actionParams, defaults, req, toActionParams)["params"]
            != InjectConfigAndParams(
                 BaseResult(sources, uiScheme, params, used, actionParams, defaults, req, toActionParams),
                 config, req, params, actionParams)["params"]
  {
    var extra := toActionParams(actionParams);
    var k :| k in extra;
    assert k in (params + extra).Keys && k !in params.Keys;
  }

  /** Without the JS tab the result has no chart data and no configs. */
  lemma NoChartFieldsWithoutJs()
    ensures "data" !in BaseKeys + InjectedKeys
    ensures "config" !in BaseKeys + InjectedKeys
    ensures "highchartsConfig" !in BaseKeys + InjectedKeys
  {
  }

  /** Every control after the `forEach` of lines 775-779. */
  function DisabledControls(controls: seq<Value>, privateParams: seq<Value>): (r: seq<Value>)
    ensures |r| == |controls|
    ensures forall i :: 0 <= i < |r| ==> r[i] == DisableIfPrivate(controls[i], privateParams)
  {
    seq(|controls|, i requires 0 <= i < |controls| => DisableIfPrivate(controls[i], privateParams))
  }

  /** Where a stage leaves the run: going on with its value, or stopped
      with a response. */
  datatype Step<T> = Next(value: T) | Stop(response: Response)

  /** Lines 509-667: the Sources tab, the UI-only filter, the fetch and the
      split of the bodies off the fetched sources. An error of the Sources
      tab, a failed fetch and a thrown filter all end in the fetch
      `catch`; `fetched` is what the fetcher was given. */
  method SourcesStage(b: Builder, env: Env, req: Request, params: Params)
    returns (step: Step<(map<string, Value>, map<string, Value>)>, fetched: Option<map<string, Value>>)
    ensures step.Stop? ==> !step.response.Success?
    ensures b.urls(params).Throws? ==>
              fetched.None? && step == Stop(CatchResponse(env.statuses, b.urls(params).error, Undefined, env.prepareStack))
    ensures b.urls(params).Ok? && Truthy(b.urls(params).value.error) ==>
              var error := b.urls(params).value.error;
              fetched.None? && step == Stop(FetchFailureResponse(env.statuses, error, env.message(error)))
    ensures fetched.Some? && env.fetch(fetched.value).Throws? ==>
              var error := env.fetch(fetched.value).error;
              step == Stop(FetchFailureResponse(env.statuses, error, env.message(error)))
    ensures fetched.Some? ==>
              b.urls(params).Ok? && !Truthy(b.urls(params).value.error)
              && fetched.value == (if req.uiOnly then UiSources(SpreadOf(b.urls(params).value.exports))
                                   else SpreadOf(b.urls(params).value.exports))
    ensures step.Next? ==>
              fetched.Some? && env.fetch(fetched.value).Ok?
              && step.value.0 == Bodies(env.fetch(fetched.value).value)
              && step.value.1 == WithoutBodies(env.fetch(fetched.value).value)
  {
    fetched := None;
    var st := env.statuses;
    var urlsRun := b.urls(params);
    if urlsRun.Throws? {
      return Stop(CatchResponse(st, urlsRun.error, Undefined, env.prepareStack)), fetched;
    }
    if Truthy(urlsRun.value.error) {
      var response := FetchFailure(st, urlsRun.value.error, env.message(urlsRun.value.error));
      return Stop(response), fetched;
    }
    var sources := SpreadOf(urlsRun.value.exports);
    if req.uiOnly {
      if IsNullish(urlsRun.value.exports) {
        // `Object.keys(sources)` throws
        var response := FetchFailure(st, TypeError, env.message(TypeError));
        return Stop(response), fetched;
      }
      sources := FilterUiSources(sources);
    }
    fetched := Some(sources);
    var result := env.fetch(sources);
    if result.Throws? {
      var response := FetchFailure(st, result.error, env.message(result.error));
      return Stop(response), fetched;
    }
    var split := SplitBodies(result.value);
    if split.Throws? {
      return Stop(CatchResponse(st, split.error, Object(result.value), env.prepareStack)), fetched;
    }
    step := Next(split.value);
  }

  /** Lines 669-690: the library config tab; its config is `{}` when it did
      not run or exported nothing. */
  method LibraryStage(b: Builder, env: Env, data: map<string, Value>, resolved: map<string, Value>, params: Params)
    returns (step: Step<Value>)
    ensures step.Stop? ==> !step.response.Success?
    ensures step.Next? ==> b.library(data, params).Ok?
    ensures b.library(data, params).Ok? && b.library(data, params).value.Some?
            && Truthy(b.library(data, params).value.value.error) ==>
              step == Stop(CatchResponse(env.statuses, b.library(data, params).value.value.error, Object(resolved), env.prepareStack))
    ensures step.Next? && b.library(data, params).value.None? ==> step.value == Object(map[])
    ensures step.Next? && b.library(data, params).value.Some? ==>
              !Truthy(b.library(data, params).value.value.error)
              && step.value == Or(b.library(data, params).value.value.exports, Object(map[]))
  {
    var libraryRun := b.library(data, params);
    if libraryRun.Throws? {
      return Stop(CatchResponse(env.statuses, libraryRun.error, Object(resolved), env.prepareStack));
    }
    if libraryRun.value.None? {
      return Next(Object(map[]));
    }
    var tab := libraryRun.value.value;
    if Truthy(tab.error) {
      return Stop(CatchResponse(env.statuses, tab.error, Object(resolved), env.prepareStack));
    }
    step := Next(Or(tab.exports, Object(map[])));
  }

  /** Lines 692-749: the Config tab, then the JS tab; the JS tab's error
      is thrown, the Config tab's is not looked at. */
  method ChartStage(b: Builder, env: Env, data: map<string, Value>, resolved: map<string, Value>, params: Params, used: Params)
    returns (step: Step<(Value, ChartRun)>)
    ensures step.Stop? ==> !step.response.Success?
    ensures step.Next? ==>
              b.config(data, params).Ok? && step.value.0 == b.config(data, params).value.exports
              && b.chart(data, resolved, params, used) == Ok(step.value.1)
              && !Truthy(step.value.1.tab.error)
    ensures b.config(data, params).Ok? && b.chart(data, resolved, params, used).Ok?
            && Truthy(b.chart(data, resolved, params, used).value.tab.error) ==>
              step == Stop(CatchResponse(env.statuses, b.chart(data, resolved, params, used).value.tab.error,
                                         Object(resolved), env.prepareStack))
  {
    var configRun := b.config(data, params);
    if configRun.Throws? {
      return Stop(CatchResponse(env.statuses, configRun.error, Object(resolved), env.prepareStack));
    }
    var chartRun := b.chart(data, resolved, params, used);
    if chartRun.Throws? {
      return Stop(CatchResponse(env.statuses, chartRun.error, Object(resolved), env.prepareStack));
    }
    if Truthy(chartRun.value.tab.error) {
      return Stop(CatchResponse(env.statuses, chartRun.value.tab.error, Object(resolved), env.prepareStack));
    }
    step := Next((configRun.value.exports, chartRun.value));
  }

  /** Lines 751-786: the UI tab and its scheme, with the private controls
      disabled; the UI tab's error is not looked at. */
  method UiStage(b: Builder, env: Env, req: Request, data: map<string, Value>, resolved: map<string, Value>, params: Params, used: Params)
    returns (step: Step<(Value, TabRun)>)
    ensures step.Stop? ==> !step.response.Success?
    ensures step.Next? ==> b.ui(data, params, used) == Ok(step.value.1)
    ensures step.Next? && UiSchemeControls(step.value.1.exports).None? ==> step.value.0 == Null
    ensures step.Next? && UiSchemeControls(step.value.1.exports).Some? && req.privateParams.None? ==>
              step.value.0 == step.value.1.exports
    ensures step.Next? && UiSchemeControls(step.value.1.exports).Some? && req.privateParams.Some? ==>
              step.value.0 == WithControls(step.value.1.exports,
                                           DisabledControls(UiSchemeControls(step.value.1.exports).value, req.privateParams.value))
  {
    var uiRun := b.ui(data, params, used);
    if uiRun.Throws? {
      return Stop(CatchResponse(env.statuses, uiRun.error, Object(resolved), env.prepareStack));
    }
    var controls := UiSchemeControls(uiRun.value.exports);
    if controls.None? {
      return Next((Null, uiRun.value));
    }
    if req.privateParams.None? {
      return Next((uiRun.value.exports, uiRun.value));
    }
    var disabled := DisablePrivateControls(controls.value, req.privateParams.value);
    if disabled.Throws? {
      return Stop(CatchResponse(env.statuses, disabled.error, Object(resolved), env.prepareStack));
    }
    assert disabled.value == DisabledControls(controls.value, req.privateParams.value);
    step := Next((WithControls(uiRun.value.exports, disabled.value), uiRun.value));
  }

  /** Lines 794-795: with a UI scheme, a config without a truthy
      `overlayControls` is marked `notOverlayControls: true`. The module
      runs in strict mode, so setting a property on a truthy primitive
      config throws a TypeError. Arrays and functions take the property in
      the source; this value model gives them no properties, so they come
      back unchanged. */
  function OverlayMark(uiScheme: Value, userConfig: Value): (r: Result<Value>)
    ensures r.Throws? <==> Truthy(uiScheme) && Truthy(userConfig) && !IsObject(userConfig)
    ensures r.Throws? ==> r.error == TypeError
    ensures r.Ok? && Truthy(uiScheme) && userConfig.Obj? && !Truthy(Prop(userConfig, "overlayControls")) ==>
              r.value.Obj? && r.value.kind == userConfig.kind && Prop(r.value, "notOverlayControls") == Bool(true)
    ensures r.Ok? ==> forall k :: k != "notOverlayControls" ==> Prop(r.value, k) == Prop(userConfig, k)
    ensures r.Ok? && !(Truthy(uiScheme) && userConfig.Obj? && !Truthy(Prop(userConfig, "overlayControls"))) ==>
              r.value == userConfig
  {
    if !Truthy(uiScheme) || !Truthy(userConfig) || Truthy(Prop(userConfig, "overlayControls")) then Ok(userConfig)
    else if userConfig.Obj? then Ok(Obj(userConfig.fields["notOverlayControls" := Bool(true)], userConfig.kind))
    else if IsObject(userConfig) then Ok(userConfig)
    else Throws(TypeError)
  }

  /** Lines 794-945: the `notOverlayControls` mark on the config when there
      is a UI scheme, the result object, the chart's fields when the JS tab
      ran, the entry's identity and the redaction of forbidden fields. A
      mark that throws reaches the outer `catch`, which rethrows it. */
  method Assemble(
    env: Env, req: Request, config: map<string, Value>, defaults: Params, resolved: map<string, Value>,
    uiScheme: Value, params: Params, used: Params, actionParams: Params,
    chart: Option<ChartRun>, userConfig: Value, libraryConfig: Value)
    returns (out: Response)
    ensures out.Rejected? <==> Truthy(uiScheme) && Truthy(userConfig) && !IsObject(userConfig)
    ensures out.Rejected? ==> out.error == TypeError
    ensures !out.Failure?
    ensures out.Success? && "params" in out.result ==> out.result["params"] == Object(params)
    ensures out.Success? && chart.Some? && "config" in out.result ==>
              out.result["config"]
              == env.stringify(env.merge(OverlayMark(uiScheme, userConfig).value, chart.value.userConfigOverride))
    ensures out.Success? && chart.None? ==>
              "data" !in out.result && "config" !in out.result && "highchartsConfig" !in out.result
    ensures out.Success? && req.forbiddenFields.Some? ==>
              forall f :: f in req.forbiddenFields.value && f in out.result ==> !Truthy(out.result[f])
    ensures out.Success? && req.forbiddenFields.None? ==> "params" in out.result
  {
    var marked := OverlayMark(uiScheme, userConfig);
    if marked.Throws? {
      return CatchResponse(env.statuses, marked.error, Object(resolved), env.prepareStack);
    }
    var result := BaseResult(Object(resolved), uiScheme, params, used, actionParams, defaults, req, env.toActionParams);
    if chart.Some? {
      result := WithChart(result, chart.value, marked.value, libraryConfig, resolved, Lookup(config, "publicAuthor"), env);
    }
    result := InjectConfigAndParams(result, config, req, params, actionParams);
    NoChartFieldsWithoutJs();
    if req.forbiddenFields.Some? {
      RedactedHasNoTruthyForbidden(result, req.forbiddenFields.value);
      result := RemoveForbiddenFields(result, req.forbiddenFields.value);
    }
    out := Success(result);
  }

  /** Two overrides applied in order. */
  lemma ApplyTwo(params: Params, first: Params, second: Params)
    ensures ApplyOverrides(params, [first, second]) == params + first + second
  {
    assert [first, second][..1] == [first];
    assert [first][..0] == [];
    assert ApplyOverrides(params, [first]) == params + first;
  }

  /** The parameters the UI tab's override leaves are the script
      overrides applied in order to the parameters after the Params tab. */
  lemma ScriptOverridesApplied(params: Params, used: Params, chart: Option<ChartRun>, ui: TabRun)
    ensures |ScriptOverrides(chart, ui)| == (if chart.Some? then 2 else 1)
    ensures var before := BeforeUi(chart, params, used);
            UpdateParams(ui.userParamsOverride, before.0, before.1).0 == ApplyOverrides(params, ScriptOverrides(chart, ui))
  {
    var overrides := ScriptOverrides(chart, ui);
    if chart.None? {
      assert overrides[..0] == [];
    } else {
      ApplyTwo(params, overrides[0], ui.userParamsOverride);
    }
  }

  /** The Params tab runs first; the rest of a run follows it. */
  lemma TabOrderAfterParams(uiOnly: bool, n: nat)
    requires n < |TabOrder(uiOnly)|
    ensures [ParamsTab] + TabOrder(uiOnly)[1..n + 1] == TabOrder(uiOnly)[..n + 1]
  {
  }

  /** The Sources and library tabs come second and third in every run. */
  lemma TabOrderThroughLibrary(uiOnly: bool, n: nat)
    requires 3 + n <= |TabOrder(uiOnly)|
    ensures TabOrder(uiOnly)[1..2] == [SourcesTab] && TabOrder(uiOnly)[1..3] == [SourcesTab, LibraryTab]
    ensures TabOrder(uiOnly)[1..3 + n] == [SourcesTab, LibraryTab] + TabOrder(uiOnly)[3..3 + n]
  {
    var t := TabOrder(uiOnly);
    assert t[1..3 + n] == t[1..3] + t[3..3 + n];
  }

  /** Lines 692-945: the Config and JS tabs unless only the UI is wanted,
      the UI tab and the response, after the Sources and library tabs;
      `later` lists the tabs run from the Config tab on. */
  method LaterTabs(b: Builder, env: Env, req: Request, config: map<string, Value>, defaults: Params,
                   data: map<string, Value>, resolved: map<string, Value>, libraryConfig: Value,
                   params: Params, used: Params, actionParams: Params)
    returns (out: Response, later: seq<Tab>, chartRun: Option<ChartRun>, uiRun: Option<TabRun>,
             overrides: seq<Params>, finalParams: Params)
    ensures 1 <= |later| && 3 + |later| <= |TabOrder(req.uiOnly)| && later == TabOrder(req.uiOnly)[3..3 + |later|]
    ensures out.Success? ==> 3 + |later| == |TabOrder(req.uiOnly)|
    ensures chartRun.Some? ==>
              !req.uiOnly && b.chart(data, resolved, params, used) == Ok(chartRun.value) && !Truthy(chartRun.value.tab.error)
    ensures uiRun.Some? ==>
              var before := BeforeUi(chartRun, params, used);
              b.ui(data, before.0, before.1) == Ok(uiRun.value)
    ensures out.Success? ==>
              uiRun.Some? && (chartRun.Some? <==> !req.uiOnly)
              && overrides == ScriptOverrides(chartRun, uiRun.value)
              && |overrides| == (if req.uiOnly then 1 else 2) && finalParams == ApplyOverrides(params, overrides)
    ensures out.Success? && "params" in out.result ==> out.result["params"] == Object(finalParams)
    ensures out.Success? && req.uiOnly ==>
              "data" !in out.result && "config" !in out.result && "highchartsConfig" !in out.result
    ensures out.Success? && req.forbiddenFields.Some? ==>
              forall f :: f in req.forbiddenFields.value && f in out.result ==> !Truthy(out.result[f])
  {
    overrides := [];
    finalParams := params;
    chartRun, uiRun := None, None;
    var userConfig := Object(map[]);
    if !req.uiOnly {
      later := [ConfigTab, JsTab];
      var chartStep := ChartStage(b, env, data, resolved, params, used);
      if chartStep.Stop? {
        return chartStep.response, later, chartRun, uiRun, overrides, finalParams;
      }
      userConfig := chartStep.value.0;
      chartRun := Some(chartStep.value.1);
    }
    later := TabOrder(req.uiOnly)[3..];
    out, uiRun, overrides, finalParams :=
      UiTail(b, env, req, config, defaults, data, resolved, libraryConfig, params, used, actionParams, chartRun, userConfig);
  }

  /** Lines 751-945: the UI tab, its `Editor.updateParams` override and the
      response, after the JS tab's override when it ran. */
  method UiTail(b: Builder, env: Env, req: Request, config: map<string, Value>, defaults: Params,
                data: map<string, Value>, resolved: map<string, Value>, libraryConfig: Value,
                params: Params, used: Params, actionParams: Params, chartRun: Option<ChartRun>, userConfig: Value)
    returns (out: Response, uiRun: Option<TabRun>, overrides: seq<Params>, finalParams: Params)
    ensures uiRun.Some? ==>
              var before := BeforeUi(chartRun, params, used);
              b.ui(data, before.0, before.1) == Ok(uiRun.value)
    ensures out.Success? ==>
              uiRun.Some? && overrides == ScriptOverrides(chartRun, uiRun.value)
              && |overrides| == (if chartRun.Some? then 2 else 1) && finalParams == ApplyOverrides(params, overrides)
    ensures out.Success? && "params" in out.result ==> out.result["params"] == Object(finalParams)
    ensures out.Success? && chartRun.None? ==>
              "data" !in out.result && "config" !in out.result && "highchartsConfig" !in out.result
    ensures out.Success? && req.forbiddenFields.Some? ==>
              forall f :: f in req.forbiddenFields.value && f in out.result ==> !Truthy(out.result[f])
  {
    uiRun := None;
    overrides := if chartRun.Some? then [chartRun.value.tab.userParamsOverride] else [];
    finalParams := params;
    var before := BeforeUi(chartRun, params, used);
    var uiStep := UiStage(b, env, req, data, resolved, before.0, before.1);
    if uiStep.Stop? {
      return uiStep.response, uiRun, overrides, finalParams;
    }
    uiRun := Some(uiStep.value.1);
    var uiScheme := uiStep.value.0;
    var updated := UpdateParams(uiStep.value.1.userParamsOverride, before.0, before.1);
    overrides := ScriptOverrides(chartRun, uiStep.value.1);
    finalParams := updated.0;
    ScriptOverridesApplied(params, used, chartRun, uiStep.value.1);
    out := Assemble(env, req, config, defaults, resolved, uiScheme, updated.0, updated.1, actionParams,
                    chartRun, userConfig, libraryConfig);
  }

  /** Lines 509-945: the tabs after the Params tab and the response, given
      the parameters the Params tab left; `ran` lists the tabs run, in
      order. */
  method RunTabs(b: Builder, env: Env, req: Request, config: map<string, Value>, defaults: Params,
                 params: Params, used: Params, actionParams: Params)
    returns (out: Response, ran: seq<Tab>, overrides: seq<Params>, finalParams: Params, fetched: Option<map<string, Value>>,
             chartRun: Option<ChartRun>, uiRun: Option<TabRun>)
    ensures |ran| < |TabOrder(req.uiOnly)| && ran == TabOrder(req.uiOnly)[1..|ran| + 1]
    ensures out.Success? ==> |ran| == |TabOrder(req.uiOnly)| - 1
    ensures req.uiOnly && fetched.Some? ==> forall k :: k in fetched.value ==> KeptForUi(fetched.value[k])
    ensures b.urls(params).Ok? && Truthy(b.urls(params).value.error) ==>
              var error := b.urls(params).value.error;
              out == FetchFailureResponse(env.statuses, error, env.message(error)) && ran == [SourcesTab] && fetched.None?
    ensures fetched.Some? && env.fetch(fetched.value).Throws? ==>
              var error := env.fetch(fetched.value).error;
              out == FetchFailureResponse(env.statuses, error, env.message(error)) && ran == [SourcesTab]
    ensures |ran| >= 2 ==>
              fetched.Some? && env.fetch(fetched.value).Ok?
              && var f := env.fetch(fetched.value).value;
              var library := b.library(Bodies(f), params);
              (library.Ok? && library.value.Some? && Truthy(library.value.value.error) ==>
                 out == CatchResponse(env.statuses, library.value.value.error, Object(WithoutBodies(f)), env.prepareStack)
                 && ran == [SourcesTab, LibraryTab])
    ensures out.Success? ==>
              b.urls(params).Ok? && !Truthy(b.urls(params).value.error)
              && fetched.Some? && env.fetch(fetched.value).Ok?
              && var library := b.library(Bodies(env.fetch(fetched.value).value), params);
              library.Ok? && (library.value.Some? ==> !Truthy(library.value.value.error))
    ensures chartRun.Some? ==>
              !req.uiOnly && fetched.Some? && env.fetch(fetched.value).Ok?
              && var f := env.fetch(fetched.value).value;
              b.chart(Bodies(f), WithoutBodies(f), params, used) == Ok(chartRun.value)
              && !Truthy(chartRun.value.tab.error)
    ensures uiRun.Some? ==>
              fetched.Some? && env.fetch(fetched.value).Ok?
              && var f := env.fetch(fetched.value).value;
              var before := BeforeUi(chartRun, params, used);
              b.ui(Bodies(f), before.0, before.1) == Ok(uiRun.value)
    ensures out.Success? ==>
              uiRun.Some? && (chartRun.Some? <==> !req.uiOnly)
              && overrides == ScriptOverrides(chartRun, uiRun.value)
              && |overrides| == (if req.uiOnly then 1 else 2) && finalParams == ApplyOverrides(params, overrides)
    ensures out.Success? && "params" in out.result ==> out.result["params"] == Object(finalParams)
    ensures out.Success? && req.uiOnly ==>
              "data" !in out.result && "config" !in out.result && "highchartsConfig" !in out.result
    ensures out.Success? && req.forbiddenFields.Some? ==>
              forall f :: f in req.forbiddenFields.value && f in out.result ==> !Truthy(out.result[f])
  {
    ran := [SourcesTab];
    TabOrderThroughLibrary(req.uiOnly, 0);
    overrides := [];
    finalParams := params;
    chartRun, uiRun := None, None;
    var sourcesStep;
    sourcesStep, fetched := SourcesStage(b, env, req, params);
    if sourcesStep.Stop? {
      return sourcesStep.response, ran, overrides, finalParams, fetched, chartRun, uiRun;
    }
    var data, resolved := sourcesStep.value.0, sourcesStep.value.1;

    ran := [SourcesTab, LibraryTab];
    var libraryStep := LibraryStage(b, env, data, resolved, params);
    if libraryStep.Stop? {
      return libraryStep.response, ran, overrides, finalParams, fetched, chartRun, uiRun;
    }

    var later;
    out, later, chartRun, uiRun, overrides, finalParams :=
      LaterTabs(b, env, req, config, defaults, data, resolved, libraryStep.value, params, used, actionParams);
    ran := ran + later;
    TabOrderThroughLibrary(req.uiOnly, |later|);
  }

  /** `Processor.process`, lines 190-1051. */
  method Process(b: Builder, env: Env, req: Request) returns (out: Response, trace: Trace)
    ensures |trace.ran| <= |TabOrder(req.uiOnly)| && trace.ran == TabOrder(req.uiOnly)[..|trace.ran|]
    ensures out.Success? ==> trace.ran == TabOrder(req.uiOnly)
    ensures !IsNullish(Lookup(req.config, "meta")) && env.hooks.HooksReady? && b.modules.Ok? && b.shared.Ok? ==>
              var n := env.normalize(req.paramsOverride);
              var run := b.params(n.0, n.1);
              run.Ok? && Truthy(run.value.0.error) ==>
                out == CatchResponse(env.statuses, run.value.0.error, Undefined, env.prepareStack)
                && trace.ran == [ParamsTab]
    ensures out.Success? ==>
              !IsNullish(Lookup(req.config, "meta")) && env.hooks.HooksReady? && b.modules.Ok? && b.shared.Ok?
              && var n := env.normalize(req.paramsOverride);
              var run := b.params(n.0, n.1);
              run.Ok? && !Truthy(run.value.0.error)
              && b.urls(trace.resolvedParams).Ok? && !Truthy(b.urls(trace.resolvedParams).value.error)
              && trace.fetched.Some? && env.fetch(trace.fetched.value).Ok?
              && var library := b.library(Bodies(env.fetch(trace.fetched.value).value), trace.resolvedParams);
              library.Ok? && (library.value.Some? ==> !Truthy(library.value.value.error))
    ensures req.uiOnly && trace.fetched.Some? ==>
              forall k :: k in trace.fetched.value ==> KeptForUi(trace.fetched.value[k])
    ensures out.Success? ==>
              var n := env.normalize(req.paramsOverride);
              var run := b.params(n.0, n.1);
              run.Ok?
              && trace.mergedParams == Wrapped(SpreadOf(run.value.0.exports) + run.value.1 + n.0)
              && trace.resolvedParams == env.resolve(trace.mergedParams + run.value.0.userParamsOverride)
    ensures out.Success? ==>
              var n := env.normalize(req.paramsOverride);
              var run := b.params(n.0, n.1);
              run.Ok?
              && trace.used == Synced(SpreadOf(run.value.0.exports) + run.value.1, trace.mergedParams)
                               + run.value.0.userParamsOverride
    ensures trace.chartRun.Some? ==>
              !req.uiOnly && trace.fetched.Some? && env.fetch(trace.fetched.value).Ok?
              && var f := env.fetch(trace.fetched.value).value;
              b.chart(Bodies(f), WithoutBodies(f), trace.resolvedParams, trace.used) == Ok(trace.chartRun.value)
              && !Truthy(trace.chartRun.value.tab.error)
    ensures trace.uiRun.Some? ==>
              trace.fetched.Some? && env.fetch(trace.fetched.value).Ok?
              && var f := env.fetch(trace.fetched.value).value;
              var before := BeforeUi(trace.chartRun, trace.resolvedParams, trace.used);
              b.ui(Bodies(f), before.0, before.1) == Ok(trace.uiRun.value)
    ensures out.Success? ==>
              trace.uiRun.Some? && (trace.chartRun.Some? <==> !req.uiOnly)
              && trace.overrides == ScriptOverrides(trace.chartRun, trace.uiRun.value)
              && |trace.overrides| == (if req.uiOnly then 1 else 2)
              && trace.finalParams == ApplyOverrides(trace.resolvedParams, trace.overrides)
    ensures out.Success? && "params" in out.result ==> out.result["params"] == Object(trace.finalParams)
    ensures out.Success? && req.uiOnly ==>
              "data" !in out.result && "config" !in out.result && "highchartsConfig" !in out.result
    ensures out.Success? && req.forbiddenFields.Some? ==>
              forall f :: f in req.forbiddenFields.value && f in out.result ==> !Truthy(out.result[f])
  {
    trace := Trace([], map[], map[], map[], [], map[], None, None, None);
    var st := env.statuses;
    var meta := Lookup(req.config, "meta");
    if IsNullish(meta) {
      // `config.meta.stype` throws
      return CatchResponse(st, TypeError, Undefined, env.prepareStack), trace;
    }
    var config := req.config["type" := Prop(meta, "stype")];
    if env.hooks.HooksFailed? {
      return Failure(HooksFailure(env.hooks.hookError, env.message(env.hooks.error)), Undefined), trace;
    }
    if b.modules.Throws? {
      return Failure(DepsFailure(b.modules.error, env.message(b.modules.error)), Undefined), trace;
    }
    if b.shared.Throws? {
      return Failure(SharedFailure(env.message(b.shared.error)), Undefined), trace;
    }

    var normalized := env.normalize(req.paramsOverride);
    trace := trace.(ran := [ParamsTab]);
    var paramsRun := b.params(normalized.0, normalized.1);
    if paramsRun.Throws? {
      return CatchResponse(st, paramsRun.error, Undefined, env.prepareStack), trace;
    }
    var paramsTab := paramsRun.value.0;
    if Truthy(paramsTab.error) {
      return CatchResponse(st, paramsTab.error, Undefined, env.prepareStack), trace;
    }
    var merged, params, used, actionParams := ParamsStage(paramsTab, paramsRun.value.1, normalized.0, normalized.1);
    params := env.resolve(params);
    var defaults := env.normalize(SpreadOf(paramsTab.exports)).0;
    var ran, overrides, finalParams, fetched, chartRun, uiRun;
    out, ran, overrides, finalParams, fetched, chartRun, uiRun :=
      RunTabs(b, env, req, config, defaults, params, used, actionParams);
    TabOrderAfterParams(req.uiOnly, |ran|);
    trace := Trace([ParamsTab] + ran, merged, params, used, overrides, finalParams, fetched, chartRun, uiRun);
  }
}
