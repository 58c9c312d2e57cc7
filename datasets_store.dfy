/**
 * The initial Redux state of the dataset editor and the choice of the tab it
 * opens on (src/ui/units/datasets/store/constants.ts).
 *
 * The list of dataset tabs and the two default tab names live in a file
 * that is not part of this model; they are the `Tabs` parameter. Whether the
 * page is in the creation flow and the `tab` query parameter come from the
 * browser location and are parameters too.
 */
module DatasetsStore {
  import opened Js

  datatype Tabs = Tabs(all: seq<string>, sources: string, dataset: string)

  /** The default tabs are dataset tabs themselves. */
  predicate WellFormedTabs(t: Tabs)
  {
    t.sources in t.all && t.dataset in t.all
  }

  /** `isDatasetTab(value)`: a string naming one of the tabs. */
  predicate IsDatasetTab(t: Tabs, value: Value)
  {
    value.Str? && value.s in t.all
  }

  /** `getCurrentTab()`: the tab from the query when it names a tab, else the
      sources tab while creating a dataset and the dataset tab otherwise. */
  function CurrentTab(t: Tabs, isCreation: bool, queryTab: Value): (r: string)
    ensures IsDatasetTab(t, queryTab) ==> r == queryTab.s
    ensures !IsDatasetTab(t, queryTab) ==> r == (if isCreation then t.sources else t.dataset)
  {
    var defaultTab := if isCreation then t.sources else t.dataset;
    if IsDatasetTab(t, queryTab) then queryTab.s else defaultTab
  }

  /** Whatever the query says, the editor opens on a dataset tab. */
  lemma CurrentTabIsDatasetTab(t: Tabs, isCreation: bool, queryTab: Value)
    requires WellFormedTabs(t)
    ensures CurrentTab(t, isCreation, queryTab) in t.all
  {
  }

  /** A query naming no tab (missing, a number, an unknown name) falls back to
      the flow's default, so the query never picks a tab outside the list. */
  lemma UnknownQueryFallsBack(t: Tabs, isCreation: bool, queryTab: Value)
    requires !(queryTab.Str? && queryTab.s in t.all)
    ensures CurrentTab(t, isCreation, queryTab) == if isCreation then t.sources else t.dataset
  {
  }

  function List(items: seq<Value>): Value { Arr(items) }

  /** `getDefaultDatasetContent()` */
  function DefaultDatasetContent(): Value
  {
    Object(map[
      "avatar_relations" := List([]),
      "component_errors" := Object(map["items" := List([])]),
      "obligatory_filters" := List([]),
      "result_schema" := List([]),
      "result_schema_aux" := Object(map["inter_dependencies" := Object(map["deps" := List([])])]),
      "source_avatars" := List([]),
      "source_features" := Object(map[]),
      "sources" := List([]),
      "load_preview_by_default" := Bool(true),
      "rls" := Object(map[])
    ])
  }

  /** `initialPreview` */
  function InitialPreview(): Value
  {
    Object(map[
      "previewEnabled" := Bool(true),
      "readyPreview" := Str("loading"),
      "isVisible" := Bool(true),
      "isLoading" := Bool(true),
      "amountPreviewRows" := Num(10),
      "view" := Str("bottom"),
      "data" := List([]),
      "error" := Null,
      "isQueued" := Bool(false)
    ])
  }

  type State = map<string, Value>

  /** `initialState`, with the tab computed when the module was loaded. */
  function InitialState(currentTab: string): (r: State)
    ensures "currentTab" in r && r["currentTab"] == Str(currentTab)
    ensures "content" in r && "prevContent" in r && r["content"] == r["prevContent"] == DefaultDatasetContent()
    ensures "preview" in r && r["preview"] == InitialPreview()
  {
    InitialFlags() + map[
      "content" := DefaultDatasetContent(),
      "prevContent" := DefaultDatasetContent(),
      "preview" := InitialPreview(),
      "currentTab" := Str(currentTab)]
  }

  /** The fields of the initial state that hold no dataset content. */
  function InitialFlags(): State
  {
    map[
      "isLoading" := Bool(true),
      "isFavorite" := Bool(false),
      "isDatasetRevisionMismatch" := Bool(false),
      "id" := Str(""),
      "key" := Str(""),
      "workbookId" := Null,
      "connection" := Null,
      "options" := Object(map[]),
      "errors" := Object(map[
        "previewError" := Null, "savingError" := Null,
        "sourceLoadingError" := Null, "validationError" := Null]),
      "validation" := Object(map["isLoading" := Bool(false), "isPending" := Bool(false), "error" := Null]),
      "savingDataset" := Object(map[
        "disabled" := Bool(true), "isProcessingSavingDataset" := Bool(false), "error" := Null]),
      "types" := Object(map["data" := List([]), "error" := Null]),
      "ui" := Object(map[
        "selectedConnectionId" := Null, "isDatasetChanged" := Bool(false),
        "isFieldEditorModuleLoading" := Bool(false), "isSourcesLoading" := Bool(false)]),
      "editor" := Object(map["filter" := Str(""), "itemsToDisplay" := List([Str("hiddenFields")])]),
      "updates" := List([]),
      "freeformSources" := List([]),
      "selectedConnections" := List([]),
      "sourcePrototypes" := List([]),
      "sourceTemplate" := Null,
      "error" := Null
    ]
  }

  /** `getInitialState(extra)`: `{...initialState, ...extra}`. A key that
      `extra` sets, even to undefined, replaces the initial value. */
  function GetInitialState(currentTab: string, extra: Option<State>): (r: State)
    ensures extra.None? ==> r == InitialState(currentTab)
    ensures extra.Some? ==> r.Keys == InitialState(currentTab).Keys + extra.value.Keys
    ensures extra.Some? ==> forall k :: k in extra.value ==> r[k] == extra.value[k]
    ensures extra.Some? ==> forall k :: k in InitialState(currentTab) && k !in extra.value ==>
      r[k] == InitialState(currentTab)[k]
  {
    if extra.None? then InitialState(currentTab) else InitialState(currentTab) + extra.value
  }

  /** A fresh state whose `extra` leaves both contents alone starts with
      equal current and previous dataset contents, so the dataset is not
      taken as changed. */
  lemma ExtraKeepsContentsEqual(currentTab: string, extra: State)
    requires "content" !in extra && "prevContent" !in extra
    ensures "content" in GetInitialState(currentTab, Some(extra))
    ensures GetInitialState(currentTab, Some(extra))["content"] == GetInitialState(currentTab, Some(extra))["prevContent"]
    ensures GetInitialState(currentTab, Some(extra))["content"] == DefaultDatasetContent()
  {
  }

  /** The fresh state opens on a dataset tab, unless `extra` overrides it. */
  lemma InitialTabIsDatasetTab(t: Tabs, isCreation: bool, queryTab: Value, extra: State)
    requires WellFormedTabs(t)
    requires "currentTab" !in extra
    ensures IsDatasetTab(t, GetInitialState(CurrentTab(t, isCreation, queryTab), Some(extra))["currentTab"])
  {
    CurrentTabIsDatasetTab(t, isCreation, queryTab);
  }
}
