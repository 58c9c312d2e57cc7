/**
 * Whether a dashboard widget of a given entry type offers filtering
 * (src/ui/units/dash/containers/Dialogs/utils.ts).
 */
module DashDialogs {
  import opened Js

  /** The widget types the rule mentions; every other one is `OtherWidgetType`. */
  datatype WidgetType =
    | TableNode
    | GraphNode
    | GravityChartsNode
    | AdvancedChartNode
    | BlankChart
    | GraphWizardNode
    | GravityChartsWizardNode
    | TableWizardNode
    | YmapWizardNode
    | OtherWidgetType(name: string)

  datatype Visualization = Treemap | OtherVisualization(id: string)

  const WidgetTypesWithFilteringAvailable: seq<WidgetType> :=
    [TableNode, GraphNode, GravityChartsNode, AdvancedChartNode, BlankChart]

  const WizardEntryTypes: seq<WidgetType> :=
    [GraphWizardNode, GravityChartsWizardNode, TableWizardNode, YmapWizardNode]

  const VisualizationsWithoutFiltering: seq<Visualization> := [Treemap]

  /** `None` stands for the `undefined` the function returns when it is given
      no entry type; `Some(b)` for the boolean it returns otherwise. */
  function IsEntryTypeWithFiltering(entryType: Option<WidgetType>, visualization: Option<Visualization>): (r: Option<bool>)
    ensures r.None? <==> entryType.None?
  {
    if entryType.Some? && entryType.value in WizardEntryTypes then
      Some(!(visualization.Some? && visualization.value in VisualizationsWithoutFiltering))
    else if entryType.None? then None
    else Some(entryType.value in WidgetTypesWithFilteringAvailable)
  }

  /** The answer as the caller reads it (a truthiness test). */
  predicate Allows(answer: Option<bool>)
  {
    answer == Some(true)
  }

  lemma WizardTreemapHasNoFiltering(t: WidgetType)
    requires t in WizardEntryTypes
    ensures IsEntryTypeWithFiltering(Some(t), Some(Treemap)) == Some(false)
  {
  }

  lemma WizardOtherVisualizationsFilter(t: WidgetType, v: Option<Visualization>)
    requires t in WizardEntryTypes && v != Some(Treemap)
    ensures IsEntryTypeWithFiltering(Some(t), v) == Some(true)
  {
  }

  /** Outside the wizard types the visualisation plays no part, and the
      answer is membership in the five editor types. */
  lemma NonWizardIgnoresVisualization(t: WidgetType, v1: Option<Visualization>, v2: Option<Visualization>)
    requires t !in WizardEntryTypes
    ensures IsEntryTypeWithFiltering(Some(t), v1) == IsEntryTypeWithFiltering(Some(t), v2)
    ensures Allows(IsEntryTypeWithFiltering(Some(t), v1)) <==>
            t in {TableNode, GraphNode, GravityChartsNode, AdvancedChartNode, BlankChart}
  {
  }

  /** Without an entry type the answer is falsy whatever the visualisation. */
  lemma NoEntryTypeIsFalsy(v: Option<Visualization>)
    ensures IsEntryTypeWithFiltering(None, v).None?
    ensures !Allows(IsEntryTypeWithFiltering(None, v))
  {
  }

  /** The whole rule in one statement, both directions. */
  lemma AllowsExactly(e: Option<WidgetType>, v: Option<Visualization>)
    ensures Allows(IsEntryTypeWithFiltering(e, v)) <==>
      e.Some? &&
      ((e.value in WizardEntryTypes && v != Some(Treemap)) ||
       (e.value !in WizardEntryTypes && e.value in WidgetTypesWithFilteringAvailable))
  {
  }
}
