/**
 * Layout helpers of the dashboard group control plugin
 * (src/ui/components/DashKit/plugins/GroupControl/utils.ts).
 */
module GroupControl {
  import opened Js

  /** A CSS style object: property name to text. */
  type CssProperties = map<string, string>

  /** `auto` lets the control grow; any other placement mode is a unit
      (such as `px` or `%`) appended to the width. */
  function ControlWidthStyle(placementMode: string, width: Value): (r: CssProperties)
    ensures placementMode == "auto" ==> r == map["flex" := "1 1 auto"]
    ensures placementMode != "auto" ==> r.Keys == {"width"}
    ensures placementMode != "auto" ==> r["width"] == ToStr(width) + placementMode
  {
    if placementMode == "auto" then map["flex" := "1 1 auto"]
    else map["width" := ToStr(width) + placementMode]
  }

  /** The two shapes never mix: an `auto` style has no width and a sized
      style has no flex. */
  lemma WidthStyleShapesExclusive(placementMode: string, width: Value)
    ensures "width" in ControlWidthStyle(placementMode, width) <==> placementMode != "auto"
    ensures "flex" in ControlWidthStyle(placementMode, width) <==> placementMode == "auto"
  {
  }

  /** For a sized style the width's text can be read back by dropping the
      unit. */
  lemma WidthTextRecoverable(placementMode: string, width: Value)
    requires placementMode != "auto"
    ensures var w := ControlWidthStyle(placementMode, width)["width"];
      |w| >= |placementMode| && w[..|w| - |placementMode|] == ToStr(width)
  {
  }

  /** A handle returned by `setTimeout`. */
  type TimerId = nat

  /** The browser's timer table, as far as clearing loader timers goes. */
  class LoaderTimers {
    var cleared: seq<TimerId>

    constructor ()
      ensures cleared == []
    {
      cleared := [];
    }

    /** `clearLoaderTimer(timer)`: clears the timer when there is one. */
    method ClearLoaderTimer(timer: Option<TimerId>)
      modifies this
      ensures timer.None? ==> cleared == old(cleared)
      ensures timer.Some? ==> cleared == old(cleared) + [timer.value]
    {
      if timer.Some? {
        cleared := cleared + [timer.value];
      }
    }
  }
}
