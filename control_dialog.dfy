/**
 * Validation and data-source building for the dashboard selector dialog
 * (src/ui/store/utils/controlDialog.ts).
 *
 * The dialog state is the record the dialog edits; the enumerations it
 * holds (source types, element types, title placements) are datatypes.
 * Validation messages are the i18n keys, not their translated text.
 */
module ControlDialog {
  import opened Js

  datatype SourceType = SourceDataset | SourceManual | SourceExternal | SourceConnection

  datatype ElementType = Select | Date | Input | Checkbox

  datatype TitlePlacement = TitleLeft | TitleTop | TitleHide

  /** `CheckboxControlValue` */
  datatype CheckboxValue = CheckboxTrue | CheckboxFalse

  /** A `StringParams` object: parameter name to a string or a list of
      strings. */
  type StringParams = map<string, Value>

  /** The fields of the selector dialog state that the helpers read. */
  datatype Dialog = Dialog(
    title: Value,
    sourceType: Option<SourceType>,
    chartId: Value,
    datasetId: Value,
    datasetFieldId: Value,
    fieldName: Value,
    fieldType: Value,
    datasetFieldType: Value,
    defaultValue: Value,
    required: Value,
    operation: Value,
    acceptableValues: Value,
    connectionId: Value,
    connectionQueryType: Value,
    connectionQueryContent: Value,
    selectorParameters: Option<StringParams>,
    titlePlacement: Option<TitlePlacement>,
    accentType: Value,
    showInnerTitle: Value,
    innerTitle: Value,
    showHint: Value,
    hint: Value,
    elementType: ElementType,
    multiselectable: Value,
    isRange: Value)

  datatype Message =
    | Required
    | FieldNameUnique(selectorsNames: string)
    | FieldNameInParameters
    | EmptyParametersValues

  /** `SelectorDialogValidation`: one optional message per checked field. */
  datatype Validation = Validation(
    title: Option<Message>,
    chartId: Option<Message>,
    connectionQueryContent: Option<Message>,
    datasetFieldId: Option<Message>,
    selectorParameters: Option<Message>,
    defaultValue: Option<Message>,
    uniqueFieldName: Option<Message>,
    fieldName: Option<Message>)

  const NoErrors := Validation(None, None, None, None, None, None, None, None)

  /** `value.length` for the values that have one. */
  function LengthOf(v: Value): Option<nat>
  {
    match v
    case Str(s) => Some(|s|)
    case Arr(items) => Some(|items|)
    case _ => None
  }

  /** The parameter values are strings or lists of strings, as the type of
      `StringParams` says. */
  predicate WellTypedParams(p: Option<StringParams>)
  {
    p.Some? ==> forall k :: k in p.value ==> p.value[k].Str? || p.value[k].Arr?
  }

  // ---------------------------------------------------------------------------
  // getActualUniqueFieldNameValidation

  /** The group items with the given field name, in group order. */
  function Clones(group: seq<Dialog>, fieldName: Value): (r: seq<Dialog>)
    ensures |r| <= |group|
    ensures forall k :: 0 <= k < |r| ==> r[k].fieldName == fieldName
  {
    if group == [] then []
    else
      var last := group[|group| - 1];
      Clones(group[..|group| - 1], fieldName) + (if last.fieldName == fieldName then [last] else [])
  }

  /** The truthy titles of the given items, in order. */
  function Titles(items: seq<Dialog>): (r: seq<string>)
    ensures |r| <= |items|
  {
    if items == [] then []
    else
      var last := items[|items| - 1];
      Titles(items[..|items| - 1]) + (if Truthy(last.title) then [ToStr(last.title)] else [])
  }

  /** `getActualUniqueFieldNameValidation(group, fieldName, validation)`. */
  method ActualUniqueFieldNameValidation(group: seq<Dialog>, fieldName: Value, validation: Value)
    returns (r: Option<Message>)
    ensures !Truthy(validation) || !Truthy(fieldName) ==> r == None
    ensures Truthy(validation) && Truthy(fieldName) ==>
      r == if |Clones(group, fieldName)| > 1
           then Some(FieldNameUnique(Join(Titles(Clones(group, fieldName)), ", ")))
           else None
  {
    if !Truthy(validation) || !Truthy(fieldName) {
      return None;
    }
    var clones := FilterByFieldName(group, fieldName);
    if |clones| > 1 {
      var titles := CollectTitles(clones);
      return Some(FieldNameUnique(Join(titles, ", ")));
    }
    return None;
  }

  /** `group.filter((groupItem) => groupItem.fieldName === fieldName)` */
  method FilterByFieldName(group: seq<Dialog>, fieldName: Value) returns (clones: seq<Dialog>)
    ensures clones == Clones(group, fieldName)
  {
    clones := [];
    var i := 0;
    while i < |group|
      invariant 0 <= i <= |group|
      invariant clones == Clones(group[..i], fieldName)
    {
      ClonesStep(group, fieldName, i);
      if group[i].fieldName == fieldName {
        clones := clones + [group[i]];
      }
      i := i + 1;
    }
    assert group[..|group|] == group;
  }

  /** The `forEach` that pushes every truthy title. */
  method CollectTitles(items: seq<Dialog>) returns (titles: seq<string>)
    ensures titles == Titles(items)
  {
    titles := [];
    var j := 0;
    while j < |items|
      invariant 0 <= j <= |items|
      invariant titles == Titles(items[..j])
    {
      TitlesStep(items, j);
      if Truthy(items[j].title) {
        titles := titles + [ToStr(items[j].title)];
      }
      j := j + 1;
    }
    assert items[..|items|] == items;
  }

  lemma ClonesStep(group: seq<Dialog>, fieldName: Value, i: nat)
    requires i < |group|
    ensures Clones(group[..i + 1], fieldName) ==
      Clones(group[..i], fieldName) + (if group[i].fieldName == fieldName then [group[i]] else [])
  {
    assert group[..i + 1][..i] == group[..i];
  }

  lemma TitlesStep(items: seq<Dialog>, j: nat)
    requires j < |items|
    ensures Titles(items[..j + 1]) ==
      Titles(items[..j]) + (if Truthy(items[j].title) then [ToStr(items[j].title)] else [])
  {
    assert items[..j + 1][..j] == items[..j];
  }

  /** The field name is shared by two group items. */
  predicate SharedFieldName(group: seq<Dialog>, fieldName: Value)
  {
    exists i, j :: 0 <= i < j < |group| && group[i].fieldName == fieldName && group[j].fieldName == fieldName
  }

  /** The message appears exactly when two different items of the group
      share the field name. */
  lemma {:induction false} TwoClonesExactly(group: seq<Dialog>, fieldName: Value)
    ensures |Clones(group, fieldName)| > 1 <==> SharedFieldName(group, fieldName)
  {
    if group != [] {
      var n := |group| - 1;
      var init := group[..n];
      TwoClonesExactly(init, fieldName);
      if |Clones(group, fieldName)| > 1 {
        if |Clones(init, fieldName)| > 1 {
          var i, j :| 0 <= i < j < |init| && init[i].fieldName == fieldName && init[j].fieldName == fieldName;
          assert group[i] == init[i] && group[j] == init[j];
        } else {
          var i := SomeClone(init, fieldName);
          assert group[i] == init[i];
        }
      }
      if SharedFieldName(group, fieldName) {
        var i, j :| 0 <= i < j < |group| && group[i].fieldName == fieldName && group[j].fieldName == fieldName;
        assert init[i] == group[i];
        if j < n {
          assert init[j] == group[j];
        } else {
          OneCloneAtLeast(init, fieldName, i);
        }
      }
    }
  }

  /** An index of an item with the field name, when there is a clone. */
  lemma {:induction false} SomeClone(group: seq<Dialog>, fieldName: Value) returns (i: nat)
    requires |Clones(group, fieldName)| >= 1
    ensures i < |group| && group[i].fieldName == fieldName
  {
    var n := |group| - 1;
    if group[n].fieldName == fieldName {
      i := n;
    } else {
      i := SomeClone(group[..n], fieldName);
      assert group[..n][i] == group[i];
    }
  }

  lemma {:induction false} OneCloneAtLeast(group: seq<Dialog>, fieldName: Value, i: nat)
    requires i < |group| && group[i].fieldName == fieldName
    ensures |Clones(group, fieldName)| >= 1
  {
    var n := |group| - 1;
    if i < n {
      assert group[..n][i] == group[i];
      OneCloneAtLeast(group[..n], fieldName, i);
    }
  }

  /** Every title in the message is the truthy title of one of the items. */
  lemma {:induction false} TitlesComeFromItems(items: seq<Dialog>, t: string)
    requires t in Titles(items)
    ensures exists d :: d in items && Truthy(d.title) && t == ToStr(d.title)
  {
    var n := |items| - 1;
    var last := items[n];
    if t in Titles(items[..n]) {
      TitlesComeFromItems(items[..n], t);
      var d :| d in items[..n] && Truthy(d.title) && t == ToStr(d.title);
      assert d in items;
    } else {
      assert last in items;
    }
  }

  // ---------------------------------------------------------------------------
  // migrateConnectionsForGroupControl

  /** A dashboard link between two items; `rest` holds its other fields. */
  datatype Connection = Connection(from: Value, to: Value, rest: map<string, Value>)

  /** A dashboard tab item: its id and its `data` object. */
  datatype TabItem = TabItem(id: Value, data: Value)

  /** `items.find(({id}) => id === itemId)` */
  function FindItem(items: seq<TabItem>, itemId: Value): (r: Option<TabItem>)
    ensures r.None? ==> forall i :: 0 <= i < |items| ==> items[i].id != itemId
    ensures r.Some? ==> exists i :: (0 <= i < |items| && items[i] == r.value && items[i].id == itemId &&
      forall j :: 0 <= j < i ==> items[j].id != itemId)
  {
    if items == [] then None
    else if items[0].id == itemId then Some(items[0])
    else
      var r := FindItem(items[1..], itemId);
      if r.Some? then
        var i :| 0 <= i < |items[1..]| && items[1..][i] == r.value && items[1..][i].id == itemId &&
          (forall j :: 0 <= j < i ==> items[1..][j].id != itemId);
        assert items[i + 1] == r.value;
        r
      else r
  }

  /** `item.data.group[0].id`, or the TypeError the engine throws when one
      of the steps reads a property of undefined. Indexing a string gives
      its first character, which has no `id`. */
  function FirstGroupId(item: Option<TabItem>): (r: Result<Value>)
    ensures r.Throws? ==> r.error == TypeError
    ensures item.None? ==> r.Throws?
    ensures item.Some? && IsNullish(Prop(item.value.data, "group")) ==> r.Throws?
    ensures item.Some? && Prop(item.value.data, "group") == Arr([]) ==> r.Throws?
    ensures item.Some? && Prop(item.value.data, "group").Arr? && |Prop(item.value.data, "group").items| > 0 ==>
              var first := Prop(item.value.data, "group").items[0];
              (r.Ok? <==> !IsNullish(first)) && (r.Ok? ==> r.value == Prop(first, "id"))
    ensures item.Some? && Prop(item.value.data, "group").Obj? ==>
              var first := Prop(Prop(item.value.data, "group"), "0");
              (r.Ok? <==> !IsNullish(first)) && (r.Ok? ==> r.value == Prop(first, "id"))
    ensures item.Some? && Prop(item.value.data, "group").Str? ==>
              (r.Ok? <==> Prop(item.value.data, "group").s != "") && (r.Ok? ==> r.value == Undefined)
  {
    if item.None? then Throws(TypeError)
    else
      var data := item.value.data;
      if IsNullish(data) then Throws(TypeError)
      else
        var group := Prop(data, "group");
        if IsNullish(group) then Throws(TypeError)
        else
          var first := match group
                       case Arr(items) => if |items| > 0 then items[0] else Undefined
                       case Str(text) => if |text| > 0 then Str([text[0]]) else Undefined
                       case _ => Prop(group, "0");
          if IsNullish(first) then Throws(TypeError) else Ok(Prop(first, "id"))
  }

  /** One connection re-targeted: a link into the item now goes into the new
      id, otherwise a link out of it now comes from the new id. */
  function MigrateConnection(c: Connection, openedItemId: Value, newId: Value): Connection
  {
    if c.to == openedItemId then c.(to := newId)
    else if c.from == openedItemId then c.(from := newId)
    else c
  }

  /** `migrateConnectionsForGroupControl({openedItemId, currentTab, tabDataItems})` */
  function MigrateConnectionsForGroupControl(openedItemId: Value, connections: seq<Connection>, tabDataItems: seq<TabItem>)
    : (r: Result<seq<Connection>>)
    ensures r.Throws? <==> FirstGroupId(FindItem(tabDataItems, openedItemId)).Throws?
    ensures r.Ok? ==> |r.value| == |connections|
  {
    var newId := FirstGroupId(FindItem(tabDataItems, openedItemId));
    if newId.Throws? then Throws(newId.error)
    else Ok(seq(|connections|, i requires 0 <= i < |connections| => MigrateConnection(connections[i], openedItemId, newId.value)))
  }

  /** Each endpoint is rewritten as the source says, and nothing else moves. */
  lemma MigrationRewritesEndpoints(openedItemId: Value, connections: seq<Connection>, tabDataItems: seq<TabItem>, i: nat)
    requires i < |connections|
    requires MigrateConnectionsForGroupControl(openedItemId, connections, tabDataItems).Ok?
    ensures var newId := FirstGroupId(FindItem(tabDataItems, openedItemId)).value;
      var c, m := connections[i], MigrateConnectionsForGroupControl(openedItemId, connections, tabDataItems).value[i];
      m.to == (if c.to == openedItemId then newId else c.to) &&
      m.from == (if c.to != openedItemId && c.from == openedItemId then newId else c.from) &&
      m.rest == c.rest
  {
  }

  /** After the migration the opened item is only still mentioned as the
      source of a former self-link, whose target now is the new id. */
  lemma MigrationLeavesOnlySelfLinks(openedItemId: Value, connections: seq<Connection>, tabDataItems: seq<TabItem>, i: nat)
    requires i < |connections|
    requires MigrateConnectionsForGroupControl(openedItemId, connections, tabDataItems).Ok?
    requires FirstGroupId(FindItem(tabDataItems, openedItemId)).value != openedItemId
    ensures var m := MigrateConnectionsForGroupControl(openedItemId, connections, tabDataItems).value[i];
      m.to != openedItemId &&
      (m.from == openedItemId ==>
        connections[i].from == connections[i].to == openedItemId &&
        m.to == FirstGroupId(FindItem(tabDataItems, openedItemId)).value)
  {
  }

  /** An id that no tab item has makes the migration throw. */
  lemma MigrationOfUnknownItemThrows(openedItemId: Value, connections: seq<Connection>, tabDataItems: seq<TabItem>)
    requires forall i :: 0 <= i < |tabDataItems| ==> tabDataItems[i].id != openedItemId
    ensures MigrateConnectionsForGroupControl(openedItemId, connections, tabDataItems) == Throws(TypeError)
  {
  }

  // ---------------------------------------------------------------------------
  // getFieldNameValidation / getControlValidation

  /** `fieldNameValidationSourceTypes[sourceType]` */
  predicate FieldNameSource(sourceType: Option<SourceType>)
  {
    sourceType == Some(SourceManual) || sourceType == Some(SourceConnection)
  }

  /** `getFieldNameValidation(sourceType, fieldName, selectorParameters)`:
      the `fieldName` message of the object it returns, if any.
      `Object.hasOwnProperty.call` on undefined parameters throws. */
  function FieldNameValidation(sourceType: Option<SourceType>, fieldName: Value, selectorParameters: Option<StringParams>)
    : (r: Result<Option<Message>>)
    ensures FieldNameSource(sourceType) && !Truthy(fieldName) ==> r == Ok(Some(Required))
    ensures sourceType == Some(SourceConnection) && Truthy(fieldName) ==>
      (selectorParameters.None? <==> r.Throws?) &&
      (selectorParameters.Some? ==>
        r == Ok(if ToStr(fieldName) in selectorParameters.value then Some(FieldNameInParameters) else None))
    ensures !(FieldNameSource(sourceType) && !Truthy(fieldName)) && sourceType != Some(SourceConnection) ==> r == Ok(None)
  {
    if sourceType.Some? && FieldNameSource(sourceType) && !Truthy(fieldName) then
      Ok(Some(Required))
    else if sourceType == Some(SourceConnection) && Truthy(fieldName) then
      if selectorParameters.None? then Throws(TypeError)
      else if ToStr(fieldName) in selectorParameters.value then Ok(Some(FieldNameInParameters))
      else Ok(None)
    else Ok(None)
  }

  /** Some selector parameter has an empty value. */
  predicate SomeEmptyParameter(p: Option<StringParams>)
  {
    p.Some? && exists k :: k in p.value && LengthOf(p.value[k]) == Some(0)
  }

  /** `!defaultValue || !defaultValue?.length` */
  predicate EmptyDefault(v: Value)
  {
    !Truthy(v) || LengthOf(v).None? || LengthOf(v) == Some(0)
  }

  /** `v` exactly when `holds`: a rule's message when the rule fails, or a
      field of the data source that only some branches set. */
  function When<T>(holds: bool, v: T): (r: Option<T>)
    ensures r.Some? <==> holds
    ensures r.Some? ==> r.value == v
  {
    if holds then Some(v) else None
  }

  /** The uniqueness check reads `groupFieldNames[fieldName].length`. */
  predicate UniqueCheckReached(d: Dialog, groupFieldNames: Option<map<string, seq<string>>>)
  {
    FieldNameSource(d.sourceType) && Truthy(d.fieldName) && groupFieldNames.Some?
  }

  /** The six field rules of `getControlValidation`, each writing its
      field of an empty validation object only when it fails. */
  function FieldRuleErrors(d: Dialog): (v: Validation)
    ensures v.title.Some? <==> !Truthy(d.title)
    ensures v.chartId.Some? <==> d.sourceType == Some(SourceExternal) && !Truthy(d.chartId)
    ensures v.connectionQueryContent.Some? <==>
      d.sourceType == Some(SourceConnection) && !Truthy(d.connectionQueryContent)
    ensures v.datasetFieldId.Some? <==> d.sourceType == Some(SourceDataset) && !Truthy(d.datasetFieldId)
    ensures v.selectorParameters.Some? <==>
      d.sourceType == Some(SourceConnection) && SomeEmptyParameter(d.selectorParameters)
    ensures v.defaultValue.Some? <==> Truthy(d.required) && EmptyDefault(d.defaultValue)
    ensures v.selectorParameters.Some? ==> v.selectorParameters.value == EmptyParametersValues
    ensures forall m :: m in {v.title, v.chartId, v.connectionQueryContent, v.datasetFieldId, v.defaultValue} ==>
      m.Some? ==> m.value == Required
    ensures v.uniqueFieldName.None? && v.fieldName.None?
  {
    NoErrors.(
      title := When(!Truthy(d.title), Required),
      chartId := When(d.sourceType == Some(SourceExternal) && !Truthy(d.chartId), Required),
      connectionQueryContent :=
        When(d.sourceType == Some(SourceConnection) && !Truthy(d.connectionQueryContent), Required),
      datasetFieldId := When(d.sourceType == Some(SourceDataset) && !Truthy(d.datasetFieldId), Required),
      selectorParameters :=
        When(d.sourceType == Some(SourceConnection) && d.selectorParameters.Some? &&
             SomeEmptyParameter(d.selectorParameters), EmptyParametersValues),
      defaultValue := When(Truthy(d.required) && EmptyDefault(d.defaultValue), Required))
  }

  /** `getControlValidation(selectorDialog, groupFieldNames)`: the field
      rules, then the uniqueness rule, then the field-name errors merged
      last. Reading the field names of an unknown field throws, as does the
      field-name check of a connection dialog without parameters. */
  method ControlValidation(d: Dialog, groupFieldNames: Option<map<string, seq<string>>>)
    returns (r: Result<Validation>)
    requires WellTypedParams(d.selectorParameters)
    ensures r.Throws? <==>
      (UniqueCheckReached(d, groupFieldNames) && ToStr(d.fieldName) !in groupFieldNames.value) ||
      FieldNameValidation(d.sourceType, d.fieldName, d.selectorParameters).Throws?
    ensures r.Ok? ==> r.value.(uniqueFieldName := None, fieldName := None) == FieldRuleErrors(d)
    ensures r.Ok? ==> (r.value.uniqueFieldName ==
      if UniqueCheckReached(d, groupFieldNames) && |groupFieldNames.value[ToStr(d.fieldName)]| > 1
      then Some(FieldNameUnique(Join(groupFieldNames.value[ToStr(d.fieldName)], ", ")))
      else None)
    ensures r.Ok? ==> Ok(r.value.fieldName) == FieldNameValidation(d.sourceType, d.fieldName, d.selectorParameters)
  {
    var validation := FieldRuleErrors(d);
    if d.sourceType.Some? && FieldNameSource(d.sourceType) && Truthy(d.fieldName) && groupFieldNames.Some? {
      var key := ToStr(d.fieldName);
      if key !in groupFieldNames.value {
        return Throws(TypeError);
      }
      if |groupFieldNames.value[key]| > 1 {
        validation := validation.(uniqueFieldName := Some(FieldNameUnique(Join(groupFieldNames.value[key], ", "))));
      }
    }
    var fieldNameValidation := FieldNameValidation(d.sourceType, d.fieldName, d.selectorParameters);
    if fieldNameValidation.Throws? {
      return Throws(fieldNameValidation.error);
    }
    if fieldNameValidation.value.Some? {
      validation := validation.(fieldName := fieldNameValidation.value);
    }
    return Ok(validation);
  }

  /** A complete manual selector passes every rule: no field rule fails,
      the uniqueness check is reached and finds no other item with its
      field name, and there is no field-name error. By the contract of
      `ControlValidation` the validation is then `Ok(NoErrors)`. */
  lemma CompleteManualSelectorIsValid(d: Dialog, groupFieldNames: map<string, seq<string>>)
    requires d.sourceType == Some(SourceManual) && Truthy(d.title) && Truthy(d.fieldName)
    requires Truthy(d.required) ==> !EmptyDefault(d.defaultValue)
    requires ToStr(d.fieldName) in groupFieldNames && |groupFieldNames[ToStr(d.fieldName)]| <= 1
    ensures FieldRuleErrors(d) == NoErrors
    ensures UniqueCheckReached(d, Some(groupFieldNames)) && ToStr(d.fieldName) in groupFieldNames
    ensures FieldNameValidation(d.sourceType, d.fieldName, d.selectorParameters) == Ok(None)
  {
  }

  /** The validation of a complete manual selector reports no error. */
  method ValidateCompleteManualSelector(d: Dialog, groupFieldNames: map<string, seq<string>>)
    returns (r: Result<Validation>)
    requires WellTypedParams(d.selectorParameters)
    requires d.sourceType == Some(SourceManual) && Truthy(d.title) && Truthy(d.fieldName)
    requires Truthy(d.required) ==> !EmptyDefault(d.defaultValue)
    requires ToStr(d.fieldName) in groupFieldNames && |groupFieldNames[ToStr(d.fieldName)]| <= 1
    ensures r == Ok(NoErrors)
  {
    CompleteManualSelectorIsValid(d, groupFieldNames);
    r := ControlValidation(d, Some(groupFieldNames));
  }

  // ---------------------------------------------------------------------------
  // getControlDefaultsForField

  /** The field a selector's default is stored under. */
  function DefaultsField(d: Dialog): (r: Value)
    ensures FieldNameSource(d.sourceType) ==> r == d.fieldName
    ensures d.sourceType == Some(SourceDataset) ==> r == d.datasetFieldId
    ensures d.sourceType == Some(SourceExternal) || d.sourceType.None? ==> r == Undefined
  {
    match d.sourceType
    case Some(SourceManual) => d.fieldName
    case Some(SourceConnection) => d.fieldName
    case Some(SourceDataset) => d.datasetFieldId
    case _ => Undefined
  }

  /** `Object.assign({}, selectorParameters)` */
  function CloneParams(p: Option<StringParams>): StringParams
  {
    if p.Some? then p.value else map[]
  }

  /** `getControlDefaultsForField(selectorDialog, hasChangedSourceType)`.
      `addOperationForValue({operation, value})` and the title check
      (`validateParamTitleOnlyUnderscore(title) === null`) are defined
      elsewhere and are parameters. */
  function ControlDefaultsForField(d: Dialog, hasChangedSourceType: bool,
                                   addOperationForValue: (Value, Value) -> Value,
                                   paramTitleValid: string -> bool): (r: map<string, Value>)
    ensures var field, clone := DefaultsField(d), CloneParams(d.selectorParameters);
      Truthy(field) ==>
        ToStr(field) in r &&
        r[ToStr(field)] == addOperationForValue(d.operation, Or(d.defaultValue, Str(""))) &&
        (hasChangedSourceType ==> r.Keys == {ToStr(field)}) &&
        (!hasChangedSourceType ==>
           r.Keys == clone.Keys + {ToStr(field)} &&
           forall k :: k in clone && k != ToStr(field) ==> r[k] == clone[k])
    ensures var field, clone := DefaultsField(d), CloneParams(d.selectorParameters);
      !Truthy(field) ==>
        (forall k :: k in r <==> k in clone && paramTitleValid(k)) &&
        (forall k :: k in r ==> r[k] == clone[k])
  {
    var field := DefaultsField(d);
    var clone := CloneParams(d.selectorParameters);
    if Truthy(field) then
      (if hasChangedSourceType then map[] else clone)
        [ToStr(field) := addOperationForValue(d.operation, Or(d.defaultValue, Str("")))]
    else
      map k | k in clone && paramTitleValid(k) :: clone[k]
  }

  // ---------------------------------------------------------------------------
  // getItemDataSource

  /** `ItemDataSource`. For an external selector only `chartId`. Otherwise
      the common fields, always present (`titlePlacement` as `None` when it
      is undefined), and the fields a source or element type adds, `None`
      when the source does not write them. */
  datatype ItemDataSource =
    | ExternalSource(chartId: Value)
    | Source(
        showTitle: bool,
        titlePlacement: Option<TitlePlacement>,
        elementType: ElementType,
        defaultValue: Value,
        showInnerTitle: Value,
        innerTitle: Value,
        operation: Value,
        required: Value,
        showHint: Value,
        hint: Value,
        accentType: Value,
        datasetId: Option<Value>,
        datasetFieldId: Option<Value>,
        fieldType: Option<Value>,
        datasetFieldType: Option<Value>,
        fieldName: Option<Value>,
        acceptableValues: Option<Value>,
        connectionId: Option<Value>,
        connectionQueryType: Option<Value>,
        connectionQueryContent: Option<Value>,
        isRange: Option<Value>,
        multiselectable: Option<Value>)

  /** `getItemDataSource(selectorDialog)` */
  method ItemDataSourceOf(d: Dialog) returns (source: ItemDataSource)
    ensures d.sourceType == Some(SourceExternal) <==> source.ExternalSource?
    ensures d.sourceType == Some(SourceExternal) ==> source == ExternalSource(d.chartId)
    ensures source.Source? ==>
      source.showTitle == (d.titlePlacement != Some(TitleHide)) &&
      source.titlePlacement ==
        (if d.elementType == Checkbox || d.titlePlacement == Some(TitleHide) then None else d.titlePlacement) &&
      source.accentType == (if d.elementType == Checkbox then Undefined else d.accentType)
    ensures source.Source? ==>
      source.elementType == d.elementType && source.defaultValue == d.defaultValue &&
      source.showInnerTitle == d.showInnerTitle && source.innerTitle == d.innerTitle &&
      source.operation == d.operation && source.required == d.required &&
      source.showHint == d.showHint && source.hint == d.hint
    ensures source.Source? ==>
      var st := d.sourceType;
      source.datasetId == When(st == Some(SourceDataset), d.datasetId) &&
      source.datasetFieldId == When(st == Some(SourceDataset), d.datasetFieldId) &&
      source.datasetFieldType == When(st == Some(SourceDataset), d.datasetFieldType) &&
      source.fieldType == When(st == Some(SourceDataset) || d.elementType == Date, d.fieldType) &&
      source.fieldName == When(st == Some(SourceManual) || st == Some(SourceConnection), d.fieldName) &&
      source.acceptableValues == When(st == Some(SourceManual), d.acceptableValues) &&
      source.connectionId == When(st == Some(SourceConnection), d.connectionId) &&
      source.connectionQueryType == When(st == Some(SourceConnection), d.connectionQueryType) &&
      source.connectionQueryContent == When(st == Some(SourceConnection), d.connectionQueryContent) &&
      source.isRange == When(d.elementType == Date, d.isRange) &&
      source.multiselectable == When(d.elementType == Select, d.multiselectable)
  {
    if d.sourceType == Some(SourceExternal) {
      return ExternalSource(d.chartId);
    }
    source := Source(
      showTitle := d.titlePlacement != Some(TitleHide),
      titlePlacement :=
        if d.elementType == Checkbox || d.titlePlacement == Some(TitleHide) then None else d.titlePlacement,
      elementType := d.elementType,
      defaultValue := d.defaultValue,
      showInnerTitle := d.showInnerTitle,
      innerTitle := d.innerTitle,
      operation := d.operation,
      required := d.required,
      showHint := d.showHint,
      hint := d.hint,
      accentType := if d.elementType == Checkbox then Undefined else d.accentType,
      datasetId := None, datasetFieldId := None, fieldType := None, datasetFieldType := None,
      fieldName := None, acceptableValues := None, connectionId := None, connectionQueryType := None,
      connectionQueryContent := None, isRange := None, multiselectable := None);
    match d.sourceType {
      case Some(SourceDataset) =>
        source := source.(datasetId := Some(d.datasetId), datasetFieldId := Some(d.datasetFieldId),
                          fieldType := Some(d.fieldType), datasetFieldType := Some(d.datasetFieldType));
      case Some(SourceManual) =>
        source := source.(fieldName := Some(d.fieldName), acceptableValues := Some(d.acceptableValues));
      case Some(SourceConnection) =>
        source := source.(fieldName := Some(d.fieldName), connectionId := Some(d.connectionId),
                          connectionQueryType := Some(d.connectionQueryType),
                          connectionQueryContent := Some(d.connectionQueryContent));
      case _ =>
    }
    if d.elementType == Date {
      source := source.(isRange := Some(d.isRange), fieldType := Some(d.fieldType));
    }
    if d.elementType == Select {
      source := source.(multiselectable := Some(d.multiselectable));
    }
  }

  /** `getInitialDefaultValue(elementType)`: a checkbox starts unchecked, any
      other element without a default. */
  function InitialDefaultValue(elementType: ElementType): (r: Option<CheckboxValue>)
    ensures elementType == Checkbox <==> r.Some?
    ensures r.Some? ==> r.value == CheckboxFalse
  {
    match elementType
    case Checkbox => Some(CheckboxFalse)
    case _ => None
  }
}
