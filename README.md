# A Dafny model of the DataLens UI chart run and its helpers

DataLens UI is the web front end and Node server of the DataLens BI tool.
This project models the server's chart run, and a group of pure helpers
from the server and the UI that shape, validate or sanitise chart and
dashboard data. It states what the code promises about them and proves it.

One Dafny module per source file:

| module | source file | what it models |
|---|---|---|
| `Js` | (shared) | JavaScript values the code reads and builds. Covers truthiness, `typeof`, `in`, property access, `\|\|`, `??`, `String(v)` and code that may throw (`Result`). |
| `ProcessorSteps`, `Processor` | `src/server/components/charts-engine/components/processor/index.ts` | `Processor.process` runs a chart script tab by tab: hooks, modules, Shared, Params, Sources and the fetch, the library config, Config and JS, UI, then the assembled, identified and redacted result. Also modelled: the error paths of each stage, the top-level catch, `mergeArrayWithObject` and `collectModulesLogs`. |
| `ExportEntries` | `src/server/controllers/export-entries.ts` | `tableHeadToGraphs`, `prepareCellValue`, `prepareRowHeadersForGrid`, `prepareValues`. |
| `ControlDialog` | `src/ui/store/utils/controlDialog.ts` | The selector dialog's validators, connection migration, default params, data source and initial default value. |
| `UiSandboxRuntime` | `src/ui/libs/DatalensChartkit/modules/data-provider/charts/ui-sandbox-runtime.ts` | The rewriting of a failed call's stack, argument and context texts, `toHandle`, function-source detection, and the `Runtime` class with its `pending` handles and dispose rule. |
| `HtmlGenerator` | `src/ui/libs/DatalensChartkit/modules/html-generator/index.ts` | `generateHtml`: escaping, allow-lists, URL validation, attribute texts, styles, and tooltip-id threading. |
| `TableRenderer` | `src/ui/libs/DatalensChartkit/ChartKit/plugins/Table/renderer/utils/renderer.tsx` | `getCellContentStyles`, the choice made by `renderCellContent`, and `mapHeadCell`. |
| `Collections` | `src/shared/schema/us/actions/collections.ts` | The method, path and params of every collections action. |
| `DashDialogs` | `src/ui/units/dash/containers/Dialogs/utils.ts` | `isEntryTypeWithFiltering`. |
| `GroupControl` | `src/ui/components/DashKit/plugins/GroupControl/utils.ts` | `getControlWidthStyle` and `clearLoaderTimer`. |
| `DatasetsStore` | `src/ui/units/datasets/store/constants.ts` | `isDatasetTab`, `getCurrentTab`, `getInitialState`. |

Where the code changes state step by step, the model does too. Loops over
objects and arrays are methods with loop invariants, proved against a
function that states the result. The UI sandbox's handle bookkeeping
and the loader timers are classes with `modifies` clauses. A long
`Processor.process` is split into stage methods, each proved against its
own contract, and `Process` calls them in the source's order.

Conventions:

- Code that is not part of this model is a parameter of the model: a function value or a record of function values, never an invented body. This covers:
  - the chart builder (each sandboxed tab), the data fetcher and the hooks;
  - lodash `merge`/`mergeWith`, `JSON.stringify` and `JSONfn`;
  - `normalizeParams`, `resolveParams`, `transformParamsToActionParams` and `StackTracePreparer.prepare`;
  - `moment`, `numberFormatter`, `calculateNumericProperty`, `isMarkupItem`, `validateUrl` and `getThemeStyle`;
  - the random-id helpers, and the QuickJS `vm.dump`.
- `updateParams` and `updateActionParams` are defined in a file that is not part of this model. They are taken to overwrite each overridden key, in both `params` and `usedParams`.
- The numeric status constants of the processor are a parameter (`Statuses`). Each error-code constant is taken to be the text of its own name. The allow-lists, the attribute-name constants, the dataset tab list and the editor-type names are parameters or named constants.
- A JavaScript `TypeError` that the code would raise is an error outcome (`Result.Throws`), not a precondition. Examples are reading a property of `null` and calling `.replace` on a non-string.
- Messages are i18n keys, not translated text.
- Numbers are integers.

## Model

| member | source | states |
|---|---|---|
| Collections.Pick | src/shared/schema/us/actions/collections.ts:42-45 | a destructured arguments object has exactly the named keys, each holding the argument or undefined |
| Collections.MethodOf | src/shared/schema/us/actions/collections.ts:31-138 | the root permissions, get, content and breadcrumbs actions are GET; the single and bulk deletes are DELETE; create, update, move and bulk move are POST |
| Collections.BodyFollowsMethod | src/shared/schema/us/actions/collections.ts:31-145 | a GET action sends no body and a POST action always sends one; of the deletes only the bulk one has a body |
| Collections.Path | src/shared/schema/us/actions/collections.ts:48-127 | the get and delete paths are `/v1/collections/` + id; breadcrumbs, update and move append `/breadcrumbs`, `/update`, `/move` to that path |
| Collections.PageQueryValue | src/shared/schema/us/actions/collections.ts:77-78 | a null page becomes the text `'null'`; any other value passes unchanged |
| Collections.Params | src/shared/schema/us/actions/collections.ts:30-145 | every action forwards the headers unchanged; only create, update, move and the two bulk actions send a body, and only get, content and breadcrumbs a query; each body holds exactly its action's named arguments; get and breadcrumbs query only `includePermissionsInfo`; the content query holds its ten arguments, with a null `collectionsPage` or `workbooksPage` sent as `'null'` and never as null |
| Collections.ParseCollectionPath | src/shared/schema/us/actions/collections.ts:50 | an id read back from a path rebuilds that path |
| Collections.CollectionPathRoundTrip | src/shared/schema/us/actions/collections.ts:48-102 | the id read back from the get and delete paths is the id's text (when it has no `/`) |
| Collections.CollectionPathsDistinguishIds | src/shared/schema/us/actions/collections.ts:48-127 | different collection ids give different single-collection paths |
| Collections.CreateBodyFields | src/shared/schema/us/actions/collections.ts:39-46 | the create body has exactly title, project, description and parentId, and no query |
| Collections.BulkPathsFixed | src/shared/schema/us/actions/collections.ts:129-144 | the bulk move and delete paths are fixed and independent of the arguments |
| DashDialogs.WizardTreemapHasNoFiltering | src/ui/units/dash/containers/Dialogs/utils.ts:28-31 | a wizard entry type with the treemap visualisation gets `false` |
| DashDialogs.WizardOtherVisualizationsFilter | src/ui/units/dash/containers/Dialogs/utils.ts:28-31 | a wizard entry type with any other (or no) visualisation gets `true` |
| DashDialogs.NonWizardIgnoresVisualization | src/ui/units/dash/containers/Dialogs/utils.ts:21-33 | outside the wizard types the visualisation plays no part, and the answer is true exactly for the five editor types |
| DashDialogs.NoEntryTypeIsFalsy | src/ui/units/dash/containers/Dialogs/utils.ts:33 | without an entry type the answer is undefined, hence falsy |
| DashDialogs.IsEntryTypeWithFiltering | src/ui/units/dash/containers/Dialogs/utils.ts:9-34 | `isEntryTypeWithFiltering`: undefined exactly when there is no entry type; its answers are stated by the lemmas below |
| DashDialogs.AllowsExactly | src/ui/units/dash/containers/Dialogs/utils.ts:9-34 | filtering is offered if and only if the type is a wizard type not showing a treemap, or a non-wizard type in the editor list |
| GroupControl.ControlWidthStyle | src/ui/components/DashKit/plugins/GroupControl/utils.ts:5-14 | `auto` gives `{flex: '1 1 auto'}`; any other mode gives only a width of the width text followed by the mode |
| GroupControl.WidthStyleShapesExclusive | src/ui/components/DashKit/plugins/GroupControl/utils.ts:9-13 | a style has a width exactly when the mode is not `auto`, and a flex exactly when it is |
| GroupControl.WidthTextRecoverable | src/ui/components/DashKit/plugins/GroupControl/utils.ts:13 | dropping the unit from a sized style's width gives back the width's text |
| GroupControl.LoaderTimers.ClearLoaderTimer | src/ui/components/DashKit/plugins/GroupControl/utils.ts:16-20 | a present timer is cleared (added to the cleared timers); an absent one changes nothing |
| DatasetsStore.CurrentTab | src/ui/units/datasets/store/constants.ts:26-35 | a query naming a dataset tab wins; otherwise the sources tab while creating and the dataset tab otherwise |
| DatasetsStore.IsDatasetTab | src/ui/units/datasets/store/constants.ts:22-24 | definition of `isDatasetTab`: a string that is one of the dataset tabs; used by `CurrentTab` and the lemmas about it |
| DatasetsStore.CurrentTabIsDatasetTab | src/ui/units/datasets/store/constants.ts:22-35 | the chosen tab is always one of the dataset tabs |
| DatasetsStore.UnknownQueryFallsBack | src/ui/units/datasets/store/constants.ts:27-34 | a query that is not a string naming a tab falls back to the flow's default |
| DatasetsStore.InitialState | src/ui/units/datasets/store/constants.ts:49-100 | the state holds the current tab, the default content as both content and prevContent, and the initial preview |
| DatasetsStore.GetInitialState | src/ui/units/datasets/store/constants.ts:102-105 | the keys are the initial ones plus those of `extra`; `extra`'s values win and every other key keeps its initial value |
| DatasetsStore.ExtraKeepsContentsEqual | src/ui/units/datasets/store/constants.ts:58-105 | when `extra` sets neither `content` nor `prevContent`, the fresh state starts with both equal to the default content |
| DatasetsStore.InitialTabIsDatasetTab | src/ui/units/datasets/store/constants.ts:99-105 | unless `extra` sets it, the initial state's current tab is a dataset tab |
| ExportEntries.Title | src/server/controllers/export-entries.ts:60 | a column's title is `name ?? id ?? type ?? ''` |
| ExportEntries.TableHeadToGraphs | src/server/controllers/export-entries.ts:58-78 | every produced graph is a leaf column with `scale = column.scale \|\| 'd'` and empty data |
| ExportEntries.ColumnGraphs | src/server/controllers/export-entries.ts:59-76 | every graph one column contributes is a fresh leaf graph |
| ExportEntries.LeafColumns | src/server/controllers/export-entries.ts:58-78 | definition: the columns without `sub`, depth first, left to right; the reference `GraphsAreLeaves` compares the graphs with |
| ExportEntries.GraphsAreLeaves | src/server/controllers/export-entries.ts:58-78 | the graphs' columns are exactly the leaf columns, depth first and left to right, whatever the prefix |
| ExportEntries.ColumnGraphsAreLeaves | src/server/controllers/export-entries.ts:62-75 | one column contributes exactly its own leaves |
| ExportEntries.TopLevelLeafTitle | src/server/controllers/export-entries.ts:67-74 | a top-level leaf keeps its own title, with the default scale and no data |
| ExportEntries.NestedTitles | src/server/controllers/export-entries.ts:63-69 | nested group titles are joined with `" – "` and a leaf under a prefix is titled `prefix - title` |
| ExportEntries.UntitledGroupAddsNoPrefix | src/server/controllers/export-entries.ts:64 | a group with an empty title passes no prefix to its sub-columns |
| ExportEntries.Product | src/server/controllers/export-entries.ts:95-100 | the product of two value lists has the product of their lengths |
| ExportEntries.Pair | src/server/controllers/export-entries.ts:97-99 | one value joined with each value of a level, `a — b`, in order |
| ExportEntries.PrepareCellValue | src/server/controllers/export-entries.ts:80-82 | an array cell gives its nested grid's headers; any other cell gives `[cell.value]` |
| ExportEntries.PrepareRowHeadersForGrid | src/server/controllers/export-entries.ts:84-107 | the loops compute the level-by-level fold of the grid |
| ExportEntries.PrepareLevel | src/server/controllers/export-entries.ts:87-90 | a level's values are its cells' values concatenated in order |
| ExportEntries.MultiplyLevels | src/server/controllers/export-entries.ts:95-102 | the nested loops build the product of the result and the level |
| ExportEntries.ProductEntry | src/server/controllers/export-entries.ts:95-100 | entry `i * \|b\| + j` of the product joins `a[i]` and `b[j]` |
| ExportEntries.RowHeadersCount | src/server/controllers/export-entries.ts:84-107 | when every level has values, the number of headers is the product of the level sizes, hence positive |
| ExportEntries.SingleLevelUnchanged | src/server/controllers/export-entries.ts:92-93 | a single level is returned as its values |
| ExportEntries.HeadersFrom | src/server/controllers/export-entries.ts:86-104 | definition of the level fold of `prepareRowHeadersForGrid`; its product, count and restart behaviour are stated by the lemmas around it |
| ExportEntries.HeadersFromAppend | src/server/controllers/export-entries.ts:86-104 | folding two runs of levels is folding the second into the result of the first |
| ExportEntries.EmptyLevelRestarts | src/server/controllers/export-entries.ts:92-103 | a level without values empties the result, so the headers are those of the levels after it |
| ExportEntries.DateFormatByScale | src/server/controllers/export-entries.ts:47-56 | the date format of each of the eight scales (`d`, `w`: `DD.MM.YYYY`; `m`: `MMMM YYYY`; `h`, `i`: `DD.MM.YYYY HH:mm`; `s`: `DD.MM.YYYY HH:mm:ss`; `q`, `y`: `YYYY`), undefined for an unknown scale |
| ExportEntries.Assign | src/server/controllers/export-entries.ts:164-174 | `data[index] = v` sets that index, keeps every other value and leaves holes (undefined) up to it |
| ExportEntries.CellValuesOfList | src/server/controllers/export-entries.ts:170 | a mapped list has one value per cell |
| ExportEntries.ProcessCell | src/server/controllers/export-entries.ts:150-176 | a cell changes at most its own graph's data and never a graph's column, title or scale |
| ExportEntries.PrepareRow | src/server/controllers/export-entries.ts:149-176 | the loop over a row's cells computes the cell-by-cell fold over the graphs |
| ExportEntries.ThrowPropagates | src/server/controllers/export-entries.ts:150-176 | once a cell throws, the row throws that error |
| ExportEntries.PrepareValues | src/server/controllers/export-entries.ts:140-180 | the method computes the row-by-row fold over the flattened head |
| ExportEntries.RowsThrowPropagates | src/server/controllers/export-entries.ts:148-177 | once a row throws, the whole preparation throws that error |
| ExportEntries.ProcessRow | src/server/controllers/export-entries.ts:149-176 | definition of one row's cell fold, or a throw when the row has no cells list; `PrepareRow` computes it |
| ExportEntries.ProcessRows | src/server/controllers/export-entries.ts:146-148 | definition of the row fold with running row indexes, stopping at the first throw; `PrepareValues` computes it |
| ExportEntries.ProcessRowsAppend | src/server/controllers/export-entries.ts:146-148 | two runs of rows are processed one after the other, the second's indexes continuing after the first's |
| ExportEntries.ThrowsStays | src/server/controllers/export-entries.ts:148-177 | an error stays an error over any further rows |
| ExportEntries.FooterAfterBody | src/server/controllers/export-entries.ts:142-148 | footer rows are processed after the body rows, with the row indexes that follow them |
| ExportEntries.CellBeyondGraphsIgnored | src/server/controllers/export-entries.ts:152-156 | a cell past the last graph changes nothing |
| ExportEntries.PlainValueAtRowIndex | src/server/controllers/export-entries.ts:173-175 | a plain value of a column that is neither date nor grid lands at `graph.data[rowIndex]` |
| ExportEntries.RowsKeepGraphs | src/server/controllers/export-entries.ts:148-177 | distributing rows never adds, drops, renames or reorders a graph |
| ExportEntries.CellsKeepGraphs | src/server/controllers/export-entries.ts:150-176 | distributing a row's cells keeps every graph's column and title |
| ControlDialog.Clones | src/ui/store/utils/controlDialog.ts:25 | the filtered items all share the field name and are no more than the group |
| ControlDialog.Titles | src/ui/store/utils/controlDialog.ts:28-33 | there are no more titles than items |
| ControlDialog.ActualUniqueFieldNameValidation | src/ui/store/utils/controlDialog.ts:16-40 | undefined without a validation or a field name; otherwise a message listing the truthy titles exactly when more than one group item shares the field name |
| ControlDialog.FilterByFieldName | src/ui/store/utils/controlDialog.ts:25 | the filter keeps exactly the items with the field name, in order |
| ControlDialog.CollectTitles | src/ui/store/utils/controlDialog.ts:28-33 | the loop collects the truthy titles in order |
| ControlDialog.ClonesStep | src/ui/store/utils/controlDialog.ts:25 | one more item adds itself to the clones exactly when it has the field name |
| ControlDialog.TitlesStep | src/ui/store/utils/controlDialog.ts:29-33 | one more item adds its title exactly when the title is truthy |
| ControlDialog.TwoClonesExactly | src/ui/store/utils/controlDialog.ts:25-27 | there is more than one clone if and only if two different items share the field name |
| ControlDialog.SomeClone | src/ui/store/utils/controlDialog.ts:25 | a non-empty clone list comes from an item with the field name |
| ControlDialog.OneCloneAtLeast | src/ui/store/utils/controlDialog.ts:25 | an item with the field name is among the clones |
| ControlDialog.TitlesComeFromItems | src/ui/store/utils/controlDialog.ts:28-33 | every listed title is the truthy title of one of the items |
| ControlDialog.FindItem | src/ui/store/utils/controlDialog.ts:51 | `find` gives the first item with the id, or nothing when no item has it |
| ControlDialog.FirstGroupId | src/ui/store/utils/controlDialog.ts:52 | reading the group's first id throws a TypeError exactly when the item is missing, its group is nullish or empty, or the group's first entry is nullish; otherwise the result is that entry's `id` (undefined for a string group) |
| ControlDialog.MigrateConnectionsForGroupControl | src/ui/store/utils/controlDialog.ts:42-65 | the migration throws exactly when the opened item or its first group id is missing, and otherwise keeps the number of connections |
| ControlDialog.MigrateConnection | src/ui/store/utils/controlDialog.ts:55-61 | definition of one connection's rewrite: `to` first, else `from`; stated by `MigrationRewritesEndpoints` |
| ControlDialog.MigrationRewritesEndpoints | src/ui/store/utils/controlDialog.ts:54-62 | `to == openedItemId` is rewritten to the group's first id, else `from == openedItemId` is, and the rest of the connection is unchanged |
| ControlDialog.MigrationLeavesOnlySelfLinks | src/ui/store/utils/controlDialog.ts:54-62 | after the migration no connection points to the opened item, and only a self-link of it still starts from it |
| ControlDialog.MigrationOfUnknownItemThrows | src/ui/store/utils/controlDialog.ts:51-52 | an opened item that is not on the tab makes the migration throw |
| ControlDialog.FieldNameValidation | src/ui/store/utils/controlDialog.ts:72-90 | Manual or Connection without a field name is required; a Connection field name that is a key of `selectorParameters` is an in-parameters error, and missing parameters make `hasOwnProperty` throw; otherwise no error |
| ControlDialog.When | src/ui/store/utils/controlDialog.ts:110-139 | a rule yields its message exactly when it fails, and a data-source field is set exactly when its branch runs |
| ControlDialog.FieldRuleErrors | src/ui/store/utils/controlDialog.ts:108-139 | each of title, chartId, query content, datasetFieldId, parameters and defaultValue is flagged if and only if its rule fails |
| ControlDialog.ControlValidation | src/ui/store/utils/controlDialog.ts:92-161 | the rule errors, the unique-field-name message when the group lists the name more than once, and the field-name errors merged last; throws exactly where `groupFieldNames[fieldName].length` or `hasOwnProperty` would |
| ControlDialog.CompleteManualSelectorIsValid | src/ui/store/utils/controlDialog.ts:92-161 | for a titled manual selector with a field name, a default when required and a unique name: no field rule fails, the uniqueness check is reached and passes, and there is no field-name error |
| ControlDialog.ValidateCompleteManualSelector | src/ui/store/utils/controlDialog.ts:92-161 | `getControlValidation` of such a selector answers the empty validation object |
| ControlDialog.DefaultsField | src/ui/store/utils/controlDialog.ts:170-181 | the field is the field name for Manual and Connection, the dataset field id for Dataset, and undefined otherwise |
| ControlDialog.ControlDefaultsForField | src/ui/store/utils/controlDialog.ts:163-202 | with a field, that field maps to `addOperationForValue(...)` and is the only key after a source-type change, else it sits over the cloned parameters; without one, exactly the parameters whose title passes the underscore check, values unchanged |
| ControlDialog.ItemDataSourceOf | src/ui/store/utils/controlDialog.ts:204-299 | External gives exactly `{chartId}`; otherwise `showTitle` is `titlePlacement !== Hide`, a checkbox has no title placement or accent type, and each source type and element type adds exactly its own fields |
| ControlDialog.InitialDefaultValue | src/ui/store/utils/controlDialog.ts:301-308 | a checkbox starts at the false value; every other element type has none |
| HtmlGenerator.Escape | src/ui/libs/DatalensChartkit/modules/html-generator/index.ts:39-67 | the escaped text contains no `<`, `>`, `"` or `'` and is no shorter than the input |
| HtmlGenerator.UnescapeEscapedChar | src/ui/libs/DatalensChartkit/modules/html-generator/index.ts:39 | unescaping an escaped character gives the character back |
| HtmlGenerator.UnescapeEscape | src/ui/libs/DatalensChartkit/modules/html-generator/index.ts:39 | escaping loses nothing: unescaping the escaped text gives the text back |
| HtmlGenerator.SetAttribute | src/ui/libs/DatalensChartkit/modules/html-generator/index.ts:101 | `setAttribute` sets the lower-cased name to the value and leaves every other attribute unchanged |
| HtmlGenerator.AttributeStep | src/ui/libs/DatalensChartkit/modules/html-generator/index.ts:78-102 | an attribute throws exactly when it is disallowed without ignoreInvalidValues, or allowed, URL-checked and invalid; a disallowed one is skipped when ignoring; an allowed one is set to its prepared value |
| HtmlGenerator.AllowedEntries | src/ui/libs/DatalensChartkit/modules/html-generator/index.ts:78-84 | the entries kept when ignoring invalid values are all allowed |
| HtmlGenerator.StrictRunSawOnlyAllowed | src/ui/libs/DatalensChartkit/modules/html-generator/index.ts:78-91 | a strict run that does not throw saw only allowed attributes |
| HtmlGenerator.IgnoredAttributesSkipped | src/ui/libs/DatalensChartkit/modules/html-generator/index.ts:78-84 | with ignoreInvalidValues the disallowed attributes are skipped and the rest kept, as a strict run over the allowed ones alone |
| HtmlGenerator.NeedsUrlValidationAsWritten | src/ui/libs/DatalensChartkit/modules/html-generator/index.ts:93 | definition of the URL check as written: the key exactly as given is one of the four names |
| HtmlGenerator.NeedsUrlValidation | src/ui/libs/DatalensChartkit/modules/html-generator/index.ts:93-95 | definition of the corrected URL check: the lower-cased key is one of the four names |
| HtmlGenerator.ApplyAttributes | src/ui/libs/DatalensChartkit/modules/html-generator/index.ts:78-102 | definition of the attribute fold, ending at the first throw; `SetAttributes` computes it and the lemmas above state what it keeps |
| HtmlGenerator.UrlsValidated | src/ui/libs/DatalensChartkit/modules/html-generator/index.ts:93-95 | after a run that did not throw, every allowed URL attribute (any case) had a valid URL |
| HtmlGenerator.UpperCaseHrefSkipsValidation | src/ui/libs/DatalensChartkit/modules/html-generator/index.ts:79-93 | as written, `HREF` passes the case-insensitive allow-list but not the case-sensitive URL list, and is set as `href`; the corrected step rejects an invalid URL in it |
| HtmlGenerator.SetAttributes | src/ui/libs/DatalensChartkit/modules/html-generator/index.ts:78-102 | the `forEach` over the attributes computes the entry-by-entry fold |
| HtmlGenerator.FailureStays | src/ui/libs/DatalensChartkit/modules/html-generator/index.ts:86-90 | once an attribute throws, the whole run throws that error |
| HtmlGenerator.AdditionalCss | src/ui/libs/DatalensChartkit/modules/html-generator/index.ts:63-69 | there are no more additional CSS properties than style entries |
| HtmlGenerator.StyleAttributes | src/ui/libs/DatalensChartkit/modules/html-generator/index.ts:71-75 | without additional properties no style attribute is added beyond the element's own; at most one `style` attribute |
| HtmlGenerator.CollectAdditionalCss | src/ui/libs/DatalensChartkit/modules/html-generator/index.ts:63-69 | the loop collects `key: escaped value;` for every property the element's style did not accept |
| HtmlGenerator.GenerateHtml | src/ui/libs/DatalensChartkit/modules/html-generator/index.ts:29-134 | the random-id counter never goes back |
| HtmlGenerator.GenerateList | src/ui/libs/DatalensChartkit/modules/html-generator/index.ts:34-36 | the random-id counter never goes back over a list |
| HtmlGenerator.FalsyItemIsEmpty | src/ui/libs/DatalensChartkit/modules/html-generator/index.ts:33-133 | a falsy item (including the empty text) gives `''` and draws no id |
| HtmlGenerator.TextIsEscaped | src/ui/libs/DatalensChartkit/modules/html-generator/index.ts:38-40 | a string item gives its escaped form, from which the text can be recovered |
| HtmlGenerator.DisallowedTag | src/ui/libs/DatalensChartkit/modules/html-generator/index.ts:44-56 | a tag outside the allow-list gives `''` with ignoreInvalidValues and throws otherwise |
| HtmlGenerator.ListConcatenates | src/ui/libs/DatalensChartkit/modules/html-generator/index.ts:34-36 | a list's output is its elements' outputs concatenated in order, with the same options |
| HtmlGenerator.ListPrefix | src/ui/libs/DatalensChartkit/modules/html-generator/index.ts:34-36 | a list's first elements' output depends only on those elements |
| HtmlGenerator.SingletonList | src/ui/libs/DatalensChartkit/modules/html-generator/index.ts:34-36 | a one-element list gives the element's output |
| HtmlGenerator.ElementParts | src/ui/libs/DatalensChartkit/modules/html-generator/index.ts:58-118 | definition of an element's attributes, style, decoration and next options; `BuildElement` computes it |
| HtmlGenerator.Decorate | src/ui/libs/DatalensChartkit/modules/html-generator/index.ts:104-118 | definition of the tooltip anchor, element id and next options; stated by the tooltip lemmas |
| HtmlGenerator.ElementAnchoredToTooltip | src/ui/libs/DatalensChartkit/modules/html-generator/index.ts:104-112 | a non-tooltip element gets the anchor attribute set to `options.tooltipId` and passes the options on unchanged |
| HtmlGenerator.TooltipPassesFreshId | src/ui/libs/DatalensChartkit/modules/html-generator/index.ts:58-118 | a `dl-tooltip` becomes a `div` with a fresh id that it passes to its children, and does not anchor itself |
| HtmlGenerator.DecorateTooltip | src/ui/libs/DatalensChartkit/modules/html-generator/index.ts:104-118 | a tooltip's decoration sets the fresh id and the next options, and adds no anchor attribute |
| HtmlGenerator.UntouchedName | src/ui/libs/DatalensChartkit/modules/html-generator/index.ts:78-102 | an attribute name no entry sets keeps its value |
| HtmlGenerator.ContentGeneratedWithNextOptions | src/ui/libs/DatalensChartkit/modules/html-generator/index.ts:120-130 | an element's inner HTML is the theme style followed by its content generated with the next options |
| HtmlGenerator.BuildElement | src/ui/libs/DatalensChartkit/modules/html-generator/index.ts:58-118 | the method builds the element, its decoration and the next options exactly as `ElementParts` defines them |
| HtmlGenerator.DecorateElement | src/ui/libs/DatalensChartkit/modules/html-generator/index.ts:104-126 | the method adds the anchor, element id, tooltip id and theme attributes exactly as `Decorate` defines them |
| HtmlGenerator.Generate | src/ui/libs/DatalensChartkit/modules/html-generator/index.ts:29-134 | the recursive method computes exactly what `GenerateHtml` defines, and the next unused id |
| HtmlGenerator.GenerateItems | src/ui/libs/DatalensChartkit/modules/html-generator/index.ts:34-36 | the loop over a list computes its concatenated output |
| HtmlGenerator.ListFailureStays | src/ui/libs/DatalensChartkit/modules/html-generator/index.ts:35 | once an element of a list throws, the whole list throws that error |
| TableRenderer.SomeLacksWidth | src/ui/libs/DatalensChartkit/ChartKit/plugins/Table/renderer/utils/renderer.tsx:101 | `columns.some((col) => !col.width)`: true only when some column lacks a width, false exactly when every column has one; a null column throws |
| TableRenderer.CellWidth | src/ui/libs/DatalensChartkit/ChartKit/plugins/Table/renderer/utils/renderer.tsx:103 | the cell's own width wins over the column's |
| TableRenderer.GetCellContentStyles | src/ui/libs/DatalensChartkit/ChartKit/plugins/Table/renderer/utils/renderer.tsx:88-111 | right alignment exactly for cells of type `number` (the cell's type over the column's); a width only when some column lacks one and it is not a percentage, and then the cell's width; a null cell throws |
| TableRenderer.AllColumnsSizedSetsNoWidth | src/ui/libs/DatalensChartkit/ChartKit/plugins/Table/renderer/utils/renderer.tsx:100-108 | when every column has a width, no width is set |
| TableRenderer.CellWidthOverridesColumn | src/ui/libs/DatalensChartkit/ChartKit/plugins/Table/renderer/utils/renderer.tsx:103-107 | a cell's own non-percentage width is used when widths can be set |
| TableRenderer.CellTypeOverridesColumn | src/ui/libs/DatalensChartkit/ChartKit/plugins/Table/renderer/utils/renderer.tsx:94-98 | a cell typed other than `number` is not right-aligned, whatever its column's type |
| TableRenderer.FormatValue | src/ui/libs/DatalensChartkit/ChartKit/plugins/Table/renderer/utils/renderer.tsx:134-150 | the formatted value is a text, and `String(value)` for a cell that is neither a date nor a number |
| TableRenderer.RenderCellContent | src/ui/libs/DatalensChartkit/ChartKit/plugins/Table/renderer/utils/renderer.tsx:113-153 | the bar view (outside headers) first, then markup, then the tree node (outside headers), then text; an existing `formattedValue` is returned unchanged; a null cell throws |
| TableRenderer.HeaderIsMarkupOrText | src/ui/libs/DatalensChartkit/ChartKit/plugins/Table/renderer/utils/renderer.tsx:122-132 | a header renders as markup or text, never as a bar or a tree node |
| TableRenderer.TextCellValue | src/ui/libs/DatalensChartkit/ChartKit/plugins/Table/renderer/utils/renderer.tsx:134-152 | a text cell shows its `formattedValue` when it has one, and otherwise `String(value)` for non-date, non-number cells |
| TableRenderer.RenderBodyCell | src/ui/libs/DatalensChartkit/ChartKit/plugins/Table/renderer/utils/renderer.tsx:64-82 | a body cell has the content styles and content of the cell in its column, and a sort icon exactly when `sortDirection` is truthy |
| TableRenderer.MapSubColumns | src/ui/libs/DatalensChartkit/ChartKit/plugins/Table/renderer/utils/renderer.tsx:83 | one head cell per sub-column, each mapped with its own index and the sub-column list as arguments |
| TableRenderer.MapHeadCell | src/ui/libs/DatalensChartkit/ChartKit/plugins/Table/renderer/utils/renderer.tsx:44-85 | definition of `mapHeadCell`, with the null-column throw; its defaults and recursion are stated by the lemmas around it |
| TableRenderer.HeadCellDefaults | src/ui/libs/DatalensChartkit/ChartKit/plugins/Table/renderer/utils/renderer.tsx:44-85 | the head cell keeps the column, has its id as text, sorting enabled unless `sortable` says otherwise, `alphanumeric` sorting exactly for number columns, and grouping and pinning off by default |
| TableRenderer.HeaderOfMarkupColumn | src/ui/libs/DatalensChartkit/ChartKit/plugins/Table/renderer/utils/renderer.tsx:48-60 | a column with markup has a markup header; every header is markup or text |
| TableRenderer.HeadCellColumns | src/ui/libs/DatalensChartkit/ChartKit/plugins/Table/renderer/utils/renderer.tsx:83 | each sub-column is mapped recursively, `map` passing its index as `tableWidth` and the list as `head` |
| TableRenderer.LeafHasNoColumns | src/ui/libs/DatalensChartkit/ChartKit/plugins/Table/renderer/utils/renderer.tsx:83 | a column without `sub` has no sub-columns |
| UiSandboxRuntime.IndexOf | src/ui/libs/DatalensChartkit/modules/data-provider/charts/ui-sandbox-runtime.ts:53 | the first occurrence of the pattern from a position on, or none when it does not occur |
| UiSandboxRuntime.ReplaceFirst | src/ui/libs/DatalensChartkit/modules/data-provider/charts/ui-sandbox-runtime.ts:53 | definition of a string-pattern `replace`: the first occurrence replaced, none unchanged; stated by the two lemmas below |
| UiSandboxRuntime.ReplaceFirstAt | src/ui/libs/DatalensChartkit/modules/data-provider/charts/ui-sandbox-runtime.ts:53 | `replace('__fn', name)` replaces the first occurrence only |
| UiSandboxRuntime.ReplaceFirstWithoutMatch | src/ui/libs/DatalensChartkit/modules/data-provider/charts/ui-sandbox-runtime.ts:53 | a text without the pattern is left unchanged |
| UiSandboxRuntime.SplitLines | src/ui/libs/DatalensChartkit/modules/data-provider/charts/ui-sandbox-runtime.ts:54 | `split('\\n')` gives at least one line, none containing a line break, and joining them back gives the text |
| UiSandboxRuntime.SplitLineWithoutBreak | src/ui/libs/DatalensChartkit/modules/data-provider/charts/ui-sandbox-runtime.ts:54 | a text without a line break is one line |
| UiSandboxRuntime.SplitLinesAfter | src/ui/libs/DatalensChartkit/modules/data-provider/charts/ui-sandbox-runtime.ts:54 | a first line followed by a break splits off in front of the rest's lines |
| UiSandboxRuntime.SplitJoin | src/ui/libs/DatalensChartkit/modules/data-provider/charts/ui-sandbox-runtime.ts:54-60 | splitting lines joined with line breaks gives the lines back |
| UiSandboxRuntime.TrimStart | src/ui/libs/DatalensChartkit/modules/data-provider/charts/ui-sandbox-runtime.ts:58 | trimming the start drops exactly the leading white space |
| UiSandboxRuntime.TrimEnd | src/ui/libs/DatalensChartkit/modules/data-provider/charts/ui-sandbox-runtime.ts:58 | trimming the end drops exactly the trailing white space |
| UiSandboxRuntime.TrimEmptyIffBlank | src/ui/libs/DatalensChartkit/modules/data-provider/charts/ui-sandbox-runtime.ts:58 | a line trims to nothing if and only if it is all white space |
| UiSandboxRuntime.BlankTrimsAway | src/ui/libs/DatalensChartkit/modules/data-provider/charts/ui-sandbox-runtime.ts:58 | an all-white-space line trims to nothing |
| UiSandboxRuntime.LastRunUnique | src/ui/libs/DatalensChartkit/modules/data-provider/charts/ui-sandbox-runtime.ts:56 | a line has at most one last run of digits (a run followed only by non-digits) |
| UiSandboxRuntime.DigitFreeSuffixStart | src/ui/libs/DatalensChartkit/modules/data-provider/charts/ui-sandbox-runtime.ts:56 | where the digit-free tail of a line starts |
| UiSandboxRuntime.RunStart | src/ui/libs/DatalensChartkit/modules/data-provider/charts/ui-sandbox-runtime.ts:56 | where the run of digits ending at a position starts |
| UiSandboxRuntime.RenumberLine | src/ui/libs/DatalensChartkit/modules/data-provider/charts/ui-sandbox-runtime.ts:55-57 | renumbering a line adds no line break |
| UiSandboxRuntime.LineNumber | src/ui/libs/DatalensChartkit/modules/data-provider/charts/ui-sandbox-runtime.ts:56 | the new number is the run's value minus `startPoint`, with a minus sign when negative |
| UiSandboxRuntime.RenumberRewritesLastRun | src/ui/libs/DatalensChartkit/modules/data-provider/charts/ui-sandbox-runtime.ts:56 | only the last run of digits of a line is rewritten, reduced by `startPoint`; the rest of the line is unchanged |
| UiSandboxRuntime.LineWithoutDigitsUnchanged | src/ui/libs/DatalensChartkit/modules/data-provider/charts/ui-sandbox-runtime.ts:56 | a line without digits is unchanged |
| UiSandboxRuntime.DefaultStartKeepsLine | src/ui/libs/DatalensChartkit/modules/data-provider/charts/ui-sandbox-runtime.ts:49-56 | with the default `startPoint = 0` a canonically printed line number is unchanged |
| UiSandboxRuntime.RenumberLines | src/ui/libs/DatalensChartkit/modules/data-provider/charts/ui-sandbox-runtime.ts:55-57 | every line is renumbered, none added or dropped |
| UiSandboxRuntime.KeepNonBlank | src/ui/libs/DatalensChartkit/modules/data-provider/charts/ui-sandbox-runtime.ts:58 | the kept lines are non-blank lines of the input |
| UiSandboxRuntime.DropLastTwo | src/ui/libs/DatalensChartkit/modules/data-provider/charts/ui-sandbox-runtime.ts:59 | `slice(0, -2)` keeps all but the last two lines, or nothing |
| UiSandboxRuntime.RewrittenLinesNonBlank | src/ui/libs/DatalensChartkit/modules/data-provider/charts/ui-sandbox-runtime.ts:52-60 | no blank line is left in the rewritten stack |
| UiSandboxRuntime.RewriteStack | src/ui/libs/DatalensChartkit/modules/data-provider/charts/ui-sandbox-runtime.ts:52-60 | definition of the rewritten stack: the rewritten lines joined by line breaks; stated by the lemmas around it |
| UiSandboxRuntime.RewrittenLineCount | src/ui/libs/DatalensChartkit/modules/data-provider/charts/ui-sandbox-runtime.ts:58-59 | the rewritten stack has two lines fewer than the non-blank lines, or none |
| UiSandboxRuntime.RewrittenStackSplits | src/ui/libs/DatalensChartkit/modules/data-provider/charts/ui-sandbox-runtime.ts:54-60 | the joined stack splits back into the rewritten lines |
| UiSandboxRuntime.DefaultStartKeepsLines | src/ui/libs/DatalensChartkit/modules/data-provider/charts/ui-sandbox-runtime.ts:49-60 | with `startPoint = 0` the stack is only named, stripped of blank lines and of its last two lines |
| UiSandboxRuntime.ErrorWithStack | src/ui/libs/DatalensChartkit/modules/data-provider/charts/ui-sandbox-runtime.ts:51-52 | the dumped error keeps all its other fields with only `stack` rewritten; a stack that is not a string makes `.replace` throw |
| UiSandboxRuntime.RemoveSpaces | src/ui/libs/DatalensChartkit/modules/data-provider/charts/ui-sandbox-runtime.ts:259 | the corrected check removes every space |
| UiSandboxRuntime.RemoveSpacesAppend | src/ui/libs/DatalensChartkit/modules/data-provider/charts/ui-sandbox-runtime.ts:259 | removing spaces distributes over concatenation |
| UiSandboxRuntime.SpacingIrrelevant | src/ui/libs/DatalensChartkit/modules/data-provider/charts/ui-sandbox-runtime.ts:258-261 | with every space removed, one more space never changes whether a text is recognised |
| UiSandboxRuntime.OneSpaceShowsArrow | src/ui/libs/DatalensChartkit/modules/data-provider/charts/ui-sandbox-runtime.ts:258-261 | as written, `(p,q) => r` is recognised |
| UiSandboxRuntime.SecondSpaceHidesArrow | src/ui/libs/DatalensChartkit/modules/data-provider/charts/ui-sandbox-runtime.ts:258-261 | as written, `(p, q) => r` is not recognised, because only the first space is removed |
| UiSandboxRuntime.SpacedArrowRecognised | src/ui/libs/DatalensChartkit/modules/data-provider/charts/ui-sandbox-runtime.ts:258-261 | the corrected check recognises `(p, q) => r` |
| UiSandboxRuntime.CompactArrow | src/ui/libs/DatalensChartkit/modules/data-provider/charts/ui-sandbox-runtime.ts:258-261 | the corrected check recognises `(p,q)=>r` |
| UiSandboxRuntime.SpaceBeforeBody | src/ui/libs/DatalensChartkit/modules/data-provider/charts/ui-sandbox-runtime.ts:258-261 | a space before the body does not matter |
| UiSandboxRuntime.SpaceBeforeArrow | src/ui/libs/DatalensChartkit/modules/data-provider/charts/ui-sandbox-runtime.ts:258-261 | a space before the arrow does not matter |
| UiSandboxRuntime.SpaceAfterComma | src/ui/libs/DatalensChartkit/modules/data-provider/charts/ui-sandbox-runtime.ts:258-261 | a space after the comma does not matter |
| UiSandboxRuntime.IsArrowFunctionAsWritten | src/ui/libs/DatalensChartkit/modules/data-provider/charts/ui-sandbox-runtime.ts:258-261 | definition of `isArrowFunction` as written: only the first space removed |
| UiSandboxRuntime.IsArrowFunction | src/ui/libs/DatalensChartkit/modules/data-provider/charts/ui-sandbox-runtime.ts:258-261 | definition of the corrected check: every space removed, then `(` first and `)=>` inside |
| UiSandboxRuntime.IsFunction | src/ui/libs/DatalensChartkit/modules/data-provider/charts/ui-sandbox-runtime.ts:254-256 | definition of `isFunction`, over the corrected arrow check; stated by `FunctionTexts` |
| UiSandboxRuntime.FunctionTexts | src/ui/libs/DatalensChartkit/modules/data-provider/charts/ui-sandbox-runtime.ts:254-256 | only strings are functions, and every string starting with `function` is one |
| UiSandboxRuntime.PrepareArgs | src/ui/libs/DatalensChartkit/modules/data-provider/charts/ui-sandbox-runtime.ts:133-139 | each function argument is replaced by its source text; the others are unchanged |
| UiSandboxRuntime.ArgumentsText | src/ui/libs/DatalensChartkit/modules/data-provider/charts/ui-sandbox-runtime.ts:129-148 | the arguments' JSON, or `'[]'` when stringifying throws |
| UiSandboxRuntime.ContextText | src/ui/libs/DatalensChartkit/modules/data-provider/charts/ui-sandbox-runtime.ts:116-127 | the context's JSON, or `''` when stringifying throws |
| UiSandboxRuntime.ToHandle | src/ui/libs/DatalensChartkit/modules/data-provider/charts/ui-sandbox-runtime.ts:233-244 | numbers become number handles, objects are evaluated as `(json)`, everything else becomes `String(v)` |
| UiSandboxRuntime.NonNumericPrimitivesBecomeStrings | src/ui/libs/DatalensChartkit/modules/data-provider/charts/ui-sandbox-runtime.ts:243 | booleans, undefined and functions become their string forms |
| UiSandboxRuntime.NullEvaluated | src/ui/libs/DatalensChartkit/modules/data-provider/charts/ui-sandbox-runtime.ts:238-240 | null is an object and is evaluated as `(null)` |
| UiSandboxRuntime.CallbackCount | src/ui/libs/DatalensChartkit/modules/data-provider/charts/ui-sandbox-runtime.ts:170-175 | no more callbacks than arguments |
| UiSandboxRuntime.CallbackCountAppend | src/ui/libs/DatalensChartkit/modules/data-provider/charts/ui-sandbox-runtime.ts:173-175 | one more argument adds a callback exactly when it is a function text |
| UiSandboxRuntime.CheckedCall | src/ui/libs/DatalensChartkit/modules/data-provider/charts/ui-sandbox-runtime.ts:45-66 | true when there is no error; otherwise the dumped error with its stack rewritten is thrown |
| UiSandboxRuntime.ThrownStack | src/ui/libs/DatalensChartkit/modules/data-provider/charts/ui-sandbox-runtime.ts:50-62 | the thrown error's stack is the rewritten stack |
| UiSandboxRuntime.Runtime.constructor | src/ui/libs/DatalensChartkit/modules/data-provider/charts/ui-sandbox-runtime.ts:30-43 | a new runtime has no pending handles and nothing disposed |
| UiSandboxRuntime.Runtime.CheckCallResult | src/ui/libs/DatalensChartkit/modules/data-provider/charts/ui-sandbox-runtime.ts:45-66 | returns the checked result, disposes the error handle when it throws the rewritten error, and changes nothing else |
| UiSandboxRuntime.Runtime.DefineVmContext | src/ui/libs/DatalensChartkit/modules/data-provider/charts/ui-sandbox-runtime.ts:116-127 | sets the global `context` to the context text; nothing else changes |
| UiSandboxRuntime.Runtime.DefineVmArguments | src/ui/libs/DatalensChartkit/modules/data-provider/charts/ui-sandbox-runtime.ts:129-149 | sets the global `args` to the arguments text; nothing else changes |
| UiSandboxRuntime.Runtime.TrackCallback | src/ui/libs/DatalensChartkit/modules/data-provider/charts/ui-sandbox-runtime.ts:174-175 | `dup` makes a fresh live handle appended to `pending` |
| UiSandboxRuntime.Runtime.NativeArguments | src/ui/libs/DatalensChartkit/modules/data-provider/charts/ui-sandbox-runtime.ts:170-204 | each function argument becomes a callback over a fresh pending handle, the others are passed as dumped; `pending` only grows, by the number of callbacks |
| UiSandboxRuntime.Runtime.AnyPendingAlive | src/ui/libs/DatalensChartkit/modules/data-provider/charts/ui-sandbox-runtime.ts:247 | true exactly when some pending handle is alive |
| UiSandboxRuntime.Runtime.Dispose | src/ui/libs/DatalensChartkit/modules/data-provider/charts/ui-sandbox-runtime.ts:246-251 | the VM and runtime are disposed when no pending handle is alive, and left as they are otherwise |
| UiSandboxRuntime.Runtime.CallbackTimeout | src/ui/libs/DatalensChartkit/modules/data-provider/charts/ui-sandbox-runtime.ts:190-197 | after the call ended the callback's handle is disposed and the VM is torn down once no pending handle is alive; the VM is disposed only then |
| UiSandboxRuntime.FindIndex | src/ui/libs/DatalensChartkit/modules/data-provider/charts/ui-sandbox-runtime.ts:103 | `findIndex`: the first matching line, -1 exactly when none matches |
| UiSandboxRuntime.StartPoint | src/ui/libs/DatalensChartkit/modules/data-provider/charts/ui-sandbox-runtime.ts:102-103 | definition: one past the index of the first `const __fn` line, 0 without one; stated by the two lemmas below |
| UiSandboxRuntime.NoMarkerKeepsLineNumbers | src/ui/libs/DatalensChartkit/modules/data-provider/charts/ui-sandbox-runtime.ts:79-105 | without a `const __fn` line the start point is 0, and canonically printed line numbers are kept |
| UiSandboxRuntime.MarkerSetsStartPoint | src/ui/libs/DatalensChartkit/modules/data-provider/charts/ui-sandbox-runtime.ts:103 | the start point is one past the first `const __fn` line |
| ProcessorSteps.AsArray | src/server/components/charts-engine/components/processor/index.ts:481-486 | a parameter that is not an array is wrapped in a one-element array; an array is kept |
| ProcessorSteps.WrappedParamsPrecedence | src/server/components/charts-engine/components/processor/index.ts:473-486 | every key of the Params tab exports or override is present, the override's value wins over the used one, and every value is an array |
| ProcessorSteps.WrapParams | src/server/components/charts-engine/components/processor/index.ts:481-486 | the loop wraps every non-array parameter and nothing else |
| ProcessorSteps.SyncUsedParams | src/server/components/charts-engine/components/processor/index.ts:490-492 | the loop copies each used parameter's value from `params` |
| ProcessorSteps.SyncedHoldsParams | src/server/components/charts-engine/components/processor/index.ts:490-492 | the used parameters keep their keys and take their values from `params` |
| ProcessorSteps.UpdateParams | src/server/components/charts-engine/components/processor/index.ts:494-500 | definition of the assumed `updateParams`: the override written over each key of both maps |
| ProcessorSteps.LastOverrideWins | src/server/components/charts-engine/components/processor/index.ts:494-792 | after the sequence of `updateParams` calls a key holds the value of the last call that set it |
| ProcessorSteps.UnsetKeyKept | src/server/components/charts-engine/components/processor/index.ts:494-792 | a key no call sets is present exactly when it was, with its original value |
| ProcessorSteps.UiSources | src/server/components/charts-engine/components/processor/index.ts:533-542 | for `uiOnly` the kept sources are exactly the object sources with a truthy `ui`, unchanged |
| ProcessorSteps.FilterUiSources | src/server/components/charts-engine/components/processor/index.ts:533-542 | the loop builds exactly that filtered map |
| ProcessorSteps.BodiesSplitLosslessly | src/server/components/charts-engine/components/processor/index.ts:657-666 | a source's `body` moves into `data` and is deleted from the source; putting it back gives the fetched source |
| ProcessorSteps.SplitBodies | src/server/components/charts-engine/components/processor/index.ts:657-666 | reading `.body` throws a TypeError exactly when some fetched source is null or undefined; otherwise the result is the bodies and the sources without them |
| ProcessorSteps.FetchErrorCode | src/server/components/charts-engine/components/processor/index.ts:598-614 | `ENTRY_FORBIDDEN` exactly for status 403, `ENTRY_NOT_FOUND` exactly for 404, `DATA_FETCHING_ERROR` otherwise |
| ProcessorSteps.FlagsAdd | src/server/components/charts-engine/components/processor/index.ts:625-643 | one more source result sets the three flags as the loop body does |
| ProcessorSteps.ClassifySources | src/server/components/charts-engine/components/processor/index.ts:625-643 | the loop over the source results computes the flags of the whole set |
| ProcessorSteps.FlagsAsWritten | src/server/components/charts-engine/components/processor/index.ts:628-643 | as written, a null or undefined source result makes `sourceResult.code` throw; otherwise the flags are those of the set |
| ProcessorSteps.NullSourceResultThrows | src/server/components/charts-engine/components/processor/index.ts:628-643 | the fetch error `{source: null}` throws as written, while its evident flags are "maybe 500" only |
| ProcessorSteps.Flags | src/server/components/charts-engine/components/processor/index.ts:625-643 | definition of the three flags over the set of source results; `FlagsAdd` is its loop step |
| ProcessorSteps.StatusOfFlags | src/server/components/charts-engine/components/processor/index.ts:645-651 | definition of the status chosen from the flags; stated by `FetchStatusOf` |
| ProcessorSteps.FetchStatusOf | src/server/components/charts-engine/components/processor/index.ts:645-651 | status 400 exactly when some source failed and all with a 4xx status; the size-limit status exactly when not that and some source hit a size limit; 500 otherwise |
| ProcessorSteps.SizeLimitAmongClientErrors | src/server/components/charts-engine/components/processor/index.ts:645-651 | all-4xx results give 400 even when a size limit was hit |
| ProcessorSteps.NoStatusRulesOut400 | src/server/components/charts-engine/components/processor/index.ts:629-635 | a source result without a numeric status rules out 400 |
| ProcessorSteps.FetchFailureResponse | src/server/components/charts-engine/components/processor/index.ts:583-655 | a non-object error or an `Error` instance gives `'Internal fetching error'`; otherwise the code, `details.sources` and status code are as classified |
| ProcessorSteps.FetchFailure | src/server/components/charts-engine/components/processor/index.ts:583-655 | the fetch catch block returns exactly that response |
| ProcessorSteps.UiSchemeControls | src/server/components/charts-engine/components/processor/index.ts:760-773 | the controls are the exports when they are an array, or their `controls` array; nothing else is a UI scheme |
| ProcessorSteps.DisableIfPrivate | src/server/components/charts-engine/components/processor/index.ts:775-779 | a control whose `param` is private gets `disabled: true` and keeps every other field; any other control is unchanged |
| ProcessorSteps.DisablePrivateControls | src/server/components/charts-engine/components/processor/index.ts:775-779 | reading `control.param` throws exactly when some control is null or undefined; otherwise every control is processed in place, in order |
| ProcessorSteps.Redacted | src/server/components/charts-engine/components/processor/index.ts:937-943 | a field is kept exactly when it is not both forbidden and truthy, with its value |
| ProcessorSteps.RedactionIdempotent | src/server/components/charts-engine/components/processor/index.ts:937-943 | removing forbidden fields twice is the same as once |
| ProcessorSteps.RedactedHasNoTruthyForbidden | src/server/components/charts-engine/components/processor/index.ts:937-943 | no forbidden field is left truthy |
| ProcessorSteps.RemoveForbiddenFields | src/server/components/charts-engine/components/processor/index.ts:937-943 | the loop over `forbiddenFields` computes exactly that |
| ProcessorSteps.MergeArrayWithObject | src/server/components/charts-engine/components/processor/index.ts:112-119 | defined exactly for an array and a non-array object; each element is merged with the object, and the length is kept |
| ProcessorSteps.CustomizerBroadcasts | src/server/components/charts-engine/components/processor/index.ts:826-833 | the `mergeWith` customizer answers exactly for an array and an object in either order |
| ProcessorSteps.TaggedLines | src/server/components/charts-engine/components/processor/index.ts:104-107 | each module log line gets `[<module name>]` prepended; a module without logs adds none |
| ProcessorSteps.ModulesLogs | src/server/components/charts-engine/components/processor/index.ts:92-110 | definition of the tagged module log lines in module order; stated by the two lemmas below |
| ProcessorSteps.ModulesLogsAppend | src/server/components/charts-engine/components/processor/index.ts:103-109 | collecting two groups of modules concatenates their lines |
| ProcessorSteps.ModulesLogsTagged | src/server/components/charts-engine/components/processor/index.ts:103-109 | every collected line is a tagged line of some module |
| ProcessorSteps.TagModuleLines | src/server/components/charts-engine/components/processor/index.ts:105-107 | the loop tags every line of one module |
| ProcessorSteps.CollectModulesLogs | src/server/components/charts-engine/components/processor/index.ts:92-110 | the stored module logs are extended by the tagged lines of every module, in order |
| ProcessorSteps.HooksFailure | src/server/components/charts-engine/components/processor/index.ts:338-357 | with a hook error its fields are spread over `code: HOOKS_ERROR`; otherwise the fixed message |
| ProcessorSteps.DepsReason | src/server/components/charts-engine/components/processor/index.ts:384-392 | `access denied` for 403, `not found` for 404, otherwise the truthy stack trace or `internal error` |
| ProcessorSteps.DepsStackTraceText | src/server/components/charts-engine/components/processor/index.ts:370-407 | a non-object error names the required modules; a description is used as is; otherwise the module and the reason |
| ProcessorSteps.DepsFailure | src/server/components/charts-engine/components/processor/index.ts:367-423 | code `DEPS_RESOLVE_ERROR`, stack trace `Error resolving …`, and the status code only when the status is a number |
| ProcessorSteps.SharedFailure | src/server/components/charts-engine/components/processor/index.ts:429-447 | code `RUNTIME_ERROR` with the description `Invalid JSON in Shared tab` |
| ProcessorSteps.CatchResponse | src/server/components/charts-engine/components/processor/index.ts:947-1049 | non-object errors and unknown codes are rethrown; loading, deps and fetching errors pass through; oversize errors get the oversize status; runtime errors carry the tab name, the prepared stack trace and the sources; timeouts get the timeout status |
| ProcessorSteps.CatchAnswersKnownCodes | src/server/components/charts-engine/components/processor/index.ts:983-1030 | a string code is answered exactly when it is one of the eight codes of the switch |
| Processor.UpdateKeepsAgreement | src/server/components/charts-engine/components/processor/index.ts:494-499 | `updateParams` keeps every used parameter equal to the same parameter of `params` |
| Processor.UpdateActionParams | src/server/components/charts-engine/components/processor/index.ts:501-504 | definition of the assumed `updateActionParams`: the override written over each key |
| Processor.ParamsStage | src/server/components/charts-engine/components/processor/index.ts:470-503 | params are the wrapped merge of the tab's exports, the used params and the override, then `updateParams`; used params are synced and agree with params; action params get their own override |
| Processor.BaseResult | src/server/components/charts-engine/components/processor/index.ts:803-813 | the success result has the base keys, and its params are the params together with the transformed action params |
| Processor.ChartExtra | src/server/components/charts-engine/components/processor/index.ts:880-887 | `extra` carries the insights and side markdown, and the export filename when it is truthy |
| Processor.WithChart | src/server/components/charts-engine/components/processor/index.ts:818-889 | with a JS tab the result gains data, config and library config, each merged with its override and stringified |
| Processor.InjectConfigAndParams | src/server/components/charts-engine/components/processor/index.ts:248-285 | key, id and revId fall back to the request's names, type comes from the config, params and action params are overwritten, and every other field is kept |
| Processor.ResponseParamsOmitActionParams | src/server/components/charts-engine/components/processor/index.ts:248-807 | the action params merged into `params` when the result is built do not reach the response, because `injectConfigAndParams` overwrites `params` |
| Processor.NoChartFieldsWithoutJs | src/server/components/charts-engine/components/processor/index.ts:818 | without a JS tab no data, config or library config is set |
| Processor.DisabledControls | src/server/components/charts-engine/components/processor/index.ts:775-779 | every control is processed, none added or dropped |
| Processor.SourcesStage | src/server/components/charts-engine/components/processor/index.ts:514-655 | a thrown Sources tab gives the outer catch's response; a truthy Sources tab error stops before any fetch with exactly the fetch catch's failure for that error; a failed fetch stops with the fetch catch's failure for its error; a fetch happens only after an error-free Sources tab, on its exports filtered for `uiOnly`, and the result is split into bodies and sources |
| Processor.LibraryStage | src/server/components/charts-engine/components/processor/index.ts:669-693 | a truthy library tab error stops with the outer catch's response for that error; otherwise the library config is its exports or `{}`, and `{}` when there is no library tab |
| Processor.ChartStage | src/server/components/charts-engine/components/processor/index.ts:695-749 | a truthy JS tab error stops with the outer catch's response for that error; otherwise returns the Config tab's exports and the error-free JS tab run |
| Processor.UiStage | src/server/components/charts-engine/components/processor/index.ts:751-779 | the UI scheme is null unless the exports are controls; private controls are disabled |
| Processor.Assemble | src/server/components/charts-engine/components/processor/index.ts:794-945 | rejects with a TypeError exactly when there is a UI scheme and the config is a truthy primitive; otherwise succeeds, with the response params the final params, the config the marked config merged with the JS override, no chart fields without a JS tab and no forbidden field left truthy |
| Processor.OverlayMark | src/server/components/charts-engine/components/processor/index.ts:794-795 | with a UI scheme, an object config without a truthy `overlayControls` gains `notOverlayControls: true` and keeps every other field; a truthy primitive config throws a TypeError; any other config is unchanged |
| Processor.UiTail | src/server/components/charts-engine/components/processor/index.ts:751-945 | the UI run is the builder's answer on the params after the JS override; on success its override follows the JS one and the two make the final params, which the response carries; no chart fields without a JS run; no forbidden field left truthy |
| Processor.ScriptOverridesApplied | src/server/components/charts-engine/components/processor/index.ts:742-792 | the params after the JS and UI `updateParams` calls are the script overrides applied in order, one or two of them |
| Processor.ApplyTwo | src/server/components/charts-engine/components/processor/index.ts:742-792 | two `updateParams` calls override in order |
| Processor.TabOrderAfterParams | src/server/components/charts-engine/components/processor/index.ts:458-751 | the tab order starts with the Params tab |
| Processor.TabOrderThroughLibrary | src/server/components/charts-engine/components/processor/index.ts:514-669 | Sources and then the library tab follow the Params tab |
| Processor.LaterTabs | src/server/components/charts-engine/components/processor/index.ts:695-945 | the Config, JS and UI tabs run in order; the JS run is the builder's error-free answer on the given params, and the UI run its answer on the params after the JS override; on success the overrides are the JS tab's (unless `uiOnly`) then the UI tab's, and they make the final params |
| Processor.RunTabs | src/server/components/charts-engine/components/processor/index.ts:514-945 | the tabs after Params run in the source's order, stopping at the first error; a truthy Sources tab error or a failed fetch returns the fetch catch's failure after only the Sources tab, and a truthy library tab error the outer catch's response after the library tab; success means all of them ran and none of the Sources, library and JS tabs reported an error; the JS and UI runs are the builder's answers on the fetched bodies and the current params, and their `updateParams` overrides, in that order, make the final params |
| Processor.Process | src/server/components/charts-engine/components/processor/index.ts:187-1051 | the tabs run in order and all run on success; once meta, hooks, modules and Shared pass, a truthy Params tab error returns the outer catch's response for it after only the Params tab; success means meta, hooks, modules and Shared passed and none of the Params, Sources, library and JS tabs reported an error; `uiOnly` fetches only UI sources and returns no chart fields; the params are the Params tab's merge and override, resolved, then the JS tab's override (skipped for `uiOnly`) and the UI tab's, each taken from the builder's run on the params of that moment; the response params are those final params; no forbidden field is left truthy |
| Processor.ScriptOverridePrecedence | src/server/components/charts-engine/components/processor/index.ts:742-792 | after the Params tab a key set by the UI tab's override takes that value, else one set by the JS tab's override takes that, and any other key keeps its value |

## Left out

- Logs, timings and telemetry of the processor: `stringifyLogs`, the `logs` object and `logs_v2`, `process.hrtime`, `ctx.log` and the telemetry callbacks. These are instrumentation. The NaN and ±Infinity markers are floating point.
- The comments and markdown branches of the processor (`CommentsFetcher`, `renderHTML`). They are foreign calls whose errors are only logged.
- The feature flags `DisableFnAndHtml` and `NoJsonFn`, `isChartWithJSAndHtmlAllowed`, `cleanJSONFn` and the builder type. The model's `stringify` parameter stands for whichever serialiser those flags select.
- The `dlContext` header handling. It is `JSON.parse`/`JSON.stringify` plumbing on request headers.
- `builder.dispose()` in the `finally` block. It is a foreign call.
- Processor.Process: the source does not check errors from the Config and UI tabs, and neither does the model. Only the Params, Sources, library and JS tab errors stop a run.
- Processor.Process: the `body` fields deleted from fetched sources before a later throw are not modelled. The model splits the bodies off as a new map, so a later reader never sees the partial deletion. It also does not model that `resolveParams` shares the `params` object with later tabs.
- Processor.Process: the response fields other than `params`, the chart fields and the redacted ones are stated by `BaseResult`, `WithChart` and `InjectConfigAndParams`, not by its own contract.
- Processor.Assemble: an array or function config is not given the `notOverlayControls` mark of lines 794-795, because the value model gives arrays and functions no properties; the source sets it. Likewise, in the runtime-error branch of the outer catch (line 991) a truthy primitive `executionResult` makes the strict-mode assignment to `executionResult.stackTrace` throw a TypeError, so `process` rejects; `ProcessorSteps.RuntimeStackTrace` reads the stack trace off it instead and `CatchResponse` answers with a runtime-error failure.
- ProcessorSteps.CatchResponse: answers a runtime error whose `executionResult` is a truthy primitive with a failure, where the source throws a TypeError at line 991 and `process` rejects.
- ProcessorSteps.HooksFailure: the `debug.message` of the fixed hooks error is not stated, because `getMessageFromUnknownError` is a parameter.
- ProcessorSteps.DepsFailure: the `debug.message` field is not stated either, for the same reason.
- ProcessorSteps.ClassifySources: the fetch error's values are a set, so the order of `Object.values` and repeated values are not modelled. The three flags do not depend on either.
- Spreads of non-objects are taken as `{}`, and so are `Object.keys` of non-objects. A numeric-text `status` is not coerced by `<` or `===`. `includes` compares values structurally, which is what the compared values (parameter names and texts) need.
- ControlDialog: a control that is not an object is left unchanged. A truthy extra value that is not an object is taken as `{}`.
- HtmlGenerator: DOM creation, `cssText` parsing and `outerHTML` are outside the model. The element is its tag, its attributes in order and its style entries.
- TableRenderer: React elements are represented by what they are built from.
- `getChartData`, `stringifyData` and the `exportEntries` HTTP handler in `src/server/controllers/export-entries.ts`. They are network, file and child-process I/O.
- UiSandboxRuntime: the QuickJS engine is not modelled. A handle is a number in a set of live handles. Only the bookkeeping of `callFunction` is modelled, not its evaluation of code, `getFunctionResult`, the interrupt deadline or `Performance`. The `setTimeout` teardown is the `CallbackTimeout` method, run when the timer fires. `defineVmApi`'s recursion into nested API objects is not modelled.
- HtmlGenerator.AttributeStep: URL-validates every spelling of `background`, `href`, `xlink:href` and `src`, as the corrected half of the first finding below. The source validates only the exact lower-case keys, so a strict run over `{HREF: u}` with an invalid `u` sets the attribute there and fails here.
- HtmlGenerator.SetAttributes: computes the fold of `AttributeStep`, so it shares that departure for upper-case URL attributes.
- HtmlGenerator.BuildElement: builds through `SetAttributes` and shares the same departure.
- HtmlGenerator.GenerateHtml: builds elements through `SetAttributes` and shares the same departure.
- HtmlGenerator.Generate: computes `GenerateHtml` and shares the same departure.
- UiSandboxRuntime.IsFunction: uses the corrected arrow check of the second finding, so `(a, b) => a` counts as a function here and as a plain string in the source.
- UiSandboxRuntime.Runtime.NativeArguments: classifies arguments with `IsFunction`, so a dumped `(a, b) => a` becomes a callback with a fresh pending handle. In the source it is passed as a string and adds no handle, so `dispose` may tear down earlier there.
- ProcessorSteps.FetchFailureResponse: classifies with the corrected `ClassifySources` of the third finding, so a fetch error whose sources hold a null or undefined result gets a 500-class failure. In the source `sourceResult.code` throws in the catch block, the outer catch rethrows the TypeError, and `process` rejects.
- ProcessorSteps.FetchFailure: returns `FetchFailureResponse`, with the same departure for a null source result.
- Processor.SourcesStage: stops with `FetchFailure` after a failed fetch, with the same departure for a null source result.
- Processor.RunTabs: runs `SourcesStage` and shares its departure for a null source result.
- Processor.Process: runs `RunTabs` and shares its departure for a null source result.
- UiSandboxRuntime.ReplaceFirst: inserts `name` literally. JS `replace` with a string pattern expands `$&`, `` $` ``, `$'` and `$$` in the replacement, so a function name containing `$` is not renamed the same way.
- Js.LowerAscii: folds only the ASCII letters. JS `toLowerCase` also folds other letters (U+212A KELVIN SIGN becomes `k`), so the model's case-insensitive tag and attribute allow-list checks reject some non-ASCII spellings the source accepts.
- The Redux thunks of `collectionsStructure` are not modelled. They are SDK network calls plus dispatch.

## Findings

| source | as written | input that shows it | evidently intended | confidence | as-written member | corrected member |
|---|---|---|---|---|---|---|
| src/ui/libs/DatalensChartkit/modules/html-generator/index.ts:93 | The URL-validation check `ATTRS_WITH_REF_VALIDATION.includes(key)` uses the key as written. The allow-list check at line 79 lower-cases it. | attribute `HREF` with a URL that `validateUrl` rejects: it is allowed and never validated | lower-case the key for both checks, so that every allowed spelling of `href`, `src`, `background` and `xlink:href` is validated | not executed | HtmlGenerator.NeedsUrlValidationAsWritten, HtmlGenerator.UpperCaseHrefSkipsValidation | HtmlGenerator.NeedsUrlValidation, HtmlGenerator.UrlsValidated |
| src/ui/libs/DatalensChartkit/modules/data-provider/charts/ui-sandbox-runtime.ts:259 | `value.replace(' ', '')` removes only the first space before looking for `)=>` | `(a, b) => a` is not recognised as a function, so it is passed as a plain string | remove every space (`replace(/ /g, '')`) | not executed | UiSandboxRuntime.IsArrowFunctionAsWritten, UiSandboxRuntime.SecondSpaceHidesArrow | UiSandboxRuntime.IsArrowFunction, UiSandboxRuntime.SpacedArrowRecognised |
| src/server/components/charts-engine/components/processor/index.ts:629-638 | `sourceResult.code` is read unguarded, although line 629 guards `sourceResult && sourceResult.status` | a fetch error `{source: null}` makes the catch block throw a TypeError instead of answering | treat a missing source result as a non-4xx failure without a size-limit code | not executed | ProcessorSteps.FlagsAsWritten, ProcessorSteps.NullSourceResultThrows | ProcessorSteps.ClassifySources, ProcessorSteps.FetchStatusOf |
