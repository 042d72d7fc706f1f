# Data source selector and view — a Dafny model

This project models the selection and label-resolution policy of two
components of the data-source management plugin of OpenSearch Dashboards.

- **`DataSourceSelectable`** is the drop-down selector. On mount it fetches
  the data sources and applies the optional `dataSourceFilter`. Each source
  becomes an option `{id, label: title || ''}`. The options are sorted by
  lower-cased label, and the local-cluster option (id `""`) is put first
  unless `hideLocalCluster` is set. The selection resolved by the host is
  check-marked with `checked: 'on'` and reported through
  `onSelectedDataSources`. The widget's change event makes the first checked
  option the new single selection. `getLable` resolves the button label from
  the explicit selection, then the state's selection, then the local cluster,
  then the first option, and warns when nothing is left.
- **`DataSourceView`** is the read-only view. On mount it resolves the
  supplied selection in one of four ways:
  - the local cluster, when it is shown;
  - nothing, when the local cluster is hidden or the filter rejects every
    supplied option;
  - a title looked up by id, when the option has no label;
  - the option as given, when it already has a label.

  A failed lookup hands over to the host's error handler, passing it
  `onError` and `handleSwitchDefaultDatasource`. The model assumes that
  handler puts the view in an error state through `onError`; from there the
  user can switch to the configured default (`handleSwitchDefaultDatasource`).

Files:
- `types.dfy`: the shared values (`DataSourceOption`, the local-cluster
  sentinel, the event log, `Array.prototype.find`).
- `label_order.dfy`: the case-insensitive label order and the stable sort.
- `selectable.dfy`: the selector, as pure functions plus the class
  `DataSourceSelectable`.
- `view.dfy`: the view, as pure functions plus the class `DataSourceView`.

How the host's side is modelled:
- **Component state** is a Dafny class. The props are a `const` record, and
  the state fields are `var`s that the lifecycle methods and handlers assign.
  `setState` is taken as immediate.
- **Asynchronous inputs** become parameters:
  - the saved-object fetch outcome (`FetchOutcome`);
  - the by-id lookup outcome (`Lookup`);
  - the `defaultDataSource` UI setting (`uiDefault`);
  - whether the component was unmounted while an `await` was pending
    (`unmountedMeanwhile`).
- **Effects on the outside world** are appended, in order, to the `events`
  field. These are warnings (`notifications.addWarning`), calls of
  `onSelectedDataSources`, and calls of the host's error handler.
- **JavaScript truthiness** of an optional string is `Truthy` (present and
  not `""`). `undefined`/`null` is `None`.

Four behaviours of the code that the model follows exactly:
- `getLable` gives no label and raises no warning when the selection has an
  id but no label and the option list is empty
  (data_source_selectable.tsx:237). It warns only when the list is non-empty
  but the id is missing from it or has no label.
- Only distinct ids make "at most one option is checked" hold. Check-marking
  (data_source_selectable.tsx:127-132) marks every option with the resolved
  id (`AtMostOneChecked`).
- A failed lookup in the view always invokes the error handler. `[]` is
  reported only when no default is configured
  (data_source_view.tsx:117-134).
- The view's failed-lookup path has no mounted check. A lookup that fails
  after unmounting still updates the stored default.

## Model

| member | source | states |
|---|---|---|
| `Types.FindFirst` | src/plugins/data_source_management/public/components/data_source_selectable/data_source_selectable.tsx:156 | `find`: the index returned is the first element satisfying the predicate; none is returned exactly when no element satisfies it |
| `Selectable.Accepted` | src/plugins/data_source_management/public/components/data_source_selectable/data_source_selectable.tsx:97-100 | every fetched source the filter accepts is kept as often as it was fetched, rejected ones are dropped; with no filter all sources are kept in order |
| `Selectable.AcceptedSingle` | src/plugins/data_source_management/public/components/data_source_selectable/data_source_selectable.tsx:98-99 | a single source is kept exactly when the filter accepts it |
| `Selectable.AcceptedAppend` | src/plugins/data_source_management/public/components/data_source_selectable/data_source_selectable.tsx:97-100 | filtering keeps the fetched order: filtering a concatenation is filtering each part and concatenating the results |
| `Selectable.SortedOptions` | src/plugins/data_source_management/public/components/data_source_selectable/data_source_selectable.tsx:97-107 | the non-local options are a permutation of the accepted sources mapped to `{id, title or ''}`, non-decreasing by lower-cased label |
| `Selectable.AsOption` | src/plugins/data_source_management/public/components/data_source_selectable/data_source_selectable.tsx:102-105 | an option keeps its source's id; its label is always a string, the title when the title is non-empty and a falsy label otherwise |
| `Selectable.DisplayOptions` | src/plugins/data_source_management/public/components/data_source_selectable/data_source_selectable.tsx:97-112 | the shown list holds exactly the accepted options plus, unless hidden, the local cluster in front; after the local cluster it is sorted by lower-cased label |
| `Selectable.AcceptedSourceListed` | src/plugins/data_source_management/public/components/data_source_selectable/data_source_selectable.tsx:97-105 | every fetched source the filter accepts appears as the option `{id, label: title or ''}` |
| `Selectable.ListedOptionAccepted` | src/plugins/data_source_management/public/components/data_source_selectable/data_source_selectable.tsx:97-105 | every listed option comes from a fetched source the filter accepts |
| `Selectable.RejectedSourceAbsent` | src/plugins/data_source_management/public/components/data_source_selectable/data_source_selectable.tsx:97-105 | a rejected source whose id no other source shares has no option with its id |
| `Selectable.LocalClusterFirstIffShown` | src/plugins/data_source_management/public/components/data_source_selectable/data_source_selectable.tsx:109-112 | the local cluster is option 0 iff it is not hidden; when hidden it is absent and the list has one option per accepted source |
| `LabelOrder.Lower` | src/plugins/data_source_management/public/components/data_source_selectable/data_source_selectable.tsx:106 | lower-casing keeps the length, leaves no upper-case ASCII letter and changes only upper-case letters, each to its lower-case form |
| `LabelOrder.LexLeReflexive` | src/plugins/data_source_management/public/components/data_source_selectable/data_source_selectable.tsx:106 | the label comparator is reflexive |
| `LabelOrder.LexLeTotal` | src/plugins/data_source_management/public/components/data_source_selectable/data_source_selectable.tsx:106 | the label comparator is total |
| `LabelOrder.LexLeTransitive` | src/plugins/data_source_management/public/components/data_source_selectable/data_source_selectable.tsx:106 | the label comparator is transitive |
| `LabelOrder.LexLeAntisymmetric` | src/plugins/data_source_management/public/components/data_source_selectable/data_source_selectable.tsx:106 | two lower-cased labels that compare both ways are equal |
| `LabelOrder.Insert` | src/plugins/data_source_management/public/components/data_source_selectable/data_source_selectable.tsx:106 | inserting into the sorted list adds exactly the inserted option |
| `LabelOrder.InsertSorted` | src/plugins/data_source_management/public/components/data_source_selectable/data_source_selectable.tsx:106 | insertion keeps a list non-decreasing by lower-cased label |
| `LabelOrder.SortByLabel` | src/plugins/data_source_management/public/components/data_source_selectable/data_source_selectable.tsx:106 | sorting is a permutation of its input |
| `LabelOrder.SortByLabelSorted` | src/plugins/data_source_management/public/components/data_source_selectable/data_source_selectable.tsx:106 | after sorting, each option compares less than or equal to its successor |
| `LabelOrder.SortedChain` | src/plugins/data_source_management/public/components/data_source_selectable/data_source_selectable.tsx:106 | in a sorted list every earlier option compares less than or equal to every later one |
| `LabelOrder.SortedPairwise` | src/plugins/data_source_management/public/components/data_source_selectable/data_source_selectable.tsx:106 | the same, for all pairs of positions at once |
| `LabelOrder.InsertWithKey` | src/plugins/data_source_management/public/components/data_source_selectable/data_source_selectable.tsx:106 | insertion puts an option before every option with the same lower-cased label |
| `LabelOrder.SortByLabelStable` | src/plugins/data_source_management/public/components/data_source_selectable/data_source_selectable.tsx:106 | sorting is stable: options with equal lower-cased labels keep their relative order |
| `Selectable.SortedOptionsStable` | src/plugins/data_source_management/public/components/data_source_selectable/data_source_selectable.tsx:97-106 | in the listed options, those with equal lower-cased labels appear in the order their sources were fetched |
| `Selectable.MarkChecked` | src/plugins/data_source_management/public/components/data_source_selectable/data_source_selectable.tsx:127-132 | an option carries `checked: 'on'` iff its id is the resolved selection's id and no marker otherwise; ids, labels and order are unchanged |
| `Selectable.AtMostOneChecked` | src/plugins/data_source_management/public/components/data_source_selectable/data_source_selectable.tsx:127-132 | with distinct ids at most one option is checked |
| `Selectable.Unchecked` | src/plugins/data_source_management/public/components/data_source_selectable/data_source_selectable.tsx:139 | the stored selection holds the resolved options, each with its id and label unchanged and no check mark |
| `Selectable.FirstChecked` | src/plugins/data_source_management/public/components/data_source_selectable/data_source_selectable.tsx:156 | the option taken by `onChange` is checked and no earlier one is; none is taken iff no option is checked |
| `Selectable.FirstCheckedAfterMarking` | src/plugins/data_source_management/public/components/data_source_selectable/data_source_selectable.tsx:127-156 | on a freshly marked list, `onChange` finds the first option carrying the resolved id |
| `Selectable.DataSourceSelectable.constructor` | src/plugins/data_source_management/public/components/data_source_selectable/data_source_selectable.tsx:59-70 | no options, no selection, popover closed, no default, not mounted, nothing emitted |
| `Selectable.DataSourceSelectable.ComponentWillUnmount` | src/plugins/data_source_management/public/components/data_source_selectable/data_source_selectable.tsx:72-74 | clears the mounted flag |
| `Selectable.DataSourceSelectable.OnClick` | src/plugins/data_source_management/public/components/data_source_selectable/data_source_selectable.tsx:76-78 | toggles the popover flag, nothing else |
| `Selectable.DataSourceSelectable.ClosePopover` | src/plugins/data_source_management/public/components/data_source_selectable/data_source_selectable.tsx:80-82 | closes the popover, nothing else |
| `Selectable.DataSourceSelectable.ComponentDidMount` | src/plugins/data_source_management/public/components/data_source_selectable/data_source_selectable.tsx:84-152 | a failed fetch only warns; an empty resolution only warns; an unmount during the fetch changes nothing; otherwise the options become the marked display list, the selection and default are stored and exactly the resolved selection is reported |
| `Selectable.DataSourceSelectable.OnChange` | src/plugins/data_source_management/public/components/data_source_selectable/data_source_selectable.tsx:154-169 | no effect when unmounted; otherwise stores the options, and if some option is checked the first one becomes the only selection and is reported as `[{id, label}]`; otherwise selection and log are untouched |
| `Selectable.MountThenReselect` | src/plugins/data_source_management/public/components/data_source_selectable/data_source_selectable.tsx:123-169 | after a mount that resolves to a listed source, exactly that id is checked, and handing the list back to `onChange` reports the same source again |
| `Selectable.NoSelectedOptionLabel` | src/plugins/data_source_management/public/components/data_source_selectable/data_source_selectable.tsx:195-216 | the label falls back from the state's selection to the local cluster (when shown) to the first option; it warns exactly when all three are missing |
| `Selectable.EmptyIdLabel` | src/plugins/data_source_management/public/components/data_source_selectable/data_source_selectable.tsx:171-193 | local cluster label when shown; when hidden, the state selection's label if its id is listed, otherwise the first option's, otherwise a warning |
| `Selectable.EmptyIdLabelAsWritten` | src/plugins/data_source_management/public/components/data_source_selectable/data_source_selectable.tsx:171-193 | as written: the local cluster when shown; when hidden, the first option's label whatever the state's selection, or a warning when there is no option |
| `Selectable.EmptyIdLabelAsWrittenIgnoresSelection` | src/plugins/data_source_management/public/components/data_source_selectable/data_source_selectable.tsx:183-184 | the code as written labels the button with the first option even though a different listed option is selected |
| `Selectable.EmptyIdLabelAsWrittenDiffersOnlyOnListedSelection` | src/plugins/data_source_management/public/components/data_source_selectable/data_source_selectable.tsx:178-193 | the code as written and the corrected rule give the same outcome unless the local cluster is hidden and the state's selection is listed; then they differ exactly when its label is not the first option's |
| `Selectable.ResolveLabel` | src/plugins/data_source_management/public/components/data_source_selectable/data_source_selectable.tsx:218-252 | an explicit selection with id and label wins; id `""` defers to the empty-id rule; no explicit selection defers to the fallback chain; an unlabelled id takes the label of the first listed option with that id when that label is non-empty, and otherwise, or when no option has that id, warns that the id is unavailable; with no options there is neither label nor warning; a warning never comes with a label |
| `Selectable.ResolvedLabelHasSource` | src/plugins/data_source_management/public/components/data_source_selectable/data_source_selectable.tsx:218-252 | every label shown is the local cluster's or the label of the explicit selection, the state selection or a listed option |
| `Selectable.DataSourceSelectable.GetLabel` | src/plugins/data_source_management/public/components/data_source_selectable/data_source_selectable.tsx:218-254 | returns the resolved label and delivers its warning, if any |
| `View.FilteredDefault` | src/plugins/data_source_management/public/components/data_source_view/data_source_view.tsx:155-163 | a null or empty default is returned unchanged; otherwise the default is kept when there is no filter or the filter accepts `{id}`, and dropped otherwise |
| `View.FilteredDefaultIdempotent` | src/plugins/data_source_management/public/components/data_source_view/data_source_view.tsx:155-163 | filtering the default twice is filtering it once |
| `View.MountEffectOf` | src/plugins/data_source_management/public/components/data_source_view/data_source_view.tsx:69-142 | local cluster shown: select and report `[LocalCluster]`; hidden or filtered out: select and report `[]`; lookup success: select and report `[{id, title}]` unless unmounted; lookup failure: `[]` reported only without a default, filtered default stored, error handler invoked; labelled option reported unchanged, selection untouched |
| `View.ReportsOnlySuppliedId` | src/plugins/data_source_management/public/components/data_source_view/data_source_view.tsx:69-142 | every report is empty or the single option carrying the supplied id |
| `View.ErrorPathIffLookupFailed` | src/plugins/data_source_management/public/components/data_source_view/data_source_view.tsx:103-134 | the error handler is invoked iff the label had to be looked up and the lookup failed |
| `View.ReportAgreesWithShownSelection` | src/plugins/data_source_management/public/components/data_source_view/data_source_view.tsx:78-141 | off the error path, with one supplied option, what is reported is exactly the selection the view then shows |
| `View.RenderOf` | src/plugins/data_source_management/public/components/data_source_view/data_source_view.tsx:186-207 | in the error state the panel names the supplied id (rendering throws when no option was supplied) and shows the switch button iff a default is stored; otherwise the label is the first selected label or `''` and every displayed option mirrors the selection, checked `'on'` and disabled |
| `View.DataSourceView.Render` | src/plugins/data_source_management/public/components/data_source_view/data_source_view.tsx:186-207 | in the error state with a supplied option, the error panel for that id with the switch button iff a default is stored; otherwise the popover with the current open flag, one item per selected option and the first selected label on the button |
| `View.DataSourceView.constructor` | src/plugins/data_source_management/public/components/data_source_view/data_source_view.tsx:54-64 | the selection starts as the supplied one; popover closed, no error, no default, not mounted |
| `View.DataSourceView.ComponentWillUnmount` | src/plugins/data_source_management/public/components/data_source_view/data_source_view.tsx:66-68 | clears the mounted flag |
| `View.DataSourceView.ComponentDidMount` | src/plugins/data_source_management/public/components/data_source_view/data_source_view.tsx:69-142 | the new selection, stored default and emitted events are those of `MountEffectOf`; the component stays mounted unless it was unmounted during the lookup |
| `View.DataSourceView.OnError` | src/plugins/data_source_management/public/components/data_source_view/data_source_view.tsx:144-146 | sets the error flag, nothing else |
| `View.DataSourceView.OnClick` | src/plugins/data_source_management/public/components/data_source_view/data_source_view.tsx:148-150 | toggles the popover flag, nothing else |
| `View.DataSourceView.ClosePopover` | src/plugins/data_source_management/public/components/data_source_view/data_source_view.tsx:152-154 | closes the popover, nothing else |
| `View.DataSourceView.HandleSwitchDefaultDatasource` | src/plugins/data_source_management/public/components/data_source_view/data_source_view.tsx:168-184 | on a successful lookup the selection becomes `[{defaultId, title}]`, the error and the popover are cleared and exactly that option is reported; a failed lookup changes nothing |
| `View.RecoverWithDefault` | src/plugins/data_source_management/public/components/data_source_view/data_source_view.tsx:117-197 | an unlabelled id whose lookup fails, with a default configured, shows the error panel with the switch button; switching shows the default's title and reports it |

## Findings

| source | as written | input that shows it | evidently intended | confidence | as-written member | corrected member |
|---|---|---|---|---|---|---|
| src/plugins/data_source_management/public/components/data_source_selectable/data_source_selectable.tsx:184 | `getEmptyIdLabel` compares each option's id with `selectedOption.id`, where `selectedOption` is the state's selection ARRAY. An array has no `id`, so the comparison never holds and the first option's label is always returned | local cluster hidden, state selection `[{id:'b', label:'Beta'}]`, options `[{id:'a', label:'Alpha'}, {id:'b', label:'Beta'}]`: the button shows `Alpha` | compare with `selectedOption[0].id` and return `selectedOption[0].label`, so the selected data source's own label is shown; the corrected member also guards an empty state selection, which then falls through to the first option instead of throwing | not executed; high | `Selectable.EmptyIdLabelAsWrittenIgnoresSelection` and `Selectable.EmptyIdLabelAsWrittenDiffersOnlyOnListedSelection` (on `Selectable.EmptyIdLabelAsWritten`) | `Selectable.EmptyIdLabel` |

`ResolveLabel`, and through it `GetLabel`, uses the corrected `EmptyIdLabel`.

## Left out

- `Selectable.ResolveLabel`: uses the corrected `EmptyIdLabel`, so neither it nor `Selectable.DataSourceSelectable.GetLabel` models `getLable` exactly as written when the explicit id is `""` and the local cluster is hidden; `Selectable.EmptyIdLabelAsWritten` holds the as-written rule.
- The JSX markup, the EUI widgets (popover, selectable list, search box), CSS and i18n. This is presentation owned by the widget library. The Default badge of the selector's option renderer (data_source_selectable.tsx:301) and the button's `disabled` prop (data_source_selectable.tsx:268) are also left out.
- `getDataSourcesWithFields` and `getDataSourceById` (saved-object I/O). Their outcomes are the `FetchOutcome` and `Lookup` parameters.
- `getDefaultDataSource`. Its source is not part of this model, so its result is the `resolved` parameter of the selector's mount.
- `handleDataSourceViewErrorWithSwitchToDefaultOption`. Its source is not part of this model either, so its call is logged as `ErrorHandlerInvoked`. `RecoverWithDefault` takes it to call `onError`.
- The text of the local-cluster label. The constant is defined in a file that is not part of this model, and `"Local cluster"` stands in for it.
- `localeCompare` and Unicode `toLowerCase`. The order is lexicographic on ASCII-lower-cased labels. Locale collation, accents and non-ASCII case folding are not modelled.
- React's batched and asynchronous `setState`. State updates are immediate and sequential. In particular the view's error path reads `this.state.defaultDataSource` right after `setState` (data_source_view.tsx:129-130). Here it reads the filtered default, whereas under batching it could still read the old value.
- Other async scheduling: interleavings other than "unmounted while the one await was pending". The rejection of an `async` handler is modelled as "no further effect".
- `console.log` calls, toast delivery and the text of the error appended to one warning (data_source_selectable.tsx:211). Only the warning's fixed message is recorded.
- The selector's `catch` also catches exceptions thrown by `getDefaultDataSource` or by the callback. Only the fetch failure is modelled.
- The view's `try` (data_source_view.tsx:104-116) also covers the success path's `setState` and the `onSelectedDataSources` call; an exception thrown there takes the error path (data_source_view.tsx:117-134). Only the failed lookup leads there in the model.
- The selector's `dataSourceFilter` is given the whole saved object, including the `auth.type` field fetched at data_source_selectable.tsx:94. In the model the filter sees only the id and the title, so a filter on the authentication type is not expressible.
- `View.DataSourceView.HandleSwitchDefaultDatasource`: takes the default id as a non-null string. The source's `defaultDataSourceId!` is documented to be non-null because the switch button is shown only when a default is stored. A call with `null` is not modelled.
- `View.DataSourceView.HandleSwitchDefaultDatasource`: the `!` on a missing `onSelectedDataSources` throws after the state update. This is modelled as "no report".
- `showEmptyState` is kept as a field but never changes, as in the source.
- The menu dispatcher and its snapshot tests (`data_source_menu.test.tsx`), and the plugin's re-exports (`index.ts`). These are markup and module plumbing with no selection logic.
