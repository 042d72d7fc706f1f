/**
 * `DataSourceSelectable`: the drop-down that lists the available data sources,
 * puts the local cluster first unless it is hidden, check-marks the resolved
 * selection and reports every selection upward.
 *
 * The saved-object fetch, the settings lookup and the host's
 * `getDefaultDataSource` are inputs of `ComponentDidMount`; warnings and
 * calls of `onSelectedDataSources` are appended to the component's `events`.
 */
module Selectable {
  import opened Types
  import opened LabelOrder

  /** A fetched saved object: its id and its optional `attributes.title`. */
  datatype SavedDataSource = SavedDataSource(id: string, title: Option<string>)

  /** Outcome of `getDataSourcesWithFields`. */
  datatype FetchOutcome = Fetched(sources: seq<SavedDataSource>) | FetchFailed

  /** `SelectedDataSourceOption`: a `DataSourceOption` with the widget's `checked` marker. */
  datatype SelectableOption = SelectableOption(id: string, labelText: Option<string>, checked: Option<string>)

  datatype SelectableProps = SelectableProps(
    hideLocalCluster: bool,
    dataSourceFilter: Option<SavedDataSource -> bool>,
    selectedOption: Option<seq<DataSourceOption>>)

  /** The button label that `getLable` resolves, and the warning it raises on the way, if any. */
  datatype LabelOutcome = LabelOutcome(labelText: Option<string>, warning: Option<string>)

  const FetchErrorMessage: string := "Unable to fetch existing data sources"
  const NoDataSourceMessage: string := "No connected data source available."
  const NoSelectionMessage: string := "No connected data source available since there is no selected data source"

  function UnavailableMessage(id: string): string {
    "Data source with id " + id + " is not available"
  }

  const CheckedOn: string := "on"

  // ---------------------------------------------------------------------------
  // Building the option list
  // ---------------------------------------------------------------------------

  predicate Accepts(filter: Option<SavedDataSource -> bool>, s: SavedDataSource) {
    filter.None? || filter.value(s)
  }

  /** `fetched.filter(dataSourceFilter)`, or `fetched` itself when there is no filter. */
  function Accepted(filter: Option<SavedDataSource -> bool>, sources: seq<SavedDataSource>): (r: seq<SavedDataSource>)
    ensures forall s :: multiset(r)[s] == (if Accepts(filter, s) then multiset(sources)[s] else 0)
    ensures filter.None? ==> r == sources
  {
    if |sources| == 0 then []
    else
      assert sources == [sources[0]] + sources[1..];
      (if Accepts(filter, sources[0]) then [sources[0]] else []) + Accepted(filter, sources[1..])
  }

  /** A single source is kept exactly when the filter accepts it. */
  lemma AcceptedSingle(filter: Option<SavedDataSource -> bool>, s: SavedDataSource)
    ensures Accepted(filter, [s]) == if Accepts(filter, s) then [s] else []
  {
    assert [s][1..] == [];
  }

  /** Filtering keeps the fetched order: filtering a concatenation filters each part in turn. */
  lemma {:induction false} AcceptedAppend(filter: Option<SavedDataSource -> bool>, a: seq<SavedDataSource>, b: seq<SavedDataSource>)
    ensures Accepted(filter, a + b) == Accepted(filter, a) + Accepted(filter, b)
  {
    if |a| == 0 {
      assert a + b == b;
    } else {
      assert (a + b)[0] == a[0] && (a + b)[1..] == a[1..] + b;
      AcceptedAppend(filter, a[1..], b);
    }
  }

  /** The option a fetched data source becomes: its id, and its title or "" as label. */
  function AsOption(s: SavedDataSource): (r: DataSourceOption)
    ensures r.id == s.id
    ensures r.labelText.Some?  // never undefined, so the sort can lower-case it
    ensures Truthy(r.labelText) <==> Truthy(s.title)
    ensures Truthy(s.title) ==> r.labelText == s.title
  {
    DataSourceOption(s.id, Some(if Truthy(s.title) then s.title.value else ""))
  }

  function AsOptions(sources: seq<SavedDataSource>): (r: seq<DataSourceOption>)
    ensures |r| == |sources|
    ensures forall i :: 0 <= i < |r| ==> r[i] == AsOption(sources[i])
  {
    seq(|sources|, i requires 0 <= i < |sources| => AsOption(sources[i]))
  }

  /** The fetched, filtered, labelled and sorted options, without the local cluster. */
  function SortedOptions(filter: Option<SavedDataSource -> bool>, fetched: seq<SavedDataSource>): (r: seq<DataSourceOption>)
    ensures multiset(r) == multiset(AsOptions(Accepted(filter, fetched)))
    ensures Sorted(r)
  {
    if |fetched| == 0 then []
    else
      SortByLabelSorted(AsOptions(Accepted(filter, fetched)));
      SortByLabel(AsOptions(Accepted(filter, fetched)))
  }

  /** The option list shown by the widget before the selection is check-marked. */
  function DisplayOptions(props: SelectableProps, fetched: seq<SavedDataSource>): (r: seq<DataSourceOption>)
    ensures multiset(r) == multiset(AsOptions(Accepted(props.dataSourceFilter, fetched)))
                           + (if props.hideLocalCluster then multiset{} else multiset{LocalCluster})
    ensures !props.hideLocalCluster ==> |r| > 0 && r[0] == LocalCluster && Sorted(r[1..])
    ensures props.hideLocalCluster ==> Sorted(r)
  {
    var sorted := SortedOptions(props.dataSourceFilter, fetched);
    if props.hideLocalCluster then sorted else [LocalCluster] + sorted
  }

  /**
   * Options with equal lower-cased labels are listed in the order their sources
   * were fetched (and accepted), because the sort is stable.
   */
  lemma SortedOptionsStable(filter: Option<SavedDataSource -> bool>, fetched: seq<SavedDataSource>, k: string)
    ensures WithKey(SortedOptions(filter, fetched), k) == WithKey(AsOptions(Accepted(filter, fetched)), k)
  {
    if |fetched| > 0 {
      SortByLabelStable(AsOptions(Accepted(filter, fetched)), k);
    }
  }

  lemma AsOptionsMember(sources: seq<SavedDataSource>, o: DataSourceOption)
    requires o in AsOptions(sources)
    ensures exists s :: s in sources && AsOption(s) == o
  {
    var i :| 0 <= i < |AsOptions(sources)| && AsOptions(sources)[i] == o;
    assert sources[i] in sources;
  }

  /** Every fetched source the filter accepts is listed, as `{id, label: title || ''}`. */
  lemma AcceptedSourceListed(filter: Option<SavedDataSource -> bool>, fetched: seq<SavedDataSource>, s: SavedDataSource)
    requires s in fetched && Accepts(filter, s)
    ensures AsOption(s) in SortedOptions(filter, fetched)
  {
    var accepted := Accepted(filter, fetched);
    assert multiset(accepted)[s] > 0;
    assert s in accepted;
    var i :| 0 <= i < |accepted| && accepted[i] == s;
    assert AsOptions(accepted)[i] == AsOption(s);
    assert AsOption(s) in multiset(AsOptions(accepted));
  }

  lemma AcceptedMember(filter: Option<SavedDataSource -> bool>, sources: seq<SavedDataSource>, s: SavedDataSource)
    requires s in Accepted(filter, sources)
    ensures s in sources && Accepts(filter, s)
  {
    assert multiset(Accepted(filter, sources))[s] > 0;
  }

  /** Every listed option comes from a fetched source that the filter accepts. */
  lemma ListedOptionAccepted(filter: Option<SavedDataSource -> bool>, fetched: seq<SavedDataSource>, o: DataSourceOption)
    requires o in SortedOptions(filter, fetched)
    ensures exists s :: s in fetched && Accepts(filter, s) && AsOption(s) == o
  {
    var options := AsOptions(Accepted(filter, fetched));
    assert o in multiset(SortedOptions(filter, fetched));
    assert o in multiset(options);
    AsOptionsMember(Accepted(filter, fetched), o);
    var s :| s in Accepted(filter, fetched) && AsOption(s) == o;
    AcceptedMember(filter, fetched, s);
  }

  /** A source the filter rejects, whose id no other fetched source shares, gets no option. */
  lemma RejectedSourceAbsent(filter: Option<SavedDataSource -> bool>, fetched: seq<SavedDataSource>, s: SavedDataSource)
    requires s in fetched && !Accepts(filter, s)
    requires forall t :: t in fetched && t.id == s.id ==> t == s
    ensures forall o :: o in SortedOptions(filter, fetched) ==> o.id != s.id
  {
    forall o | o in SortedOptions(filter, fetched)
      ensures o.id != s.id
    {
      ListedOptionAccepted(filter, fetched, o);
    }
  }

  /**
   * The local cluster is the first option exactly when it is not hidden; when it
   * is hidden it is not listed at all and there is one option per accepted source.
   * (Saved data sources have non-empty ids; only the local cluster has the id "".)
   */
  lemma LocalClusterFirstIffShown(props: SelectableProps, fetched: seq<SavedDataSource>)
    requires forall s :: s in fetched ==> s.id != ""
    ensures var shown := DisplayOptions(props, fetched);
      && (|shown| > 0 && shown[0] == LocalCluster <==> !props.hideLocalCluster)
      && (props.hideLocalCluster ==> LocalCluster !in shown)
      && |shown| == |Accepted(props.dataSourceFilter, fetched)| + (if props.hideLocalCluster then 0 else 1)
  {
    var sorted := SortedOptions(props.dataSourceFilter, fetched);
    if LocalCluster in sorted {
      ListedOptionAccepted(props.dataSourceFilter, fetched, LocalCluster);
    }
    assert |sorted| == |multiset(sorted)| == |multiset(AsOptions(Accepted(props.dataSourceFilter, fetched)))|;
  }

  // ---------------------------------------------------------------------------
  // Check-marking and the widget's change event
  // ---------------------------------------------------------------------------

  /** Copies every option and adds `checked: 'on'` to those whose id is `id`. */
  function MarkChecked(options: seq<DataSourceOption>, id: string): (r: seq<SelectableOption>)
    ensures |r| == |options|
    ensures forall i :: 0 <= i < |r| ==> r[i].id == options[i].id && r[i].labelText == options[i].labelText
    ensures forall i :: 0 <= i < |r| ==> r[i].checked == (if options[i].id == id then Some(CheckedOn) else None)
    ensures forall i :: 0 <= i < |r| ==> (Truthy(r[i].checked) <==> options[i].id == id)
  {
    seq(|options|, i requires 0 <= i < |options| =>
      SelectableOption(options[i].id, options[i].labelText,
        if options[i].id == id then Some(CheckedOn) else None))
  }

  /** With distinct ids, check-marking leaves at most one option checked. */
  lemma AtMostOneChecked(options: seq<DataSourceOption>, id: string)
    requires forall i, j :: 0 <= i < j < |options| ==> options[i].id != options[j].id
    ensures var marked := MarkChecked(options, id);
      forall i, j :: 0 <= i < j < |marked| && Truthy(marked[i].checked) ==> !Truthy(marked[j].checked)
  {
  }

  function Unchecked(selection: seq<DataSourceOption>): (r: seq<SelectableOption>)
    ensures |r| == |selection|
    ensures forall i :: 0 <= i < |r| ==> AsPlain(r[i]) == selection[i] && r[i].checked.None?
  {
    seq(|selection|, i requires 0 <= i < |selection| =>
      SelectableOption(selection[i].id, selection[i].labelText, None))
  }

  predicate IsChecked(o: SelectableOption) {
    Truthy(o.checked)
  }

  /** `options.find(({ checked }) => checked)`, as an index. */
  function FirstChecked(options: seq<SelectableOption>): (r: Option<nat>)
    ensures r.Some? ==> r.value < |options| && Truthy(options[r.value].checked)
    ensures r.Some? ==> forall j :: 0 <= j < r.value ==> !Truthy(options[j].checked)
    ensures r.None? <==> forall j :: 0 <= j < |options| ==> !Truthy(options[j].checked)
  {
    FindFirst(options, IsChecked)
  }

  /**
   * After a mount that check-marked the resolved id, the widget's first checked
   * option is the first option carrying that id: selecting nothing new keeps the
   * mounted selection.
   */
  lemma FirstCheckedAfterMarking(options: seq<DataSourceOption>, id: string, k: nat)
    requires k < |options| && options[k].id == id
    requires forall j :: 0 <= j < k ==> options[j].id != id
    ensures FirstChecked(MarkChecked(options, id)) == Some(k)
  {
    var marked := MarkChecked(options, id);
    var r := FirstChecked(marked);
    assert Truthy(marked[k].checked);
    assert r.Some? && r.value <= k;
  }

  function AsPlain(o: SelectableOption): DataSourceOption {
    DataSourceOption(o.id, o.labelText)
  }

  // ---------------------------------------------------------------------------
  // Label resolution
  // ---------------------------------------------------------------------------

  predicate SameId(id: string, o: SelectableOption) {
    o.id == id
  }

  /**
   * `getNoSelectedOptionLabel`: the state's selection, then the local cluster,
   * then the first listed option; a warning when none of these exists.
   */
  function NoSelectedOptionLabel(localHidden: bool, stateSelection: seq<SelectableOption>, options: seq<SelectableOption>): (r: LabelOutcome)
    ensures |stateSelection| > 0 ==> r == LabelOutcome(stateSelection[0].labelText, None)
    ensures |stateSelection| == 0 && !localHidden ==> r == LabelOutcome(Some(LocalClusterLabel), None)
    ensures |stateSelection| == 0 && localHidden && |options| > 0 ==> r == LabelOutcome(options[0].labelText, None)
    ensures r.warning.Some? <==> |stateSelection| == 0 && localHidden && |options| == 0
    ensures r.warning.Some? ==> r == LabelOutcome(None, Some(NoSelectionMessage))
  {
    if |stateSelection| > 0 then LabelOutcome(stateSelection[0].labelText, None)
    else if !localHidden then LabelOutcome(Some(LocalClusterLabel), None)
    else if |options| > 0 then LabelOutcome(options[0].labelText, None)
    else LabelOutcome(None, Some(NoSelectionMessage))
  }

  /**
   * `getEmptyIdLabel` as the source writes it: with the local cluster hidden it
   * looks up `selectedOption.id`, where `selectedOption` is the whole state
   * array. An array has no `id`, so the lookup never matches and the first
   * option's label is returned whatever the selection is.
   */
  function EmptyIdLabelAsWritten(localHidden: bool, stateSelection: seq<SelectableOption>, options: seq<SelectableOption>): (r: LabelOutcome)
    ensures !localHidden ==> r == LabelOutcome(Some(LocalClusterLabel), None)
    // the state's selection plays no part: the first option, or a warning when there is none
    ensures localHidden ==>
      r == (if |options| > 0 then LabelOutcome(options[0].labelText, None) else LabelOutcome(None, Some(NoDataSourceMessage)))
  {
    if !localHidden then LabelOutcome(Some(LocalClusterLabel), None)
    else
      var arrayId: Option<string> := None;  // `selectedOption.id` on an array
      match FindFirst(options, (o: SelectableOption) => Some(o.id) == arrayId)
      case Some(_) => LabelOutcome(None, None)  // `selectedOption.label` is undefined too
      case None =>
        if |options| > 0 then LabelOutcome(options[0].labelText, None)
        else LabelOutcome(None, Some(NoDataSourceMessage))
  }

  /**
   * `getEmptyIdLabel` as its comment intends: the local cluster when visible;
   * otherwise the state's selection if it is among the options, else the first
   * option; a warning when there is no option at all.
   */
  function EmptyIdLabel(localHidden: bool, stateSelection: seq<SelectableOption>, options: seq<SelectableOption>): (r: LabelOutcome)
    ensures !localHidden ==> r == LabelOutcome(Some(LocalClusterLabel), None)
    ensures localHidden && |stateSelection| > 0 && (exists i :: 0 <= i < |options| && options[i].id == stateSelection[0].id)
      ==> r == LabelOutcome(stateSelection[0].labelText, None)
    ensures localHidden && (|stateSelection| == 0 || forall i :: 0 <= i < |options| ==> options[i].id != stateSelection[0].id)
      ==> r == (if |options| > 0 then LabelOutcome(options[0].labelText, None) else LabelOutcome(None, Some(NoDataSourceMessage)))
  {
    if !localHidden then LabelOutcome(Some(LocalClusterLabel), None)
    else if |stateSelection| > 0 && FindFirst(options, (o: SelectableOption) => SameId(stateSelection[0].id, o)).Some? then
      LabelOutcome(stateSelection[0].labelText, None)
    else if |options| > 0 then LabelOutcome(options[0].labelText, None)
    else LabelOutcome(None, Some(NoDataSourceMessage))
  }

  /**
   * The code as written labels the button with the first option even when the
   * state's selection, another listed option, is the one selected.
   */
  lemma EmptyIdLabelAsWrittenIgnoresSelection()
    ensures var selection := [SelectableOption("b", Some("Beta"), Some(CheckedOn))];
      var options := [SelectableOption("a", Some("Alpha"), None), SelectableOption("b", Some("Beta"), Some(CheckedOn))];
      && EmptyIdLabelAsWritten(true, selection, options).labelText == Some("Alpha")
      && EmptyIdLabel(true, selection, options).labelText == Some("Beta")
  {
    var selection := [SelectableOption("b", Some("Beta"), Some(CheckedOn))];
    var options := [SelectableOption("a", Some("Alpha"), None), SelectableOption("b", Some("Beta"), Some(CheckedOn))];
    assert options[1].id == selection[0].id;
  }

  /**
   * The code as written and the corrected rule agree except when the local
   * cluster is hidden and the state's selection is listed; there they differ
   * exactly when the selection's label is not the first option's.
   */
  lemma EmptyIdLabelAsWrittenDiffersOnlyOnListedSelection(localHidden: bool, stateSelection: seq<SelectableOption>,
                                                         options: seq<SelectableOption>)
    ensures var listed := localHidden && |stateSelection| > 0
          && exists i :: 0 <= i < |options| && options[i].id == stateSelection[0].id;
      && (!listed ==> EmptyIdLabelAsWritten(localHidden, stateSelection, options) == EmptyIdLabel(localHidden, stateSelection, options))
      && (listed ==> (EmptyIdLabelAsWritten(localHidden, stateSelection, options) == EmptyIdLabel(localHidden, stateSelection, options)
                      <==> stateSelection[0].labelText == options[0].labelText))
  {
  }

  /** The first explicitly supplied option, if `props.selectedOption` has one. */
  function ExplicitSelection(explicit: Option<seq<DataSourceOption>>): Option<DataSourceOption> {
    if explicit.Some? && |explicit.value| > 0 then Some(explicit.value[0]) else None
  }

  /** `getLable`: the label of the selector's button. */
  function ResolveLabel(explicit: Option<seq<DataSourceOption>>, localHidden: bool,
                        stateSelection: seq<SelectableOption>, options: seq<SelectableOption>): (r: LabelOutcome)
    ensures r.warning.Some? ==> r.labelText.None?
    ensures ExplicitSelection(explicit).None? ==> r == NoSelectedOptionLabel(localHidden, stateSelection, options)
    ensures ExplicitSelection(explicit).Some? && ExplicitSelection(explicit).value.id == "" ==>
      r == EmptyIdLabel(localHidden, stateSelection, options)
    ensures ExplicitSelection(explicit).Some? && ExplicitSelection(explicit).value.id != "" && Truthy(ExplicitSelection(explicit).value.labelText) ==>
      r == LabelOutcome(ExplicitSelection(explicit).value.labelText, None)
    ensures ExplicitSelection(explicit).Some? && ExplicitSelection(explicit).value.id != "" && !Truthy(ExplicitSelection(explicit).value.labelText) ==>
      && (r.labelText.Some? ==> exists i :: 0 <= i < |options| && options[i].id == ExplicitSelection(explicit).value.id && options[i].labelText == r.labelText && Truthy(r.labelText))
      && (|options| == 0 ==> r == LabelOutcome(None, None))
      && ((forall i :: 0 <= i < |options| ==> options[i].id != ExplicitSelection(explicit).value.id) && |options| > 0 ==>
            r == LabelOutcome(None, Some(UnavailableMessage(ExplicitSelection(explicit).value.id))))
    // the first listed option with that id supplies its label, or the id is reported unavailable
    ensures ExplicitSelection(explicit).Some? && ExplicitSelection(explicit).value.id != "" && !Truthy(ExplicitSelection(explicit).value.labelText) ==>
      var id := ExplicitSelection(explicit).value.id;
      forall i :: 0 <= i < |options| && options[i].id == id && (forall j :: 0 <= j < i ==> options[j].id != id) ==>
        r == (if Truthy(options[i].labelText) then LabelOutcome(options[i].labelText, None)
              else LabelOutcome(None, Some(UnavailableMessage(id))))
  {
    match ExplicitSelection(explicit)
    case None => NoSelectedOptionLabel(localHidden, stateSelection, options)
    case Some(selected) =>
      if selected.id == "" then EmptyIdLabel(localHidden, stateSelection, options)
      else if Truthy(selected.labelText) then LabelOutcome(selected.labelText, None)
      else if |options| > 0 then
        match FindFirst(options, (o: SelectableOption) => SameId(selected.id, o))
        case Some(i) =>
          if Truthy(options[i].labelText) then LabelOutcome(options[i].labelText, None)
          else LabelOutcome(None, Some(UnavailableMessage(selected.id)))
        case None => LabelOutcome(None, Some(UnavailableMessage(selected.id)))
      else LabelOutcome(None, None)
  }

  /** Every label the button can show is the label of a candidate it was given. */
  lemma ResolvedLabelHasSource(explicit: Option<seq<DataSourceOption>>, localHidden: bool,
                               stateSelection: seq<SelectableOption>, options: seq<SelectableOption>)
    ensures var r := ResolveLabel(explicit, localHidden, stateSelection, options);
      r.labelText.Some? ==>
        || r.labelText == Some(LocalClusterLabel)
        || (ExplicitSelection(explicit).Some? && r.labelText == ExplicitSelection(explicit).value.labelText)
        || (exists o :: o in stateSelection && o.labelText == r.labelText)
        || (exists o :: o in options && o.labelText == r.labelText)
  {
    var r := ResolveLabel(explicit, localHidden, stateSelection, options);
    if r.labelText.Some? && ExplicitSelection(explicit).Some? {
      var selected := ExplicitSelection(explicit).value;
      if selected.id == "" && localHidden {
        if |options| > 0 && r.labelText == options[0].labelText {
          assert options[0] in options;
        } else {
          assert stateSelection[0] in stateSelection;
        }
      } else if selected.id != "" && !Truthy(selected.labelText) {
        var i :| 0 <= i < |options| && options[i].labelText == r.labelText;
        assert options[i] in options;
      }
    } else if r.labelText.Some? {
      if |stateSelection| > 0 {
        assert stateSelection[0] in stateSelection;
      } else if localHidden {
        assert options[0] in options;
      }
    }
  }

  // ---------------------------------------------------------------------------
  // The component
  // ---------------------------------------------------------------------------

  class DataSourceSelectable {
    const props: SelectableProps

    var dataSourceOptions: seq<SelectableOption>
    var isPopoverOpen: bool
    var selectedOption: seq<SelectableOption>
    var defaultDataSource: Option<string>
    var isMounted: bool
    var events: seq<Event>

    constructor (props: SelectableProps)
      ensures this.props == props
      ensures dataSourceOptions == [] && !isPopoverOpen && selectedOption == []
      ensures defaultDataSource == None && !isMounted && events == []
    {
      this.props := props;
      dataSourceOptions := [];
      isPopoverOpen := false;
      selectedOption := [];
      defaultDataSource := None;
      isMounted := false;
      events := [];
    }

    method ComponentWillUnmount()
      modifies this`isMounted
      ensures !isMounted
    {
      isMounted := false;
    }

    method OnClick()
      modifies this`isPopoverOpen
      ensures isPopoverOpen == !old(isPopoverOpen)
    {
      isPopoverOpen := !isPopoverOpen;
    }

    method ClosePopover()
      modifies this`isPopoverOpen
      ensures !isPopoverOpen
    {
      isPopoverOpen := false;
    }

    /**
     * `componentDidMount`. `fetch` is what `getDataSourcesWithFields` produced,
     * `uiDefault` the `defaultDataSource` setting, `resolved` what
     * `getDefaultDataSource` returned, and `unmountedMeanwhile` whether the
     * component was unmounted while the fetch was pending.
     */
    method ComponentDidMount(fetch: FetchOutcome, uiDefault: Option<string>, resolved: seq<DataSourceOption>,
                             unmountedMeanwhile: bool)
      modifies this`dataSourceOptions, this`selectedOption, this`defaultDataSource, this`isMounted, this`events
      ensures isMounted == !unmountedMeanwhile
      ensures fetch.FetchFailed? ==>
        && dataSourceOptions == old(dataSourceOptions) && selectedOption == old(selectedOption)
        && defaultDataSource == old(defaultDataSource)
        && events == old(events) + [Warning(FetchErrorMessage)]
      ensures fetch.Fetched? && |resolved| == 0 ==>
        && dataSourceOptions == old(dataSourceOptions) && selectedOption == old(selectedOption)
        && defaultDataSource == old(defaultDataSource)
        && events == old(events) + [Warning(NoDataSourceMessage)]
      ensures fetch.Fetched? && |resolved| > 0 && unmountedMeanwhile ==>
        && dataSourceOptions == old(dataSourceOptions) && selectedOption == old(selectedOption)
        && defaultDataSource == old(defaultDataSource) && events == old(events)
      ensures fetch.Fetched? && |resolved| > 0 && !unmountedMeanwhile ==>
        && dataSourceOptions == MarkChecked(DisplayOptions(props, fetch.sources), resolved[0].id)
        && selectedOption == Unchecked(resolved)
        && defaultDataSource == uiDefault
        && events == old(events) + [Reported(resolved)]
    {
      isMounted := true;
      // the fetch is awaited here; the component may be unmounted meanwhile
      if unmountedMeanwhile {
        isMounted := false;
      }
      match fetch
      case FetchFailed =>
        events := events + [Warning(FetchErrorMessage)];
      case Fetched(sources) =>
        var options := SortedOptions(props.dataSourceFilter, sources);
        if !props.hideLocalCluster {
          options := [LocalCluster] + options;  // unshift
        }
        assert options == DisplayOptions(props, sources);
        if |resolved| == 0 {
          events := events + [Warning(NoDataSourceMessage)];
        } else {
          var updated := MarkChecked(options, resolved[0].id);
          if !isMounted {
            return;
          }
          dataSourceOptions, selectedOption, defaultDataSource := updated, Unchecked(resolved), uiDefault;
          events := events + [Reported(resolved)];
        }
    }

    /** `onChange`: the widget hands back the whole option list with the new check marks. */
    method OnChange(options: seq<SelectableOption>)
      modifies this`dataSourceOptions, this`selectedOption, this`events
      ensures !isMounted ==>
        dataSourceOptions == old(dataSourceOptions) && selectedOption == old(selectedOption) && events == old(events)
      ensures isMounted ==> dataSourceOptions == options
      ensures isMounted && FirstChecked(options).None? ==>
        selectedOption == old(selectedOption) && events == old(events)
      ensures isMounted && FirstChecked(options).Some? ==>
        var chosen := options[FirstChecked(options).value];
        selectedOption == [chosen] && events == old(events) + [Reported([AsPlain(chosen)])]
    {
      if !isMounted {
        return;
      }
      var found := FirstChecked(options);
      dataSourceOptions := options;
      if found.Some? {
        var chosen := options[found.value];
        selectedOption := [chosen];
        events := events + [Reported([AsPlain(chosen)])];
      }
    }

    /** `getLable`, called on every render; a warning it raises is delivered. */
    method GetLabel() returns (labelText: Option<string>)
      modifies this`events
      ensures var r := ResolveLabel(props.selectedOption, props.hideLocalCluster, selectedOption, dataSourceOptions);
        && labelText == r.labelText
        && events == old(events) + (if r.warning.Some? then [Warning(r.warning.value)] else [])
    {
      var r := ResolveLabel(props.selectedOption, props.hideLocalCluster, selectedOption, dataSourceOptions);
      labelText := r.labelText;
      if r.warning.Some? {
        events := events + [Warning(r.warning.value)];
      }
    }
  }

  /**
   * A mount that resolves to a listed data source followed by a change event
   * that hands back the mounted list reports the same data source again.
   */
  method MountThenReselect(props: SelectableProps, sources: seq<SavedDataSource>, resolved: DataSourceOption, k: nat)
    returns (mounted: seq<SelectableOption>, reported: seq<Event>)
    requires k < |DisplayOptions(props, sources)| && DisplayOptions(props, sources)[k] == resolved
    requires forall j :: 0 <= j < k ==> DisplayOptions(props, sources)[j].id != resolved.id
    ensures |mounted| == |DisplayOptions(props, sources)|
    ensures forall i :: 0 <= i < |mounted| ==> (Truthy(mounted[i].checked) <==> mounted[i].id == resolved.id)
    ensures reported == [Reported([resolved]), Reported([resolved])]
  {
    ghost var display := DisplayOptions(props, sources);
    var selector := new DataSourceSelectable(props);
    selector.ComponentDidMount(Fetched(sources), None, [resolved], false);
    mounted := selector.dataSourceOptions;
    assert mounted == MarkChecked(display, resolved.id);
    assert selector.events == [Reported([resolved])];
    FirstCheckedAfterMarking(display, resolved.id, k);
    assert AsPlain(mounted[k]) == resolved;
    selector.OnChange(mounted);
    reported := selector.events;
  }
}
