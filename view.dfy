/**
 * `DataSourceView`: shows one pre-selected data source read-only. On mount it
 * resolves the label of the selection (the local cluster, nothing, a label
 * fetched by id, or the label already given), reports the resolved selection
 * upward, and on a failed lookup enters an error state from which the user may
 * switch to the configured default data source.
 *
 * The by-id lookup and the `defaultDataSource` setting are inputs; calls of
 * `onSelectedDataSources` and of the host's error handler are appended to the
 * component's `events`.
 */
module View {
  import opened Types

  datatype ViewProps = ViewProps(
    selectedOption: seq<DataSourceOption>,
    hideLocalCluster: bool,
    dataSourceFilter: Option<DataSourceOption -> bool>,
    hasSelectionCallback: bool)  // whether `onSelectedDataSources` was supplied

  /** `selectedOption.filter(dataSourceFilter).length === 0`. */
  predicate RejectsAll(filter: DataSourceOption -> bool, options: seq<DataSourceOption>) {
    forall o :: o in options ==> !filter(o)
  }

  /**
   * `getFilteredDefaultDataSource`: the configured default, unless a filter
   * rejects the option `{ id: default }`, in which case there is none.
   */
  function FilteredDefault(filter: Option<DataSourceOption -> bool>, configured: Option<string>): (r: Option<string>)
    ensures r == configured || r.None?
    ensures !Truthy(configured) ==> r == configured
    ensures Truthy(r) ==> filter.None? || filter.value(DataSourceOption(r.value, None))
    ensures Truthy(configured) && (filter.None? || filter.value(DataSourceOption(configured.value, None))) ==> r == configured
  {
    if !Truthy(configured) then configured
    else if filter.None? then configured
    else if filter.value(DataSourceOption(configured.value, None)) then configured
    else None
  }

  /** Filtering the default twice is filtering it once. */
  lemma FilteredDefaultIdempotent(filter: Option<DataSourceOption -> bool>, configured: Option<string>)
    ensures FilteredDefault(filter, FilteredDefault(filter, configured)) == FilteredDefault(filter, configured)
  {
  }

  /** The call of `onSelectedDataSources`, when the prop was supplied. */
  function Report(props: ViewProps, selection: seq<DataSourceOption>): seq<Event> {
    if props.hasSelectionCallback then [Reported(selection)] else []
  }

  /** What `componentDidMount` does: its state updates and, in order, its outside effects. */
  datatype MountEffect = MountEffect(
    selection: Update<seq<DataSourceOption>>,
    storedDefault: Update<Option<string>>,
    events: seq<Event>)

  /** The selection is the local cluster and it is shown. */
  predicate ShowsLocal(props: ViewProps) {
    |props.selectedOption| > 0 && props.selectedOption[0].id == "" && !props.hideLocalCluster
  }

  /** The selection is the hidden local cluster, or the filter rejects every supplied option. */
  predicate SelectsNothing(props: ViewProps) {
    && |props.selectedOption| > 0
    && ((props.selectedOption[0].id == "" && props.hideLocalCluster)
        || (props.dataSourceFilter.Some? && RejectsAll(props.dataSourceFilter.value, props.selectedOption)))
  }

  /** The selection has an id but no label, so its title is looked up by id. */
  predicate AwaitsLookup(props: ViewProps) {
    |props.selectedOption| > 0 && !ShowsLocal(props) && !SelectsNothing(props)
    && !Truthy(props.selectedOption[0].labelText)
  }

  /**
   * `componentDidMount`, given the configured default `uiDefault`, the outcome
   * of the by-id lookup (consulted only when the selection has no label), and
   * whether the component was unmounted while that lookup was pending.
   */
  function MountEffectOf(props: ViewProps, uiDefault: Option<string>, lookup: Lookup, unmountedMeanwhile: bool): (e: MountEffect)
    // reading `selectedOption[0].id` of an empty selection throws before anything happens
    ensures |props.selectedOption| == 0 ==> e == MountEffect(Keep, Keep, [])
    // the local cluster, shown
    ensures ShowsLocal(props) ==>
      e == MountEffect(Set([LocalCluster]), Set(uiDefault), Report(props, [LocalCluster]))
    // the hidden local cluster, or everything filtered out
    ensures !ShowsLocal(props) && SelectsNothing(props) ==>
      e == MountEffect(Set([]), Keep, Report(props, []))
    // a successful lookup by id, while still mounted
    ensures AwaitsLookup(props) && lookup.Found? && !unmountedMeanwhile ==>
      var resolved := [DataSourceOption(props.selectedOption[0].id, Some(lookup.title))];
      e == MountEffect(Set(resolved), Set(uiDefault), Report(props, resolved))
    // a lookup that completes after unmounting changes nothing
    ensures AwaitsLookup(props) && lookup.Found? && unmountedMeanwhile ==> e == MountEffect(Keep, Keep, [])
    // a failed lookup: [] is reported only without a configured default, the filtered
    // default is stored, and the error handler is invoked
    ensures AwaitsLookup(props) && lookup.LookupFailed? ==>
      && e.selection == Keep
      && e.storedDefault == Set(FilteredDefault(props.dataSourceFilter, uiDefault))
      && e.events == (if Truthy(uiDefault) then [] else Report(props, []))
           + [ErrorHandlerInvoked(props.selectedOption[0].id, FilteredDefault(props.dataSourceFilter, uiDefault))]
    // a selection that already has a label is reported as it is and not altered
    ensures |props.selectedOption| > 0 && !ShowsLocal(props) && !SelectsNothing(props) && !AwaitsLookup(props) ==>
      e == if props.hasSelectionCallback
           then MountEffect(Keep, Set(uiDefault), [Reported([props.selectedOption[0]])])
           else MountEffect(Keep, Keep, [])
  {
    if |props.selectedOption| == 0 then MountEffect(Keep, Keep, [])
    else
      var option := props.selectedOption[0];
      if option.id == "" && !props.hideLocalCluster then
        MountEffect(Set([LocalCluster]), Set(uiDefault), Report(props, [LocalCluster]))
      else if (option.id == "" && props.hideLocalCluster)
              || (props.dataSourceFilter.Some? && RejectsAll(props.dataSourceFilter.value, props.selectedOption)) then
        MountEffect(Set([]), Keep, Report(props, []))
      else if !Truthy(option.labelText) then
        match lookup
        case Found(title) =>
          if unmountedMeanwhile then MountEffect(Keep, Keep, [])
          else
            var resolved := [DataSourceOption(option.id, Some(title))];
            MountEffect(Set(resolved), Set(uiDefault), Report(props, resolved))
        case LookupFailed =>
          var stored := FilteredDefault(props.dataSourceFilter, uiDefault);
          MountEffect(Keep, Set(stored),
            (if Truthy(uiDefault) then [] else Report(props, [])) + [ErrorHandlerInvoked(option.id, stored)])
      else if props.hasSelectionCallback then
        MountEffect(Keep, Set(uiDefault), [Reported([option])])
      else MountEffect(Keep, Keep, [])
  }

  /**
   * The view never reports a data source other than the one it was given: every
   * report is empty or the single option with the supplied id (the local
   * cluster's id is the supplied "").
   */
  lemma ReportsOnlySuppliedId(props: ViewProps, uiDefault: Option<string>, lookup: Lookup, unmountedMeanwhile: bool)
    ensures var e := MountEffectOf(props, uiDefault, lookup, unmountedMeanwhile);
      forall ev :: ev in e.events && ev.Reported? ==>
        ev.selection == [] || (|ev.selection| == 1 && ev.selection[0].id == props.selectedOption[0].id)
  {
  }

  /** The error path is taken exactly when a label had to be looked up and the lookup failed. */
  lemma ErrorPathIffLookupFailed(props: ViewProps, uiDefault: Option<string>, lookup: Lookup, unmountedMeanwhile: bool)
    ensures var e := MountEffectOf(props, uiDefault, lookup, unmountedMeanwhile);
      (exists ev :: ev in e.events && ev.ErrorHandlerInvoked?) <==> AwaitsLookup(props) && lookup.LookupFailed?
  {
    var e := MountEffectOf(props, uiDefault, lookup, unmountedMeanwhile);
    if AwaitsLookup(props) && lookup.LookupFailed? {
      assert e.events[|e.events| - 1].ErrorHandlerInvoked?;
    }
  }

  /**
   * Outside the error path the parent and the view agree: for a single supplied
   * option, whatever is reported is exactly what the view then shows.
   */
  lemma ReportAgreesWithShownSelection(props: ViewProps, uiDefault: Option<string>, lookup: Lookup, unmountedMeanwhile: bool)
    requires |props.selectedOption| == 1
    requires !(AwaitsLookup(props) && lookup.LookupFailed?)
    ensures var e := MountEffectOf(props, uiDefault, lookup, unmountedMeanwhile);
      forall ev :: ev in e.events ==> ev == Reported(Apply(e.selection, props.selectedOption))
  {
    var e := MountEffectOf(props, uiDefault, lookup, unmountedMeanwhile);
    if !ShowsLocal(props) && !SelectsNothing(props) && !AwaitsLookup(props) {
      assert props.selectedOption == [props.selectedOption[0]];
    }
  }

  /** One entry of the read-only list: the selected option, checked and disabled. */
  datatype ViewItem = ViewItem(id: string, labelText: Option<string>, checked: string, disabled: bool)

  /** What `render` shows. */
  datatype Rendered =
    | ErrorPanel(failedId: string, showSwitchButton: bool)
    | Popover(buttonLabel: Option<string>, items: seq<ViewItem>, isOpen: bool)
    | RenderThrows  // the error panel reads `props.selectedOption[0].id` of an empty selection

  /** `render`: the error panel in the error state, otherwise the button and its read-only list. */
  function RenderOf(props: ViewProps, showError: bool, selection: seq<DataSourceOption>,
                    storedDefault: Option<string>, isPopoverOpen: bool): (r: Rendered)
    ensures showError && |props.selectedOption| > 0 ==> r.ErrorPanel? && r.failedId == props.selectedOption[0].id
    ensures showError && |props.selectedOption| == 0 ==> r == RenderThrows
    ensures r.ErrorPanel? ==> (r.showSwitchButton <==> Truthy(storedDefault))
    ensures !showError ==> r.Popover? && r.isOpen == isPopoverOpen
    ensures r.Popover? ==> r.buttonLabel == (if |selection| > 0 then selection[0].labelText else Some(""))
    ensures r.Popover? ==> |r.items| == |selection|
    ensures r.Popover? ==> forall i :: 0 <= i < |r.items| ==>
      r.items[i].id == selection[i].id && r.items[i].labelText == selection[i].labelText
    ensures r.Popover? ==> forall it :: it in r.items ==> it.checked == "on" && it.disabled
  {
    if showError then
      if |props.selectedOption| > 0 then ErrorPanel(props.selectedOption[0].id, Truthy(storedDefault))
      else RenderThrows
    else
      var buttonLabel := if |selection| > 0 then selection[0].labelText else Some("");
      var items := seq(|selection|, i requires 0 <= i < |selection| =>
        ViewItem(selection[i].id, selection[i].labelText, "on", true));
      Popover(buttonLabel, items, isPopoverOpen)
  }

  class DataSourceView {
    const props: ViewProps

    var selectedOption: seq<DataSourceOption>
    var isPopoverOpen: bool
    var showEmptyState: bool
    var showError: bool
    var defaultDataSource: Option<string>
    var isMounted: bool
    var events: seq<Event>

    constructor (props: ViewProps)
      ensures this.props == props
      ensures selectedOption == props.selectedOption && !isPopoverOpen && !showEmptyState && !showError
      ensures defaultDataSource == None && !isMounted && events == []
    {
      this.props := props;
      selectedOption := props.selectedOption;
      isPopoverOpen := false;
      showEmptyState := false;
      showError := false;
      defaultDataSource := None;
      isMounted := false;
      events := [];
    }

    method ComponentWillUnmount()
      modifies this`isMounted
      ensures !isMounted
    {
      isMounted := false;
    }

    /** `componentDidMount`; see `MountEffectOf` for the inputs. */
    method ComponentDidMount(uiDefault: Option<string>, lookup: Lookup, unmountedMeanwhile: bool)
      modifies this`selectedOption, this`defaultDataSource, this`isMounted, this`events
      ensures var e := MountEffectOf(props, uiDefault, lookup, unmountedMeanwhile);
        && selectedOption == Apply(e.selection, old(selectedOption))
        && defaultDataSource == Apply(e.storedDefault, old(defaultDataSource))
        && events == old(events) + e.events
      ensures isMounted == !(unmountedMeanwhile && AwaitsLookup(props))
    {
      ghost var e := MountEffectOf(props, uiDefault, lookup, unmountedMeanwhile);
      isMounted := true;
      if |props.selectedOption| == 0 {
        return;  // `option.id` of an undefined option throws
      }
      var option := props.selectedOption[0];
      if option.id == "" && !props.hideLocalCluster {
        selectedOption, defaultDataSource := [LocalCluster], uiDefault;
        events := events + Report(props, [LocalCluster]);
        return;
      }
      if (option.id == "" && props.hideLocalCluster)
         || (props.dataSourceFilter.Some? && RejectsAll(props.dataSourceFilter.value, props.selectedOption)) {
        selectedOption := [];
        events := events + Report(props, []);
        return;
      }
      if !Truthy(option.labelText) {
        // the lookup is awaited here; the component may be unmounted meanwhile
        if unmountedMeanwhile {
          isMounted := false;
        }
        match lookup
        case Found(title) =>
          if !isMounted {
            return;
          }
          var resolved := [DataSourceOption(option.id, Some(title))];
          assert e == MountEffect(Set(resolved), Set(uiDefault), Report(props, resolved));
          selectedOption, defaultDataSource := resolved, uiDefault;
          events := events + Report(props, resolved);
        case LookupFailed =>
          if !Truthy(uiDefault) {
            events := events + Report(props, []);
          }
          defaultDataSource := FilteredDefault(props.dataSourceFilter, uiDefault);
          events := events + [ErrorHandlerInvoked(option.id, defaultDataSource)];
      } else if props.hasSelectionCallback {
        defaultDataSource := uiDefault;
        events := events + [Reported([option])];
      }
    }

    /** `onError`: enter the error state. */
    method OnError()
      modifies this`showError
      ensures showError
    {
      showError := true;
    }

    method OnClick()
      modifies this`isPopoverOpen
      ensures isPopoverOpen == !old(isPopoverOpen)
    {
      isPopoverOpen := !isPopoverOpen;
    }

    method ClosePopover()
      modifies this`isPopoverOpen
      ensures !isPopoverOpen
    {
      isPopoverOpen := false;
    }

    /**
     * `handleSwitchDefaultDatasource`: look up the default's title and show the
     * default instead. Callers pass the stored default, which exists whenever
     * the switch button is shown. A failed lookup rejects before any update.
     */
    method HandleSwitchDefaultDatasource(defaultId: string, lookup: Lookup)
      modifies this`selectedOption, this`showError, this`isPopoverOpen, this`events
      ensures lookup.LookupFailed? ==>
        && selectedOption == old(selectedOption) && showError == old(showError)
        && isPopoverOpen == old(isPopoverOpen) && events == old(events)
      ensures lookup.Found? ==>
        var chosen := [DataSourceOption(defaultId, Some(lookup.title))];
        && selectedOption == chosen && !showError && !isPopoverOpen
        && events == old(events) + Report(props, chosen)
    {
      match lookup
      case LookupFailed =>
      case Found(title) =>
        var chosen := [DataSourceOption(defaultId, Some(title))];
        selectedOption, showError, isPopoverOpen := chosen, false, false;
        events := events + Report(props, chosen);
    }

    /** `render` of the current state; see `RenderOf`. */
    function Render(): (r: Rendered)
      reads this
      ensures showError && |props.selectedOption| > 0 ==> r == ErrorPanel(props.selectedOption[0].id, Truthy(defaultDataSource))
      ensures !showError ==> r.Popover? && r.isOpen == isPopoverOpen && |r.items| == |selectedOption|
      ensures !showError && |selectedOption| > 0 ==> r.buttonLabel == selectedOption[0].labelText
    {
      RenderOf(props, showError, selectedOption, defaultDataSource, isPopoverOpen)
    }
  }

  /**
   * The recovery path end to end: a view given an unlabelled id whose lookup
   * fails, with a default data source configured, shows the error panel with
   * the switch button; switching shows the default's title and reports it.
   * The host's error handler is taken to call `onError`.
   */
  method RecoverWithDefault(id: string, configured: string, defaultTitle: string)
    returns (failed: Rendered, recovered: Rendered, reported: seq<Event>)
    requires id != "" && configured != ""
    ensures failed == ErrorPanel(id, true)
    ensures recovered == Popover(Some(defaultTitle), [ViewItem(configured, Some(defaultTitle), "on", true)], false)
    ensures reported == [ErrorHandlerInvoked(id, Some(configured)),
                         Reported([DataSourceOption(configured, Some(defaultTitle))])]
  {
    var view := new DataSourceView(ViewProps([DataSourceOption(id, None)], false, None, true));
    view.ComponentDidMount(Some(configured), LookupFailed, false);
    view.OnError();
    failed := view.Render();
    view.HandleSwitchDefaultDatasource(view.defaultDataSource.value, Found(defaultTitle));
    recovered := view.Render();
    reported := view.events;
  }
}
