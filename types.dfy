/** Values shared by the data-source selector and the read-only data-source view. */
module Types {

  /** An optional value; `None` stands for JavaScript's `undefined` / `null`. */
  datatype Option<+T> = None | Some(value: T) {
    function GetOr(default: T): T {
      match this
      case Some(v) => v
      case None => default
    }
  }

  /** JavaScript truthiness of an optional string: present and not the empty string. */
  predicate Truthy(s: Option<string>) {
    s.Some? && s.value != ""
  }

  /** A partial `setState`: a field is either left as it is or set to a new value. */
  datatype Update<+T> = Keep | Set(value: T)

  function Apply<T>(u: Update<T>, current: T): T {
    match u
    case Keep => current
    case Set(v) => v
  }

  /** `DataSourceOption`: an id and an optional label; the id "" is the local cluster. */
  datatype DataSourceOption = DataSourceOption(id: string, labelText: Option<string>)

  const LocalClusterLabel: string := "Local cluster"

  /** The local-cluster sentinel option. */
  const LocalCluster: DataSourceOption := DataSourceOption("", Some(LocalClusterLabel))

  /** Outcome of the by-id saved-object lookup `getDataSourceById`. */
  datatype Lookup = Found(title: string) | LookupFailed

  /** What a component does to the outside world, in order. */
  datatype Event =
    | Warning(message: string)                          // notifications.addWarning
    | Reported(selection: seq<DataSourceOption>)        // props.onSelectedDataSources
    | ErrorHandlerInvoked(failedId: string, defaultDataSource: Option<string>)
                                                        // handleDataSourceViewErrorWithSwitchToDefaultOption

  /** `Array.prototype.find` / `findIndex`: the index of the first element satisfying `p`. */
  function FindFirst<T>(s: seq<T>, p: T -> bool): (r: Option<nat>)
    ensures r.Some? ==> r.value < |s| && p(s[r.value])
    ensures r.Some? ==> forall j :: 0 <= j < r.value ==> !p(s[j])
    ensures r.None? ==> forall j :: 0 <= j < |s| ==> !p(s[j])
  {
    if |s| == 0 then None
    else if p(s[0]) then Some(0)
    else
      match FindFirst(s[1..], p)
      case None => None
      case Some(k) => Some(k + 1)
  }
}
