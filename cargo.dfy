/**
 * The cargo details feature: its action types, the reducer's handler table
 * with the name search, and the selector that looks a shipment up by id.
 */
module CargoDetails {
  import opened Wrappers
  import opened Json
  import Strings
  import Arrays
  import Errors
  import opened Redux

  /** One shipment as the server lists it. */
  datatype CargoDetail = CargoDetail(id: string, name: string, email: string, boxes: string)

  type CargoState = AsyncData<seq<CargoDetail>, JsValue, Errors.ErrorObject>
  type CargoPayload = Payload<seq<CargoDetail>, JsValue, Errors.ErrorObject>
  type CargoAction = Action<CargoPayload>

  /** The application state the selectors read. */
  datatype CargoReduxState = CargoReduxState(cargoDetails: CargoState)

  /** What `getCargoDetailById` returns: an item, `undefined`, or `{}`. */
  datatype Lookup = Found(detail: CargoDetail) | NotFound | EmptyObject

  /**
   * The prefix `actionCreatorFactory(ns)` puts before every type: the
   * namespace and a slash, or nothing for an empty namespace.
   */
  function TypePrefix(ns: string): (r: string)
    ensures ns == "" ==> r == ""
    ensures ns != "" ==> |r| == |ns| + 1 && r[..|ns|] == ns && r[|ns|] == '/'
  {
    if ns == "" then "" else ns + "/"
  }

  /** The type `actionCreator(base)` gives its actions: the namespace prefix followed by `base`. */
  function ActionType(ns: string, base: string): (r: string)
    ensures |r| == |TypePrefix(ns)| + |base|
    ensures r[..|TypePrefix(ns)|] == TypePrefix(ns) && r[|TypePrefix(ns)|..] == base
  {
    TypePrefix(ns) + base
  }

  /** The started, done and failed types of `actionCreator.async("CARGO_DETAILS")`, and `searchCargo`'s type. */
  function CargoDetailsStarted(ns: string): string { ActionType(ns, "CARGO_DETAILS_STARTED") }
  function CargoDetailsDone(ns: string): string { ActionType(ns, "CARGO_DETAILS_DONE") }
  function CargoDetailsFailed(ns: string): string { ActionType(ns, "CARGO_DETAILS_FAILED") }
  function SearchCargoType(ns: string): string { ActionType(ns, "SEARCH_CARGO") }

  /** The asynchronous action creator `cargoDetails`, by its three types, which are pairwise different. */
  function CargoDetailsCreators(ns: string): (r: AsyncActionCreators)
    ensures r.started != r.done && r.started != r.failed && r.done != r.failed
    ensures r.started == CargoDetailsStarted(ns) && r.done == CargoDetailsDone(ns) && r.failed == CargoDetailsFailed(ns)
  {
    ActionTypesDistinct(ns);
    AsyncActionCreators(CargoDetailsStarted(ns), CargoDetailsDone(ns), CargoDetailsFailed(ns))
  }

  /** The four action types of the feature are pairwise different, whatever the namespace. */
  lemma ActionTypesDistinct(ns: string)
    ensures CargoDetailsStarted(ns) != CargoDetailsDone(ns) && CargoDetailsStarted(ns) != CargoDetailsFailed(ns)
    ensures CargoDetailsStarted(ns) != SearchCargoType(ns) && CargoDetailsDone(ns) != CargoDetailsFailed(ns)
    ensures CargoDetailsDone(ns) != SearchCargoType(ns) && CargoDetailsFailed(ns) != SearchCargoType(ns)
  {
    var n := |TypePrefix(ns)|;
    assert |CargoDetailsStarted(ns)| == n + 21;
    assert |CargoDetailsDone(ns)| == n + 18;
    assert |CargoDetailsFailed(ns)| == n + 20;
    assert |SearchCargoType(ns)| == n + 12;
  }

  /** The branch the reducer starts from: `getInitialAsyncData()`. */
  function InitialState(): (r: CargoState)
    ensures r == AsyncData(None, None, None, Idle)
  {
    GetInitialAsyncData()
  }

  /** A shipment matches a query when its lower-cased name contains the lower-cased query. */
  predicate Matches(item: CargoDetail, query: string)
    ensures Matches(item, query) <==> exists j :: Strings.OccursAt(Strings.ToLower(item.name), Strings.ToLower(query), j)
  {
    Strings.ContainsIff(Strings.ToLower(item.name), Strings.ToLower(query));
    Strings.Contains(Strings.ToLower(item.name), Strings.ToLower(query))
  }

  /** The filter callback of the search handler: it keeps exactly the shipments that match. */
  function MatcherFor(query: string): (r: CargoDetail -> bool)
    ensures forall item :: r(item) <==> Matches(item, query)
  {
    (item: CargoDetail) => Matches(item, query)
  }

  /** `data.filter(...)` as the search handler calls it. */
  function SearchFilter(items: seq<CargoDetail>, query: string): (r: seq<CargoDetail>)
    ensures |r| <= |items|
    ensures forall i :: 0 <= i < |r| ==> Matches(r[i], query)
  {
    Arrays.Filter(items, MatcherFor(query))
  }

  /**
   * The `searchCargo` handler. Filtering a null list throws; the query is
   * lower-cased inside the filter callback, so a payload that is not a
   * string throws only when there is at least one item to test. The query is
   * matched as a substring, so an invalid pattern does not throw here.
   */
  function SearchCargo(state: CargoState, action: CargoAction): (r: Reduced<CargoState>)
    ensures r.Throws? <==> state.data.None? || (state.data.value != [] && !action.payload.Text?)
    ensures r.Next? ==> r.state.status == state.status && r.state.meta == state.meta && r.state.error == state.error
    ensures r.Next? ==> r.state.data.Some? && |r.state.data.value| <= |state.data.value|
    ensures r.Next? && action.payload.Text? ==> r.state.data == Some(SearchFilter(state.data.value, action.payload.text))
    ensures r.Next? && !action.payload.Text? ==> r.state.data == Some([])
  {
    if state.data.None? then Throws(ReadOfNothing("filter"))
    else if state.data.value == [] then Next(state.(data := Some([])))
    else if action.payload.NoPayload? then Throws(ReadOfNothing("toLowerCase"))
    else if !action.payload.Text? then Throws("TypeError: payload.toLowerCase is not a function")
    else Next(state.(data := Some(SearchFilter(state.data.value, action.payload.text))))
  }

  /**
   * After a search the list is an order-preserving sublist of the previous
   * one that keeps every occurrence of each matching shipment and drops every
   * other one.
   */
  lemma SearchKeepsExactlyMatches(state: CargoState, query: string)
    requires state.data.Some?
    ensures SearchCargo(state, Action("", Text(query))).Next?
    ensures Arrays.IsSubsequence(SearchCargo(state, Action("", Text(query))).state.data.value, state.data.value)
    ensures forall x :: multiset(SearchCargo(state, Action("", Text(query))).state.data.value)[x]
                     == if Matches(x, query) then multiset(state.data.value)[x] else 0
  {
    var items := state.data.value;
    Arrays.FilterIsSubsequence(items, MatcherFor(query));
    Arrays.FilterCounts(items, MatcherFor(query));
    if items == [] {
      assert SearchFilter(items, query) == [];
    }
  }

  /** Every shipment matches the empty query. */
  lemma EmptyQueryMatches(item: CargoDetail)
    ensures Matches(item, "")
  {
    assert Strings.ToLower("") == "";
    Strings.ContainsIff(Strings.ToLower(item.name), "");
  }

  /** Searching for the empty string keeps every shipment. */
  lemma EmptyQueryKeepsAll(items: seq<CargoDetail>)
    ensures SearchFilter(items, "") == items
  {
    forall i | 0 <= i < |items|
      ensures MatcherFor("")(items[i])
    {
      EmptyQueryMatches(items[i]);
    }
    Arrays.FilterAll(items, MatcherFor(""));
  }

  /** Repeating a search changes nothing. */
  lemma SearchIdempotent(items: seq<CargoDetail>, query: string)
    ensures SearchFilter(SearchFilter(items, query), query) == SearchFilter(items, query)
  {
    Arrays.FilterIdempotent(items, MatcherFor(query));
  }

  /** Two searches in a row give the same list in either order. */
  lemma SearchesCommute(items: seq<CargoDetail>, q1: string, q2: string)
    ensures SearchFilter(SearchFilter(items, q1), q2) == SearchFilter(SearchFilter(items, q2), q1)
  {
    Arrays.FilterCommutes(items, MatcherFor(q1), MatcherFor(q2));
  }

  /**
   * The reducer's handler table, in the order the reducer tries it: the three
   * default asynchronous handlers of `cargoDetails`, then the search.
   */
  function CargoHandlers(ns: string): (r: seq<ReducerHandler<CargoState, CargoPayload>>)
    ensures |r| == 4
    ensures r[0].actionType == CargoDetailsStarted(ns) && r[1].actionType == CargoDetailsDone(ns)
    ensures r[2].actionType == CargoDetailsFailed(ns) && r[3].actionType == SearchCargoType(ns)
    ensures forall s, a :: r[0].handler(s, a) == Started(s, a) && r[1].handler(s, a) == Done(s, a)
    ensures forall s, a :: r[2].handler(s, a) == Failed(s, a) && r[3].handler(s, a) == SearchCargo(s, a)
  {
    var h := AsyncDefaultHandlers<seq<CargoDetail>, JsValue, Errors.ErrorObject>();
    [ReducerHandler(CargoDetailsStarted(ns), h.started),
     ReducerHandler(CargoDetailsDone(ns), h.done),
     ReducerHandler(CargoDetailsFailed(ns), h.failed),
     ReducerHandler(SearchCargoType(ns), (s, a) => SearchCargo(s, a))]
  }

  /**
   * `CargoDetailsReducer(state, action)`, for the namespace `ns` the action
   * types carry: each of the four action types goes to its handler, applied
   * to the given state or the initial branch, and any other action returns
   * that state unchanged.
   */
  function CargoDetailsReducer(ns: string, state: Option<CargoState>, action: CargoAction): (r: Reduced<CargoState>)
    ensures IsType(action, CargoDetailsStarted(ns)) ==> r == Started(state.GetOr(InitialState()), action)
    ensures IsType(action, CargoDetailsDone(ns)) ==> r == Done(state.GetOr(InitialState()), action)
    ensures IsType(action, CargoDetailsFailed(ns)) ==> r == Failed(state.GetOr(InitialState()), action)
    ensures IsType(action, SearchCargoType(ns)) ==> r == SearchCargo(state.GetOr(InitialState()), action)
    ensures (!IsType(action, CargoDetailsStarted(ns)) && !IsType(action, CargoDetailsDone(ns)) &&
             !IsType(action, CargoDetailsFailed(ns)) && !IsType(action, SearchCargoType(ns)))
            ==> r == Next(state.GetOr(InitialState()))
  {
    ActionTypesDistinct(ns);
    var table := CargoHandlers(ns);
    assert IsType(action, CargoDetailsStarted(ns)) ==> FirstMatch(table, action, 0);
    assert IsType(action, CargoDetailsDone(ns)) ==> FirstMatch(table, action, 1);
    assert IsType(action, CargoDetailsFailed(ns)) ==> FirstMatch(table, action, 2);
    assert IsType(action, SearchCargoType(ns)) ==> FirstMatch(table, action, 3);
    AsyncItemCustomReducer(table, None, None, state, action)
  }

  /** Apart from the search, the reducer is the default asynchronous reducer of `cargoDetails`. */
  lemma ReducerExtendsDefault(ns: string, state: Option<CargoState>, action: CargoAction)
    requires !IsType(action, SearchCargoType(ns))
    ensures CargoDetailsReducer(ns, state, action) == AsyncItemDefaultReducer(CargoDetailsCreators(ns), None, None, state, action)
  {
  }

  /**
   * The branch invariant: no error is kept while idle or loaded, and the
   * branch holds no list while it is idle.
   */
  predicate WellFormed(s: CargoState) {
    Consistent(s) && (s.status == Idle ==> s.data.None?)
  }

  /** One reducer call keeps the branch well formed. */
  lemma ReducerKeepsWellFormed(ns: string, s: CargoState, action: CargoAction)
    requires WellFormed(s)
    ensures CargoDetailsReducer(ns, Some(s), action).Next? ==> WellFormed(CargoDetailsReducer(ns, Some(s), action).state)
  {
    var r := CargoDetailsReducer(ns, Some(s), action);
    if IsType(action, CargoDetailsStarted(ns)) {
      assert r == Started(s, action);
    } else if IsType(action, CargoDetailsDone(ns)) {
      assert r == Done(s, action);
    } else if IsType(action, CargoDetailsFailed(ns)) {
      assert r == Failed(s, action);
    } else if IsType(action, SearchCargoType(ns)) {
      assert r == SearchCargo(s, action);
    } else {
      assert r == Next(s);
    }
  }

  /** The reducer applied to the actions in turn, stopping at the first one that throws. */
  function Run(ns: string, s: CargoState, actions: seq<CargoAction>): Reduced<CargoState>
    decreases |actions|
  {
    if actions == [] then Next(s)
    else match CargoDetailsReducer(ns, Some(s), actions[0])
      case Throws(message) => Throws(message)
      case Next(s') => Run(ns, s', actions[1..])
  }

  /** Every state the reducer reaches from the initial branch is well formed. */
  lemma {:induction false} RunKeepsWellFormed(ns: string, s: CargoState, actions: seq<CargoAction>)
    requires WellFormed(s)
    ensures Run(ns, s, actions).Next? ==> WellFormed(Run(ns, s, actions).state)
    decreases |actions|
  {
    if actions != [] {
      ReducerKeepsWellFormed(ns, s, actions[0]);
      var step := CargoDetailsReducer(ns, Some(s), actions[0]);
      if step.Next? {
        RunKeepsWellFormed(ns, step.state, actions[1..]);
      }
    }
  }

  /** A search before anything was loaded throws. */
  lemma SearchBeforeLoadThrows(ns: string, query: string)
    ensures CargoDetailsReducer(ns, None, Action(SearchCargoType(ns), Text(query))).Throws?
  {
  }

  /**
   * `CargoDetailsSelectors.getCargoDetailById`: the first shipment with the
   * id when there is a list, `undefined` when none has it, `{}` when there is
   * no list.
   */
  function GetCargoDetailById(state: CargoReduxState, id: string): (r: Lookup)
    ensures r.EmptyObject? <==> state.cargoDetails.data.None?
    ensures r.NotFound? <==> (state.cargoDetails.data.Some? &&
              forall i :: 0 <= i < |state.cargoDetails.data.value| ==> state.cargoDetails.data.value[i].id != id)
    ensures r.Found? ==> exists i :: FirstWithId(state.cargoDetails.data.value, id, i) && state.cargoDetails.data.value[i] == r.detail
  {
    match state.cargoDetails.data
    case None => EmptyObject
    case Some(items) =>
      match Arrays.Find(items, (e: CargoDetail) => e.id == id)
      case Some(item) => Found(item)
      case None => NotFound
  }

  /** `items[i]` is the first shipment with the id. */
  predicate FirstWithId(items: seq<CargoDetail>, id: string, i: int) {
    0 <= i < |items| && items[i].id == id && forall j :: 0 <= j < i ==> items[j].id != id
  }

  /** A shipment found after a search was in the list before it and matches the query. */
  lemma FoundAfterSearch(state: CargoState, query: string, id: string)
    requires state.data.Some?
    ensures var r := SearchCargo(state, Action("", Text(query)));
            var found := GetCargoDetailById(CargoReduxState(r.state), id);
            found.Found? ==> found.detail in state.data.value && Matches(found.detail, query) && found.detail.id == id
  {
    var r := SearchCargo(state, Action("", Text(query)));
    var found := GetCargoDetailById(CargoReduxState(r.state), id);
    if found.Found? {
      Arrays.FilterMembers(state.data.value, MatcherFor(query), found.detail);
    }
  }
}
