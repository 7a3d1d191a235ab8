/**
 * The async-data branch helpers and reducer combinators of the client's
 * state layer. A reducer action is matched by its type string alone, and the
 * JavaScript `TypeError`s a handler can cause (a property read on a null
 * payload) are results of their own.
 */
module Redux {
  import opened Wrappers
  import Arrays

  /** The loading life cycle of a data branch. */
  datatype ProcessStatus = Idle | Pending | Success | Error

  /** An asynchronous data branch; `None` stands for both `null` and `undefined`. */
  datatype AsyncData<T, M, E> = AsyncData(data: Option<T>, meta: Option<M>, error: Option<E>, status: ProcessStatus)

  /** A single item with its meta information, the `result` of a `done` payload. */
  datatype Item<T, M> = Item(data: Option<T>, meta: Option<M>)

  /** The payload shapes an action of an asynchronous reducer can carry. */
  datatype Payload<T, M, E> =
    | NoPayload                              // `null` or `undefined`
    | Text(text: string)                     // a plain string parameter
    | Succeeded(result: Option<Item<T, M>>)  // `{ params, result }`, `None` for a falsy result
    | Failure(error: Option<E>)              // `{ params, error }`

  /** An action: its type string and its payload. */
  datatype Action<P> = Action(actionType: string, payload: P)

  /** What calling a reducer does: it returns the next state or throws. */
  datatype Reduced<S> = Next(state: S) | Throws(message: string)

  type Handler<!S, !P> = (S, Action<P>) -> Reduced<S>

  /** A handler paired with the type of the action creator it answers. */
  datatype ReducerHandler<!S, !P> = ReducerHandler(actionType: string, handler: Handler<S, P>)

  /** The three type strings of an asynchronous action creator. */
  datatype AsyncActionCreators = AsyncActionCreators(started: string, done: string, failed: string)

  /** The three default handlers of an asynchronous branch. */
  datatype AsyncHandlers<!T, !M, !E> = AsyncHandlers(
    started: Handler<AsyncData<T, M, E>, Payload<T, M, E>>,
    done: Handler<AsyncData<T, M, E>, Payload<T, M, E>>,
    failed: Handler<AsyncData<T, M, E>, Payload<T, M, E>>)

  /** The message of the `TypeError` a property read on a null or undefined payload throws. */
  function ReadOfNothing(property: string): string {
    "TypeError: Cannot read properties of null or undefined (reading '" + property + "')"
  }

  /** `getAsyncData`: every argument defaults to `null`, the status to IDLE. */
  function GetAsyncData<T, M, E>(data: Option<T> := None, meta: Option<M> := None,
                                 error: Option<E> := None, status: ProcessStatus := Idle): (r: AsyncData<T, M, E>)
    ensures r.data == data && r.meta == meta && r.error == error && r.status == status
  {
    AsyncData(data, meta, error, status)
  }

  /** `getInitialAsyncData`: the given data and meta, no error, IDLE. */
  function GetInitialAsyncData<T, M, E>(initialData: Option<T> := None, initialMeta: Option<M> := None): (r: AsyncData<T, M, E>)
    ensures r.data == initialData && r.meta == initialMeta
    ensures r.error.None? && r.status == Idle
  {
    GetAsyncData(initialData, initialMeta)
  }

  /** With no arguments the branch is empty and idle. */
  lemma EmptyAsyncData<T, M, E>()
    ensures GetAsyncData<T, M, E>() == AsyncData(None, None, None, Idle)
    ensures GetInitialAsyncData<T, M, E>() == GetAsyncData<T, M, E>()
  {
  }

  /** The `started` default handler: only the status changes, to PENDING. */
  function Started<T, M, E>(state: AsyncData<T, M, E>, action: Action<Payload<T, M, E>>): (r: Reduced<AsyncData<T, M, E>>)
    ensures r.Next? && r.state.status == Pending
    ensures r.state.data == state.data && r.state.meta == state.meta && r.state.error == state.error
  {
    Next(state.(status := Pending))
  }

  /** `payload.result`: the item of a success payload, `undefined` for any other object. */
  function ResultOf<T, M, E>(payload: Payload<T, M, E>): Option<Item<T, M>>
    requires !payload.NoPayload?
  {
    if payload.Succeeded? then payload.result else None
  }

  /**
   * The `done` default handler: data and meta come from the payload's
   * result (both `undefined` when it is falsy), the error is cleared and the
   * status is SUCCESS; the previous state is not read.
   */
  function Done<T, M, E>(state: AsyncData<T, M, E>, action: Action<Payload<T, M, E>>): (r: Reduced<AsyncData<T, M, E>>)
    ensures r.Throws? <==> action.payload.NoPayload?
    ensures r.Next? ==> r.state.error.None? && r.state.status == Success
    ensures r.Next? && ResultOf(action.payload).Some? ==>
              r.state.data == ResultOf(action.payload).value.data && r.state.meta == ResultOf(action.payload).value.meta
    ensures r.Next? && ResultOf(action.payload).None? ==> r.state.data.None? && r.state.meta.None?
  {
    if action.payload.NoPayload? then Throws(ReadOfNothing("result"))
    else match ResultOf(action.payload)
      case Some(item) => Next(AsyncData(item.data, item.meta, None, Success))
      case None => Next(AsyncData(None, None, None, Success))
  }

  /** `done` gives the same answer whatever the state it is applied to. */
  lemma DoneIgnoresPriorState<T, M, E>(s1: AsyncData<T, M, E>, s2: AsyncData<T, M, E>, action: Action<Payload<T, M, E>>)
    ensures Done(s1, action) == Done(s2, action)
  {
  }

  /** `payload.error`: the error of a failure payload, `undefined` for any other object. */
  function ErrorOf<T, M, E>(payload: Payload<T, M, E>): Option<E>
    requires !payload.NoPayload?
  {
    if payload.Failure? then payload.error else None
  }

  /** The `failed` default handler: the payload's error is stored and the status is ERROR. */
  function Failed<T, M, E>(state: AsyncData<T, M, E>, action: Action<Payload<T, M, E>>): (r: Reduced<AsyncData<T, M, E>>)
    ensures r.Throws? <==> action.payload.NoPayload?
    ensures r.Next? ==> r.state.data == state.data && r.state.meta == state.meta
    ensures r.Next? ==> r.state.error == ErrorOf(action.payload) && r.state.status == Error
  {
    if action.payload.NoPayload? then Throws(ReadOfNothing("error"))
    else Next(state.(error := ErrorOf(action.payload), status := Error))
  }

  /** `asyncDefaultHandlers()`: the three handlers above, as one record. */
  function AsyncDefaultHandlers<T(!new), M(!new), E(!new)>(): (r: AsyncHandlers<T, M, E>)
    ensures forall s, a :: r.started(s, a) == Started(s, a)
    ensures forall s, a :: r.done(s, a) == Done(s, a)
    ensures forall s, a :: r.failed(s, a) == Failed(s, a)
  {
    AsyncHandlers((s, a) => Started(s, a), (s, a) => Done(s, a), (s, a) => Failed(s, a))
  }

  /** `isType(action, creator)`: the action carries the creator's type string. */
  predicate IsType<P>(action: Action<P>, actionType: string) {
    action.actionType == actionType
  }

  /** `handlers[i]` is the first handler whose type matches the action. */
  predicate FirstMatch<S, P>(handlers: seq<ReducerHandler<S, P>>, action: Action<P>, i: int) {
    0 <= i < |handlers| && IsType(action, handlers[i].actionType) &&
    forall j :: 0 <= j < i ==> !IsType(action, handlers[j].actionType)
  }

  /**
   * The shared body of the custom reducers: find the first handler in list
   * order whose type matches and apply it, or return the state unchanged.
   */
  function ApplyFirstMatching<S, P>(handlers: seq<ReducerHandler<S, P>>, state: S, action: Action<P>): (r: Reduced<S>)
    ensures forall i :: FirstMatch(handlers, action, i) ==> r == handlers[i].handler(state, action)
    ensures (forall i :: 0 <= i < |handlers| ==> !IsType(action, handlers[i].actionType)) ==> r == Next(state)
  {
    var matches := (h: ReducerHandler<S, P>) => IsType(action, h.actionType);
    var found := Arrays.FindIndex(handlers, matches);
    assert forall i :: FirstMatch(handlers, action, i) ==> found == Some(i) by {
      forall i | FirstMatch(handlers, action, i)
        ensures found == Some(i)
      {
        assert matches(handlers[i]);
      }
    }
    match found
    case Some(i) => handlers[i].handler(state, action)
    case None => Next(state)
  }

  /** The state `itemCustomReducer` starts from when it is given none: `initialData || null`. */
  function InitialItemState<T>(initialData: Option<T>, truthy: T -> bool): (r: Option<T>)
    ensures r.Some? <==> initialData.Some? && truthy(initialData.value)
    ensures r.Some? ==> r == initialData
  {
    if initialData.Some? && truthy(initialData.value) then initialData else None
  }

  /**
   * `itemCustomReducer(handlers, initialData)` applied to `state` (`None`
   * when the argument is `undefined`) and `action`.
   */
  function ItemCustomReducer<T, P>(handlers: seq<ReducerHandler<Option<T>, P>>, initialData: Option<T>, truthy: T -> bool,
                                   state: Option<Option<T>>, action: Action<P>): (r: Reduced<Option<T>>)
    ensures forall i :: FirstMatch(handlers, action, i) ==>
              r == handlers[i].handler(state.GetOr(InitialItemState(initialData, truthy)), action)
    ensures (forall i :: 0 <= i < |handlers| ==> !IsType(action, handlers[i].actionType)) ==>
              r == Next(state.GetOr(InitialItemState(initialData, truthy)))
  {
    ApplyFirstMatching(handlers, state.GetOr(InitialItemState(initialData, truthy)), action)
  }

  /**
   * `asyncItemCustomReducer(handlers, initialData, initialMeta)` applied to
   * `state` (`None` when the argument is `undefined`) and `action`.
   */
  function AsyncItemCustomReducer<T, M, E>(handlers: seq<ReducerHandler<AsyncData<T, M, E>, Payload<T, M, E>>>,
                                           initialData: Option<T>, initialMeta: Option<M>,
                                           state: Option<AsyncData<T, M, E>>, action: Action<Payload<T, M, E>>): (r: Reduced<AsyncData<T, M, E>>)
    ensures forall i :: FirstMatch(handlers, action, i) ==>
              r == handlers[i].handler(state.GetOr(GetInitialAsyncData(initialData, initialMeta)), action)
    ensures (forall i :: 0 <= i < |handlers| ==> !IsType(action, handlers[i].actionType)) ==>
              r == Next(state.GetOr(GetInitialAsyncData(initialData, initialMeta)))
  {
    ApplyFirstMatching(handlers, state.GetOr(GetInitialAsyncData(initialData, initialMeta)), action)
  }

  /**
   * `asyncItemDefaultReducerGenerator(creators, initialData, initialMeta)`
   * applied to `state` and `action`: the creator types are tried in the
   * order started, done, failed; any other action leaves the state as it is.
   */
  function AsyncItemDefaultReducer<T(!new), M(!new), E(!new)>(creators: AsyncActionCreators, initialData: Option<T>, initialMeta: Option<M>,
                                            state: Option<AsyncData<T, M, E>>, action: Action<Payload<T, M, E>>): (r: Reduced<AsyncData<T, M, E>>)
    ensures state.None? && !IsType(action, creators.started) && !IsType(action, creators.done) && !IsType(action, creators.failed)
            ==> r == Next(AsyncData(initialData, initialMeta, None, Idle))
    ensures r.Next? && (IsType(action, creators.started) || IsType(action, creators.done) || IsType(action, creators.failed))
            ==> r.state.status != Idle
  {
    var s := state.GetOr(GetInitialAsyncData(initialData, initialMeta));
    if IsType(action, creators.started) then AsyncDefaultHandlers().started(s, action)
    else if IsType(action, creators.done) then AsyncDefaultHandlers().done(s, action)
    else if IsType(action, creators.failed) then AsyncDefaultHandlers().failed(s, action)
    else Next(s)
  }

  /** The handler table the default reducer amounts to. */
  function DefaultTable<T(!new), M(!new), E(!new)>(creators: AsyncActionCreators): (r: seq<ReducerHandler<AsyncData<T, M, E>, Payload<T, M, E>>>)
    ensures |r| == 3
  {
    var h := AsyncDefaultHandlers<T, M, E>();
    [ReducerHandler(creators.started, h.started), ReducerHandler(creators.done, h.done), ReducerHandler(creators.failed, h.failed)]
  }

  /** The default reducer is the custom reducer over the table of the three default handlers. */
  lemma DefaultReducerIsCustomReducer<T(!new), M(!new), E(!new)>(creators: AsyncActionCreators, initialData: Option<T>, initialMeta: Option<M>,
                                               state: Option<AsyncData<T, M, E>>, action: Action<Payload<T, M, E>>)
    ensures AsyncItemDefaultReducer(creators, initialData, initialMeta, state, action)
         == AsyncItemCustomReducer(DefaultTable(creators), initialData, initialMeta, state, action)
  {
    var table := DefaultTable<T, M, E>(creators);
    if IsType(action, creators.started) {
      assert FirstMatch(table, action, 0);
    } else if IsType(action, creators.done) {
      assert FirstMatch(table, action, 1);
    } else if IsType(action, creators.failed) {
      assert FirstMatch(table, action, 2);
    } else {
      assert forall i :: 0 <= i < |table| ==> !IsType(action, table[i].actionType);
    }
  }

  /** A branch that is idle or has loaded successfully carries no error. */
  predicate Consistent<T, M, E>(s: AsyncData<T, M, E>) {
    (s.status == Idle || s.status == Success) ==> s.error.None?
  }

  /** The default reducer keeps a branch consistent. */
  lemma DefaultReducerKeepsConsistent<T(!new), M(!new), E(!new)>(creators: AsyncActionCreators, initialData: Option<T>, initialMeta: Option<M>,
                                               state: Option<AsyncData<T, M, E>>, action: Action<Payload<T, M, E>>)
    requires state.Some? ==> Consistent(state.value)
    ensures AsyncItemDefaultReducer(creators, initialData, initialMeta, state, action).Next? ==>
              Consistent(AsyncItemDefaultReducer(creators, initialData, initialMeta, state, action).state)
  {
  }
}
