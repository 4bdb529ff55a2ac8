/** The generic fetch hook of `src/hooks/useApi.tsx`: three pieces of state
    around one request descriptor, a `fetchData` that drives them through a
    fixed sequence, and the automatic first run on mount.  Each React state
    update is one assignment; the ghost `trace` records every state the
    hook passes through. */
module UseApi {
  import opened Wrappers
  import opened Http
  import Api

  datatype FetchState<T> = FetchState(data: Option<T>, isLoading: bool, error: Option<Failure>)

  /** The states one `fetchData` call passes through, from `data` and
      `error` as they were: loading on, error cleared, outcome stored,
      loading off. */
  function Lifecycle<T>(data: Option<T>, error: Option<Failure>, outcome: Result<T, Failure>): seq<FetchState<T>> {
    var stored :=
      match outcome
      case Success(v) => FetchState(Some(v), true, None)
      case Failure(e) => FetchState(data, true, Some(e));
    [FetchState(data, true, error), FetchState(data, true, None), stored, stored.(isLoading := false)]
  }

  /** The lifecycle's promises: loading stays on until the last step and is
      off after it; the stale error is gone before the request goes out and
      comes back only as this call's own failure; a failure keeps the old
      data. */
  lemma LifecycleOrder<T>(data: Option<T>, error: Option<Failure>, outcome: Result<T, Failure>)
    ensures |Lifecycle(data, error, outcome)| == 4
    ensures forall i | 0 <= i < 3 :: Lifecycle(data, error, outcome)[i].isLoading
    ensures !Lifecycle(data, error, outcome)[3].isLoading
    ensures Lifecycle(data, error, outcome)[1].error == None
    ensures forall i | 1 <= i < 4 ::
      Lifecycle(data, error, outcome)[i].error == None
      || (outcome.Failure? && Lifecycle(data, error, outcome)[i].error == Some(outcome.error))
    ensures outcome.Success? ==> Lifecycle(data, error, outcome)[3] == FetchState(Some(outcome.value), false, None)
    ensures outcome.Failure? ==> Lifecycle(data, error, outcome)[3] == FetchState(data, false, Some(outcome.error))
  {
  }

  class FetchHook<T> {
    const world: World
    const request: Descriptor
    const immediate: bool
    var data: Option<T>
    var isLoading: bool
    var error: Option<Failure>
    var mounted: bool
    ghost var trace: seq<FetchState<T>>

    function State(): FetchState<T>
      reads this
    {
      FetchState(data, isLoading, error)
    }

    /** `useApi(config, immediate)` on first render. */
    constructor (world: World, request: Descriptor, immediate: bool)
      ensures this.world == world && this.request == request && this.immediate == immediate
      ensures data == None && error == None && isLoading == immediate
      ensures !mounted && trace == [State()]
    {
      this.world := world;
      this.request := request;
      this.immediate := immediate;
      data := None;
      isLoading := immediate;
      error := None;
      mounted := false;
      trace := [FetchState(None, immediate, None)];
    }

    /** `fetchData` (also handed out as `refetch`), given the server's answer. */
    method Execute(outcome: Result<T, Failure>) returns (r: Result<T, Failure>)
      modifies this, world
      ensures r == outcome
      ensures data == (if outcome.Success? then Some(outcome.value) else old(data))
      ensures error == (if outcome.Failure? then Some(outcome.error) else None)
      ensures !isLoading && mounted == old(mounted)
      ensures trace == old(trace) + Lifecycle(old(data), old(error), outcome)
      ensures world.token == Api.TokenAfter(old(world.token), outcome)
      ensures world.events == old(world.events) + Api.RequestEvents(old(world.token), request, outcome)
    {
      isLoading := true;
      trace := trace + [State()];
      error := None;
      trace := trace + [State()];
      r := Api.MakeRequest(world, request, outcome);
      if r.Success? {
        data := Some(r.value);
      } else {
        error := Some(r.error);
      }
      trace := trace + [State()];
      isLoading := false;
      trace := trace + [State()];
    }

    /** The mount effect (dependencies `[]`): one automatic run when
      `immediate`, none otherwise, and never a second time; its rejection
      is caught. */
    method Mount(outcome: Result<T, Failure>)
      modifies this, world
      ensures mounted
      ensures !old(mounted) && immediate ==>
        && data == (if outcome.Success? then Some(outcome.value) else old(data))
        && error == (if outcome.Failure? then Some(outcome.error) else None)
        && !isLoading
        && trace == old(trace) + Lifecycle(old(data), old(error), outcome)
        && world.token == Api.TokenAfter(old(world.token), outcome)
        && world.events == old(world.events) + Api.RequestEvents(old(world.token), request, outcome)
      ensures old(mounted) || !immediate ==>
        && State() == old(State()) && trace == old(trace)
        && world.token == old(world.token) && world.events == old(world.events)
    {
      if !mounted {
        mounted := true;
        if immediate {
          var _ := Execute(outcome);
        }
      }
    }
  }
}
