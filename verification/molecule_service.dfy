/**
 * The `MoleculeService` object: its viewer, its stored initialization promise and its
 * table of in-flight identifier lookups, updated in place by `initViewer`, `cleanup`,
 * `fetchFromPubChem`, `display3DStructure` and `visualizeMolecule`. Calls run one after
 * the other; every viewer call made is appended to `trace`.
 */
module MoleculeServiceModel {
  import opened Wrappers
  import opened MoleculeErrors
  import opened MoleculeMappings
  import opened RetryPolicy
  import opened PubChem
  import opened Viewer
  import opened Orchestrator

  /** An opaque handle for a pending identifier lookup. */
  datatype RequestHandle = RequestHandle(id: nat)

  /** What `fetchFromPubChem` hands back: a lookup already in flight, or its own settled lookup. */
  datatype FetchOutcome =
    | Joined(handle: RequestHandle)
    | Settled(result: Result<Cid, Error>, attempts: nat, networkCalls: nat)

  const DefaultFallbackImage: string := "/path/to/default-molecule.png"

  /**
   * How `display3DStructure` settles, from the viewer and stored promise it starts with:
   * an absent viewer is initialized first and a rejected initialization is rethrown; a
   * throwing viewer call gives 'Failed to display 3D structure'.
   */
  function DisplayOutcome(viewer: Option<ViewerHandle>, stored: Option<InitPromise>, env: InitEnvironment,
                          sdf: string, failAt: Option<nat>): (r: Outcome<Error>)
    ensures viewer.Some? ==> (r.Fail? <==> Throws(DisplayCalls(sdf), failAt))
    ensures r.Fail? && r.error != DisplayFailed ==> viewer.None?
  {
    var initError :=
      if viewer.Some? then None
      else if stored.Some? then (if stored.value.outcome.Rejected? then Some(stored.value.outcome.error) else None)
      else InitRejection(env);
    if initError.Some? then Fail(initError.value)
    else if Throws(DisplayCalls(sdf), failAt) then Fail(DisplayFailed)
    else Pass
  }

  /** What `fetchFromPubChem` settles with: the joined request's result, or a fresh retried lookup. */
  function ResolvedFor(queue: map<string, RequestHandle>, name: string, responses: nat -> LookupResponse,
                       joined: Result<Cid, Error>): Result<Cid, Error>
  {
    if CacheKey(name) in queue then joined else Resolve(name, responses).result
  }

  /** The SDF text a structure response carries (empty when there is none). */
  function PayloadOf(structure: StructureResponse): string
  {
    if structure.StructureText? then structure.body else ""
  }

  class MoleculeService {
    var fallbackImage: string
    var viewer: Option<ViewerHandle>
    var initializationPromise: Option<InitPromise>
    var requestQueue: map<string, RequestHandle>
    var trace: seq<ViewerCall>
    var nextRequestId: nat
    var nextInitId: nat

    /**
     * The object invariant: a viewer is present exactly when the stored promise fulfilled
     * with it, and every handle came from the allocators.
     */
    ghost predicate Valid()
      reads this
    {
      (forall k :: k in requestQueue ==> requestQueue[k].id < nextRequestId)
      && (viewer.Some? <==> initializationPromise.Some? && initializationPromise.value.outcome.Fulfilled?)
      && (viewer.Some? ==> initializationPromise.value.outcome.viewer == viewer.value)
      && (initializationPromise.Some? ==> initializationPromise.value.id < nextInitId)
    }

    /** `new MoleculeService(config?)`: `config?.fallbackImage ?? '/path/to/default-molecule.png'`. */
    constructor(config: Option<string>)
      ensures Valid()
      ensures fallbackImage == (if config.Some? then config.value else DefaultFallbackImage)
      ensures viewer == None && initializationPromise == None && requestQueue == map[] && trace == []
    {
      fallbackImage := if config.Some? then config.value else DefaultFallbackImage;
      viewer := None;
      initializationPromise := None;
      requestQueue := map[];
      trace := [];
      nextRequestId := 0;
      nextInitId := 0;
    }

    /** `getFallbackImage()` (and `handleViewerError()`, which returns the same field). */
    method GetFallbackImage() returns (path: string)
      ensures path == fallbackImage
    {
      path := fallbackImage;
    }

    // -------------------------------------------------------------------------
    // The request dedup table
    // -------------------------------------------------------------------------

    /** `requestQueue.has(key) ? requestQueue.get(key) : nothing` for the raw-name key. */
    method PendingRequest(name: string) returns (p: Option<RequestHandle>)
      ensures p.Some? <==> CacheKey(name) in requestQueue
      ensures p.Some? ==> p.value == requestQueue[CacheKey(name)]
    {
      var key := CacheKey(name);
      p := if key in requestQueue then Some(requestQueue[key]) else None;
    }

    /**
     * The entry of `fetchFromPubChem`: a hit returns the stored entry and inserts nothing;
     * a miss stores a new handle, distinct from every pending one, under the key.
     */
    method BeginRequest(name: string) returns (handle: RequestHandle, joined: bool)
      requires Valid()
      modifies this
      ensures Valid()
      ensures joined <==> CacheKey(name) in old(requestQueue)
      ensures joined ==> handle == old(requestQueue)[CacheKey(name)] && requestQueue == old(requestQueue)
                         && nextRequestId == old(nextRequestId)
      ensures !joined ==> requestQueue == old(requestQueue)[CacheKey(name) := handle]
                          && nextRequestId == old(nextRequestId) + 1
                          && forall k :: k in old(requestQueue) ==> old(requestQueue)[k] != handle
      ensures viewer == old(viewer) && initializationPromise == old(initializationPromise)
      ensures trace == old(trace) && fallbackImage == old(fallbackImage) && nextInitId == old(nextInitId)
    {
      var key := CacheKey(name);
      if key in requestQueue {
        handle, joined := requestQueue[key], true;
      } else {
        handle, joined := RequestHandle(nextRequestId), false;
        requestQueue := requestQueue[key := handle];
        nextRequestId := nextRequestId + 1;
      }
    }

    /** `requestQueue.delete(key)` when the lookup settles: that key goes, no other key is touched. */
    method SettleRequest(name: string)
      requires Valid()
      modifies this
      ensures Valid()
      ensures requestQueue == old(requestQueue) - {CacheKey(name)}
      ensures viewer == old(viewer) && initializationPromise == old(initializationPromise)
      ensures trace == old(trace) && fallbackImage == old(fallbackImage)
      ensures nextRequestId == old(nextRequestId) && nextInitId == old(nextInitId)
    {
      requestQueue := requestQueue - {CacheKey(name)};
    }

    /**
     * `fetchFromPubChem(name)`. While the key is in flight the stored entry is returned and
     * nothing is inserted. Otherwise a new entry is stored, the retried lookup runs, and the
     * entry is removed on success and on failure alike, leaving the table as it was.
     */
    method FetchFromPubChem(name: string, responses: nat -> LookupResponse) returns (f: FetchOutcome)
      requires Valid()
      modifies this
      ensures Valid()
      ensures CacheKey(name) in old(requestQueue) ==> f == Joined(old(requestQueue)[CacheKey(name)])
      ensures CacheKey(name) !in old(requestQueue) ==>
        f == Settled(Resolve(name, responses).result, Resolve(name, responses).calls,
                     NetworkCalls(name, Resolve(name, responses)))
      ensures requestQueue == old(requestQueue)
      ensures viewer == old(viewer) && initializationPromise == old(initializationPromise)
      ensures trace == old(trace) && fallbackImage == old(fallbackImage) && nextInitId == old(nextInitId)
    {
      var handle, joined := BeginRequest(name);
      if joined {
        return Joined(handle);
      }
      var result, calls := Retry(LookupOp(name, responses), MaxRetries);
      SettleRequest(name);
      assert requestQueue == old(requestQueue);
      return Settled(result, calls, if LookupAlias(name).Some? then 0 else calls);
    }

    // -------------------------------------------------------------------------
    // The viewer lifecycle
    // -------------------------------------------------------------------------

    /**
     * `initViewer(container)`. A stored promise is returned unchanged, whether it fulfilled
     * or was rejected, and no second viewer is created. Otherwise a new promise is stored;
     * it fulfils with a new viewer, which becomes `viewer`, unless initialization is rejected.
     */
    method InitViewer(env: InitEnvironment) returns (p: InitPromise)
      requires Valid()
      modifies this
      ensures Valid()
      ensures old(initializationPromise).Some? ==>
        p == old(initializationPromise).value && initializationPromise == old(initializationPromise)
        && viewer == old(viewer) && nextInitId == old(nextInitId)
      ensures old(initializationPromise).None? ==>
        p == InitPromise(old(nextInitId), InitOutcomeFor(env, ViewerHandle(old(nextInitId))))
        && initializationPromise == Some(p) && nextInitId == old(nextInitId) + 1
        && viewer == (if p.outcome.Fulfilled? then Some(p.outcome.viewer) else None)
      ensures requestQueue == old(requestQueue) && trace == old(trace)
      ensures fallbackImage == old(fallbackImage) && nextRequestId == old(nextRequestId)
    {
      if initializationPromise.Some? {
        return initializationPromise.value;
      }
      var id := nextInitId;
      nextInitId := nextInitId + 1;
      var outcome: InitOutcome;
      if !env.libraryLoaded {
        outcome := Rejected(LibraryNotLoaded);
      } else {
        var tick := PollForVisibility(env.visibility);
        if tick.None? {
          outcome := Rejected(InitTimeout);
        } else if !env.createSucceeds {
          outcome := Rejected(CreateViewerFailed);
        } else {
          viewer := Some(ViewerHandle(id));
          outcome := Fulfilled(ViewerHandle(id));
        }
      }
      p := InitPromise(id, outcome);
      initializationPromise := Some(p);
    }

    /**
     * `cleanup()`. A live viewer has its models removed and is disposed (an error there is
     * swallowed), and then `viewer` and `initializationPromise` are reset; without a viewer
     * both are left as they are, so a rejected promise stays stored. The table is always
     * emptied.
     */
    method Cleanup(failAt: Option<nat>)
      requires Valid()
      modifies this
      ensures Valid()
      ensures requestQueue == map[] && viewer == None
      ensures old(viewer).Some? ==>
        initializationPromise == None && trace == old(trace) + Issued(TeardownCalls, failAt)
      ensures old(viewer).None? ==>
        initializationPromise == old(initializationPromise) && trace == old(trace)
      ensures fallbackImage == old(fallbackImage)
      ensures nextRequestId == old(nextRequestId) && nextInitId == old(nextInitId)
    {
      if viewer.Some? {
        trace := trace + Issued(TeardownCalls, failAt);
        viewer := None;
        initializationPromise := None;
      }
      requestQueue := map[];
    }

    /** A second `cleanup` right after a first one only re-empties the (already empty) table. */
    method CleanupTwice(first: Option<nat>, second: Option<nat>)
      requires Valid()
      modifies this
      ensures Valid()
      ensures requestQueue == map[] && viewer == None
      ensures old(viewer).Some? ==>
        initializationPromise == None && trace == old(trace) + Issued(TeardownCalls, first)
      ensures old(viewer).None? ==>
        initializationPromise == old(initializationPromise) && trace == old(trace)
      ensures fallbackImage == old(fallbackImage)
      ensures nextRequestId == old(nextRequestId) && nextInitId == old(nextInitId)
    {
      Cleanup(first);
      Cleanup(second);
    }

    /**
     * `cleanup()` as evidently intended: the stored initialization promise is always
     * dropped, so a later `initViewer` starts afresh even after a failed initialization.
     */
    method CleanupCorrected(failAt: Option<nat>)
      requires Valid()
      modifies this
      ensures Valid()
      ensures requestQueue == map[] && viewer == None && initializationPromise == None
      ensures trace == old(trace) + (if old(viewer).Some? then Issued(TeardownCalls, failAt) else [])
      ensures fallbackImage == old(fallbackImage)
      ensures nextRequestId == old(nextRequestId) && nextInitId == old(nextInitId)
    {
      if viewer.Some? {
        trace := trace + Issued(TeardownCalls, failAt);
        viewer := None;
      }
      initializationPromise := None;
      requestQueue := map[];
    }

    /**
     * The viewer state after `display3DStructure`, from the viewer `v0`, stored promise `p0`,
     * trace `t0` and promise counter `id0` it started with.
     */
    ghost predicate DisplayedFrom(v0: Option<ViewerHandle>, p0: Option<InitPromise>, t0: seq<ViewerCall>, id0: nat,
                                  env: InitEnvironment, sdf: string, failAt: Option<nat>)
      reads this
    {
      var started := InitPromise(id0, InitOutcomeFor(env, ViewerHandle(id0)));
      var ready := v0.Some? || (v0.None? && p0.None? && started.outcome.Fulfilled?);
      (v0.Some? || p0.Some? ==> viewer == v0 && initializationPromise == p0 && nextInitId == id0)
      && (v0.None? && p0.None? ==>
            initializationPromise == Some(started) && nextInitId == id0 + 1
            && viewer == (if started.outcome.Fulfilled? then Some(started.outcome.viewer) else None))
      && trace == t0 + (if ready then Issued(DisplayCalls(sdf), failAt) else [])
    }

    /**
     * `display3DStructure(container, sdf)`: initializes the viewer if there is none, then
     * issues clear, addModel(sdf, 'sdf'), setStyle(sticks 0.2, spheres 0.5), zoomTo, render.
     */
    method Display3DStructure(sdf: string, env: InitEnvironment, failAt: Option<nat>) returns (r: Outcome<Error>)
      requires Valid()
      modifies this
      ensures Valid()
      ensures r == DisplayOutcome(old(viewer), old(initializationPromise), env, sdf, failAt)
      ensures DisplayedFrom(old(viewer), old(initializationPromise), old(trace), old(nextInitId), env, sdf, failAt)
      ensures requestQueue == old(requestQueue) && fallbackImage == old(fallbackImage)
      ensures nextRequestId == old(nextRequestId)
    {
      if viewer.None? {
        var p := InitViewer(env);
        if p.outcome.Rejected? {
          return Fail(p.outcome.error);
        }
      }
      var calls := DisplayCalls(sdf);
      trace := trace + Issued(calls, failAt);
      r := if Throws(calls, failAt) then Fail(DisplayFailed) else Pass;
    }

    /**
     * `visualizeMolecule(name, container)`, sequencing the stages on this service: the
     * result is the orchestrator's decision on the outcomes the stages actually had, the
     * dedup table ends as it began, and the viewer is touched only when a non-empty
     * structure reached the display stage. `joined` is how an already pending lookup for
     * the same key settles.
     */
    method VisualizeMolecule(name: string, containerPresent: bool, responses: nat -> LookupResponse,
                             joined: Result<Cid, Error>, structure: StructureResponse,
                             env: InitEnvironment, failAt: Option<nat>, imageLoads: bool)
      returns (r: Result<Shown, Error>)
      requires Valid()
      modifies this
      ensures Valid()
      ensures var resolved := ResolvedFor(old(requestQueue), name, responses, joined);
        r == Visualize(name, containerPresent, resolved, structure,
                       DisplayOutcome(old(viewer), old(initializationPromise), env, PayloadOf(structure), failAt),
                       imageLoads)
      ensures var resolved := ResolvedFor(old(requestQueue), name, responses, joined);
        ReachesDisplay(name, containerPresent, resolved, structure) ==>
          DisplayedFrom(old(viewer), old(initializationPromise), old(trace), old(nextInitId),
                        env, PayloadOf(structure), failAt)
      ensures var resolved := ResolvedFor(old(requestQueue), name, responses, joined);
        !ReachesDisplay(name, containerPresent, resolved, structure) ==>
          viewer == old(viewer) && initializationPromise == old(initializationPromise) && trace == old(trace)
      ensures requestQueue == old(requestQueue) && fallbackImage == old(fallbackImage)
    {
      if name == "" || !containerPresent {
        return Failure(InvalidParameters);
      }
      var fetched := FetchFromPubChem(name, responses);
      var resolved := if fetched.Joined? then joined else fetched.result;
      var render: Outcome<Error> := Pass;
      if resolved.Success? {
        var sdf := FetchStructure(structure);
        if sdf.Some? && sdf.value != "" {
          render := Display3DStructure(sdf.value, env, failAt);
        }
      }
      r := Visualize(name, containerPresent, resolved, structure, render, imageLoads);
    }
  }
}

/**
 * Call sequences on a fresh `MoleculeService`, each run one call after another, and what
 * they leave behind.
 */
module MoleculeServiceScenarios {
  import opened Wrappers
  import opened MoleculeErrors
  import opened PubChem
  import opened Viewer
  import opened MoleculeServiceModel

  /** Two `initViewer` calls share one promise: the second creates no viewer. */
  method InitTwiceSharesPromise(env: InitEnvironment) returns (first: InitPromise, second: InitPromise)
    ensures second == first
    ensures InitRejection(env).None? <==> first.outcome.Fulfilled?
  {
    var s := new MoleculeService(None);
    first := s.InitViewer(env);
    second := s.InitViewer(env);
  }

  /** After a successful initialization, `cleanup` then `initViewer` yields a new, working viewer. */
  method TeardownThenInit(env: InitEnvironment) returns (first: InitPromise, second: InitPromise)
    requires InitRejection(env).None?
    ensures first.outcome.Fulfilled? && second.outcome.Fulfilled?
    ensures first.outcome.viewer != second.outcome.viewer
  {
    var s := new MoleculeService(None);
    first := s.InitViewer(env);
    s.Cleanup(None);
    second := s.InitViewer(env);
  }

  /**
   * As written, a rejected initialization outlives `cleanup`: every later `initViewer`
   * returns the same rejection, however ready the engine and the container have become.
   */
  method FailedInitSurvivesCleanup(failing: InitEnvironment, ready: InitEnvironment) returns (later: InitPromise)
    requires InitRejection(failing).Some?
    ensures later.outcome == Rejected(InitRejection(failing).value)
  {
    var s := new MoleculeService(None);
    var first := s.InitViewer(failing);
    s.Cleanup(None);
    later := s.InitViewer(ready);
  }

  /** With the corrected cleanup, a failed initialization no longer blocks the next one. */
  method CorrectedCleanupAllowsReinit(failing: InitEnvironment, ready: InitEnvironment) returns (later: InitPromise)
    requires InitRejection(ready).None?
    ensures later.outcome.Fulfilled?
  {
    var s := new MoleculeService(None);
    var first := s.InitViewer(failing);
    s.CleanupCorrected(None);
    later := s.InitViewer(ready);
  }

  /**
   * Dedup by raw name: a second request for "Ceramide" joins the first, "ceramide" gets an
   * entry of its own, and settling "Ceramide" removes only its own key.
   */
  method DedupByRawName() returns (a: RequestHandle, b: RequestHandle, c: RequestHandle, after: Option<RequestHandle>)
    ensures b == a && c != a
    ensures after == Some(c)
  {
    var s := new MoleculeService(None);
    var joinedA, joinedB, joinedC;
    a, joinedA := s.BeginRequest("Ceramide");
    b, joinedB := s.BeginRequest("Ceramide");
    CacheKeyInjective("Ceramide", "ceramide");
    c, joinedC := s.BeginRequest("ceramide");
    s.SettleRequest("Ceramide");
    var gone := s.PendingRequest("Ceramide");
    assert gone == None;
    after := s.PendingRequest("ceramide");
  }
}
