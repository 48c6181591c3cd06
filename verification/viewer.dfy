/**
 * The rendering-engine side of `MoleculeService`: the calls it issues to a viewer, the
 * visibility poll of `initViewer`, and how initialization settles. The engine itself is
 * an oracle: whether it is loaded, what the container's visibility is at each poll tick,
 * whether `createViewer` succeeds, and which viewer call (if any) throws.
 */
module Viewer {
  import opened Wrappers
  import opened MoleculeErrors

  /** An opaque handle for a viewer created by the rendering engine. */
  datatype ViewerHandle = ViewerHandle(id: nat)

  /** The style `display3DStructure` applies: sticks of radius 0.2 and spheres of radius 0.5. */
  datatype Style = StickAndSphere(stickRadius: real, sphereRadius: real)

  /** One call on the viewer, as recorded in the service's trace. */
  datatype ViewerCall =
    | Clear
    | AddModel(data: string, format: string)
    | SetStyle(style: Style)
    | ZoomTo
    | Render
    | RemoveAllModels
    | Dispose

  /** The fixed sequence of calls `display3DStructure` makes for one SDF payload. */
  function DisplayCalls(sdf: string): (calls: seq<ViewerCall>)
    ensures |calls| == 5 && calls[0] == Clear && calls[|calls| - 1] == Render
    ensures AddModel(sdf, "sdf") in calls && SetStyle(StickAndSphere(0.2, 0.5)) in calls
  {
    [Clear, AddModel(sdf, "sdf"), SetStyle(StickAndSphere(0.2, 0.5)), ZoomTo, Render]
  }

  /** The calls `cleanup` makes on a live viewer. */
  const TeardownCalls: seq<ViewerCall> := [RemoveAllModels, Dispose]

  /** A block of calls throws when the call at position `failAt` exists. */
  predicate Throws(calls: seq<ViewerCall>, failAt: Option<nat>)
  {
    failAt.Some? && failAt.value < |calls|
  }

  /**
   * The calls actually issued from a block run inside one `try`: all of them, or those up
   * to and including the one that throws.
   */
  function Issued(calls: seq<ViewerCall>, failAt: Option<nat>): (r: seq<ViewerCall>)
    ensures r <= calls
    ensures Throws(calls, failAt) <==> |r| < |calls| || (failAt.Some? && failAt.value == |calls| - 1)
    ensures Throws(calls, failAt) ==> |r| == failAt.value + 1
    ensures !Throws(calls, failAt) ==> r == calls
  {
    if Throws(calls, failAt) then calls[..failAt.value + 1] else calls
  }

  // ---------------------------------------------------------------------------
  // Initialization
  // ---------------------------------------------------------------------------

  const PollIntervalMs: nat := 100   // milliseconds between visibility checks
  const InitTimeoutMs: nat := 5000   // milliseconds before 'Viewer initialization timeout'

  /** The time of poll tick `k` (counting from 0). */
  function PollTime(k: nat): nat
  {
    PollIntervalMs * (k + 1)
  }

  /** The number of ticks that fire before the timeout (a tick at the timeout itself loses). */
  const MaxPolls: nat := (InitTimeoutMs - 1) / PollIntervalMs

  lemma MaxPollsIsTickCount(k: nat)
    ensures PollTime(k) < InitTimeoutMs <==> k < MaxPolls
  {
  }

  /**
   * What `initViewer` will find: whether the rendering engine is loaded, the container's
   * visibility (`offsetParent !== null`) at successive poll ticks, and whether
   * `createViewer` succeeds.
   */
  datatype InitEnvironment = InitEnvironment(libraryLoaded: bool, visibility: seq<bool>, createSucceeds: bool)

  /** The first tick at or after `k`, before the timeout, at which the container is visible. */
  function FirstVisibleFrom(visibility: seq<bool>, k: nat): Option<nat>
    decreases |visibility| - k
  {
    if k >= |visibility| || k >= MaxPolls then None
    else if visibility[k] then Some(k)
    else FirstVisibleFrom(visibility, k + 1)
  }

  /** The container is hidden at every tick in `[from, to)`. */
  ghost predicate HiddenBetween(visibility: seq<bool>, from: nat, to: nat)
  {
    forall j :: from <= j < to && j < |visibility| ==> !visibility[j]
  }

  /**
   * The poll finds the first visible tick before the timeout: a found tick is in range,
   * visible and preceded only by hidden ticks; no tick found means the container stayed
   * hidden at every tick that fires in time.
   */
  lemma {:induction false} FirstVisibleFromFacts(visibility: seq<bool>, k: nat)
    requires HiddenBetween(visibility, 0, k)
    ensures var t := FirstVisibleFrom(visibility, k);
      (t.Some? ==> k <= t.value < |visibility| && t.value < MaxPolls && visibility[t.value]
                   && HiddenBetween(visibility, 0, t.value))
      && (t.None? ==> HiddenBetween(visibility, 0, MaxPolls))
    decreases |visibility| - k
  {
    if k >= |visibility| || k >= MaxPolls {
    } else if !visibility[k] {
      FirstVisibleFromFacts(visibility, k + 1);
    }
  }

  /** The `setInterval` poll, as a loop over the observations that arrive before the timeout. */
  method PollForVisibility(visibility: seq<bool>) returns (tick: Option<nat>)
    ensures tick == FirstVisibleFrom(visibility, 0)
    ensures tick.Some? ==> tick.value < |visibility| && PollTime(tick.value) < InitTimeoutMs && visibility[tick.value]
  {
    var k: nat := 0;
    while k < |visibility| && k < MaxPolls
      invariant k <= MaxPolls
      invariant FirstVisibleFrom(visibility, 0) == FirstVisibleFrom(visibility, k)
      decreases |visibility| - k
    {
      if visibility[k] {
        FirstVisibleFromFacts(visibility, 0);
        MaxPollsIsTickCount(k);
        return Some(k);
      }
      k := k + 1;
    }
    return None;
  }

  /** How an initialization promise settles. */
  datatype InitOutcome = Fulfilled(viewer: ViewerHandle) | Rejected(error: Error)

  /** The stored `initializationPromise`: an identity and the way it settles. */
  datatype InitPromise = InitPromise(id: nat, outcome: InitOutcome)

  /**
   * Why a fresh initialization is rejected, if it is: the engine is missing, or the
   * container never became visible in time, or `createViewer` threw.
   */
  function InitRejection(env: InitEnvironment): (r: Option<Error>)
    ensures r.None? <==> env.libraryLoaded && FirstVisibleFrom(env.visibility, 0).Some? && env.createSucceeds
    ensures !env.libraryLoaded ==> r == Some(LibraryNotLoaded)
  {
    if !env.libraryLoaded then Some(LibraryNotLoaded)
    else if FirstVisibleFrom(env.visibility, 0).None? then Some(InitTimeout)
    else if !env.createSucceeds then Some(CreateViewerFailed)
    else None
  }

  /** A fresh initialization fulfils with the new viewer `v` unless it is rejected. */
  function InitOutcomeFor(env: InitEnvironment, v: ViewerHandle): InitOutcome
  {
    match InitRejection(env)
    case Some(e) => Rejected(e)
    case None => Fulfilled(v)
  }

  /** A container that stays hidden for the first 49 ticks times out, however visible it becomes later. */
  lemma HiddenContainerTimesOut(env: InitEnvironment)
    requires env.libraryLoaded
    requires forall j :: 0 <= j < |env.visibility| && j < MaxPolls ==> !env.visibility[j]
    ensures InitRejection(env) == Some(InitTimeout)
  {
    FirstVisibleFromFacts(env.visibility, 0);
  }
}
