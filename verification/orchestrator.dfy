/**
 * The decision `visualizeMolecule` makes from the outcomes of its stages: identifier
 * lookup, structure fetch and 3D display. Any failure in that chain falls back to the
 * alias table's image when the lowered name has one, and is rethrown otherwise.
 */
module Orchestrator {
  import opened Wrappers
  import opened JsText
  import opened MoleculeErrors
  import opened MoleculeMappings
  import opened RetryPolicy
  import opened PubChem

  /** What ends up in the container. */
  datatype Shown = Structure3D(sdf: string) | FallbackImage(path: string)

  /**
   * The `try` block of `visualizeMolecule`: the SDF that was displayed, or the error that
   * left the block. An absent or empty structure is the error 'Failed to fetch 3D structure'.
   */
  function ChainOutcome(resolved: Result<Cid, Error>, structure: StructureResponse, render: Outcome<Error>): Result<string, Error>
  {
    match resolved
    case Failure(e) => Failure(e)
    case Success(_) =>
      match FetchStructure(structure)
      case None => Failure(No3DStructure)
      case Some(sdf) =>
        if sdf == "" then Failure(No3DStructure)
        else if render.Fail? then Failure(render.error)
        else Success(sdf)
  }

  /**
   * `visualizeMolecule(name, container)` given how each stage settles: `resolved` is what
   * `fetchFromPubChem` settles with, `structure` the structure service's response, `render`
   * how `display3DStructure` settles, and `imageLoads` whether the fallback image loads.
   */
  function Visualize(name: string, containerPresent: bool, resolved: Result<Cid, Error>,
                     structure: StructureResponse, render: Outcome<Error>, imageLoads: bool): (r: Result<Shown, Error>)
    ensures (name == "" || !containerPresent) ==> r == Failure(InvalidParameters)
    ensures r.Success? && r.value.Structure3D? ==> r.value.sdf != "" && resolved.Success?
    ensures r.Success? && r.value.FallbackImage? ==> LookupAlias(name).Some?
  {
    if name == "" || !containerPresent then Failure(InvalidParameters)
    else
      match ChainOutcome(resolved, structure, render)
      case Success(sdf) => Success(Structure3D(sdf))
      case Failure(e) =>
        match LookupAlias(name)
        case Some(m) => if imageLoads then Success(FallbackImage(m.fallbackImage)) else Failure(FallbackImageLoadFailed)
        case None => Failure(e)
  }

  /** The stage the call reaches after the checks: whether the display is attempted at all. */
  predicate ReachesDisplay(name: string, containerPresent: bool, resolved: Result<Cid, Error>, structure: StructureResponse)
  {
    name != "" && containerPresent && resolved.Success? && FetchStructure(structure).Some?
    && FetchStructure(structure).value != ""
  }

  /** An empty name or a missing container is rejected before any stage runs. */
  lemma RejectsInvalidParameters(name: string, containerPresent: bool, resolved: Result<Cid, Error>,
                                 structure: StructureResponse, render: Outcome<Error>, imageLoads: bool)
    requires name == "" || !containerPresent
    ensures Visualize(name, containerPresent, resolved, structure, render, imageLoads) == Failure(InvalidParameters)
  {
  }

  /** The 3D structure is shown exactly when every stage succeeds with a non-empty SDF. */
  lemma Shows3DExactlyWhenChainSucceeds(name: string, containerPresent: bool, resolved: Result<Cid, Error>,
                                        structure: StructureResponse, render: Outcome<Error>, imageLoads: bool, sdf: string)
    ensures Visualize(name, containerPresent, resolved, structure, render, imageLoads) == Success(Structure3D(sdf))
      <==> ReachesDisplay(name, containerPresent, resolved, structure) && structure == StructureText(sdf) && render.Pass?
  {
  }

  /**
   * The fallback policy: once the parameters are valid and the chain has failed with `e`,
   * an aliased name shows its fallback image (or fails if that image does not load), and
   * any other name rethrows `e`.
   */
  lemma FallbackPolicy(name: string, containerPresent: bool, resolved: Result<Cid, Error>,
                       structure: StructureResponse, render: Outcome<Error>, imageLoads: bool)
    requires name != "" && containerPresent
    requires ChainOutcome(resolved, structure, render).Failure?
    ensures var r := Visualize(name, containerPresent, resolved, structure, render, imageLoads);
      match LookupAlias(name)
      case Some(m) => r == (if imageLoads then Success(FallbackImage(m.fallbackImage)) else Failure(FallbackImageLoadFailed))
      case None => r == Failure(ChainOutcome(resolved, structure, render).error)
  {
  }

  /** A fallback image on screen is always the alias table's image for the lowered name. */
  lemma FallbackImageComesFromTable(name: string, containerPresent: bool, resolved: Result<Cid, Error>,
                                    structure: StructureResponse, render: Outcome<Error>, imageLoads: bool, path: string)
    requires Visualize(name, containerPresent, resolved, structure, render, imageLoads) == Success(FallbackImage(path))
    ensures ToLower(name) in Mappings && path == Mappings[ToLower(name)].fallbackImage
  {
  }

  /**
   * A structure fetch that failed in transport, one that was not ok and one that gave an
   * empty SDF lead to the same result: the fallback path is taken uniformly.
   */
  lemma StructureFailuresAlike(name: string, containerPresent: bool, resolved: Result<Cid, Error>,
                               render: Outcome<Error>, imageLoads: bool)
    ensures Visualize(name, containerPresent, resolved, StructureUnreachable, render, imageLoads)
         == Visualize(name, containerPresent, resolved, StructureNotOk, render, imageLoads)
         == Visualize(name, containerPresent, resolved, StructureText(""), render, imageLoads)
  {
  }

  // ---------------------------------------------------------------------------
  // The fallback as written: the `catch` indexes the object literal, so a name that
  // lowers to an inherited property takes the fallback branch with an undefined image.
  // ---------------------------------------------------------------------------

  /**
   * `visualizeMolecule` with the `catch` block as written. An inherited property is truthy,
   * so its branch loads the image source `undefined` (the relative URL "undefined");
   * `imageLoads` says whether that load succeeds.
   */
  function VisualizeAsWritten(name: string, containerPresent: bool, resolved: Result<Cid, Error>,
                              structure: StructureResponse, render: Outcome<Error>, imageLoads: bool): (r: Result<Shown, Error>)
    ensures (name == "" || !containerPresent) ==> r == Failure(InvalidParameters)
    ensures r.Success? && r.value.FallbackImage? ==> RecordIndex(ToLower(name)).Some?
    ensures name != "" && containerPresent && ChainOutcome(resolved, structure, render).Failure?
            && RecordIndex(ToLower(name)).Some? ==>
      r == (if imageLoads
            then Success(FallbackImage(match RecordIndex(ToLower(name)).value
                                       case OwnEntry(m) => m.fallbackImage
                                       case InheritedEntry => "undefined"))
            else Failure(FallbackImageLoadFailed))
  {
    if name == "" || !containerPresent then Failure(InvalidParameters)
    else
      match ChainOutcome(resolved, structure, render)
      case Success(sdf) => Success(Structure3D(sdf))
      case Failure(e) =>
        match RecordIndex(ToLower(name))
        case Some(OwnEntry(m)) => if imageLoads then Success(FallbackImage(m.fallbackImage)) else Failure(FallbackImageLoadFailed)
        case Some(InheritedEntry) => if imageLoads then Success(FallbackImage("undefined")) else Failure(FallbackImageLoadFailed)
        case None => Failure(e)
  }

  /**
   * As written, a failed chain for "Constructor" never rethrows its error: it ends in the
   * fallback branch with the image "undefined". The table-only decision rethrows the error.
   */
  lemma ConstructorFallsBackAsWritten(resolved: Result<Cid, Error>, structure: StructureResponse,
                                      render: Outcome<Error>, imageLoads: bool)
    requires ChainOutcome(resolved, structure, render).Failure?
    ensures VisualizeAsWritten("Constructor", true, resolved, structure, render, imageLoads)
         == (if imageLoads then Success(FallbackImage("undefined")) else Failure(FallbackImageLoadFailed))
    ensures Visualize("Constructor", true, resolved, structure, render, imageLoads)
         == Failure(ChainOutcome(resolved, structure, render).error)
  {
    ConstructorHitsPrototype();
  }

  /** Away from the two inherited keys, the decision as written and the table-only decision agree. */
  lemma VisualizeAgreesOffPrototype(name: string, containerPresent: bool, resolved: Result<Cid, Error>,
                                    structure: StructureResponse, render: Outcome<Error>, imageLoads: bool)
    requires ToLower(name) !in InheritedKeys
    ensures VisualizeAsWritten(name, containerPresent, resolved, structure, render, imageLoads)
         == Visualize(name, containerPresent, resolved, structure, render, imageLoads)
  {
    LookupAliasAgreesOffPrototype(name);
  }

  // ---------------------------------------------------------------------------
  // Scenarios, with the lookup stage settled by the retried lookup
  // ---------------------------------------------------------------------------

  /** "ceramide" is aliased to 5283565; with a non-empty SDF and a working viewer the 3D structure is shown. */
  lemma CeramideShows3D(responses: nat -> LookupResponse, sdf: string, imageLoads: bool)
    requires sdf != ""
    ensures Resolve("ceramide", responses).result == Success("5283565")
    ensures Visualize("ceramide", true, Resolve("ceramide", responses).result, StructureText(sdf), Pass, imageLoads)
         == Success(Structure3D(sdf))
  {
    ToLowerOfLower("ceramide");
    AliasedNameSkipsNetwork("ceramide", responses);
  }

  /** A non-ok structure response for "cholesterol" shows the cholesterol fallback image. */
  lemma CholesterolFallsBack(responses: nat -> LookupResponse, render: Outcome<Error>)
    ensures Visualize("cholesterol", true, Resolve("cholesterol", responses).result, StructureNotOk, render, true)
         == Success(FallbackImage("./resources/images/molecules/cholesterol.png"))
  {
    ToLowerOfLower("cholesterol");
    AliasedNameSkipsNetwork("cholesterol", responses);
  }

  /** "unknown-xyz" is not aliased; three empty identifier lists end the call with 'No molecule data found'. */
  lemma UnknownNameFails(responses: nat -> LookupResponse, structure: StructureResponse,
                         render: Outcome<Error>, imageLoads: bool)
    requires forall i: nat :: responses(i) == Json(Some([]))
    ensures Visualize("unknown-xyz", true, Resolve("unknown-xyz", responses).result, structure, render, imageLoads)
         == Failure(NoMoleculeDataFound)
  {
    UnknownNameHasNoAlias();
    EmptyListsExhaustRetries("unknown-xyz", responses);
  }
}
