/**
 * The two PubChem requests of `MoleculeService`: the name-to-identifier lookup made on
 * every attempt of `fetchFromPubChem`, and the best-effort 3D structure fetch
 * `fetch3DStructure`. HTTP responses are oracle values.
 */
module PubChem {
  import opened Wrappers
  import opened MoleculeErrors
  import opened MoleculeMappings
  import opened RetryPolicy

  /** How one `fetch` of `.../compound/name/{name}/cids/JSON` settles. */
  datatype LookupResponse =
    | Unreachable                     // fetch rejected: network failure or the 5 s timeout
    | NotOk(statusText: string)       // response.ok is false
    | MalformedJson                   // response.json() rejected
    | Json(cids: Option<seq<Cid>>)    // parsed body; None when IdentifierList or its CID is missing

  /**
   * One attempt of the lookup operation. An aliased name succeeds with its table identifier
   * and never uses the response; otherwise the attempt succeeds exactly when the response is
   * ok and carries a non-empty identifier list, and then yields its first element.
   */
  function LookupAttempt(name: string, response: LookupResponse): (r: Result<Cid, Error>)
    ensures LookupAlias(name).Some? ==> r == Success(LookupAlias(name).value.cid)
    ensures LookupAlias(name).None? ==>
      (r.Success? <==> response.Json? && response.cids.Some? && |response.cids.value| > 0)
    ensures LookupAlias(name).None? && r.Success? ==> r.value == response.cids.value[0]
    ensures LookupAlias(name).None? && response.Unreachable? ==> r == Failure(NetworkError)
    ensures LookupAlias(name).None? && response.NotOk? ==> r == Failure(PubChemApiError(response.statusText))
  {
    match LookupAlias(name)
    case Some(m) => Success(m.cid)
    case None =>
      match response
      case Unreachable => Failure(NetworkError)
      case NotOk(text) => Failure(PubChemApiError(text))
      case MalformedJson => Failure(MalformedResponse)
      case Json(cids) =>
        if cids.None? || |cids.value| == 0 then Failure(NoMoleculeDataFound) else Success(cids.value[0])
  }

  /** The retried operation: attempt `i` sees the `i`-th response the service would return. */
  function LookupOp(name: string, responses: nat -> LookupResponse): nat -> Result<Cid, Error>
  {
    (i: nat) => LookupAttempt(name, responses(i))
  }

  /** The settled lookup for a name not already in flight: three attempts at most. */
  function Resolve(name: string, responses: nat -> LookupResponse): (r: RetryResult<Cid>)
    ensures 0 < r.calls <= MaxRetries
  {
    RetrySpec(LookupOp(name, responses), MaxRetries)
  }

  /** How many network requests a settled lookup made: none for an aliased name. */
  function NetworkCalls(name: string, rr: RetryResult<Cid>): nat
  {
    if LookupAlias(name).Some? then 0 else rr.calls
  }

  /**
   * An aliased name resolves to its table identifier on the first attempt, whatever the
   * network would have answered, and makes no network request.
   */
  lemma AliasedNameSkipsNetwork(name: string, responses: nat -> LookupResponse)
    requires LookupAlias(name).Some?
    ensures Resolve(name, responses) == RetryResult(Success(LookupAlias(name).value.cid), 1)
    ensures NetworkCalls(name, Resolve(name, responses)) == 0
  {
    var op := LookupOp(name, responses);
    assert op(0) == LookupAttempt(name, responses(0));
    RetryContract(op, MaxRetries);
    assert FailedBefore(op, 0);
  }

  /** "Ceramide" resolves to '5283565' with no network request. */
  lemma CeramideResolvesLocally(responses: nat -> LookupResponse)
    ensures Resolve("Ceramide", responses) == RetryResult(Success("5283565"), 1)
    ensures NetworkCalls("Ceramide", Resolve("Ceramide", responses)) == 0
  {
    CeramideAlias();
    AliasedNameSkipsNetwork("Ceramide", responses);
  }

  /**
   * A name that is not aliased and whose every lookup answers with an empty identifier
   * list fails with 'No molecule data found' after three network requests.
   */
  lemma EmptyListsExhaustRetries(name: string, responses: nat -> LookupResponse)
    requires LookupAlias(name).None?
    requires forall i: nat :: responses(i) == Json(Some([]))
    ensures Resolve(name, responses) == RetryResult(Failure(NoMoleculeDataFound), 3)
    ensures NetworkCalls(name, Resolve(name, responses)) == 3
  {
    var op := LookupOp(name, responses);
    RetryContract(op, MaxRetries);
    forall j: nat | j < 3 ensures op(j) == Failure(NoMoleculeDataFound) {
      assert op(j) == LookupAttempt(name, responses(j));
    }
    assert FailedBefore(op, 3);
  }

  // ---------------------------------------------------------------------------
  // The dedup key
  // ---------------------------------------------------------------------------

  const CacheKeyPrefix: string := "pubchem:"

  /** `pubchem:${name}`: the raw name, not lowered. */
  function CacheKey(name: string): (r: string)
    ensures |r| == |CacheKeyPrefix| + |name|
    ensures r[..|CacheKeyPrefix|] == CacheKeyPrefix && r[|CacheKeyPrefix|..] == name
  {
    CacheKeyPrefix + name
  }

  /** Distinct names give distinct keys, so names differing only in case are deduplicated apart. */
  lemma CacheKeyInjective(a: string, b: string)
    ensures CacheKey(a) == CacheKey(b) <==> a == b
  {
    if CacheKey(a) == CacheKey(b) {
      assert a == CacheKey(a)[|CacheKeyPrefix|..];
      assert b == CacheKey(b)[|CacheKeyPrefix|..];
    }
  }

  /** "Ceramide" and "ceramide" share an alias but not a dedup key. */
  lemma CaseVariantsHaveDistinctKeys()
    ensures CacheKey("Ceramide") != CacheKey("ceramide")
    ensures LookupAlias("Ceramide") == LookupAlias("ceramide")
  {
    CacheKeyInjective("Ceramide", "ceramide");
    CeramideAlias();
    MappingKeysAreLowerCase();
  }

  // ---------------------------------------------------------------------------
  // The 3D structure fetch
  // ---------------------------------------------------------------------------

  /** How one `fetch` of `.../compound/cid/{cid}/record/SDF/?record_type=3d` settles. */
  datatype StructureResponse =
    | StructureUnreachable            // fetch or response.text() rejected
    | StructureNotOk                  // response.ok is false
    | StructureText(body: string)     // the SDF text

  /** `fetch3DStructure`: never throws; gives the text exactly when the response is ok. */
  function FetchStructure(response: StructureResponse): (r: Option<string>)
    ensures r.Some? <==> response.StructureText?
    ensures r.Some? ==> r.value == response.body
  {
    match response
    case StructureText(body) => Some(body)
    case _ => None
  }

  // ---------------------------------------------------------------------------
  // The attempt as the source indexes the alias table
  // ---------------------------------------------------------------------------

  /**
   * One attempt when `MOLECULE_MAPPINGS[name.toLowerCase()]` follows the prototype chain:
   * an inherited hit yields `{cid: undefined}`, whose identifier reaches the structure URL
   * as the text "undefined".
   */
  function LookupAttemptAsWritten(name: string, response: LookupResponse): (r: Result<Cid, Error>)
    ensures RecordIndex(JsText.ToLower(name)).Some? ==> r.Success?
    ensures RecordIndex(JsText.ToLower(name)) == Some(InheritedEntry) ==> r == Success("undefined")
    ensures RecordIndex(JsText.ToLower(name)).Some? && RecordIndex(JsText.ToLower(name)).value.OwnEntry? ==>
      r == Success(RecordIndex(JsText.ToLower(name)).value.mapping.cid)
  {
    match RecordIndex(JsText.ToLower(name))
    case Some(OwnEntry(m)) => Success(m.cid)
    case Some(InheritedEntry) => Success("undefined")
    case None => LookupAttempt(name, response)
  }

  /**
   * As written, "Constructor" never reaches the lookup service: it resolves to "undefined"
   * whatever PubChem would answer, while the table-only lookup sends it to the network.
   */
  lemma ConstructorResolvesToUndefined(response: LookupResponse)
    ensures LookupAttemptAsWritten("Constructor", response) == Success("undefined")
    ensures LookupAttempt("Constructor", Json(Some(["1"]))) == Success("1")
  {
    ConstructorHitsPrototype();
  }

  /** Away from the two inherited keys, the source's attempt and the modelled one agree. */
  lemma AsWrittenAgreesOffPrototype(name: string, response: LookupResponse)
    requires JsText.ToLower(name) !in InheritedKeys
    ensures LookupAttemptAsWritten(name, response) == LookupAttempt(name, response)
  {
    LookupAliasAgreesOffPrototype(name);
  }
}
