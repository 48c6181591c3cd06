/**
 * The alias table `MOLECULE_MAPPINGS`: a fixed map from a lower-case molecule name
 * to its PubChem compound identifier, display name and fallback image.
 */
module MoleculeMappings {
  import opened Wrappers
  import opened JsText

  /** A PubChem compound identifier, as the text that goes into a request URL. */
  type Cid = string

  datatype MoleculeMapping = MoleculeMapping(cid: Cid, displayName: string, fallbackImage: string)

  const Mappings: map<string, MoleculeMapping> := map[
    "ceramide" := MoleculeMapping("5283565", "Ceramide", "./resources/images/molecules/ceramide.png"),
    "cholesterol" := MoleculeMapping("5997", "Cholesterol", "./resources/images/molecules/cholesterol.png"),
    "fatty-acids" := MoleculeMapping("985", "Fatty Acids", "./resources/images/molecules/fatty-acids.png"),
    "hyaluronan" := MoleculeMapping("24847768", "Hyaluronic Acid", "./resources/images/molecules/hyaluronan.png")
  ]

  /** The table has exactly four keys. */
  lemma MappingKeys()
    ensures Mappings.Keys == {"ceramide", "cholesterol", "fatty-acids", "hyaluronan"}
  {
  }

  /** Every key is already lower-case, so the lowered input can match any of them. */
  lemma MappingKeysAreLowerCase()
    ensures forall k :: k in Mappings ==> ToLower(k) == k
  {
    forall k | k in Mappings ensures ToLower(k) == k {
      MappingKeys();
      if k == "ceramide" {
        ToLowerOfLower("ceramide");
      } else if k == "cholesterol" {
        ToLowerOfLower("cholesterol");
      } else if k == "fatty-acids" {
        ToLowerOfLower("fatty-acids");
      } else {
        ToLowerOfLower("hyaluronan");
      }
    }
  }

  /**
   * `MOLECULE_MAPPINGS[name.toLowerCase()]`, restricted to the table's own entries:
   * an alias is found exactly when the lowered name is a key of the table.
   */
  function LookupAlias(name: string): (r: Option<MoleculeMapping>)
    ensures r.Some? <==> ToLower(name) in Mappings
    ensures r.Some? ==> r.value == Mappings[ToLower(name)]
  {
    var key := ToLower(name);
    if key in Mappings then Some(Mappings[key]) else None
  }

  /** The lookup ignores case: names that lower to the same text find the same alias. */
  lemma LookupAliasIgnoresCase(a: string, b: string)
    requires ToLower(a) == ToLower(b)
    ensures LookupAlias(a) == LookupAlias(b)
  {
  }

  /** Any spelling of "Ceramide" resolves to compound 5283565. */
  lemma CeramideAlias()
    ensures LookupAlias("Ceramide") == Some(Mappings["ceramide"])
    ensures LookupAlias("CERAMIDE") == LookupAlias("Ceramide")
    ensures Mappings["ceramide"].cid == "5283565"
  {
    ToLowerEq("Ceramide", "ceramide");
    ToLowerEq("CERAMIDE", "ceramide");
  }

  /** A name outside the table, in any case, has no alias. */
  lemma UnknownNameHasNoAlias()
    ensures LookupAlias("unknown-xyz") == None
    ensures LookupAlias("Unknown-XYZ") == None
  {
    assert "unknown-xyz" !in Mappings by { MappingKeys(); }
    assert ToLower("unknown-xyz") == "unknown-xyz" by { ToLowerOfLower("unknown-xyz"); }
    assert ToLower("Unknown-XYZ") == "unknown-xyz" by { ToLowerEq("Unknown-XYZ", "unknown-xyz"); }
  }

  // ---------------------------------------------------------------------------
  // The table indexed as the source indexes it: a plain object literal, so a
  // lowered name can also hit a property that every object inherits.
  // ---------------------------------------------------------------------------

  /** What `MOLECULE_MAPPINGS[key]` yields when it is truthy. */
  datatype RecordEntry =
    | OwnEntry(mapping: MoleculeMapping)
    | InheritedEntry  // a property of Object.prototype: truthy, with no `cid` and no `fallbackImage`

  /** The inherited properties of an object literal whose names are entirely lower-case. */
  const InheritedKeys: set<string> := {"constructor", "__proto__"}

  /** Property access on the object literal, own properties first, then the prototype chain. */
  function RecordIndex(key: string): (r: Option<RecordEntry>)
    ensures r.Some? <==> key in Mappings || key in InheritedKeys
    ensures key in Mappings ==> r == Some(OwnEntry(Mappings[key]))
  {
    if key in Mappings then Some(OwnEntry(Mappings[key]))
    else if key in InheritedKeys then Some(InheritedEntry)
    else None
  }

  /** As written, "Constructor" is treated as an alias although the table has no such entry. */
  lemma ConstructorHitsPrototype()
    ensures RecordIndex(ToLower("Constructor")) == Some(InheritedEntry)
    ensures LookupAlias("Constructor") == None
  {
    ToLowerEq("Constructor", "constructor");
  }

  /** On every name outside the two inherited keys, the own-entry lookup agrees with the source's. */
  lemma LookupAliasAgreesOffPrototype(name: string)
    requires ToLower(name) !in InheritedKeys
    ensures LookupAlias(name).Some? <==> RecordIndex(ToLower(name)).Some?
    ensures LookupAlias(name).Some? ==> RecordIndex(ToLower(name)) == Some(OwnEntry(LookupAlias(name).value))
  {
  }
}
