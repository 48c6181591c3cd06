/**
 * The `Dropdown` component's data handling: `validData`, which keeps the loaded entries
 * shaped like ingredients, `getFilteredIngredients`, the case-insensitive search, and the
 * state the load leaves behind.
 */
module Dropdown {
  import opened Wrappers
  import opened JsText
  import opened Seqs

  /** The JavaScript values the catalog can deliver (numbers as integers, no functions). */
  datatype JsValue =
    | JsUndefined
    | JsNull
    | JsBool(b: bool)
    | JsNumber(n: int)
    | JsString(s: string)
    | JsArray(items: seq<JsValue>)
    | JsObject(props: map<string, JsValue>)

  /** The one error the search can raise: `name.toLowerCase` is not a function. */
  datatype TypeError = ToLowerIsNotAFunction

  // ---------------------------------------------------------------------------
  // validData
  // ---------------------------------------------------------------------------

  /** `item && typeof item === 'object' && 'name' in item`: a non-null, non-array object with a `name`. */
  predicate HasNameProperty(item: JsValue)
  {
    item.JsObject? && "name" in item.props
  }

  /** `Array.isArray(data) ? data.filter(...) : []`, as written. */
  function ValidDataAsWritten(data: JsValue): (r: seq<JsValue>)
    ensures forall x :: x in r ==> x.JsObject? && "name" in x.props
    ensures data.JsArray? ==> |r| <= |data.items|
  {
    if data.JsArray? then Filter(HasNameProperty, data.items) else []
  }

  /** An ingredient as the component's `Ingredient` type declares it: an object whose `name` is a string. */
  predicate IsIngredient(item: JsValue)
  {
    item.JsObject? && "name" in item.props && item.props["name"].JsString?
  }

  /** `validData` with the shape check the `Ingredient` type calls for: the name must be a string. */
  function ValidData(data: JsValue): (r: seq<JsValue>)
    ensures forall x :: x in r ==> IsIngredient(x)
    ensures data.JsArray? ==> |r| <= |data.items|
  {
    if data.JsArray? then Filter(IsIngredient, data.items) else []
  }

  /** A load result that is not an array yields no ingredients. */
  lemma NonArrayYieldsNothing(data: JsValue)
    requires !data.JsArray?
    ensures ValidData(data) == [] && ValidDataAsWritten(data) == []
  {
  }

  /**
   * As written, `validData` keeps exactly the objects with a `name` property, in their
   * original order.
   */
  lemma ValidDataAsWrittenKeepsNamedObjects(items: seq<JsValue>)
    ensures IsSubsequence(ValidDataAsWritten(JsArray(items)), items)
    ensures forall x :: x in ValidDataAsWritten(JsArray(items)) <==> x in items && HasNameProperty(x)
  {
    FilterIsSubsequence(HasNameProperty, items);
    forall x ensures x in ValidDataAsWritten(JsArray(items)) <==> x in items && HasNameProperty(x) {
      FilterMembership(HasNameProperty, items, x);
    }
  }

  /** The corrected `validData` keeps exactly the ingredients, in their original order. */
  lemma ValidDataKeepsIngredients(items: seq<JsValue>)
    ensures IsSubsequence(ValidData(JsArray(items)), items)
    ensures forall x :: x in ValidData(JsArray(items)) <==> x in items && IsIngredient(x)
  {
    FilterIsSubsequence(IsIngredient, items);
    forall x ensures x in ValidData(JsArray(items)) <==> x in items && IsIngredient(x) {
      FilterMembership(IsIngredient, items, x);
    }
  }

  // ---------------------------------------------------------------------------
  // getFilteredIngredients
  // ---------------------------------------------------------------------------

  /** `ing?.name`: undefined for null and undefined, the property (or undefined) otherwise. */
  function NameOf(ing: JsValue): JsValue
  {
    if ing.JsObject? && "name" in ing.props then ing.props["name"] else JsUndefined
  }

  /** The name would make `name?.toLowerCase()` throw: it is neither nullish nor a string. */
  predicate HasBadName(ing: JsValue)
  {
    var name := NameOf(ing);
    !(name.JsUndefined? || name.JsNull? || name.JsString?)
  }

  /** An entry matches when its name is a string whose lowered form contains `lowerTerm`. */
  predicate Matches(lowerTerm: string, ing: JsValue)
  {
    NameOf(ing).JsString? && Includes(ToLower(NameOf(ing).s), lowerTerm)
  }

  /** The filter callback `ing?.name?.toLowerCase().includes(term)` for one entry. */
  function MatchesSearch(ing: JsValue, lowerTerm: string): (r: Result<bool, TypeError>)
    ensures r.Failure? <==> HasBadName(ing)
    ensures r.Success? ==> (r.value <==> Matches(lowerTerm, ing))
  {
    match NameOf(ing)
    case JsUndefined => Success(false)
    case JsNull => Success(false)
    case JsString(s) => Success(Includes(ToLower(s), lowerTerm))
    case _ => Failure(ToLowerIsNotAFunction)
  }

  /** `ingredients.filter(callback)`, left to right; a throwing callback aborts the filter. */
  function FilterBySearch(ingredients: seq<JsValue>, lowerTerm: string): (r: Result<seq<JsValue>, TypeError>)
    ensures r.Failure? <==> exists i :: 0 <= i < |ingredients| && HasBadName(ingredients[i])
    ensures r.Success? ==> r.value == Filter((x: JsValue) => Matches(lowerTerm, x), ingredients)
  {
    if ingredients == [] then Success([])
    else
      match MatchesSearch(ingredients[0], lowerTerm)
      case Failure(e) => Failure(e)
      case Success(keep) =>
        match FilterBySearch(ingredients[1..], lowerTerm)
        case Failure(e) => Failure(e)
        case Success(rest) => Success(if keep then [ingredients[0]] + rest else rest)
  }

  /** `getFilteredIngredients()` for the current ingredients and search term. */
  function GetFilteredIngredients(ingredients: seq<JsValue>, searchTerm: string): (r: Result<seq<JsValue>, TypeError>)
    ensures r.Success? ==> |r.value| <= |ingredients| && forall x :: x in r.value ==> x in ingredients
    ensures r.Failure? <==> exists x :: x in ingredients && HasBadName(x)
  {
    FilterBySearch(ingredients, ToLower(searchTerm))
  }

  /**
   * The search returns an order-preserving subsequence of the ingredients, holding exactly
   * the entries whose lowered name contains the lowered term.
   */
  lemma SearchKeepsMatchesInOrder(ingredients: seq<JsValue>, searchTerm: string)
    requires GetFilteredIngredients(ingredients, searchTerm).Success?
    ensures var r := GetFilteredIngredients(ingredients, searchTerm).value;
      IsSubsequence(r, ingredients)
      && forall x :: x in r <==> x in ingredients && NameOf(x).JsString?
                                 && Includes(ToLower(NameOf(x).s), ToLower(searchTerm))
  {
    var p := (x: JsValue) => Matches(ToLower(searchTerm), x);
    FilterIsSubsequence(p, ingredients);
    forall x ensures x in Filter(p, ingredients) <==> x in ingredients && p(x) {
      FilterMembership(p, ingredients, x);
    }
  }

  /** Search terms that differ only in case give the same result. */
  lemma SearchIgnoresCase(ingredients: seq<JsValue>, a: string, b: string)
    requires ToLower(a) == ToLower(b)
    ensures GetFilteredIngredients(ingredients, a) == GetFilteredIngredients(ingredients, b)
  {
  }

  /** With an empty term, every entry whose name is a string is returned. */
  lemma EmptyTermKeepsNamed(ingredients: seq<JsValue>)
    requires GetFilteredIngredients(ingredients, "").Success?
    ensures GetFilteredIngredients(ingredients, "").value
         == Filter((x: JsValue) => NameOf(x).JsString?, ingredients)
  {
    assert ToLower("") == "";
    forall x | x in ingredients ensures Matches("", x) == NameOf(x).JsString? {
      if NameOf(x).JsString? {
        IncludesEmpty(ToLower(NameOf(x).s));
      }
    }
    FilterCongruent((x: JsValue) => Matches("", x), (x: JsValue) => NameOf(x).JsString?, ingredients);
  }

  /**
   * As written, `validData` lets `{name: 5}` through, and the search then throws whatever
   * the term is.
   */
  lemma NumericNameBreaksSearch(searchTerm: string)
    ensures var loaded := ValidDataAsWritten(JsArray([JsObject(map["name" := JsNumber(5)])]));
      loaded == [JsObject(map["name" := JsNumber(5)])]
      && GetFilteredIngredients(loaded, searchTerm) == Failure(ToLowerIsNotAFunction)
  {
  }

  /** The search never throws on what the corrected `validData` keeps, and an empty term returns it whole. */
  lemma SearchSafeOnValidData(data: JsValue, searchTerm: string)
    ensures GetFilteredIngredients(ValidData(data), searchTerm).Success?
    ensures GetFilteredIngredients(ValidData(data), "") == Success(ValidData(data))
  {
    var kept := ValidData(data);
    forall i | 0 <= i < |kept| ensures !HasBadName(kept[i]) {
      assert kept[i] in kept;
    }
    EmptyTermKeepsNamed(kept);
    FilterKeepsAll((x: JsValue) => NameOf(x).JsString?, kept);
  }

  // ---------------------------------------------------------------------------
  // Loading
  // ---------------------------------------------------------------------------

  /** The component state the load touches. */
  datatype DropdownState = DropdownState(ingredients: seq<JsValue>, error: Option<string>, isLoading: bool)

  /** How the awaited `fetchIngredients()` settles. */
  datatype LoadResult = Loaded(data: JsValue) | LoadFailed

  const InitialState: DropdownState := DropdownState([], None, true)

  const LoadErrorMessage: string := "Failed to load ingredients"

  /**
   * `loadIngredients()`: loading starts with the error cleared; if the component is still
   * mounted when the load settles, the ingredients become the entries `validData` keeps as
   * written, or on failure the list is emptied and the error message set, and loading ends.
   */
  function LoadIngredients(s: DropdownState, result: LoadResult, mounted: bool): (r: DropdownState)
    ensures !mounted ==> r == s.(error := None, isLoading := true)
    ensures mounted ==> !r.isLoading
    ensures mounted && result.LoadFailed? ==> r.ingredients == [] && r.error == Some(LoadErrorMessage)
    ensures mounted && result.Loaded? ==> r.ingredients == ValidDataAsWritten(result.data) && r.error == None
  {
    var started := s.(error := None, isLoading := true);
    if !mounted then started
    else
      match result
      case Loaded(data) => started.(ingredients := ValidDataAsWritten(data), isLoading := false)
      case LoadFailed => started.(ingredients := [], error := Some(LoadErrorMessage), isLoading := false)
  }

  /**
   * As written, a catalog entry `{name: 5}` survives the load, and every later search over
   * the loaded list throws.
   */
  lemma LoadKeepsNumericName(s: DropdownState, searchTerm: string)
    ensures var entry := JsObject(map["name" := JsNumber(5)]);
      var loaded := LoadIngredients(s, Loaded(JsArray([entry])), true);
      loaded.ingredients == [entry]
      && GetFilteredIngredients(loaded.ingredients, searchTerm) == Failure(ToLowerIsNotAFunction)
  {
    NumericNameBreaksSearch(searchTerm);
  }

  /** `loadIngredients()` as evidently intended: it keeps only entries whose name is a string. */
  function LoadIngredientsCorrected(s: DropdownState, result: LoadResult, mounted: bool): (r: DropdownState)
    ensures !mounted ==> r == s.(error := None, isLoading := true)
    ensures mounted ==> !r.isLoading
    ensures mounted && result.LoadFailed? ==> r.ingredients == [] && r.error == Some(LoadErrorMessage)
    ensures mounted && result.Loaded? ==> r.ingredients == ValidData(result.data) && r.error == None
  {
    var started := s.(error := None, isLoading := true);
    if !mounted then started
    else
      match result
      case Loaded(data) => started.(ingredients := ValidData(data), isLoading := false)
      case LoadFailed => started.(ingredients := [], error := Some(LoadErrorMessage), isLoading := false)
  }

  /** With the corrected load, whatever the load delivers, the search over the resulting list does not throw. */
  lemma SearchSafeAfterLoad(s: DropdownState, result: LoadResult, searchTerm: string)
    ensures GetFilteredIngredients(LoadIngredientsCorrected(s, result, true).ingredients, searchTerm).Success?
  {
    if result.Loaded? {
      SearchSafeOnValidData(result.data, searchTerm);
    }
  }
}
