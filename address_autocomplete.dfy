/**
 * The address field with suggestions: the predictions of the three searches are merged,
 * repeated places dropped, the restriction lists applied and the rest ordered with the
 * predictions whose main text starts with the input first. The search service, the
 * place-details lookup and the timers are outside the model: their answers are parameters.
 */
module AddressAutocomplete {
  import opened Wrappers
  import opened Text
  import opened Seqs
  import opened Sorting
  import LocationConfig

  /** One prediction of the places service; the optional texts may be absent. */
  datatype Prediction = Prediction(placeId: string, description: Option<string>,
                                   mainText: string, secondaryText: Option<string>)

  /** `text || ''`. */
  function TextOr(t: Option<string>): string {
    match t case Some(s) => s case None => ""
  }

  /** The fewest characters a search needs. */
  const MinInputLength := 2

  // ---------------------------------------------------------------------------------------
  // Merging and dropping repeated places

  /** `results.flat()`. */
  function Flatten(results: seq<seq<Prediction>>): (r: seq<Prediction>)
    ensures forall x :: x in r <==> exists k :: 0 <= k < |results| && x in results[k]
  {
    if results == [] then [] else Flatten(results[..|results| - 1]) + results[|results| - 1]
  }

  /** `self.findIndex(p => p.place_id === id)`. */
  function FirstIndex(s: seq<Prediction>, id: string): (r: Option<nat>)
    ensures r.Some? ==> r.value < |s| && s[r.value].placeId == id
                        && forall j :: 0 <= j < r.value ==> s[j].placeId != id
    ensures r.None? ==> forall j :: 0 <= j < |s| ==> s[j].placeId != id
  {
    if s == [] then None
    else if s[0].placeId == id then Some(0)
    else
      match FirstIndex(s[1..], id)
      case Some(k) => Some(k + 1)
      case None => None
  }

  /** Position `i` holds the first prediction of its place. */
  predicate IsFirst(s: seq<Prediction>, i: int)
    requires 0 <= i < |s|
  {
    FirstIndex(s, s[i].placeId) == Some(i)
  }

  /** The first predictions of their places among the first `n`, in their order. */
  function DedupPrefix(s: seq<Prediction>, n: nat): seq<Prediction>
    requires n <= |s|
  {
    if n == 0 then []
    else DedupPrefix(s, n - 1) + (if IsFirst(s, n - 1) then [s[n - 1]] else [])
  }

  /** `uniquePredictions`: keep a prediction iff it is the first of its place. */
  function Dedup(s: seq<Prediction>): seq<Prediction> {
    DedupPrefix(s, |s|)
  }

  function PlaceId(p: Prediction): string {
    p.placeId
  }

  /** The kept predictions are exactly the first ones of their places. */
  lemma {:induction false} DedupMembers(s: seq<Prediction>, n: nat)
    requires n <= |s|
    ensures forall x :: x in DedupPrefix(s, n) <==> exists i :: 0 <= i < n && IsFirst(s, i) && s[i] == x
  {
    if n > 0 {
      DedupMembers(s, n - 1);
    }
  }

  /** No place is kept twice. */
  lemma {:induction false} DedupDistinct(s: seq<Prediction>, n: nat)
    requires n <= |s|
    ensures DistinctKeys(DedupPrefix(s, n), PlaceId)
  {
    if n > 0 {
      DedupDistinct(s, n - 1);
      DedupMembers(s, n - 1);
      var r0 := DedupPrefix(s, n - 1);
      if IsFirst(s, n - 1) {
        forall x | x in r0
          ensures x.placeId != s[n - 1].placeId
        {
          var i :| 0 <= i < n - 1 && IsFirst(s, i) && s[i] == x;
        }
      }
    }
  }

  /** Every place among the first `n` predictions keeps one: the first of them. */
  lemma DedupCovers(s: seq<Prediction>, n: nat, i: int)
    requires n <= |s| && 0 <= i < n
    ensures var k := FirstIndex(s, s[i].placeId).value;
      k <= i && s[k] in DedupPrefix(s, n) && s[k].placeId == s[i].placeId
  {
    DedupMembers(s, n);
    var k := FirstIndex(s, s[i].placeId).value;
    assert IsFirst(s, k);
  }

  /** Dropping repeats keeps the order: the kept predictions of a prefix come first. */
  lemma {:induction false} DedupKeepsOrder(s: seq<Prediction>, m: nat, n: nat)
    requires m <= n <= |s|
    ensures DedupPrefix(s, m) <= DedupPrefix(s, n)
    decreases n - m
  {
    if m < n {
      DedupKeepsOrder(s, m, n - 1);
    }
  }

  /** A list without repeated places is left as it is. */
  lemma {:induction false} DedupOfDistinct(s: seq<Prediction>, n: nat)
    requires n <= |s| && DistinctKeys(s, PlaceId)
    ensures DedupPrefix(s, n) == s[..n]
  {
    if n > 0 {
      DedupOfDistinct(s, n - 1);
      var k := FirstIndex(s, s[n - 1].placeId).value;
      assert k == n - 1;
      assert s[..n] == s[..n - 1] + [s[n - 1]];
    }
  }

  // ---------------------------------------------------------------------------------------
  // The restriction lists

  /** `names.some(n => a.includes(n.toLowerCase()) || b.includes(n.toLowerCase()))`, over lowercased texts. */
  predicate MentionedInEither(a: string, b: string, names: seq<string>) {
    exists n :: n in names && (Contains(a, ToLower(n)) || Contains(b, ToLower(n)))
  }

  /** The test a prediction passes when some restriction list is not empty. */
  predicate PassesRestrictions(p: Prediction, cities: seq<string>, states: seq<string>) {
    var sec, desc := ToLower(TextOr(p.secondaryText)), ToLower(TextOr(p.description));
    (|cities| == 0 || MentionedInEither(sec, desc, cities))
    && (|states| == 0 || MentionedInEither(sec, desc, states))
  }

  function Passes(cities: seq<string>, states: seq<string>): Prediction -> bool {
    (p: Prediction) => PassesRestrictions(p, cities, states)
  }

  /** `filteredPredictions`: the restriction test runs only when some list is not empty. */
  function Restrict(preds: seq<Prediction>, cities: seq<string>, states: seq<string>): (r: seq<Prediction>)
    ensures |r| <= |preds|
    ensures forall x :: x in r <==> x in preds && PassesRestrictions(x, cities, states)
  {
    if |cities| > 0 || |states| > 0 then Filter(preds, Passes(cities, states)) else preds
  }

  /**
   * A prediction whose description or secondary text the location test allows passes the
   * restriction lists here as well.
   */
  lemma AllowedDescriptionPasses(p: Prediction, cities: seq<string>, states: seq<string>)
    requires LocationConfig.IsAllowedBy(cities, states, TextOr(p.description))
             || LocationConfig.IsAllowedBy(cities, states, TextOr(p.secondaryText))
    ensures PassesRestrictions(p, cities, states)
  {
    var sec, desc := ToLower(TextOr(p.secondaryText)), ToLower(TextOr(p.description));
    if cities != [] {
      if LocationConfig.IsAllowedBy(cities, states, TextOr(p.description)) {
        var n :| n in cities && Contains(desc, ToLower(n));
      } else {
        var n :| n in cities && Contains(sec, ToLower(n));
      }
    }
    if states != [] {
      if LocationConfig.IsAllowedBy(cities, states, TextOr(p.description)) {
        var n :| n in states && Contains(desc, ToLower(n));
      } else {
        var n :| n in states && Contains(sec, ToLower(n));
      }
    }
  }

  // ---------------------------------------------------------------------------------------
  // Ordering

  /** The lowercased main text starts with the lowercased input. */
  predicate StartsWithInput(p: Prediction, input: string) {
    StartsWith(ToLower(p.mainText), ToLower(input))
  }

  /** The comparator of the sort, `localeCompare` taken as plain string order. */
  function CompareSuggestions(a: Prediction, b: Prediction, input: string): int {
    var ea, eb := StartsWithInput(a, input), StartsWithInput(b, input);
    if ea && !eb then -1
    else if !ea && eb then 1
    else
      var am, bm := ToLower(a.mainText), ToLower(b.mainText);
      if am == bm then 0 else if LexLess(am, bm) then -1 else 1
  }

  function SuggestionLe(input: string): (Prediction, Prediction) -> bool {
    (a: Prediction, b: Prediction) => CompareSuggestions(a, b, input) <= 0
  }

  /** Predictions that start with the input, then by main text. */
  lemma SuggestionLeIsTotalPreorder(input: string)
    ensures TotalPreorder(SuggestionLe(input))
  {
    var le := SuggestionLe(input);
    forall a, b
      ensures le(a, b) || le(b, a)
    {
      LexTrichotomy(ToLower(a.mainText), ToLower(b.mainText));
    }
    forall a, b, c | le(a, b) && le(b, c)
      ensures le(a, c)
    {
      var am, bm, cm := ToLower(a.mainText), ToLower(b.mainText), ToLower(c.mainText);
      LexTrichotomy(am, cm);
      if LexLess(am, bm) && LexLess(bm, cm) { LexLessTransitive(am, bm, cm); }
      if LexLess(cm, am) && LexLess(am, bm) { LexLessTransitive(cm, am, bm); }
      if LexLess(bm, cm) && LexLess(cm, am) { LexLessTransitive(bm, cm, am); }
    }
  }

  /** `filteredPredictions.sort(...)`. */
  function SortSuggestions(preds: seq<Prediction>, input: string): seq<Prediction> {
    SortBy(preds, SuggestionLe(input))
  }

  /**
   * The sorted list holds the same predictions; every one starting with the input comes
   * before every one that does not; within each group the main texts ascend.
   */
  lemma SortedSuggestionsOrder(preds: seq<Prediction>, input: string)
    ensures multiset(SortSuggestions(preds, input)) == multiset(preds)
    ensures var s := SortSuggestions(preds, input);
      forall i, j :: 0 <= i < j < |s| ==>
        (StartsWithInput(s[j], input) ==> StartsWithInput(s[i], input))
        && (StartsWithInput(s[i], input) == StartsWithInput(s[j], input) ==>
              LexLe(ToLower(s[i].mainText), ToLower(s[j].mainText)))
  {
    var le := SuggestionLe(input);
    SuggestionLeIsTotalPreorder(input);
    SortPermutation(preds, le);
    SortSorted(preds, le);
    var s := SortBy(preds, le);
    forall i, j | 0 <= i < j < |s|
      ensures (StartsWithInput(s[j], input) ==> StartsWithInput(s[i], input))
              && (StartsWithInput(s[i], input) == StartsWithInput(s[j], input) ==>
                    LexLe(ToLower(s[i].mainText), ToLower(s[j].mainText)))
    {
      assert le(s[i], s[j]);
    }
  }

  // ---------------------------------------------------------------------------------------
  // The whole pipeline

  /** The suggestions the answers of the three searches produce. */
  function Suggestions(results: seq<seq<Prediction>>, input: string, cities: seq<string>, states: seq<string>): seq<Prediction> {
    SortSuggestions(Restrict(Dedup(Flatten(results)), cities, states), input)
  }

  /**
   * Every suggestion is a prediction of some search that passes the restrictions; no place
   * is suggested twice; the suggestions starting with the input come first.
   */
  lemma SuggestionsFacts(results: seq<seq<Prediction>>, input: string, cities: seq<string>, states: seq<string>)
    ensures var r := Suggestions(results, input, cities, states);
      && (forall x :: x in r ==> (exists k :: 0 <= k < |results| && x in results[k]) && PassesRestrictions(x, cities, states))
      && DistinctKeys(r, PlaceId)
      && (forall i, j :: 0 <= i < j < |r| && StartsWithInput(r[j], input) ==> StartsWithInput(r[i], input))
  {
    var all := Flatten(results);
    var unique := Dedup(all);
    DedupMembers(all, |all|);
    DedupDistinct(all, |all|);
    forall x | x in unique
      ensures x in all
    {
      var i :| 0 <= i < |all| && IsFirst(all, i) && all[i] == x;
    }
    var restricted := Restrict(unique, cities, states);
    if |cities| > 0 || |states| > 0 {
      FilterKeepsDistinctKeys(unique, Passes(cities, states), PlaceId);
    }
    SortMembers(restricted, SuggestionLe(input));
    SortKeepsDistinctKeys(restricted, SuggestionLe(input), PlaceId);
    SortedSuggestionsOrder(restricted, input);
  }

  /** The predictions the places service would give, kept by the pipeline unless the lists exclude them. */
  lemma PassingPlacesAreSuggested(results: seq<seq<Prediction>>, input: string, cities: seq<string>,
                                  states: seq<string>, k: int, p: Prediction)
    requires 0 <= k < |results| && p in results[k]
    requires forall q :: q in Flatten(results) && q.placeId == p.placeId ==> PassesRestrictions(q, cities, states)
    ensures exists x :: x in Suggestions(results, input, cities, states) && x.placeId == p.placeId
  {
    var all := Flatten(results);
    var unique := Dedup(all);
    assert p in all;
    var i :| 0 <= i < |all| && all[i] == p;
    DedupCovers(all, |all|, i);
    var x := all[FirstIndex(all, p.placeId).value];
    assert x in Restrict(unique, cities, states);
    SortMembers(Restrict(unique, cities, states), SuggestionLe(input));
  }

  // ---------------------------------------------------------------------------------------
  // The component

  class Autocomplete {
    var suggestions: seq<Prediction>
    var showSuggestions: bool
    var inputValue: string
    var isLoading: bool
    const restrictedCities: seq<string>
    const restrictedStates: seq<string>

    /** The list is only ever shown when it has something in it. */
    predicate Valid()
      reads this
    {
      showSuggestions ==> suggestions != []
    }

    constructor(value: Option<string>, cities: seq<string>, states: seq<string>)
      ensures Valid()
      ensures suggestions == [] && !showSuggestions && inputValue == TextOr(value) && !isLoading
      ensures restrictedCities == cities && restrictedStates == states
    {
      suggestions := [];
      showSuggestions := false;
      inputValue := TextOr(value);
      isLoading := false;
      restrictedCities := cities;
      restrictedStates := states;
    }

    /** The effect that copies a new `value` prop into the field. */
    method SyncValue(value: Option<string>)
      modifies this
      ensures inputValue == TextOr(value)
      ensures suggestions == old(suggestions) && showSuggestions == old(showSuggestions) && isLoading == old(isLoading)
    {
      inputValue := TextOr(value);
    }

    /**
     * `getAddressSuggestions`, with `serviceReady` for a loaded places service and
     * `results` for the answers of its three searches (an empty list for a failed one).
     */
    method GetAddressSuggestions(input: string, serviceReady: bool, results: seq<seq<Prediction>>)
      requires Valid()
      modifies this
      ensures Valid()
      ensures !serviceReady || |input| < MinInputLength ==>
                suggestions == [] && !showSuggestions && isLoading == old(isLoading)
      ensures serviceReady && |input| >= MinInputLength ==>
                suggestions == Suggestions(results, input, restrictedCities, restrictedStates)
                && (showSuggestions <==> suggestions != []) && !isLoading
      ensures inputValue == old(inputValue)
    {
      if !serviceReady || |input| < MinInputLength {
        suggestions := [];
        showSuggestions := false;
        return;
      }
      isLoading := true;
      var allPredictions := Flatten(results);
      var uniquePredictions := Dedup(allPredictions);
      var filteredPredictions := Restrict(uniquePredictions, restrictedCities, restrictedStates);
      filteredPredictions := SortSuggestions(filteredPredictions, input);
      suggestions := filteredPredictions;
      showSuggestions := |filteredPredictions| > 0;
      isLoading := false;
    }

    /** `handleInputChange`: the field takes the text, which is handed on as the address. */
    method HandleInputChange(newValue: string) returns (address: string)
      modifies this
      ensures inputValue == newValue && address == newValue
      ensures suggestions == old(suggestions) && showSuggestions == old(showSuggestions) && isLoading == old(isLoading)
    {
      inputValue := newValue;
      address := newValue;
    }

    /** `handleSuggestionClick`: the field takes the description and the list closes. */
    method HandleSuggestionClick(suggestion: Prediction) returns (placeId: string)
      modifies this
      ensures Valid()
      ensures inputValue == TextOr(suggestion.description) && !showSuggestions && suggestions == []
      ensures placeId == suggestion.placeId && isLoading == old(isLoading)
    {
      inputValue := TextOr(suggestion.description);
      showSuggestions := false;
      suggestions := [];
      placeId := suggestion.placeId;
    }

    /** `handleInputBlur`, once its delay has passed. */
    method HandleInputBlur()
      modifies this
      ensures Valid() && !showSuggestions
      ensures suggestions == old(suggestions) && inputValue == old(inputValue) && isLoading == old(isLoading)
    {
      showSuggestions := false;
    }

    /** `handleInputFocus`: a remembered list opens again. */
    method HandleInputFocus()
      requires Valid()
      modifies this
      ensures Valid() && (showSuggestions <==> old(showSuggestions) || suggestions != [])
      ensures suggestions == old(suggestions) && inputValue == old(inputValue) && isLoading == old(isLoading)
    {
      if |suggestions| > 0 {
        showSuggestions := true;
      }
    }

    /** `handleKeyDown`: Enter picks the first suggestion, when there is one. */
    method HandleKeyDown(isEnter: bool) returns (chosen: Option<Prediction>)
      requires Valid()
      modifies this
      ensures Valid()
      ensures isEnter && old(suggestions) != [] ==>
                chosen == Some(old(suggestions)[0]) && inputValue == TextOr(old(suggestions)[0].description)
                && suggestions == [] && !showSuggestions
      ensures !(isEnter && old(suggestions) != []) ==>
                chosen == None && suggestions == old(suggestions) && showSuggestions == old(showSuggestions)
                && inputValue == old(inputValue)
      ensures isLoading == old(isLoading)
    {
      chosen := None;
      if isEnter && |suggestions| > 0 {
        var first := suggestions[0];
        var _ := HandleSuggestionClick(first);
        chosen := Some(first);
      }
    }
  }
}
