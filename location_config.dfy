/**
 * The location restriction: the configured cities and states, and the test that an
 * address names one of the cities and one of the states (an empty list imposes nothing).
 */
module LocationConfig {
  import opened Text

  /** The configured cities. */
  const RestrictedCities: seq<string> := ["Puebla", "Cholula", "San Andr\U{E9}s Cholula", "San Pedro Cholula"]

  /** The configured states. */
  const RestrictedStates: seq<string> := ["Puebla"]

  /** `getRestrictedCities`. */
  function GetRestrictedCities(): (r: seq<string>)
    ensures r == ["Puebla", "Cholula", "San Andr\U{E9}s Cholula", "San Pedro Cholula"]
  {
    RestrictedCities
  }

  /** `getRestrictedStates`. */
  function GetRestrictedStates(): (r: seq<string>)
    ensures r == ["Puebla"]
  {
    RestrictedStates
  }

  /** `names.some(n => text.includes(n.toLowerCase()))`, for an already lowercased `text`. */
  predicate MentionsAny(text: string, names: seq<string>) {
    exists n :: n in names && Contains(text, ToLower(n))
  }

  /** `isLocationAllowed`, for any pair of lists. */
  predicate IsAllowedBy(cities: seq<string>, states: seq<string>, address: string) {
    var text := ToLower(address);
    if |cities| == 0 && |states| == 0 then true
    else
      var hasCity := |cities| == 0 || MentionsAny(text, cities);
      var hasState := |states| == 0 || MentionsAny(text, states);
      hasCity && hasState
  }

  /** `isLocationAllowed` with the configured lists. */
  predicate IsLocationAllowed(address: string) {
    IsAllowedBy(RestrictedCities, RestrictedStates, address)
  }

  /** Without restrictions every address is allowed. */
  lemma NoRestrictionsAllowAll(address: string)
    ensures IsAllowedBy([], [], address)
  {
  }

  /** An address is allowed iff each non-empty list has an entry the lowercased address contains. */
  lemma AllowedIff(cities: seq<string>, states: seq<string>, address: string)
    ensures IsAllowedBy(cities, states, address) <==>
      (cities == [] || exists i :: 0 <= i < |cities| && Contains(ToLower(address), ToLower(cities[i])))
      && (states == [] || exists i :: 0 <= i < |states| && Contains(ToLower(address), ToLower(states[i])))
  {
    var text := ToLower(address);
    assert MentionsAny(text, cities) ==> exists i :: 0 <= i < |cities| && Contains(text, ToLower(cities[i]));
    assert MentionsAny(text, states) ==> exists i :: 0 <= i < |states| && Contains(text, ToLower(states[i]));
  }

  /** With the configured lists the test comes down to the address mentioning "puebla", in any case. */
  lemma ConfiguredMeansPuebla(address: string)
    ensures IsLocationAllowed(address) <==> Contains(ToLower(address), "puebla")
  {
    var text := ToLower(address);
    assert ToLower("Puebla") == "puebla";
    assert "Puebla" in RestrictedCities && "Puebla" in RestrictedStates;
    assert MentionsAny(text, RestrictedStates) <==> Contains(text, "puebla");
  }

  /** Text appended to an allowed address keeps it allowed: the substring tests only gain. */
  lemma AllowedKeepsUnderAppend(cities: seq<string>, states: seq<string>, address: string, more: string)
    requires IsAllowedBy(cities, states, address)
    ensures IsAllowedBy(cities, states, address + more)
  {
    var text, text' := ToLower(address), ToLower(address + more);
    ToLowerAppend(address, more);
    if cities != [] {
      var n :| n in cities && Contains(text, ToLower(n));
      ContainsAppend(text, ToLower(more), ToLower(n));
    }
    if states != [] {
      var n :| n in states && Contains(text, ToLower(n));
      ContainsAppend(text, ToLower(more), ToLower(n));
    }
  }
}
