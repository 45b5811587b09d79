/**
 * The address card: a free-text search box backed by the address lookup
 * service, a list of suggestions, and the address fields themselves, which it
 * reports to its parent through `onAddressUpdate(record)`.
 */
module AddressAutocomplete {
  import opened Wrappers
  import opened Records
  import opened CallModel

  /** A field of an address record, `Null` when the key is missing. */
  function Get(a: map<string, Value>, key: string): Value {
    if key in a then a[key] else Null
  }

  /** `a[k1] || a[k2] || … || ''`: the first truthy value along the chain, else ''. */
  function FirstTruthy(a: map<string, Value>, keys: seq<string>): (v: Value)
    ensures v == Str("") <==> forall k :: k in keys ==> Falsy(Get(a, k))
    ensures v != Str("") ==>
      exists i :: 0 <= i < |keys| && v == Get(a, keys[i]) && forall j :: 0 <= j < i ==> Falsy(Get(a, keys[j]))
    decreases |keys|
  {
    if keys == [] then Str("")
    else if !Falsy(Get(a, keys[0])) then Get(a, keys[0])
    else
      var v := FirstTruthy(a, keys[1..]);
      assert forall k :: k in keys ==> k == keys[0] || k in keys[1..];
      if v != Str("") then
        var i :| 0 <= i < |keys[1..]| && v == Get(a, keys[1..][i]) && forall j :: 0 <= j < i ==> Falsy(Get(a, keys[1..][j]));
        assert keys[i + 1] == keys[1..][i];
        assert forall j :: 1 <= j < i + 1 ==> keys[j] == keys[1..][j - 1];
        v
      else v
  }

  /** Each address field and the suggestion keys it is read from, in order. */
  const FallbackChains: map<string, seq<string>> := map[
    "street_address_one" := ["street_address_one", "line1"],
    "street_address_two" := ["street_address_two", "line2"],
    "address_city" := ["address_city", "city"],
    "address_state" := ["address_state", "state"],
    "address_zip" := ["address_zip", "zip", "postal_code"],
    "address_county" := ["address_county", "county"]
  ]

  /** The record `handleAddressSelect` sends for a chosen suggestion. */
  function SelectedAddress(suggestion: map<string, Value>): (r: map<string, Value>)
    ensures r.Keys == FallbackChains.Keys
    ensures forall f :: f in r ==> r[f] == FirstTruthy(suggestion, FallbackChains[f])
  {
    map f | f in FallbackChains :: FirstTruthy(suggestion, FallbackChains[f])
  }

  /**
   * Each of the six fields is '' exactly when no key of its chain holds a
   * truthy value, and is otherwise the value of the first key that does.
   */
  lemma SelectedAddressMeaning(suggestion: map<string, Value>, f: string)
    requires f in FallbackChains
    ensures f in SelectedAddress(suggestion)
    ensures SelectedAddress(suggestion)[f] == Str("") <==> forall k :: k in FallbackChains[f] ==> Falsy(Get(suggestion, k))
    ensures SelectedAddress(suggestion)[f] != Str("") ==>
      exists i :: 0 <= i < |FallbackChains[f]| && SelectedAddress(suggestion)[f] == Get(suggestion, FallbackChains[f][i])
        && forall j :: 0 <= j < i ==> Falsy(Get(suggestion, FallbackChains[f][j]))
  {
  }

  /** A postal code given only as `postal_code` is used when `address_zip` and `zip` are empty. */
  lemma PostalCodeFallback(suggestion: map<string, Value>, code: string)
    requires code != ""
    requires Falsy(Get(suggestion, "address_zip")) && Falsy(Get(suggestion, "zip"))
    requires Get(suggestion, "postal_code") == Str(code)
    ensures SelectedAddress(suggestion)["address_zip"] == Str(code)
  {
    var chain := FallbackChains["address_zip"];
    assert chain == ["address_zip", "zip", "postal_code"];
    assert chain[1..][1..] == ["postal_code"];
  }

  /** The address record a field edit starts from: `addressData` or `{}`. */
  function Base(addressData: Option<map<string, Value>>): map<string, Value> {
    if addressData.Some? then addressData.value else map[]
  }

  /** `{...addressData, [name]: value}`. */
  function FieldChanged(addressData: Option<map<string, Value>>, name: string, value: Value): (r: map<string, Value>)
    ensures r.Keys == Base(addressData).Keys + {name}
    ensures r[name] == value
    ensures forall k :: k in Base(addressData) && k != name ==> r[k] == Base(addressData)[k]
  {
    Base(addressData)[name := value]
  }

  /** The shortest query sent to the lookup service. */
  const MinQueryLength := 3

  class AddressAutoComplete {
    var addressContent: string
    var foundMatches: seq<map<string, Value>>
    var isLoading: bool
    var showResults: bool
    /** The address record the card is given; a prop it never changes. */
    const addressData: Option<map<string, Value>>
    /** Every `onAddressUpdate` call, in order. */
    var updates: seq<map<string, Value>>
    /** Every query sent to the lookup service, in order. */
    var lookups: seq<string>

    constructor(addressData: Option<map<string, Value>>)
      ensures this.addressData == addressData
      ensures addressContent == "" && foundMatches == [] && !isLoading && !showResults
      ensures updates == [] && lookups == []
    {
      this.addressData := addressData;
      addressContent := "";
      foundMatches := [];
      isLoading := false;
      showResults := false;
      updates := [];
      lookups := [];
    }

    /** Typing in the search box. */
    method SetQuery(v: string)
      modifies this
      ensures addressContent == v
      ensures foundMatches == old(foundMatches) && isLoading == old(isLoading) && showResults == old(showResults)
      ensures updates == old(updates) && lookups == old(lookups)
    {
      addressContent := v;
    }

    /**
     * The part of `findMatches` before the lookup: a query shorter than three
     * characters clears and hides the suggestions and sends nothing; a longer
     * one is sent and the card shows it is loading.
     */
    method BeginFindMatches() returns (sent: bool)
      modifies this
      ensures sent <==> |addressContent| >= MinQueryLength
      ensures !sent ==> foundMatches == [] && !showResults && isLoading == old(isLoading) && lookups == old(lookups)
      ensures sent ==> (isLoading && lookups == old(lookups) + [addressContent]
        && foundMatches == old(foundMatches) && showResults == old(showResults))
      ensures addressContent == old(addressContent) && updates == old(updates)
    {
      if addressContent == "" || |addressContent| < MinQueryLength {
        foundMatches := [];
        showResults := false;
        return false;
      }
      isLoading := true;
      lookups := lookups + [addressContent];
      return true;
    }

    /**
     * The part of `findMatches` after the lookup; `None` stands for a lookup
     * that threw. Only a reply whose `success` is true shows suggestions: its
     * `data`, or none.
     */
    method FinishFindMatches(outcome: Option<Reply<seq<map<string, Value>>>>)
      modifies this
      ensures !isLoading
      ensures showResults <==> outcome.Some? && Succeeded(outcome.value)
      ensures showResults ==> foundMatches == outcome.value.data.GetOr([])
      ensures !showResults ==> foundMatches == []
      ensures addressContent == old(addressContent) && updates == old(updates) && lookups == old(lookups)
    {
      if outcome.Some? && Succeeded(outcome.value) {
        foundMatches := outcome.value.data.GetOr([]);
        showResults := true;
      } else {
        foundMatches := [];
        showResults := false;
      }
      isLoading := false;
    }

    /** `handleAddressSelect`: send the mapped record and reset the search. */
    method HandleAddressSelect(suggestion: map<string, Value>)
      modifies this
      ensures updates == old(updates) + [SelectedAddress(suggestion)]
      ensures addressContent == "" && foundMatches == [] && !showResults
      ensures isLoading == old(isLoading) && lookups == old(lookups)
    {
      updates := updates + [SelectedAddress(suggestion)];
      addressContent := "";
      foundMatches := [];
      showResults := false;
    }

    /** `handleFieldChange`: send the given record with one field replaced. */
    method HandleFieldChange(name: string, value: Value)
      modifies this
      ensures updates == old(updates) + [FieldChanged(addressData, name, value)]
      ensures addressContent == old(addressContent) && foundMatches == old(foundMatches)
      ensures isLoading == old(isLoading) && showResults == old(showResults) && lookups == old(lookups)
    {
      updates := updates + [FieldChanged(addressData, name, value)];
    }

    /** The clear button, shown only for a non-empty query while nothing is loading. */
    method Clear()
      modifies this
      ensures old(addressContent) != "" && !old(isLoading) ==> addressContent == "" && foundMatches == [] && !showResults
      ensures !(old(addressContent) != "" && !old(isLoading)) ==>
        addressContent == old(addressContent) && foundMatches == old(foundMatches) && showResults == old(showResults)
      ensures isLoading == old(isLoading) && updates == old(updates) && lookups == old(lookups)
    {
      if addressContent != "" && !isLoading {
        addressContent := "";
        foundMatches := [];
        showResults := false;
      }
    }
  }
}
