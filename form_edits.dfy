/**
 * The record edits both customer forms share: the chronic-condition list, the
 * emergency-contact list, the pre-checks before an account verification, and
 * the digit filters on the bank-number inputs.
 */
module FormEdits {
  import opened Text
  import opened Records

  /** The scalar keys of the customer form, in the order the forms list them. */
  const FormKeys: seq<string> := [
    "first_name", "last_name", "email_address", "primary_phone", "secondary_phone",
    "contact_status", "have_consent", "last_consent", "referral_source",
    "street_address_one", "street_address_two", "address_city", "address_state",
    "address_zip", "address_county"]

  /** The value a form field starts with when the customer record has none. */
  function DefaultValue(key: string): Value {
    if key == "contact_status" then Str("not_subscribed")
    else if key == "have_consent" then Flag(false)
    else Str("")
  }

  /** The empty customer form: every scalar key at its default. */
  const DefaultFields: map<string, Value> := map[
    "first_name" := Str(""), "last_name" := Str(""), "email_address" := Str(""),
    "primary_phone" := Str(""), "secondary_phone" := Str(""),
    "contact_status" := Str("not_subscribed"), "have_consent" := Flag(false),
    "last_consent" := Str(""), "referral_source" := Str(""),
    "street_address_one" := Str(""), "street_address_two" := Str(""),
    "address_city" := Str(""), "address_state" := Str(""),
    "address_zip" := Str(""), "address_county" := Str("")]

  /** The empty form holds exactly the form's keys, each at its default. */
  lemma DefaultFieldsMeaning()
    ensures DefaultFields.Keys == set k | k in FormKeys
    ensures forall k :: k in FormKeys ==> DefaultFields[k] == DefaultValue(k)
  {
  }

  /** `cs.filter(x => x !== c)`: every occurrence of `c` dropped, the rest kept in order. */
  function RemoveAll(cs: seq<string>, c: string): (r: seq<string>)
    ensures c !in r
    ensures |r| <= |cs|
    ensures forall x {:trigger multiset(r)[x]} :: multiset(r)[x] == if x == c then 0 else multiset(cs)[x]
  {
    if cs == [] then []
    else
      assert cs == [cs[0]] + cs[1..];
      (if cs[0] == c then [] else [cs[0]]) + RemoveAll(cs[1..], c)
  }

  /** Removing a condition that is absent leaves the list as it was. */
  lemma {:induction false} RemoveAllAbsent(cs: seq<string>, c: string)
    requires c !in cs
    ensures RemoveAll(cs, c) == cs
  {
    if cs != [] {
      assert c !in cs[1..];
      RemoveAllAbsent(cs[1..], c);
      assert cs == [cs[0]] + cs[1..];
    }
  }

  /** `toggleCondition`: a present condition is removed, an absent one appended. */
  function ToggleCondition(cs: seq<string>, c: string): (r: seq<string>)
    ensures c in cs <==> c !in r
    ensures forall x :: x != c ==> (x in r <==> x in cs)
    ensures c !in cs ==> r == cs + [c]
  {
    if c in cs then
      var r := RemoveAll(cs, c);
      assert forall x :: x != c ==> (x in r <==> multiset(r)[x] > 0);
      r
    else cs + [c]
  }

  /** Toggling twice restores which conditions are present, and the list itself when `c` was absent. */
  lemma ToggleTwice(cs: seq<string>, c: string)
    ensures forall x :: x in ToggleCondition(ToggleCondition(cs, c), c) <==> x in cs
    ensures c !in cs ==> ToggleCondition(ToggleCondition(cs, c), c) == cs
  {
    if c !in cs {
      var once := cs + [c];
      var r := RemoveAll(once, c);
      assert multiset(once) == multiset(cs) + multiset{c};
      RemoveAllSplit(cs, [c], c);
      RemoveAllAbsent(cs, c);
      assert RemoveAll([c], c) == [];
      assert r == cs;
    }
  }

  lemma {:induction false} RemoveAllSplit(a: seq<string>, b: seq<string>, c: string)
    ensures RemoveAll(a + b, c) == RemoveAll(a, c) + RemoveAll(b, c)
  {
    if a == [] {
      assert a + b == b;
    } else {
      var ab := a + b;
      var head := if a[0] == c then [] else [a[0]];
      assert ab[0] == a[0] && ab[1..] == a[1..] + b;
      assert RemoveAll(ab, c) == head + RemoveAll(a[1..] + b, c);
      RemoveAllSplit(a[1..], b, c);
      assert RemoveAll(a, c) == head + RemoveAll(a[1..], c);
    }
  }

  /** The add button is enabled, and the add takes effect, only with a first and a last name. */
  predicate CanAddContact(draft: Contact) {
    draft.firstName != "" && draft.lastName != ""
  }

  /** `handleAddEmergencyContact` on the list: append a copy of the draft when it has both names. */
  function AddContact(cs: seq<Contact>, draft: Contact): (r: seq<Contact>)
    ensures |r| == |cs| + (if CanAddContact(draft) then 1 else 0)
    ensures r[..|cs|] == cs
    ensures CanAddContact(draft) ==> r[|cs|] == draft
  {
    if CanAddContact(draft) then cs + [draft] else cs
  }

  /** `cs.filter((_, j) => j !== i)`, walked from index `offset`. */
  function RemoveAtFrom(cs: seq<Contact>, i: int, offset: int): (r: seq<Contact>)
    ensures offset <= i < offset + |cs| ==> r == cs[..i - offset] + cs[i - offset + 1..]
    ensures !(offset <= i < offset + |cs|) ==> r == cs
  {
    if cs == [] then []
    else
      var rest := RemoveAtFrom(cs[1..], i, offset + 1);
      if i == offset then
        assert rest == cs[1..];
        rest
      else
        assert cs == [cs[0]] + cs[1..];
        [cs[0]] + rest
  }

  /** `handleRemoveEmergencyContact(i)`: only entry `i` goes, the order of the rest is kept. */
  function RemoveContactAt(cs: seq<Contact>, i: int): (r: seq<Contact>)
    ensures 0 <= i < |cs| ==> |r| == |cs| - 1 && r == cs[..i] + cs[i + 1..]
    ensures !(0 <= i < |cs|) ==> r == cs
  {
    RemoveAtFrom(cs, i, 0)
  }

  function GetField(c: Contact, f: ContactField): string {
    match f
    case FirstName => c.firstName
    case LastName => c.lastName
    case PhoneNumber => c.phoneNumber
    case EmailAddress => c.emailAddress
  }

  /** `{ ...contact, [field]: value }`. */
  function SetField(c: Contact, f: ContactField, v: string): (r: Contact)
    ensures GetField(r, f) == v
    ensures forall g :: g != f ==> GetField(r, g) == GetField(c, g)
  {
    match f
    case FirstName => c.(firstName := v)
    case LastName => c.(lastName := v)
    case PhoneNumber => c.(phoneNumber := v)
    case EmailAddress => c.(emailAddress := v)
  }

  /** `handleUpdateEmergencyContact(i, f, v)`: only field `f` of entry `i` changes. */
  function UpdateContactAt(cs: seq<Contact>, i: int, f: ContactField, v: string): (r: seq<Contact>)
    ensures |r| == |cs|
    ensures forall j :: 0 <= j < |cs| && j != i ==> r[j] == cs[j]
    ensures 0 <= i < |cs| ==> GetField(r[i], f) == v
    ensures 0 <= i < |cs| ==> forall g :: g != f ==> GetField(r[i], g) == GetField(cs[i], g)
  {
    seq(|cs|, j requires 0 <= j < |cs| => if j == i then SetField(cs[j], f, v) else cs[j])
  }

  /** Why an account verification is refused before any request is made. */
  datatype Precheck = MissingNumbers | BadRoutingLength | ShortAccount | PrecheckPassed

  /** Both numbers present, routing exactly 9 characters, account at least 5, checked in that order. */
  function AccountPrecheck(routing: string, account: string): (r: Precheck)
    ensures r == PrecheckPassed <==> routing != "" && account != "" && |routing| == 9 && |account| >= 5
    ensures r == MissingNumbers <==> routing == "" || account == ""
    ensures r == BadRoutingLength ==> |routing| != 9
    ensures r == ShortAccount ==> |routing| == 9 && |account| < 5
  {
    if routing == "" || account == "" then MissingNumbers
    else if |routing| != 9 then BadRoutingLength
    else if |account| < 5 then ShortAccount
    else PrecheckPassed
  }

  /** `value.replace(/\D/g, '').slice(0, 9)`. */
  function RoutingInput(v: string): (r: string)
    ensures AllDigits(r) && |r| <= 9
  {
    Take(DigitsOnly(v), 9)
  }

  /** `value.replace(/\D/g, '')`. */
  function AccountInput(v: string): (r: string)
    ensures AllDigits(r)
  {
    DigitsOnly(v)
  }

  /**
   * The routing filter keeps the first nine digits typed, in order, and
   * re-filtering its own output changes nothing.
   */
  lemma RoutingInputMeaning(v: string)
    ensures RoutingInput(v) == DigitsOnly(v)[..|RoutingInput(v)|]
    ensures |DigitsOnly(v)| >= 9 ==> |RoutingInput(v)| == 9
    ensures RoutingInput(RoutingInput(v)) == RoutingInput(v)
  {
    DigitsOnlyOfDigits(RoutingInput(v));
  }

  lemma AccountInputIdempotent(v: string)
    ensures AccountInput(AccountInput(v)) == AccountInput(v)
  {
    DigitsOnlyOfDigits(AccountInput(v));
  }
}
