/**
 * The billing-address card of the call script: it owns no state of its own,
 * reads the billing and customer records it is given, and reports every edit
 * through `onDataChange(key, value)`.
 */
module BillingAddress {
  import opened Wrappers
  import opened Text
  import opened Records

  /** One `onDataChange(key, value)` call. */
  datatype FieldWrite = FieldWrite(key: string, value: Value)

  /** `record?.[key]`: `Null` for a missing record or key. */
  function Prop(record: Option<map<string, Value>>, key: string): (v: Value)
    ensures v != Null ==> record.Some? && key in record.value && v == record.value[key]
  {
    if record.Some? && key in record.value then record.value[key] else Null
  }

  /** `record?.[key] || ''`. */
  function PropOrEmpty(record: Option<map<string, Value>>, key: string): (v: Value)
    ensures Falsy(Prop(record, key)) ==> v == Str("")
    ensures !Falsy(Prop(record, key)) ==> v == Prop(record, key)
  {
    var p := Prop(record, key);
    if Falsy(p) then Str("") else p
  }

  /** The shipping fields and the billing fields they are copied to, in write order. */
  const ShippingKeys: seq<string> := ["street_address_one", "street_address_two", "address_city", "address_state", "address_zip"]
  const BillingKeys: seq<string> := ["billing_street_address_one", "billing_street_address_two", "billing_address_city", "billing_address_state", "billing_address_zip"]

  /** `useSameAddress`: billing follows shipping unless a different billing address is flagged. */
  function UseSameAddress(billingInfo: Option<map<string, Value>>): (same: bool)
    ensures same <==> Falsy(Prop(billingInfo, "different_billing_address"))
  {
    Falsy(Prop(billingInfo, "different_billing_address"))
  }

  /** The writes `syncShippingToBilling` makes, as a list. */
  function SyncWrites(customerInfo: Option<map<string, Value>>): (ws: seq<FieldWrite>)
    ensures |ws| == 5
    ensures forall i :: 0 <= i < 5 ==> ws[i] == FieldWrite(BillingKeys[i], PropOrEmpty(customerInfo, ShippingKeys[i]))
  {
    seq(5, i requires 0 <= i < 5 => FieldWrite(BillingKeys[i], PropOrEmpty(customerInfo, ShippingKeys[i])))
  }

  /** The record after a list of writes, merged in order: the assumed behaviour of the parent's `onAddressUpdate`. */
  function Apply(record: map<string, Value>, ws: seq<FieldWrite>): (r: map<string, Value>)
    ensures r.Keys == record.Keys + set w | w in ws :: w.key
    decreases |ws|
  {
    if ws == [] then record else Apply(record[ws[0].key := ws[0].value], ws[1..])
  }

  lemma {:induction false} ApplyLast(record: map<string, Value>, ws: seq<FieldWrite>, k: string)
    requires forall w :: w in ws ==> w.key != k
    ensures k in record ==> k in Apply(record, ws) && Apply(record, ws)[k] == record[k]
    ensures k !in record ==> k !in Apply(record, ws)
    decreases |ws|
  {
    if ws != [] {
      ApplyLast(record[ws[0].key := ws[0].value], ws[1..], k);
    }
  }

  lemma {:induction false} ApplyHit(record: map<string, Value>, ws: seq<FieldWrite>, i: nat)
    requires i < |ws|
    requires forall j :: 0 <= j < |ws| && j != i ==> ws[j].key != ws[i].key
    ensures ws[i].key in Apply(record, ws) && Apply(record, ws)[ws[i].key] == ws[i].value
    decreases |ws|
  {
    if i == 0 {
      forall w | w in ws[1..]
        ensures w.key != ws[0].key
      {
        var j :| 0 <= j < |ws[1..]| && ws[1..][j] == w;
        assert ws[j + 1] == w;
      }
      ApplyLast(record[ws[0].key := ws[0].value], ws[1..], ws[0].key);
    } else {
      ApplyHit(record[ws[0].key := ws[0].value], ws[1..], i - 1);
    }
  }

  /**
   * After the sync, the billing record holds each billing field copied from
   * its shipping field (or '') and every other field as before.
   */
  lemma SyncSetsBillingFields(billing: map<string, Value>, customerInfo: Option<map<string, Value>>)
    ensures Apply(billing, SyncWrites(customerInfo)).Keys == billing.Keys + set i | 0 <= i < 5 :: BillingKeys[i]
    ensures forall i :: 0 <= i < 5 ==> Apply(billing, SyncWrites(customerInfo))[BillingKeys[i]] == PropOrEmpty(customerInfo, ShippingKeys[i])
    ensures forall k :: k in billing && k !in BillingKeys ==> Apply(billing, SyncWrites(customerInfo))[k] == billing[k]
  {
    var ws := SyncWrites(customerInfo);
    var r := Apply(billing, ws);
    assert (set w | w in ws :: w.key) == set i | 0 <= i < 5 :: BillingKeys[i] by {
      forall w | w in ws
        ensures w.key in set i | 0 <= i < 5 :: BillingKeys[i]
      {
        var j :| 0 <= j < 5 && ws[j] == w;
      }
      forall i | 0 <= i < 5
        ensures BillingKeys[i] in set w | w in ws :: w.key
      {
        assert ws[i] in ws;
      }
    }
    forall i | 0 <= i < 5
      ensures r[BillingKeys[i]] == PropOrEmpty(customerInfo, ShippingKeys[i])
    {
      ApplyHit(billing, ws, i);
    }
    forall k | k in billing && k !in BillingKeys
      ensures r[k] == billing[k]
    {
      forall w | w in ws
        ensures w.key != k
      {
        var j :| 0 <= j < 5 && ws[j] == w;
      }
      ApplyLast(billing, ws, k);
    }
  }

  /** The ZIP input: `replace(/\D/g, '').slice(0, 5)`. */
  function ZipInput(v: string): (r: string)
    ensures AllDigits(r) && |r| <= 5 && |r| <= |DigitsOnly(v)|
    ensures r == DigitsOnly(v)[..|r|]
    ensures |DigitsOnly(v)| >= 5 ==> |r| == 5
  {
    Take(DigitsOnly(v), 5)
  }

  /** Filtering an already filtered ZIP changes nothing. */
  lemma ZipInputIdempotent(v: string)
    ensures ZipInput(ZipInput(v)) == ZipInput(v)
  {
    DigitsOnlyOfDigits(ZipInput(v));
  }

  /**
   * The card, with the two records it is given and the writes it has sent
   * to its parent. The records are props: the component never changes them.
   */
  class BillingAddressManager {
    const billingInfo: Option<map<string, Value>>
    const customerInfo: Option<map<string, Value>>
    var writes: seq<FieldWrite>

    constructor(billingInfo: Option<map<string, Value>>, customerInfo: Option<map<string, Value>>)
      ensures this.billingInfo == billingInfo && this.customerInfo == customerInfo && writes == []
    {
      this.billingInfo := billingInfo;
      this.customerInfo := customerInfo;
      writes := [];
    }

    /** `syncShippingToBilling`: five writes, one per billing field. */
    method SyncShippingToBilling()
      modifies this
      ensures writes == old(writes) + SyncWrites(customerInfo)
    {
      var i := 0;
      while i < 5
        invariant 0 <= i <= 5
        invariant writes == old(writes) + SyncWrites(customerInfo)[..i]
      {
        writes := writes + [FieldWrite(BillingKeys[i], PropOrEmpty(customerInfo, ShippingKeys[i]))];
        i := i + 1;
      }
      assert SyncWrites(customerInfo)[..5] == SyncWrites(customerInfo);
    }

    /**
     * `handleSameAddressChange`: flag a different billing address iff the box
     * is unchecked, then copy the shipping address when the box is checked or
     * no billing street is filled in yet. The billing record read is the one
     * the card was rendered with.
     */
    method HandleSameAddressChange(checked: bool)
      modifies this
      ensures writes == old(writes) + [FieldWrite("different_billing_address", Flag(!checked))]
        + (if checked || Falsy(Prop(billingInfo, "billing_street_address_one")) then SyncWrites(customerInfo) else [])
    {
      writes := writes + [FieldWrite("different_billing_address", Flag(!checked))];
      if checked || Falsy(Prop(billingInfo, "billing_street_address_one")) {
        SyncShippingToBilling();
      }
    }

    /** The effect run when the flag or a shipping field changes: sync while the addresses are the same. */
    method SyncEffect()
      modifies this
      ensures writes == old(writes) + (if UseSameAddress(billingInfo) then SyncWrites(customerInfo) else [])
    {
      if UseSameAddress(billingInfo) {
        SyncShippingToBilling();
      }
    }

    /** `handleFieldChange`: forward exactly one write. */
    method HandleFieldChange(key: string, value: Value)
      modifies this
      ensures writes == old(writes) + [FieldWrite(key, value)]
    {
      writes := writes + [FieldWrite(key, value)];
    }

    /** The ZIP input's change handler. */
    method HandleZipInput(raw: string)
      modifies this
      ensures writes == old(writes) + [FieldWrite("billing_address_zip", Str(ZipInput(raw)))]
    {
      HandleFieldChange("billing_address_zip", Str(ZipInput(raw)));
    }
  }
}
