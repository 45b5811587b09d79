/**
 * The customer-information panel: the editable copy of the customer record
 * and the three-step payment dialog (bank account, product, review).
 */
module CustomerInformation {
  import opened Wrappers
  import opened Text
  import opened Records
  import opened CallModel
  import opened FormEdits

  /** `record[key] || default`: a missing or falsy value falls back to the key's default. */
  function FieldOrDefault(fields: map<string, Value>, key: string): (v: Value)
    ensures key in fields && !Falsy(fields[key]) ==> v == fields[key]
    ensures key !in fields || Falsy(fields[key]) ==> v == DefaultValue(key)
  {
    if key in fields && !Falsy(fields[key]) then fields[key] else DefaultValue(key)
  }

  /**
   * The form loaded from a customer record: exactly the form's keys, each the
   * record's value or its default, and the two lists or empty lists.
   */
  function FormFromCustomer(c: CustomerRecord): (f: FormData)
    ensures f.fields.Keys == set k | k in FormKeys
    ensures forall k :: k in FormKeys ==> f.fields[k] == FieldOrDefault(c.fields, k)
    ensures f.conditions == c.conditions.GetOr([])
    ensures f.emergencyContacts == c.emergencyContacts.GetOr([])
  {
    FormData(map k | k in FormKeys :: FieldOrDefault(c.fields, k), c.conditions.GetOr([]), c.emergencyContacts.GetOr([]))
  }

  /** A form sent back as a customer record. */
  function AsCustomer(f: FormData): CustomerRecord {
    CustomerRecord(f.fields, Some(f.conditions), Some(f.emergencyContacts))
  }

  /** The defaults are themselves kept: loading a loaded form changes nothing. */
  lemma FormFromCustomerIdempotent(c: CustomerRecord)
    ensures FormFromCustomer(AsCustomer(FormFromCustomer(c))) == FormFromCustomer(c)
  {
    var f := FormFromCustomer(c);
    var g := FormFromCustomer(AsCustomer(f));
    forall k | k in FormKeys
      ensures g.fields[k] == f.fields[k]
    {
      var v := f.fields[k];
      if Falsy(v) {
        assert v == DefaultValue(k);
        assert k == "contact_status" ==> v == Str("not_subscribed") && !Falsy(v);
      }
    }
    assert g.fields == f.fields;
  }

  /** The bank details of the dialog's first step. */
  datatype BankAccount = BankAccount(accountType: string, routingNumber: string, accountNumber: string)

  const EmptyBankAccount := BankAccount("checking", "", "")

  /** The requests the dialog sends. */
  datatype PaymentCall =
    | VerifyBankAccount(form: FormData, account: BankAccount)
    | CreateSubscription(form: FormData, account: BankAccount, productId: string)

  /** Which request, if any, the dialog is waiting for. */
  datatype Waiting = NotWaiting | WaitingForVerification | WaitingForSubscription

  const EmptyForm := FormData(DefaultFields, [], [])

  /**
   * The panel's state: the form and what it has saved, and the payment
   * dialog's step, bank details, product, disclaimer and loading flag.
   */
  class CustomerInformationForm {
    var formData: FormData
    var saved: seq<FormData>
    var draft: Contact
    var showAddContact: bool
    var showDialog: bool
    var step: int
    var account: BankAccount
    var isValidBilling: bool
    var selectedProduct: Option<string>
    var disclaimerAccepted: bool
    var isLoading: bool
    var waiting: Waiting
    var payments: seq<PaymentCall>

    /**
     * The dialog is on step 1, 2 or 3; step 2 and beyond only with a verified
     * account, step 3 only with a product chosen; the loading flag is on
     * exactly while a request is outstanding.
     */
    ghost predicate Valid()
      reads this
    {
      && 1 <= step <= 3
      && (step >= 2 ==> isValidBilling)
      && (step == 3 ==> Truthy(selectedProduct))
      && (isLoading <==> waiting != NotWaiting)
    }

    constructor()
      ensures Valid()
      ensures formData == EmptyForm && saved == [] && draft == EmptyContact && !showAddContact
      ensures !showDialog && step == 1 && account == EmptyBankAccount && !isValidBilling
      ensures selectedProduct == None && !disclaimerAccepted && !isLoading && waiting == NotWaiting && payments == []
    {
      formData := EmptyForm;
      saved := [];
      draft := EmptyContact;
      showAddContact := false;
      showDialog := false;
      step := 1;
      account := EmptyBankAccount;
      isValidBilling := false;
      selectedProduct := None;
      disclaimerAccepted := false;
      isLoading := false;
      waiting := NotWaiting;
      payments := [];
    }

    /** A loaded customer replaces the form with its values or the defaults. */
    method CustomerLoaded(c: Option<CustomerRecord>)
      requires Valid()
      modifies this
      ensures Valid()
      ensures formData == if c.Some? then FormFromCustomer(c.value) else old(formData)
      ensures saved == old(saved) && draft == old(draft) && showAddContact == old(showAddContact)
      ensures showDialog == old(showDialog) && step == old(step) && account == old(account)
      ensures isValidBilling == old(isValidBilling) && selectedProduct == old(selectedProduct)
      ensures disclaimerAccepted == old(disclaimerAccepted) && isLoading == old(isLoading)
      ensures waiting == old(waiting) && payments == old(payments)
    {
      if c.Some? {
        formData := FormFromCustomer(c.value);
      }
    }

    /** `handleInputChange` and `handleSelectChange`: store the text under its key. */
    method HandleInputChange(name: string, value: string)
      requires Valid()
      modifies this
      ensures Valid()
      ensures formData == old(formData).(fields := old(formData).fields[name := Str(value)])
      ensures saved == old(saved) && draft == old(draft) && showAddContact == old(showAddContact)
      ensures showDialog == old(showDialog) && step == old(step) && account == old(account)
      ensures isValidBilling == old(isValidBilling) && selectedProduct == old(selectedProduct)
      ensures disclaimerAccepted == old(disclaimerAccepted) && isLoading == old(isLoading)
      ensures waiting == old(waiting) && payments == old(payments)
    {
      formData := formData.(fields := formData.fields[name := Str(value)]);
    }

    /** `handleCheckboxChange`: consent, stamped with the time when given and cleared when withdrawn. */
    method HandleCheckboxChange(checked: bool, nowIso: string)
      requires Valid()
      modifies this
      ensures Valid()
      ensures formData == old(formData).(fields := old(formData).fields
        ["have_consent" := Flag(checked)]["last_consent" := Str(if checked then nowIso else "")])
      ensures formData.fields["have_consent"] == Flag(checked)
      ensures formData.fields["last_consent"] == Str(if checked then nowIso else "")
      ensures saved == old(saved) && draft == old(draft) && showAddContact == old(showAddContact)
      ensures showDialog == old(showDialog) && step == old(step) && account == old(account)
      ensures isValidBilling == old(isValidBilling) && selectedProduct == old(selectedProduct)
      ensures disclaimerAccepted == old(disclaimerAccepted) && isLoading == old(isLoading)
      ensures waiting == old(waiting) && payments == old(payments)
    {
      formData := formData.(fields := formData.fields
        ["have_consent" := Flag(checked)]["last_consent" := Str(if checked then nowIso else "")]);
    }

    /** `toggleCondition`. */
    method ToggleCondition(c: string)
      requires Valid()
      modifies this
      ensures Valid()
      ensures formData == old(formData).(conditions := FormEdits.ToggleCondition(old(formData).conditions, c))
      ensures saved == old(saved) && draft == old(draft) && showAddContact == old(showAddContact)
      ensures showDialog == old(showDialog) && step == old(step) && account == old(account)
      ensures isValidBilling == old(isValidBilling) && selectedProduct == old(selectedProduct)
      ensures disclaimerAccepted == old(disclaimerAccepted) && isLoading == old(isLoading)
      ensures waiting == old(waiting) && payments == old(payments)
    {
      formData := formData.(conditions := FormEdits.ToggleCondition(formData.conditions, c));
    }

    /** `removeCondition`. */
    method RemoveCondition(c: string)
      requires Valid()
      modifies this
      ensures Valid()
      ensures formData == old(formData).(conditions := RemoveAll(old(formData).conditions, c))
      ensures saved == old(saved) && draft == old(draft) && showAddContact == old(showAddContact)
      ensures showDialog == old(showDialog) && step == old(step) && account == old(account)
      ensures isValidBilling == old(isValidBilling) && selectedProduct == old(selectedProduct)
      ensures disclaimerAccepted == old(disclaimerAccepted) && isLoading == old(isLoading)
      ensures waiting == old(waiting) && payments == old(payments)
    {
      formData := formData.(conditions := RemoveAll(formData.conditions, c));
    }

    /** `handleAddEmergencyContact`: with both names, append the draft, clear it and close the panel. */
    method AddEmergencyContact()
      requires Valid()
      modifies this
      ensures Valid()
      ensures formData == old(formData).(emergencyContacts := AddContact(old(formData).emergencyContacts, old(draft)))
      ensures draft == if CanAddContact(old(draft)) then EmptyContact else old(draft)
      ensures showAddContact == if CanAddContact(old(draft)) then false else old(showAddContact)
      ensures saved == old(saved)
      ensures showDialog == old(showDialog) && step == old(step) && account == old(account)
      ensures isValidBilling == old(isValidBilling) && selectedProduct == old(selectedProduct)
      ensures disclaimerAccepted == old(disclaimerAccepted) && isLoading == old(isLoading)
      ensures waiting == old(waiting) && payments == old(payments)
    {
      formData := formData.(emergencyContacts := AddContact(formData.emergencyContacts, draft));
      if CanAddContact(draft) {
        draft := EmptyContact;
        showAddContact := false;
      }
    }

    /** `handleRemoveEmergencyContact(i)`. */
    method RemoveEmergencyContact(i: int)
      requires Valid()
      modifies this
      ensures Valid()
      ensures formData == old(formData).(emergencyContacts := RemoveContactAt(old(formData).emergencyContacts, i))
      ensures saved == old(saved) && draft == old(draft) && showAddContact == old(showAddContact)
      ensures showDialog == old(showDialog) && step == old(step) && account == old(account)
      ensures isValidBilling == old(isValidBilling) && selectedProduct == old(selectedProduct)
      ensures disclaimerAccepted == old(disclaimerAccepted) && isLoading == old(isLoading)
      ensures waiting == old(waiting) && payments == old(payments)
    {
      formData := formData.(emergencyContacts := RemoveContactAt(formData.emergencyContacts, i));
    }

    /** `handleUpdateEmergencyContact(i, f, v)`. */
    method UpdateEmergencyContact(i: int, f: ContactField, v: string)
      requires Valid()
      modifies this
      ensures Valid()
      ensures formData == old(formData).(emergencyContacts := UpdateContactAt(old(formData).emergencyContacts, i, f, v))
      ensures saved == old(saved) && draft == old(draft) && showAddContact == old(showAddContact)
      ensures showDialog == old(showDialog) && step == old(step) && account == old(account)
      ensures isValidBilling == old(isValidBilling) && selectedProduct == old(selectedProduct)
      ensures disclaimerAccepted == old(disclaimerAccepted) && isLoading == old(isLoading)
      ensures waiting == old(waiting) && payments == old(payments)
    {
      formData := formData.(emergencyContacts := UpdateContactAt(formData.emergencyContacts, i, f, v));
    }

    /** Typing into the draft contact. */
    method EditDraft(f: ContactField, v: string)
      requires Valid()
      modifies this
      ensures Valid()
      ensures draft == SetField(old(draft), f, v)
      ensures formData == old(formData) && saved == old(saved) && showAddContact == old(showAddContact)
      ensures showDialog == old(showDialog) && step == old(step) && account == old(account)
      ensures isValidBilling == old(isValidBilling) && selectedProduct == old(selectedProduct)
      ensures disclaimerAccepted == old(disclaimerAccepted) && isLoading == old(isLoading)
      ensures waiting == old(waiting) && payments == old(payments)
    {
      draft := SetField(draft, f, v);
    }

    /** The "Add Contact" button opens or closes the draft panel. */
    method ToggleAddContact()
      requires Valid()
      modifies this
      ensures Valid()
      ensures showAddContact == !old(showAddContact)
      ensures formData == old(formData) && saved == old(saved) && draft == old(draft)
      ensures showDialog == old(showDialog) && step == old(step) && account == old(account)
      ensures isValidBilling == old(isValidBilling) && selectedProduct == old(selectedProduct)
      ensures disclaimerAccepted == old(disclaimerAccepted) && isLoading == old(isLoading)
      ensures waiting == old(waiting) && payments == old(payments)
    {
      showAddContact := !showAddContact;
    }

    /** The panel's Cancel closes it and empties the draft. */
    method CancelAddContact()
      requires Valid()
      modifies this
      ensures Valid()
      ensures !showAddContact && draft == EmptyContact
      ensures formData == old(formData) && saved == old(saved)
      ensures showDialog == old(showDialog) && step == old(step) && account == old(account)
      ensures isValidBilling == old(isValidBilling) && selectedProduct == old(selectedProduct)
      ensures disclaimerAccepted == old(disclaimerAccepted) && isLoading == old(isLoading)
      ensures waiting == old(waiting) && payments == old(payments)
    {
      showAddContact := false;
      draft := EmptyContact;
    }

    /** `handleSubmit`: hand the whole form to the provider's save. */
    method HandleSubmit()
      requires Valid()
      modifies this
      ensures Valid()
      ensures saved == old(saved) + [formData]
      ensures formData == old(formData) && draft == old(draft) && showAddContact == old(showAddContact)
      ensures showDialog == old(showDialog) && step == old(step) && account == old(account)
      ensures isValidBilling == old(isValidBilling) && selectedProduct == old(selectedProduct)
      ensures disclaimerAccepted == old(disclaimerAccepted) && isLoading == old(isLoading)
      ensures waiting == old(waiting) && payments == old(payments)
    {
      saved := saved + [formData];
    }

    /** `togglePayment`: open the dialog on a fresh first step with empty bank details. */
    method TogglePayment()
      requires Valid()
      modifies this
      ensures Valid()
      ensures showDialog && step == 1 && !isValidBilling && selectedProduct == None && !disclaimerAccepted
      ensures account == EmptyBankAccount
      ensures formData == old(formData) && saved == old(saved) && draft == old(draft) && showAddContact == old(showAddContact)
      ensures isLoading == old(isLoading) && waiting == old(waiting) && payments == old(payments)
    {
      showDialog := true;
      step := 1;
      isValidBilling := false;
      selectedProduct := None;
      disclaimerAccepted := false;
      account := EmptyBankAccount;
    }

    /** `handleClosePaymentDialog`: close and reset the steps; the bank details stay. */
    method ClosePaymentDialog()
      requires Valid()
      modifies this
      ensures Valid()
      ensures !showDialog && step == 1 && !isValidBilling && selectedProduct == None && !disclaimerAccepted
      ensures account == old(account)
      ensures formData == old(formData) && saved == old(saved) && draft == old(draft) && showAddContact == old(showAddContact)
      ensures isLoading == old(isLoading) && waiting == old(waiting) && payments == old(payments)
    {
      showDialog := false;
      step := 1;
      isValidBilling := false;
      selectedProduct := None;
      disclaimerAccepted := false;
    }

    /** The account-type select stores the chosen type; the numbers stay. */
    method SelectAccountType(accountType: string)
      requires Valid()
      modifies this
      ensures Valid()
      ensures account == old(account).(accountType := accountType)
      ensures formData == old(formData) && saved == old(saved) && draft == old(draft) && showAddContact == old(showAddContact)
      ensures showDialog == old(showDialog) && step == old(step)
      ensures isValidBilling == old(isValidBilling) && selectedProduct == old(selectedProduct)
      ensures disclaimerAccepted == old(disclaimerAccepted) && isLoading == old(isLoading)
      ensures waiting == old(waiting) && payments == old(payments)
    {
      account := account.(accountType := accountType);
    }

    /** The routing input keeps the first nine digits typed; the type and account number stay. */
    method EditRoutingNumber(raw: string)
      requires Valid()
      modifies this
      ensures Valid()
      ensures account == old(account).(routingNumber := RoutingInput(raw))
      ensures formData == old(formData) && saved == old(saved) && draft == old(draft) && showAddContact == old(showAddContact)
      ensures showDialog == old(showDialog) && step == old(step)
      ensures isValidBilling == old(isValidBilling) && selectedProduct == old(selectedProduct)
      ensures disclaimerAccepted == old(disclaimerAccepted) && isLoading == old(isLoading)
      ensures waiting == old(waiting) && payments == old(payments)
    {
      account := account.(routingNumber := RoutingInput(raw));
    }

    /** The account input keeps the digits typed; the type and routing number stay. */
    method EditAccountNumber(raw: string)
      requires Valid()
      modifies this
      ensures Valid()
      ensures account == old(account).(accountNumber := AccountInput(raw))
      ensures formData == old(formData) && saved == old(saved) && draft == old(draft) && showAddContact == old(showAddContact)
      ensures showDialog == old(showDialog) && step == old(step)
      ensures isValidBilling == old(isValidBilling) && selectedProduct == old(selectedProduct)
      ensures disclaimerAccepted == old(disclaimerAccepted) && isLoading == old(isLoading)
      ensures waiting == old(waiting) && payments == old(payments)
    {
      account := account.(accountNumber := AccountInput(raw));
    }

    /** The Verify button is shown on step 1 and disabled while loading or with a number missing. */
    predicate VerifyEnabled(): (r: bool)
      reads this
      ensures r <==> showDialog && step == 1 && !isLoading
                     && AccountPrecheck(account.routingNumber, account.accountNumber) != MissingNumbers
    {
      showDialog && step == 1 && !isLoading && account.routingNumber != "" && account.accountNumber != ""
    }

    /**
     * `verifyAccountInformation` up to its await: the pre-checks, then the
     * loading flag and the request.
     */
    method BeginVerify()
      requires Valid()
      modifies this
      ensures Valid()
      ensures var sends := old(VerifyEnabled()) && AccountPrecheck(account.routingNumber, account.accountNumber) == PrecheckPassed;
        && payments == old(payments) + (if sends then [VerifyBankAccount(formData, account)] else [])
        && isLoading == (old(isLoading) || sends)
        && waiting == (if sends then WaitingForVerification else old(waiting))
      ensures formData == old(formData) && saved == old(saved) && draft == old(draft) && showAddContact == old(showAddContact)
      ensures showDialog == old(showDialog) && step == old(step) && account == old(account)
      ensures isValidBilling == old(isValidBilling) && selectedProduct == old(selectedProduct)
      ensures disclaimerAccepted == old(disclaimerAccepted)
    {
      if VerifyEnabled() && AccountPrecheck(account.routingNumber, account.accountNumber) == PrecheckPassed {
        isLoading := true;
        waiting := WaitingForVerification;
        payments := payments + [VerifyBankAccount(formData, account)];
      }
    }

    /** The verification's reply: success marks the account valid and moves to step 2. */
    method FinishVerify(reply: Reply<string>)
      requires Valid() && waiting == WaitingForVerification
      modifies this
      ensures Valid()
      ensures !isLoading && waiting == NotWaiting
      ensures Succeeded(reply) ==> isValidBilling && step == 2
      ensures !Succeeded(reply) ==> isValidBilling == old(isValidBilling) && step == old(step)
      ensures formData == old(formData) && saved == old(saved) && draft == old(draft) && showAddContact == old(showAddContact)
      ensures showDialog == old(showDialog) && account == old(account) && selectedProduct == old(selectedProduct)
      ensures disclaimerAccepted == old(disclaimerAccepted) && payments == old(payments)
    {
      if Succeeded(reply) {
        isValidBilling := true;
        step := 2;
      }
      isLoading := false;
      waiting := NotWaiting;
    }

    /** A product card on step 2. */
    method SelectProduct(productId: string)
      requires Valid()
      modifies this
      ensures Valid()
      ensures selectedProduct == if showDialog && step == 2 then Some(productId) else old(selectedProduct)
      ensures formData == old(formData) && saved == old(saved) && draft == old(draft) && showAddContact == old(showAddContact)
      ensures showDialog == old(showDialog) && step == old(step) && account == old(account)
      ensures isValidBilling == old(isValidBilling) && disclaimerAccepted == old(disclaimerAccepted)
      ensures isLoading == old(isLoading) && waiting == old(waiting) && payments == old(payments)
    {
      if showDialog && step == 2 {
        selectedProduct := Some(productId);
      }
    }

    /** Continue on step 2, enabled only with a product chosen. */
    method ContinueToReview()
      requires Valid()
      modifies this
      ensures Valid()
      ensures step == if showDialog && old(step) == 2 && Truthy(selectedProduct) then 3 else old(step)
      ensures formData == old(formData) && saved == old(saved) && draft == old(draft) && showAddContact == old(showAddContact)
      ensures showDialog == old(showDialog) && account == old(account) && selectedProduct == old(selectedProduct)
      ensures isValidBilling == old(isValidBilling) && disclaimerAccepted == old(disclaimerAccepted)
      ensures isLoading == old(isLoading) && waiting == old(waiting) && payments == old(payments)
    {
      if showDialog && step == 2 && Truthy(selectedProduct) {
        step := 3;
      }
    }

    /** The Back buttons: step 2 to 1 and step 3 to 2. */
    method Back()
      requires Valid()
      modifies this
      ensures Valid()
      ensures step == if showDialog && old(step) >= 2 then old(step) - 1 else old(step)
      ensures formData == old(formData) && saved == old(saved) && draft == old(draft) && showAddContact == old(showAddContact)
      ensures showDialog == old(showDialog) && account == old(account) && selectedProduct == old(selectedProduct)
      ensures isValidBilling == old(isValidBilling) && disclaimerAccepted == old(disclaimerAccepted)
      ensures isLoading == old(isLoading) && waiting == old(waiting) && payments == old(payments)
    {
      if showDialog && step >= 2 {
        step := step - 1;
      }
    }

    /** The disclaimer checkbox on step 3. */
    method SetDisclaimerAccepted(accepted: bool)
      requires Valid()
      modifies this
      ensures Valid()
      ensures disclaimerAccepted == if showDialog && step == 3 then accepted else old(disclaimerAccepted)
      ensures formData == old(formData) && saved == old(saved) && draft == old(draft) && showAddContact == old(showAddContact)
      ensures showDialog == old(showDialog) && step == old(step) && account == old(account)
      ensures isValidBilling == old(isValidBilling) && selectedProduct == old(selectedProduct)
      ensures isLoading == old(isLoading) && waiting == old(waiting) && payments == old(payments)
    {
      if showDialog && step == 3 {
        disclaimerAccepted := accepted;
      }
    }

    /** Submit on step 3, enabled only with the disclaimer accepted and nothing loading. */
    predicate SubmitEnabled(): (r: bool)
      reads this
      ensures r ==> !VerifyEnabled()
      ensures r && Valid() ==> isValidBilling && Truthy(selectedProduct)
    {
      showDialog && step == 3 && disclaimerAccepted && !isLoading
    }

    /** `handleSubmitSubscription` up to its await. */
    method BeginSubmit()
      requires Valid()
      modifies this
      ensures Valid()
      ensures formData == old(formData) && saved == old(saved) && draft == old(draft) && showAddContact == old(showAddContact)
      ensures showDialog == old(showDialog) && step == old(step) && account == old(account)
      ensures isValidBilling == old(isValidBilling) && selectedProduct == old(selectedProduct)
      ensures disclaimerAccepted == old(disclaimerAccepted)
      ensures old(SubmitEnabled()) ==>
        (isLoading && waiting == WaitingForSubscription
         && payments == old(payments) + [CreateSubscription(formData, account, selectedProduct.value)])
      ensures !old(SubmitEnabled()) ==> isLoading == old(isLoading) && waiting == old(waiting) && payments == old(payments)
    {
      if SubmitEnabled() {
        isLoading := true;
        waiting := WaitingForSubscription;
        payments := payments + [CreateSubscription(formData, account, selectedProduct.value)];
      }
    }

    /** The subscription's reply: success closes the dialog; failure leaves it as it is. */
    method FinishSubmit(reply: Reply<string>)
      requires Valid() && waiting == WaitingForSubscription
      modifies this
      ensures Valid()
      ensures !isLoading && waiting == NotWaiting
      ensures Succeeded(reply) ==> !showDialog && step == 1 && !isValidBilling && selectedProduct == None && !disclaimerAccepted
      ensures !Succeeded(reply) ==>
        (showDialog == old(showDialog) && step == old(step) && isValidBilling == old(isValidBilling)
         && selectedProduct == old(selectedProduct) && disclaimerAccepted == old(disclaimerAccepted))
      ensures formData == old(formData) && saved == old(saved) && draft == old(draft) && showAddContact == old(showAddContact)
      ensures account == old(account) && payments == old(payments)
    {
      if Succeeded(reply) {
        ClosePaymentDialog();
      }
      isLoading := false;
      waiting := NotWaiting;
    }
  }
}
