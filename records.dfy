/**
 * Value types shared by the context provider and the form components: the
 * customer/form record, emergency contacts and the call script's slides.
 */
module Records {
  import opened Wrappers

  /** A JSON scalar stored under a key of a form record. */
  datatype Value = Str(s: string) | Flag(b: bool) | Null

  /** JavaScript falsiness of a scalar: `''`, `false` and `null`. */
  predicate Falsy(v: Value) {
    v == Str("") || v == Flag(false) || v == Null
  }

  datatype ContactField = FirstName | LastName | PhoneNumber | EmailAddress

  datatype Contact = Contact(firstName: string, lastName: string, phoneNumber: string, emailAddress: string)

  const EmptyContact := Contact("", "", "", "")

  /**
   * The customer record the forms edit: its scalar fields by name, and the two
   * list fields, `conditions` and `emergency_contacts`.
   */
  datatype FormData = FormData(fields: map<string, Value>, conditions: seq<string>, emergencyContacts: seq<Contact>)

  /**
   * A customer record as the customer API returns it: scalar fields by name;
   * the two list fields may be missing.
   */
  datatype CustomerRecord = CustomerRecord(fields: map<string, Value>, conditions: Option<seq<string>>, emergencyContacts: Option<seq<Contact>>)

  /** The `type` of one item of a slide's `slideContent`. */
  datatype ContentType =
    | ScriptText | Question | FormFields | AddressForm | BillingFields
    | ProductSelector | SubscriptionAuthorization | OtherContent(name: string)

  datatype ScriptField = ScriptField(name: string, required: bool)

  datatype SlideContent = SlideContent(kind: ContentType, fields: Option<seq<ScriptField>>, required: bool)

  datatype Slide = Slide(startSlide: bool, slideContent: Option<seq<SlideContent>>)
}
