/**
 * The call-script panel: the phone formatter, the `{Route.key}` placeholder
 * resolver, the required-field check of the current slide, and the form that
 * steps through the slides and edits the customer record.
 */
module CallScript {
  import opened Wrappers
  import opened Text
  import opened Records
  import opened CallModel
  import opened FormEdits

  // ---------------------------------------------------------------------------
  // Phone formatting

  /** What the formatter puts before the digit at position `i`. */
  function Separator(i: nat): string {
    if i == 0 then "(" else if i == 3 then ") " else if i == 6 then "-" else ""
  }

  /** The formatted text of the first `n` digits of `d`. */
  function FormatPrefix(d: string, n: nat): string
    requires n <= |d|
  {
    if n == 0 then "" else FormatPrefix(d, n - 1) + Separator(n - 1) + [d[n - 1]]
  }

  /** The display form of a digit string: at most ten digits, as `(ddd) ddd-dddd`. */
  function FormatDigits(d: string): string {
    FormatPrefix(d, if |d| < 10 then |d| else 10)
  }

  /** `formatPhoneNumber`: strip non-digits, then build the display form digit by digit. */
  method FormatPhoneNumber(v: string) returns (formatted: string)
    ensures formatted == FormatDigits(DigitsOnly(v))
  {
    var numbers := DigitsOnly(v);
    formatted := "";
    var i := 0;
    while i < |numbers| && i < 10
      invariant 0 <= i <= |numbers| && i <= 10
      invariant formatted == FormatPrefix(numbers, i)
    {
      formatted := formatted + Separator(i) + [numbers[i]];
      i := i + 1;
    }
  }

  lemma SeparatorHasNoDigits(i: nat)
    ensures DigitsOnly(Separator(i)) == ""
  {
    var s := Separator(i);
    if s != "" {
      assert s == [s[0]] + s[1..];
      if |s| == 2 {
        assert s[1..] == [s[1]] + s[1..][1..];
      }
    }
  }

  /** Appending a digit-free separator and a digit adds just that digit. */
  lemma AppendSeparatedDigit(p: string, sep: string, c: char)
    requires DigitsOnly(sep) == "" && IsDigit(c)
    ensures DigitsOnly(p + sep + [c]) == DigitsOnly(p) + [c]
  {
    DigitsOnlyConcat(p, sep);
    DigitsOnlyConcat(p + sep, [c]);
    assert [c] == [c] + [];
  }

  /** The digits of the first `n` formatted positions are the first `n` digits. */
  lemma {:induction false} FormatPrefixDigits(d: string, n: nat)
    requires AllDigits(d) && n <= |d|
    ensures DigitsOnly(FormatPrefix(d, n)) == d[..n]
  {
    if n > 0 {
      var c := d[n - 1];
      FormatPrefixDigits(d, n - 1);
      SeparatorHasNoDigits(n - 1);
      AppendSeparatedDigit(FormatPrefix(d, n - 1), Separator(n - 1), c);
      assert d[..n] == d[..n - 1] + [c];
    }
  }

  /** Formatting looks only at the first `n` digits. */
  lemma {:induction false} FormatPrefixOfTake(d: string, n: nat, m: nat)
    requires n <= m <= |d|
    ensures FormatPrefix(d, n) == FormatPrefix(d[..m], n)
  {
    if n > 0 {
      FormatPrefixOfTake(d, n - 1, m);
    }
  }

  /**
   * The formatter keeps the digits typed, up to ten, in order; and typing its
   * own output back in yields the same text.
   */
  lemma FormatPhoneNumberMeaning(v: string)
    ensures DigitsOnly(FormatDigits(DigitsOnly(v))) == Take(DigitsOnly(v), 10)
    ensures FormatDigits(DigitsOnly(FormatDigits(DigitsOnly(v)))) == FormatDigits(DigitsOnly(v))
  {
    var d := DigitsOnly(v);
    var n := if |d| < 10 then |d| else 10;
    FormatPrefixDigits(d, n);
    var t := d[..n];
    assert Take(d, 10) == t;
    FormatPrefixOfTake(d, n, n);
    assert FormatDigits(t) == FormatPrefix(t, n);
  }

  /** Between two separators the digits are copied one after another. */
  lemma {:induction false} FormatStretch(d: string, a: nat, b: nat)
    requires a < b <= |d|
    requires forall m :: a < m < b ==> Separator(m) == ""
    ensures FormatPrefix(d, b) == FormatPrefix(d, a) + Separator(a) + d[a..b]
  {
    if b > a + 1 {
      FormatStretch(d, a, b - 1);
      assert d[a..b] == d[a..b - 1] + [d[b - 1]];
    }
  }

  /** Ten digits or more display as `(ddd) ddd-dddd`. */
  lemma FullNumberLayout(d: string)
    requires |d| >= 10
    ensures FormatDigits(d) == "(" + d[0..3] + ") " + d[3..6] + "-" + d[6..10]
  {
    FormatStretch(d, 0, 3);
    FormatStretch(d, 3, 6);
    FormatStretch(d, 6, 10);
  }

  // ---------------------------------------------------------------------------
  // Placeholders

  /** The part of `s` before the first `c`: `s.split(c)[0]`. */
  function Before(s: string, c: char): (r: string)
    ensures c !in r
    ensures |r| <= |s| && r == s[..|r|]
    ensures |r| < |s| ==> s[|r|] == c
  {
    if s == [] || s[0] == c then ""
    else [s[0]] + Before(s[1..], c)
  }

  /** `placeholder.split('.')[0]`. */
  function Route(p: string): string {
    Before(p, '.')
  }

  /**
   * `placeholder.split('.')[1]`: the text between the first and the second
   * dot; without a dot it is `undefined`, which as a property key reads "undefined".
   */
  function Key(p: string): (k: string)
    ensures '.' !in p ==> k == "undefined"
    ensures '.' !in k || k == "undefined"
  {
    var n := |Before(p, '.')|;
    if n == |p| then
      assert '.' !in p by {
        assert p == Before(p, '.');
      }
      "undefined"
    else Before(p[n + 1..], '.')
  }

  /** Where the three routes look their keys up. */
  datatype PlaceholderSources = PlaceholderSources(
    customer: Option<CustomerRecord>,
    billing: map<string, string>,
    agent: Option<map<string, Value>>)

  /** `String(v || '')` for a scalar. */
  function ValueText(v: Value): string {
    match v
    case Str(s) => s
    case Flag(b) => if b then "true" else ""
    case Null => ""
  }

  /** `String(list)` of a list of strings: the items joined by commas. */
  function JoinComma(xs: seq<string>): string {
    if xs == [] then "" else if |xs| == 1 then xs[0] else xs[0] + "," + JoinComma(xs[1..])
  }

  /** `String(list)` of a list of objects: `[object Object]` per item, joined by commas. */
  function ObjectsText(n: nat): string {
    if n == 0 then "" else if n == 1 then "[object Object]" else "[object Object]," + ObjectsText(n - 1)
  }

  /** `customerData?.[key] || ''`. */
  function CustomerText(c: Option<CustomerRecord>, key: string): (r: string)
    ensures c.None? ==> r == ""
    ensures c.Some? && key in c.value.fields && key != "conditions" && key != "emergency_contacts" ==> r == ValueText(c.value.fields[key])
    ensures c.Some? && key !in c.value.fields && key != "conditions" && key != "emergency_contacts" ==> r == ""
  {
    if c.None? then ""
    else if key == "conditions" then (if c.value.conditions.Some? then JoinComma(c.value.conditions.value) else "")
    else if key == "emergency_contacts" then (if c.value.emergencyContacts.Some? then ObjectsText(|c.value.emergencyContacts.value|) else "")
    else if key in c.value.fields then ValueText(c.value.fields[key])
    else ""
  }

  /** `map?.[key] || ''` over a map of strings. */
  function MapText(m: map<string, string>, key: string): (r: string)
    ensures key in m ==> r == m[key]
    ensures key !in m ==> r == ""
  {
    if key in m then m[key] else ""
  }

  /** `dbUser?.[key] || ''`. */
  function AgentText(a: Option<map<string, Value>>, key: string): (r: string)
    ensures a.None? || key !in a.value ==> r == ""
  {
    if a.Some? && key in a.value then ValueText(a.value[key]) else ""
  }

  /** The replacement for one match `full` whose braces enclose `p`. */
  function Substitute(full: string, p: string, src: PlaceholderSources): (r: string)
    ensures Route(p) == "Customer" ==> r == CustomerText(src.customer, Key(p))
    ensures Route(p) == "Billing" ==> r == MapText(src.billing, Key(p))
    ensures Route(p) == "Agent" ==> r == AgentText(src.agent, Key(p))
    ensures Route(p) != "Customer" && Route(p) != "Billing" && Route(p) != "Agent" ==> r == full
  {
    var route := Route(p);
    if route == "Customer" then CustomerText(src.customer, Key(p))
    else if route == "Billing" then MapText(src.billing, Key(p))
    else if route == "Agent" then AgentText(src.agent, Key(p))
    else full
  }

  /** The position of the first `}` at or after `j`, or `|s|` when there is none. */
  function CloseFrom(s: string, j: nat): (k: nat)
    requires j <= |s|
    ensures j <= k <= |s|
    ensures k < |s| ==> s[k] == '}'
    ensures forall m :: j <= m < k ==> s[m] != '}'
    decreases |s| - j
  {
    if j == |s| || s[j] == '}' then j else CloseFrom(s, j + 1)
  }

  /** The text cut into copied characters and placeholder matches. */
  datatype Piece = Literal(c: char) | Match(full: string, inner: string)

  /**
   * The matches of `/\{([^}]+)\}/g` in `s`, left to right: a `{` opens a match
   * when the first `}` after it is at least two characters on, and the search
   * goes on after that `}`; every other character is copied.
   */
  function Scan(s: string): seq<Piece>
    decreases |s|
  {
    if s == "" then []
    else if s[0] == '{' && CloseFrom(s, 1) < |s| && CloseFrom(s, 1) > 1 then
      var k := CloseFrom(s, 1);
      [Match(s[..k + 1], s[1..k])] + Scan(s[k + 1..])
    else [Literal(s[0])] + Scan(s[1..])
  }

  /**
   * `String.prototype.replace` with a callback: every match is replaced by
   * what `replacer` returns for the whole match and its group; the rest is copied.
   */
  function Render(ps: seq<Piece>, replacer: (string, string) -> string): string {
    if ps == [] then "" else PieceText(ps[0], replacer) + Render(ps[1..], replacer)
  }

  function PieceText(p: Piece, replacer: (string, string) -> string): string {
    match p
    case Literal(c) => [c]
    case Match(full, inner) => replacer(full, inner)
  }

  /** The callback `handlePlaceholders` passes to `replace`. */
  function Replacer(src: PlaceholderSources): (string, string) -> string {
    (full, inner) => Substitute(full, inner, src)
  }

  /** `handlePlaceholders`: missing or empty content is returned as it is. */
  function ResolvePlaceholders(content: Option<string>, src: PlaceholderSources): (r: Option<string>)
    ensures !Truthy(content) ==> r == content
    ensures r.Some? <==> content.Some?
  {
    if !Truthy(content) then content else Some(Render(Scan(content.value), Replacer(src)))
  }

  function Literals(x: string): (ps: seq<Piece>)
    ensures |ps| == |x|
  {
    if x == "" then [] else [Literal(x[0])] + Literals(x[1..])
  }

  lemma {:induction false} RenderConcat(a: seq<Piece>, b: seq<Piece>, replacer: (string, string) -> string)
    ensures Render(a + b, replacer) == Render(a, replacer) + Render(b, replacer)
  {
    if a != [] {
      assert (a + b)[0] == a[0] && (a + b)[1..] == a[1..] + b;
      RenderConcat(a[1..], b, replacer);
      calc {
        Render(a + b, replacer);
        PieceText(a[0], replacer) + Render(a[1..] + b, replacer);
        PieceText(a[0], replacer) + (Render(a[1..], replacer) + Render(b, replacer));
        (PieceText(a[0], replacer) + Render(a[1..], replacer)) + Render(b, replacer);
      }
    } else {
      assert a + b == b;
    }
  }

  lemma {:induction false} RenderLiterals(x: string, replacer: (string, string) -> string)
    ensures Render(Literals(x), replacer) == x
  {
    if x != "" {
      RenderLiterals(x[1..], replacer);
      assert x == [x[0]] + x[1..];
    }
  }

  /** A stretch without `{` is scanned into copied characters. */
  lemma {:induction false} ScanCopies(x: string, rest: string)
    requires '{' !in x
    ensures Scan(x + rest) == Literals(x) + Scan(rest)
    decreases |x|
  {
    if x == "" {
      assert x + rest == rest;
    } else {
      var s := x + rest;
      assert s[0] == x[0] && s[1..] == x[1..] + rest;
      assert Scan(s) == [Literal(x[0])] + Scan(x[1..] + rest);
      ScanCopies(x[1..], rest);
      assert Literals(x) == [Literal(x[0])] + Literals(x[1..]);
    }
  }

  /** Text without `{` resolves to itself. */
  lemma NoPlaceholderUnchanged(s: string, src: PlaceholderSources)
    requires '{' !in s
    ensures ResolvePlaceholders(Some(s), src) == Some(s)
  {
    ScanCopies(s, "");
    assert s + "" == s;
    assert Literals(s) + [] == Literals(s);
    RenderLiterals(s, Replacer(src));
  }

  lemma {:induction false} CloseFromSkips(s: string, j: nat, k: nat)
    requires j <= k < |s| && s[k] == '}'
    requires forall m :: j <= m < k ==> s[m] != '}'
    ensures CloseFrom(s, j) == k
    decreases k - j
  {
    if j < k {
      CloseFromSkips(s, j + 1, k);
    }
  }

  /** The characters of a placeholder followed by any text. */
  lemma PlaceholderSlices(p: string, rest: string)
    requires '}' !in p
    ensures var s := "{" + p + "}" + rest;
      && s[0] == '{' && s[|p| + 1] == '}'
      && s[..|p| + 2] == "{" + p + "}" && s[1..|p| + 1] == p && s[|p| + 2..] == rest
      && forall m :: 1 <= m < |p| + 1 ==> s[m] != '}'
  {
    var s := "{" + p + "}" + rest;
    var w := "{" + p + "}";
    assert s == w + rest;
    assert w == ["{"[0]] + p + ["}"[0]];
    assert s[..|p| + 2] == w;
    forall m | 0 <= m < |p|
      ensures s[1 + m] == p[m]
    {
      assert s[1 + m] == w[1 + m];
    }
    assert s[1..|p| + 1] == p;
  }

  /** A well-formed placeholder at the start is scanned as one match, and the scan goes on after it. */
  lemma ScanAtPlaceholder(p: string, rest: string)
    requires p != "" && '}' !in p
    ensures Scan("{" + p + "}" + rest) == [Match("{" + p + "}", p)] + Scan(rest)
  {
    var s := "{" + p + "}" + rest;
    PlaceholderSlices(p, rest);
    CloseFromSkips(s, 1, |p| + 1);
  }

  /** Rendering plain text, one piece, then any pieces. */
  lemma RenderLeadingPiece(pre: string, q: Piece, rest: seq<Piece>, f: (string, string) -> string)
    ensures Render(Literals(pre) + [q] + rest, f) == pre + PieceText(q, f) + Render(rest, f)
  {
    RenderConcat(Literals(pre) + [q], rest, f);
    RenderConcat(Literals(pre), [q], f);
    RenderLiterals(pre, f);
    assert Render([q], f) == PieceText(q, f) + Render([], f);
  }

  /** How a text is scanned up to and including its first placeholder. */
  lemma ScanFirstPlaceholder(pre: string, p: string, rest: string)
    requires '{' !in pre
    requires p != "" && '}' !in p
    ensures Scan(pre + "{" + p + "}" + rest) == Literals(pre) + [Match("{" + p + "}", p)] + Scan(rest)
  {
    var tail := "{" + p + "}" + rest;
    assert pre + "{" + p + "}" + rest == pre + tail;
    ScanCopies(pre, tail);
    ScanAtPlaceholder(p, rest);
  }

  /**
   * Any number of placeholders: the text up to the first one is copied, the
   * first is replaced by its lookup (or kept, for an unknown route), and the
   * rest resolves on its own.
   */
  lemma FirstPlaceholderThenRest(pre: string, p: string, rest: string, src: PlaceholderSources)
    requires '{' !in pre
    requires p != "" && '}' !in p
    ensures ResolvePlaceholders(Some(pre + "{" + p + "}" + rest), src)
         == Some(pre + Substitute("{" + p + "}", p, src) + ResolvePlaceholders(Some(rest), src).value)
  {
    var s := pre + "{" + p + "}" + rest;
    var q := Match("{" + p + "}", p);
    var f := Replacer(src);
    var after := Render(Scan(rest), f);
    ScanFirstPlaceholder(pre, p, rest);
    RenderLeadingPiece(pre, q, Scan(rest), f);
    assert PieceText(q, f) == Substitute("{" + p + "}", p, src);
    assert Render(Scan(s), f) == pre + Substitute("{" + p + "}", p, src) + after;
    assert |s| >= 2;
    assert ResolvePlaceholders(Some(rest), src).value == after by {
      if rest == "" {
        assert Scan(rest) == [];
      }
    }
  }

  /**
   * A text with one placeholder between plain stretches: the placeholder is
   * replaced by its lookup (or kept, for an unknown route) and the rest is copied.
   */
  lemma SinglePlaceholder(pre: string, p: string, post: string, src: PlaceholderSources)
    requires '{' !in pre && '{' !in post
    requires p != "" && '}' !in p
    ensures ResolvePlaceholders(Some(pre + "{" + p + "}" + post), src)
         == Some(pre + Substitute("{" + p + "}", p, src) + post)
  {
    FirstPlaceholderThenRest(pre, p, post, src);
    NoPlaceholderUnchanged(post, src);
  }

  // ---------------------------------------------------------------------------
  // Slides

  /** The first slide at or after `i` that starts the script, or `|script|`. */
  function FirstStartFrom(script: seq<Slide>, i: nat): (k: nat)
    requires i <= |script|
    ensures i <= k <= |script|
    ensures k < |script| ==> script[k].startSlide
    ensures forall j :: i <= j < k ==> !script[j].startSlide
    decreases |script| - i
  {
    if i == |script| || script[i].startSlide then i else FirstStartFrom(script, i + 1)
  }

  /** `scriptData.findIndex(slide => slide?.startSlide)`, or 0 when no slide starts the script. */
  function StartSlideIndex(script: seq<Slide>): (i: nat)
    ensures i == 0 || i < |script|
    ensures |script| > 0 ==> i < |script|
    ensures (exists j :: 0 <= j < |script| && script[j].startSlide) ==> i < |script| && script[i].startSlide
    ensures forall j :: 0 <= j < i ==> !script[j].startSlide
    ensures (forall j :: 0 <= j < |script| ==> !script[j].startSlide) ==> i == 0
  {
    var k := FirstStartFrom(script, 0);
    if k < |script| then k else 0
  }

  /** `currentSlide?.slideContent?.some(content => content.type === k)`. */
  predicate HasKind(slide: Option<Slide>, k: ContentType) {
    slide.Some? && slide.value.slideContent.Some?
    && exists j :: 0 <= j < |slide.value.slideContent.value| && slide.value.slideContent.value[j].kind == k
  }

  /** A form value passes the required check unless it is falsy or a blank string. */
  predicate FormFilled(form: CustomerRecord, name: string) {
    if name == "conditions" then form.conditions.Some?
    else if name == "emergency_contacts" then form.emergencyContacts.Some?
    else name in form.fields && match form.fields[name]
      case Str(s) => !IsBlank(s)
      case Flag(b) => b
      case Null => false
  }

  predicate BillingFilled(billing: map<string, string>, name: string) {
    name in billing && !IsBlank(billing[name])
  }

  /** Required fields are looked up in the billing map on a billing block and in the form otherwise. */
  predicate FieldOk(kind: ContentType, f: ScriptField, form: CustomerRecord, billing: map<string, string>) {
    f.required ==> if kind == BillingFields then BillingFilled(billing, f.name) else FormFilled(form, f.name)
  }

  predicate ChecksFields(kind: ContentType) {
    kind == FormFields || kind == AddressForm || kind == BillingFields
  }

  /** Every check one content block imposes. */
  predicate ContentValid(c: SlideContent, form: CustomerRecord, billing: map<string, string>, disclaimer: bool) {
    && (ChecksFields(c.kind) && c.fields.Some? ==>
          forall m :: 0 <= m < |c.fields.value| ==> FieldOk(c.kind, c.fields.value[m], form, billing))
    && (c.kind == ProductSelector && c.required ==> MapText(billing, "selected_product") != "")
    && (c.kind == SubscriptionAuthorization && c.required ==> disclaimer)
  }

  /** A slide without content is valid; otherwise every block's checks must pass. */
  predicate SlideValid(slide: Option<Slide>, form: CustomerRecord, billing: map<string, string>, disclaimer: bool) {
    slide.None? || slide.value.slideContent.None?
    || forall j :: 0 <= j < |slide.value.slideContent.value| ==>
         ContentValid(slide.value.slideContent.value[j], form, billing, disclaimer)
  }

  /** The payment requests the script sends. */
  datatype PaymentRequest =
    | VerifyAccount(customer: CustomerRecord, payment: map<string, string>)
    | SubscribeCustomer(customer: CustomerRecord, payment: map<string, string>)

  /** The billing state a script starts with. */
  const InitialBilling: map<string, string> := map[
    "type" := "checking", "routing_number" := "", "account_number" := "",
    "selected_product" := "", "frequency" := "Monthly"]

  /** The verification, subscription and disclaimer flags of the billing slides. */
  datatype Progress = Progress(accountVerified: bool, subscriptionCreated: bool, disclaimerAccepted: bool)

  const NoProgress := Progress(false, false, false)

  /**
   * The reset that runs whenever the slide index changes: leaving the billing
   * slides forgets the verification, leaving the authorisation slide forgets
   * the subscription and the disclaimer.
   */
  function ResetFor(slide: Option<Slide>, p: Progress): (r: Progress)
    ensures r.accountVerified <==> p.accountVerified && HasKind(slide, BillingFields)
    ensures r.subscriptionCreated <==> p.subscriptionCreated && HasKind(slide, SubscriptionAuthorization)
    ensures r.disclaimerAccepted <==> p.disclaimerAccepted && HasKind(slide, SubscriptionAuthorization)
  {
    Progress(
      p.accountVerified && HasKind(slide, BillingFields),
      p.subscriptionCreated && HasKind(slide, SubscriptionAuthorization),
      p.disclaimerAccepted && HasKind(slide, SubscriptionAuthorization))
  }

  /** The pre-checks of `verifyAccountInformation` on the billing map. */
  function BillingPrecheck(billing: map<string, string>): Precheck {
    AccountPrecheck(MapText(billing, "routing_number"), MapText(billing, "account_number"))
  }

  /** A billing slide not yet verified sends a verification before moving on. */
  predicate NeedsVerification(slide: Option<Slide>, p: Progress) {
    HasKind(slide, BillingFields) && !p.accountVerified
  }

  /** A Next click gets past the checks: the slide is valid and, if needed, the account verifies. */
  predicate NextPasses(slide: Option<Slide>, form: CustomerRecord, billing: map<string, string>, p: Progress, reply: Reply<string>) {
    SlideValid(slide, form, billing, p.disclaimerAccepted)
    && (NeedsVerification(slide, p) ==> BillingPrecheck(billing) == PrecheckPassed && Succeeded(reply))
  }

  /** The payment requests a Next click sends. */
  function NextPayments(slide: Option<Slide>, form: CustomerRecord, billing: map<string, string>, p: Progress, reply: Reply<string>): seq<PaymentRequest> {
    (if SlideValid(slide, form, billing, p.disclaimerAccepted) && NeedsVerification(slide, p) && BillingPrecheck(billing) == PrecheckPassed
     then [VerifyAccount(form, billing)] else [])
    + (if NextPasses(slide, form, billing, p, reply) && HasKind(slide, SubscriptionAuthorization) && !p.subscriptionCreated
       then [SubscribeCustomer(form, billing)] else [])
  }

  /** The record a script starts with before any customer is loaded. */
  const InitialForm := CustomerRecord(DefaultFields, Some([]), Some([]))

  predicate IsListKey(name: string) {
    name == "conditions" || name == "emergency_contacts"
  }

  /**
   * The call-script panel's state: the loaded script and the current slide,
   * the local copy of the customer record, the billing inputs, the
   * emergency-contact draft, and what it has sent: the record updates pushed
   * to the provider's debounced save and the payment requests.
   */
  class CallScriptForm {
    var script: seq<Slide>
    var index: int
    var progress: Progress
    var formData: CustomerRecord
    var billing: map<string, string>
    var draft: Contact
    var showAddContact: bool
    var updates: seq<CustomerRecord>
    var payments: seq<PaymentRequest>

    /**
     * The slide index stays on a slide of the loaded script, and no
     * subscription is ever marked created.
     */
    ghost predicate Valid()
      reads this
    {
      0 <= index && (|script| > 0 ==> index < |script|) && !progress.subscriptionCreated
    }

    constructor()
      ensures Valid()
      ensures script == [] && index == 0 && progress == NoProgress
      ensures formData == InitialForm && billing == InitialBilling
      ensures draft == EmptyContact && !showAddContact && updates == [] && payments == []
    {
      script := [];
      index := 0;
      progress := NoProgress;
      formData := InitialForm;
      billing := InitialBilling;
      draft := EmptyContact;
      showAddContact := false;
      updates := [];
      payments := [];
    }

    /** `scriptData[currentSlideIndex]`. */
    function CurrentSlide(): (r: Option<Slide>)
      reads this
      ensures r.Some? <==> 0 <= index < |script|
      ensures r.Some? ==> r.value == script[index]
    {
      if 0 <= index < |script| then Some(script[index]) else None
    }

    /** Moves to slide `i`; the reset runs when the index actually changes. */
    method MoveTo(i: int)
      requires Valid() && 0 <= i < |script|
      modifies this
      ensures Valid()
      ensures index == i
      ensures progress == if i != old(index) then ResetFor(CurrentSlide(), old(progress)) else old(progress)
      ensures script == old(script) && formData == old(formData) && billing == old(billing)
      ensures draft == old(draft) && showAddContact == old(showAddContact)
      ensures updates == old(updates) && payments == old(payments)
    {
      if i != index {
        index := i;
        progress := ResetFor(CurrentSlide(), progress);
      } else {
        index := i;
      }
    }

    /** A new script: start on its first start slide (or slide 0); an empty script leaves the index. */
    method ScriptLoaded(s: seq<Slide>)
      requires Valid()
      modifies this
      ensures Valid()
      ensures script == s
      ensures index == if |s| > 0 then StartSlideIndex(s) else old(index)
      ensures progress == if index != old(index) then ResetFor(CurrentSlide(), old(progress)) else old(progress)
      ensures formData == old(formData) && billing == old(billing)
      ensures draft == old(draft) && showAddContact == old(showAddContact)
      ensures updates == old(updates) && payments == old(payments)
    {
      var i := index;
      script := s;
      if |s| > 0 {
        index := StartSlideIndex(s);
        if index != i {
          progress := ResetFor(CurrentSlide(), progress);
        }
      }
    }

    /** A loaded customer replaces the local record; a missing one is ignored. */
    method CustomerLoaded(c: Option<CustomerRecord>)
      requires Valid()
      modifies this
      ensures Valid()
      ensures formData == if c.Some? then c.value else old(formData)
      ensures script == old(script) && index == old(index) && progress == old(progress) && billing == old(billing)
      ensures draft == old(draft) && showAddContact == old(showAddContact)
      ensures updates == old(updates) && payments == old(payments)
    {
      if c.Some? {
        formData := c.value;
      }
    }

    /** `isCurrentSlideValid`: walk the blocks and their fields, stopping at the first failure. */
    method IsCurrentSlideValid() returns (ok: bool)
      ensures ok == SlideValid(CurrentSlide(), formData, billing, progress.disclaimerAccepted)
    {
      var slide := CurrentSlide();
      if slide.None? || slide.value.slideContent.None? {
        return true;
      }
      var contents := slide.value.slideContent.value;
      var i := 0;
      while i < |contents|
        invariant 0 <= i <= |contents|
        invariant forall j :: 0 <= j < i ==> ContentValid(contents[j], formData, billing, progress.disclaimerAccepted)
      {
        var c := contents[i];
        if ChecksFields(c.kind) && c.fields.Some? {
          var fs := c.fields.value;
          var k := 0;
          while k < |fs|
            invariant 0 <= k <= |fs|
            invariant forall m :: 0 <= m < k ==> FieldOk(c.kind, fs[m], formData, billing)
          {
            var f := fs[k];
            if f.required {
              var filled := if c.kind == BillingFields then BillingFilled(billing, f.name) else FormFilled(formData, f.name);
              if !filled {
                assert !ContentValid(c, formData, billing, progress.disclaimerAccepted);
                return false;
              }
            }
            k := k + 1;
          }
        }
        if c.kind == ProductSelector && c.required && MapText(billing, "selected_product") == "" {
          return false;
        }
        if c.kind == SubscriptionAuthorization && c.required && !progress.disclaimerAccepted {
          return false;
        }
        i := i + 1;
      }
      return true;
    }

    /** `handlePrevious`: back one slide unless on the first; the buttons exist only with a script. */
    method HandlePrevious()
      requires Valid() && |script| > 0
      modifies this
      ensures Valid()
      ensures index == if old(index) != 0 then old(index) - 1 else old(index)
      ensures progress == if index != old(index) then ResetFor(CurrentSlide(), old(progress)) else old(progress)
      ensures script == old(script) && formData == old(formData) && billing == old(billing)
      ensures draft == old(draft) && showAddContact == old(showAddContact)
      ensures updates == old(updates) && payments == old(payments)
    {
      if index != 0 {
        MoveTo(index - 1);
      }
    }

    /** A click on the dot of slide `i`. */
    method GoToSlide(i: int)
      requires Valid() && 0 <= i < |script|
      modifies this
      ensures Valid()
      ensures index == i
      ensures progress == if i != old(index) then ResetFor(CurrentSlide(), old(progress)) else old(progress)
      ensures script == old(script) && formData == old(formData) && billing == old(billing)
      ensures draft == old(draft) && showAddContact == old(showAddContact)
      ensures updates == old(updates) && payments == old(payments)
    {
      MoveTo(i);
    }

    /**
     * `handleNext`, with the verification's reply as a parameter: stop on an
     * invalid slide; on an unverified billing slide stop unless the pre-checks
     * pass and the verification succeeds; on an authorisation slide send the
     * subscription (which always reports success); then move on unless on the
     * last slide.
     */
    method HandleNext(verifyReply: Reply<string>)
      requires Valid() && |script| > 0
      modifies this
      ensures Valid()
      ensures var slide := old(CurrentSlide());
        index == if NextPasses(slide, old(formData), old(billing), old(progress), verifyReply) && old(index) != |script| - 1
                 then old(index) + 1 else old(index)
      ensures payments == old(payments) + NextPayments(old(CurrentSlide()), old(formData), old(billing), old(progress), verifyReply)
      ensures var slide := old(CurrentSlide());
        var verified := old(progress).accountVerified
          || (NextPasses(slide, old(formData), old(billing), old(progress), verifyReply) && NeedsVerification(slide, old(progress)));
        var p := old(progress).(accountVerified := verified);
        progress == if index != old(index) then ResetFor(CurrentSlide(), p) else p
      ensures script == old(script) && formData == old(formData) && billing == old(billing)
      ensures draft == old(draft) && showAddContact == old(showAddContact) && updates == old(updates)
    {
      var slide := CurrentSlide();
      ghost var passes := NextPasses(slide, formData, billing, progress, verifyReply);
      ghost var sent := NextPayments(slide, formData, billing, progress, verifyReply);
      var canProceed := IsCurrentSlideValid();
      if !canProceed {
        assert !passes && sent == [];
        return;
      }
      if NeedsVerification(slide, progress) {
        if BillingPrecheck(billing) != PrecheckPassed {
          assert !passes && sent == [];
          return;
        }
        payments := payments + [VerifyAccount(formData, billing)];
        if !Succeeded(verifyReply) {
          assert !passes && sent == [VerifyAccount(formData, billing)];
          return;
        }
        progress := progress.(accountVerified := true);
      }
      assert passes;
      if HasKind(slide, SubscriptionAuthorization) && !progress.subscriptionCreated {
        payments := payments + [SubscribeCustomer(formData, billing)];
      }
      assert payments == old(payments) + sent;
      if index != |script| - 1 {
        MoveTo(index + 1);
      }
    }

    /** `handleFieldChange` for a text input: store the value and push the record. */
    method HandleFieldChange(name: string, value: string)
      requires Valid() && !IsListKey(name)
      modifies this
      ensures Valid()
      ensures formData == old(formData).(fields := old(formData).fields[name := Str(value)])
      ensures updates == old(updates) + [formData]
      ensures script == old(script) && index == old(index) && progress == old(progress) && billing == old(billing)
      ensures draft == old(draft) && showAddContact == old(showAddContact) && payments == old(payments)
    {
      formData := formData.(fields := formData.fields[name := Str(value)]);
      updates := updates + [formData];
    }

    /** A `tel` input: the value is formatted before it is stored. */
    method HandlePhoneFieldChange(name: string, raw: string)
      requires Valid() && !IsListKey(name)
      modifies this
      ensures Valid()
      ensures formData == old(formData).(fields := old(formData).fields[name := Str(FormatDigits(DigitsOnly(raw)))])
      ensures updates == old(updates) + [formData]
      ensures script == old(script) && index == old(index) && progress == old(progress) && billing == old(billing)
      ensures draft == old(draft) && showAddContact == old(showAddContact) && payments == old(payments)
    {
      var v := FormatPhoneNumber(raw);
      HandleFieldChange(name, v);
    }

    /** `handleCheckboxChange`: checking `have_consent` also stamps `last_consent`. */
    method HandleCheckboxChange(name: string, checked: bool, nowIso: string)
      requires Valid() && !IsListKey(name)
      modifies this
      ensures Valid()
      ensures var f := old(formData).fields[name := Flag(checked)];
        formData == old(formData).(fields := if name == "have_consent" && checked then f["last_consent" := Str(nowIso)] else f)
      ensures name in formData.fields && formData.fields[name] == Flag(checked)
      ensures name == "have_consent" && checked ==> formData.fields["last_consent"] == Str(nowIso)
      ensures updates == old(updates) + [formData]
      ensures script == old(script) && index == old(index) && progress == old(progress) && billing == old(billing)
      ensures draft == old(draft) && showAddContact == old(showAddContact) && payments == old(payments)
    {
      var f := formData.fields[name := Flag(checked)];
      if name == "have_consent" && checked {
        f := f["last_consent" := Str(nowIso)];
      }
      formData := formData.(fields := f);
      updates := updates + [formData];
    }

    /** `handleBillingFieldChange`: store the value and drop any earlier verification. */
    method HandleBillingFieldChange(name: string, value: string)
      requires Valid()
      modifies this
      ensures Valid()
      ensures billing == old(billing)[name := value]
      ensures progress == old(progress).(accountVerified := false)
      ensures script == old(script) && index == old(index) && formData == old(formData)
      ensures draft == old(draft) && showAddContact == old(showAddContact)
      ensures updates == old(updates) && payments == old(payments)
    {
      billing := billing[name := value];
      progress := progress.(accountVerified := false);
    }

    /** A billing text input: routing and account numbers keep digits only, routing at most nine. */
    method HandleBillingInput(name: string, raw: string)
      requires Valid()
      modifies this
      ensures Valid()
      ensures billing == old(billing)[name :=
        if name == "routing_number" then RoutingInput(raw)
        else if name == "account_number" then AccountInput(raw)
        else raw]
      ensures progress == old(progress).(accountVerified := false)
      ensures script == old(script) && index == old(index) && formData == old(formData)
      ensures draft == old(draft) && showAddContact == old(showAddContact)
      ensures updates == old(updates) && payments == old(payments)
    {
      var v := raw;
      if name == "routing_number" {
        v := RoutingInput(raw);
      } else if name == "account_number" {
        v := AccountInput(raw);
      }
      HandleBillingFieldChange(name, v);
    }

    /** The disclaimer checkbox. */
    method SetDisclaimerAccepted(accepted: bool)
      requires Valid()
      modifies this
      ensures Valid()
      ensures progress == old(progress).(disclaimerAccepted := accepted)
      ensures script == old(script) && index == old(index) && formData == old(formData) && billing == old(billing)
      ensures draft == old(draft) && showAddContact == old(showAddContact)
      ensures updates == old(updates) && payments == old(payments)
    {
      progress := progress.(disclaimerAccepted := accepted);
    }

    /**
     * `toggleCondition`; a record without a condition list makes the handler
     * throw before any state changes.
     */
    method ToggleCondition(c: string)
      requires Valid()
      modifies this
      ensures Valid()
      ensures old(formData).conditions.Some? ==>
        formData == old(formData).(conditions := Some(FormEdits.ToggleCondition(old(formData).conditions.value, c)))
        && updates == old(updates) + [formData]
      ensures old(formData).conditions.None? ==> formData == old(formData) && updates == old(updates)
      ensures script == old(script) && index == old(index) && progress == old(progress) && billing == old(billing)
      ensures draft == old(draft) && showAddContact == old(showAddContact) && payments == old(payments)
    {
      if formData.conditions.Some? {
        formData := formData.(conditions := Some(FormEdits.ToggleCondition(formData.conditions.value, c)));
        updates := updates + [formData];
      }
    }

    /** `removeCondition`, which throws the same way without a condition list. */
    method RemoveCondition(c: string)
      requires Valid()
      modifies this
      ensures Valid()
      ensures old(formData).conditions.Some? ==>
        formData == old(formData).(conditions := Some(RemoveAll(old(formData).conditions.value, c)))
        && updates == old(updates) + [formData]
      ensures old(formData).conditions.None? ==> formData == old(formData) && updates == old(updates)
      ensures script == old(script) && index == old(index) && progress == old(progress) && billing == old(billing)
      ensures draft == old(draft) && showAddContact == old(showAddContact) && payments == old(payments)
    {
      if formData.conditions.Some? {
        formData := formData.(conditions := Some(RemoveAll(formData.conditions.value, c)));
        updates := updates + [formData];
      }
    }

    /**
     * `handleAddEmergencyContact`: with both names in the draft, append it,
     * clear the draft and close the add panel.
     */
    method AddEmergencyContact()
      requires Valid()
      modifies this
      ensures Valid()
      ensures CanAddContact(old(draft)) && old(formData).emergencyContacts.Some? ==>
        formData == old(formData).(emergencyContacts := Some(AddContact(old(formData).emergencyContacts.value, old(draft))))
        && updates == old(updates) + [formData] && draft == EmptyContact && !showAddContact
      ensures !(CanAddContact(old(draft)) && old(formData).emergencyContacts.Some?) ==>
        formData == old(formData) && updates == old(updates) && draft == old(draft) && showAddContact == old(showAddContact)
      ensures script == old(script) && index == old(index) && progress == old(progress) && billing == old(billing)
      ensures payments == old(payments)
    {
      if CanAddContact(draft) && formData.emergencyContacts.Some? {
        formData := formData.(emergencyContacts := Some(AddContact(formData.emergencyContacts.value, draft)));
        updates := updates + [formData];
        draft := EmptyContact;
        showAddContact := false;
      }
    }

    /** `handleRemoveEmergencyContact(i)`. */
    method RemoveEmergencyContact(i: int)
      requires Valid()
      modifies this
      ensures Valid()
      ensures old(formData).emergencyContacts.Some? ==>
        formData == old(formData).(emergencyContacts := Some(RemoveContactAt(old(formData).emergencyContacts.value, i)))
        && updates == old(updates) + [formData]
      ensures old(formData).emergencyContacts.None? ==> formData == old(formData) && updates == old(updates)
      ensures script == old(script) && index == old(index) && progress == old(progress) && billing == old(billing)
      ensures draft == old(draft) && showAddContact == old(showAddContact) && payments == old(payments)
    {
      if formData.emergencyContacts.Some? {
        formData := formData.(emergencyContacts := Some(RemoveContactAt(formData.emergencyContacts.value, i)));
        updates := updates + [formData];
      }
    }

    /** `handleUpdateEmergencyContact(i, f, v)`. */
    method UpdateEmergencyContact(i: int, f: ContactField, v: string)
      requires Valid()
      modifies this
      ensures Valid()
      ensures old(formData).emergencyContacts.Some? ==>
        formData == old(formData).(emergencyContacts := Some(UpdateContactAt(old(formData).emergencyContacts.value, i, f, v)))
        && updates == old(updates) + [formData]
      ensures old(formData).emergencyContacts.None? ==> formData == old(formData) && updates == old(updates)
      ensures script == old(script) && index == old(index) && progress == old(progress) && billing == old(billing)
      ensures draft == old(draft) && showAddContact == old(showAddContact) && payments == old(payments)
    {
      if formData.emergencyContacts.Some? {
        formData := formData.(emergencyContacts := Some(UpdateContactAt(formData.emergencyContacts.value, i, f, v)));
        updates := updates + [formData];
      }
    }

    /** Typing into the draft contact; the phone number is formatted as it is typed. */
    method EditDraft(f: ContactField, raw: string)
      requires Valid()
      modifies this
      ensures Valid()
      ensures draft == SetField(old(draft), f, if f == PhoneNumber then FormatDigits(DigitsOnly(raw)) else raw)
      ensures script == old(script) && index == old(index) && progress == old(progress) && billing == old(billing)
      ensures formData == old(formData) && showAddContact == old(showAddContact)
      ensures updates == old(updates) && payments == old(payments)
    {
      var v := raw;
      if f == PhoneNumber {
        v := FormatPhoneNumber(raw);
      }
      draft := SetField(draft, f, v);
    }

    /** The add-contact button opens or closes the panel. */
    method ToggleAddContact()
      requires Valid()
      modifies this
      ensures Valid()
      ensures showAddContact == !old(showAddContact)
      ensures script == old(script) && index == old(index) && progress == old(progress) && billing == old(billing)
      ensures formData == old(formData) && draft == old(draft)
      ensures updates == old(updates) && payments == old(payments)
    {
      showAddContact := !showAddContact;
    }

    /** Cancel closes the panel and clears the draft. */
    method CancelAddContact()
      requires Valid()
      modifies this
      ensures Valid()
      ensures !showAddContact && draft == EmptyContact
      ensures script == old(script) && index == old(index) && progress == old(progress) && billing == old(billing)
      ensures formData == old(formData)
      ensures updates == old(updates) && payments == old(payments)
    {
      showAddContact := false;
      draft := EmptyContact;
    }
  }
}
