/** The registration page (src/src/pages/Register.js): which fields each account
    category shows, the validation rules each field is registered with, the order in
    which the form library applies them, the category switch that clears the form,
    and the payload handed to the account service. */
module Registration {
  import opened Util

  datatype Field =
    | Name | Email | AbhaId | Phone | NmcId
    | HospitalName | Username | Taluka | District | State | Pincode
    | Password | ConfirmPassword | Terms

  /** A form value: the text of an input, or the state of the terms checkbox. A field
      missing from the form's values is undefined. */
  datatype Value = Text(text: string) | Checked(on: bool)

  // ---------------------------------------------------------------------------
  // Categories and their fields
  // ---------------------------------------------------------------------------

  /** An entry of the category picker. */
  datatype Category = Category(id: string, name: string)

  const Categories: seq<Category> := [
    Category("patient", "Patient"),
    Category("doctor", "Doctor"),
    Category("hospitalAdmin", "Hospital Admin")
  ]

  const CategoryIds: set<string> := {"patient", "doctor", "hospitalAdmin"}

  /** The fields `renderFormFields` shows for a category; an unknown one shows none. */
  function CategoryFields(category: string): set<Field>
  {
    if category == "patient" then {Name, Email, AbhaId, Phone}
    else if category == "doctor" then {Name, Email, NmcId, Phone}
    else if category == "hospitalAdmin" then
      {HospitalName, Username, Email, Taluka, District, State, Pincode}
    else {}
  }

  /** The fields every category shows below its own. */
  const CommonFields: set<Field> := {Password, ConfirmPassword, Terms}

  function RenderedFields(category: string): (fs: set<Field>)
    ensures CommonFields <= fs
    ensures forall f :: f in fs <==> f in CategoryFields(category) || f in CommonFields
  {
    CategoryFields(category) + CommonFields
  }

  /** Every category asks for an email address; only patients give an ABHA ID, only
      doctors an NMC ID, only hospital administrators an address and a pincode. */
  lemma FieldsByCategory(category: string)
    ensures category in CategoryIds <==> Email in RenderedFields(category)
    ensures AbhaId in RenderedFields(category) <==> category == "patient"
    ensures NmcId in RenderedFields(category) <==> category == "doctor"
    ensures Pincode in RenderedFields(category) <==> category == "hospitalAdmin"
    ensures Phone in RenderedFields(category) <==> category in {"patient", "doctor"}
    ensures RenderedFields(category) == CommonFields <==> category !in CategoryIds
  {
    if category !in CategoryIds {
      assert CategoryFields(category) == {};
    } else {
      assert Email in CategoryFields(category);
    }
  }

  /** `categories.find(cat => cat.id === id)` */
  function Find(cs: seq<Category>, id: string): (r: Option<Category>)
    ensures r.Some? ==> r.value in cs && r.value.id == id
    ensures r.None? <==> forall c :: c in cs ==> c.id != id
  {
    if |cs| == 0 then None
    else if cs[0].id == id then Some(cs[0])
    else Find(cs[1..], id)
  }

  /** `getCategoryTitle` */
  function CategoryTitle(category: string): (title: string)
    ensures category !in CategoryIds <==> title == "Registration"
    ensures category in CategoryIds ==>
              exists c :: c in Categories && c.id == category && title == c.name + " Registration"
  {
    var found := Find(Categories, category);
    if found.Some? then found.value.name + " Registration" else "Registration"
  }

  /** The three titles of the picker's categories. */
  lemma CategoryTitles()
    ensures CategoryTitle("patient") == "Patient" + " Registration"
    ensures CategoryTitle("doctor") == "Doctor" + " Registration"
    ensures CategoryTitle("hospitalAdmin") == "Hospital Admin" + " Registration"
  {
    FindAt(Categories, 0);
    FindAt(Categories, 1);
    FindAt(Categories, 2);
  }

  /** In a list of distinct ids, `Find` returns the entry carrying the id. */
  lemma {:induction false} FindAt(cs: seq<Category>, i: int)
    requires 0 <= i < |cs|
    requires forall a, b :: 0 <= a < b < |cs| ==> cs[a].id != cs[b].id
    ensures Find(cs, cs[i].id) == Some(cs[i])
    decreases i
  {
    if i > 0 {
      assert cs[1..][i - 1] == cs[i];
      FindAt(cs[1..], i - 1);
    }
  }

  // ---------------------------------------------------------------------------
  // Character classes and patterns
  // ---------------------------------------------------------------------------

  predicate IsDigit(c: char)
  {
    '0' <= c <= '9'
  }

  /** `[A-Z]` under the case-insensitive flag. */
  predicate IsLetter(c: char)
  {
    'A' <= c <= 'Z' || 'a' <= c <= 'z'
  }

  /** `[A-Z0-9._%+-]` under the case-insensitive flag. */
  predicate IsLocalChar(c: char)
  {
    IsLetter(c) || IsDigit(c) || c in "._%+-"
  }

  /** `[A-Z0-9.-]` under the case-insensitive flag. */
  predicate IsDomainChar(c: char)
  {
    IsLetter(c) || IsDigit(c) || c == '.' || c == '-'
  }

  predicate AllDigits(s: string)
  {
    forall i :: 0 <= i < |s| ==> IsDigit(s[i])
  }

  predicate AllLocal(s: string)
  {
    forall i :: 0 <= i < |s| ==> IsLocalChar(s[i])
  }

  predicate AllDomain(s: string)
  {
    forall i :: 0 <= i < |s| ==> IsDomainChar(s[i])
  }

  predicate AllLetters(s: string)
  {
    forall i :: 0 <= i < |s| ==> IsLetter(s[i])
  }

  /** What `/^[A-Z0-9._%+-]+@[A-Z0-9.-]+\.[A-Z]{2,}$/i` accepts, read off the
      expression: a non-empty local part, '@', a non-empty domain, '.', and at least
      two letters, with `at` and `dot` the positions of the '@' and the final '.'. */
  ghost predicate EmailPatternAt(s: string, at: int, dot: int)
  {
    && 0 < at && at + 1 < dot && dot + 3 <= |s|
    && s[at] == '@' && s[dot] == '.'
    && AllLocal(s[..at]) && AllDomain(s[at + 1..dot]) && AllLetters(s[dot + 1..])
  }

  ghost predicate EmailPattern(s: string)
  {
    exists at, dot :: EmailPatternAt(s, at, dot)
  }

  /** The position of the first `c` in `s`, or `|s|` when there is none. */
  function FirstIndexOf(s: string, c: char): (r: nat)
    ensures r <= |s|
    ensures r < |s| ==> s[r] == c
    ensures forall k :: 0 <= k < r ==> s[k] != c
  {
    if |s| == 0 then 0
    else if s[0] == c then 0
    else 1 + FirstIndexOf(s[1..], c)
  }

  /** The position of the last `c` in `s`, or -1 when there is none. */
  function LastIndexOf(s: string, c: char): (r: int)
    ensures -1 <= r < |s|
    ensures r >= 0 ==> s[r] == c
    ensures forall k :: r < k < |s| ==> s[k] != c
  {
    if |s| == 0 then -1
    else if s[|s| - 1] == c then |s| - 1
    else LastIndexOf(s[..|s| - 1], c)
  }

  /** The email check, done the way a reader of the expression would: the local part
      ends at the first '@' and the top-level domain starts after the last '.'. */
  function IsValidEmail(s: string): (r: bool)
    ensures r ==> |s| >= 6
    ensures r ==> FirstIndexOf(s, '@') == LastIndexOf(s, '@')
  {
    var at := FirstIndexOf(s, '@');
    var dot := LastIndexOf(s, '.');
    var ok :=
      && 0 < at && at + 1 < dot && dot + 3 <= |s|
      && AllLocal(s[..at]) && AllDomain(s[at + 1..dot]) && AllLetters(s[dot + 1..]);
    assert ok ==> LastIndexOf(s, '@') == at by {
      if ok {
        forall k | at < k < |s| ensures s[k] != '@' {
          if k < dot {
            assert s[at + 1..dot][k - at - 1] == s[k];
          } else if k > dot {
            assert s[dot + 1..][k - dot - 1] == s[k];
          }
        }
        LastIndexIs(s, '@', at);
      }
    }
    ok
  }

  /** The last `c` is at `k` when `s[k]` is one and none follows. */
  lemma LastIndexIs(s: string, c: char, k: int)
    requires 0 <= k < |s| && s[k] == c
    requires forall j :: k < j < |s| ==> s[j] != c
    ensures LastIndexOf(s, c) == k
  {
  }

  /** The check accepts exactly the strings the expression matches. */
  lemma EmailCheckMatchesPattern(s: string)
    ensures IsValidEmail(s) <==> EmailPattern(s)
  {
    var at := FirstIndexOf(s, '@');
    var dot := LastIndexOf(s, '.');
    if IsValidEmail(s) {
      assert EmailPatternAt(s, at, dot);
    }
    if EmailPattern(s) {
      var a, d :| EmailPatternAt(s, a, d);
      // No '@' before `a`, since the local part has none, and no '.' after `d`,
      // since the top-level domain is letters only.
      assert at == a;
      assert dot == d;
    }
  }

  /** Exactly `n` decimal digits: `/^[0-9]{n}$/` and `/^\d{n}$/`. */
  predicate DigitsOfLength(s: string, n: nat)
  {
    |s| == n && AllDigits(s)
  }

  // ---------------------------------------------------------------------------
  // Rules, as registered, and how the form library applies them
  // ---------------------------------------------------------------------------

  datatype Pattern = Digits(count: nat) | EmailAddress

  function PatternMatches(p: Pattern, s: string): bool
  {
    match p
    case Digits(n) => DigitsOfLength(s, n)
    case EmailAddress => IsValidEmail(s)
  }

  datatype MinLength = MinLength(length: nat, message: string)
  datatype PatternRule = PatternRule(pattern: Pattern, message: string)

  /** The options passed to `register(field, ...)`; `matchPassword` is the message of a
      `validate` that compares the value with the watched password. */
  datatype Rule = Rule(
    required: string,
    minLength: Option<MinLength>,
    pattern: Option<PatternRule>,
    matchPassword: Option<string>)

  function RuleOf(f: Field): (r: Rule)
    ensures r.required != ""
    ensures r.minLength.Some? <==> f in {Name, NmcId, HospitalName, Username, Password}
    ensures r.minLength.Some? ==> r.minLength.value.length > 0
    ensures r.pattern.Some? <==> f in {Email, AbhaId, Phone, Pincode}
    ensures r.matchPassword.Some? <==> f == ConfirmPassword
  {
    match f
    case Name => Rule("Name is required", Some(MinLength(2, "Name must be at least 2 characters")), None, None)
    case Email => Rule("Email is required", None, Some(PatternRule(EmailAddress, "Invalid email address")), None)
    case AbhaId => Rule("ABHA ID is required", None, Some(PatternRule(Digits(14), "ABHA ID must be 14 digits")), None)
    case Phone => Rule("Phone no. is required", None, Some(PatternRule(Digits(10), "Phone no. must be exactly 10 digits")), None)
    case NmcId => Rule("NMC ID is required", Some(MinLength(5, "NMC ID must be at least 5 characters")), None, None)
    case HospitalName =>
      Rule("Hospital name is required", Some(MinLength(3, "Hospital name must be at least 3 characters")), None, None)
    case Username => Rule("Username is required", Some(MinLength(3, "Username must be at least 3 characters")), None, None)
    case Taluka => Rule("Taluka is required", None, None, None)
    case District => Rule("District is required", None, None, None)
    case State => Rule("State is required", None, None, None)
    case Pincode => Rule("Pincode is required", None, Some(PatternRule(Digits(6), "Pincode must be 6 digits")), None)
    case Password => Rule("Password is required", Some(MinLength(6, "Password must be at least 6 characters")), None, None)
    case ConfirmPassword => Rule("Please confirm your password", None, None, Some("Passwords do not match"))
    case Terms => Rule("You must agree to the terms and conditions", None, None, None)
  }

  /** What `required` treats as empty: undefined, the empty string, an unticked box. */
  predicate IsEmpty(v: Option<Value>)
  {
    v.None? || v.value == Text("") || v.value == Checked(false)
  }

  /** The first error of a field, checking required, then the minimum length, then the
      pattern, then the password comparison; length and pattern apply to text only. */
  function Validate(rule: Rule, v: Option<Value>, password: Option<Value>): (err: Option<string>)
    ensures IsEmpty(v) ==> err == Some(rule.required)
    ensures err.None? ==> !IsEmpty(v)
  {
    if IsEmpty(v) then Some(rule.required)
    else if rule.minLength.Some? && v.value.Text? && |v.value.text| < rule.minLength.value.length then
      Some(rule.minLength.value.message)
    else if rule.pattern.Some? && v.value.Text? && !PatternMatches(rule.pattern.value.pattern, v.value.text) then
      Some(rule.pattern.value.message)
    else if rule.matchPassword.Some? && v != password then
      Some(rule.matchPassword.value)
    else None
  }

  function FieldError(f: Field, v: Option<Value>, password: Option<Value>): Option<string>
  {
    Validate(RuleOf(f), v, password)
  }

  /** Every field, the address fields and the terms box included, rejects an empty value. */
  lemma EmptyAlwaysRejected(f: Field, password: Option<Value>)
    ensures FieldError(f, None, password) == Some(RuleOf(f).required)
    ensures FieldError(f, Some(Text("")), password).Some?
    ensures FieldError(f, Some(Checked(false)), password).Some?
  {
  }

  /** The ABHA ID, phone and pincode take exactly 14, 10 and 6 digits. */
  lemma DigitFields(s: string, password: Option<Value>)
    ensures FieldError(AbhaId, Some(Text(s)), password).None? <==> DigitsOfLength(s, 14)
    ensures FieldError(Phone, Some(Text(s)), password).None? <==> DigitsOfLength(s, 10)
    ensures FieldError(Pincode, Some(Text(s)), password).None? <==> DigitsOfLength(s, 6)
  {
  }

  /** The minimum lengths of the free-text fields. */
  lemma MinimumLengths(s: string, password: Option<Value>)
    ensures FieldError(Name, Some(Text(s)), password).None? <==> |s| >= 2
    ensures FieldError(NmcId, Some(Text(s)), password).None? <==> |s| >= 5
    ensures FieldError(HospitalName, Some(Text(s)), password).None? <==> |s| >= 3
    ensures FieldError(Username, Some(Text(s)), password).None? <==> |s| >= 3
    ensures FieldError(Password, Some(Text(s)), password).None? <==> |s| >= 6
  {
    FieldMinLength(Name, s, password);
    FieldMinLength(NmcId, s, password);
    FieldMinLength(HospitalName, s, password);
    FieldMinLength(Username, s, password);
    FieldMinLength(Password, s, password);
  }

  /** A field with a minimum length and no other rule accepts a text exactly when it
      is at least that long. */
  lemma FieldMinLength(f: Field, s: string, password: Option<Value>)
    requires f in {Name, NmcId, HospitalName, Username, Password}
    ensures RuleOf(f).minLength.Some?
    ensures FieldError(f, Some(Text(s)), password).None? <==> |s| >= RuleOf(f).minLength.value.length
  {
    MinLengthRule(RuleOf(f), s, password);
  }

  /** The address fields only have to be filled in. */
  lemma AddressFieldsRequired(s: string, password: Option<Value>)
    ensures FieldError(Taluka, Some(Text(s)), password).None? <==> s != ""
    ensures FieldError(District, Some(Text(s)), password).None? <==> s != ""
    ensures FieldError(State, Some(Text(s)), password).None? <==> s != ""
  {
    assert IsEmpty(Some(Text(s))) <==> s == "";
  }

  /** A rule with only a (positive) minimum length accepts a text exactly when it is
      at least that long. */
  lemma MinLengthRule(rule: Rule, s: string, password: Option<Value>)
    requires rule.minLength.Some? && rule.minLength.value.length > 0
    requires rule.pattern.None? && rule.matchPassword.None?
    ensures Validate(rule, Some(Text(s)), password).None? <==> |s| >= rule.minLength.value.length
  {
    if s == "" {
      assert IsEmpty(Some(Text(s)));
    }
  }

  /** The email field accepts exactly what the expression matches. */
  lemma EmailField(s: string, password: Option<Value>)
    ensures FieldError(Email, Some(Text(s)), password).None? <==> EmailPattern(s)
  {
    EmailCheckMatchesPattern(s);
    if s == "" {
      assert !EmailPattern(s);
    }
  }

  /** The confirmation is accepted exactly when it is non-empty and equals the password. */
  lemma ConfirmationField(s: string, password: Option<Value>)
    ensures FieldError(ConfirmPassword, Some(Text(s)), password).None? <==> s != "" && password == Some(Text(s))
  {
  }

  /** A sample address the pattern accepts, and two it refuses. */
  lemma EmailExamples()
    ensures IsValidEmail("a.b@mail.co")
    ensures !IsValidEmail("ab@co")
    ensures !IsValidEmail("a@b.c")
  {
    var s := "a.b@mail.co";
    assert FirstIndexOf(s, '@') == 3 by {
      assert s[..3] == "a.b";
    }
    assert LastIndexOf(s, '.') == 8;
    assert s[..3] == "a.b" && s[4..8] == "mail" && s[9..] == "co";
    var t := "ab@co";
    assert LastIndexOf(t, '.') == -1;
    var u := "a@b.c";
    assert LastIndexOf(u, '.') == 3;
  }

  // ---------------------------------------------------------------------------
  // The browser's own check of the `type="email"` inputs
  // ---------------------------------------------------------------------------

  /** A character the HTML standard's "valid email address" allows before the '@'. */
  predicate IsHtmlLocalChar(c: char)
  {
    IsLetter(c) || IsDigit(c) || c in ".!#$%&'*+/=?^_`{|}~-"
  }

  predicate IsLetterOrDigit(c: char)
  {
    IsLetter(c) || IsDigit(c)
  }

  /** One domain label: 1 to 63 letters, digits and hyphens, starting and ending
      with a letter or a digit. */
  predicate ValidLabel(l: string)
  {
    && 1 <= |l| <= 63
    && IsLetterOrDigit(l[0]) && IsLetterOrDigit(l[|l| - 1])
    && forall i :: 0 <= i < |l| ==> IsLetterOrDigit(l[i]) || l[i] == '-'
  }

  /** Labels separated by single dots: the text up to the first '.' is a label, and
      what follows that '.', if there is one, is again a domain. */
  function ValidDomain(d: string): (r: bool)
    ensures r ==> |d| > 0 && IsLetterOrDigit(d[0]) && IsLetterOrDigit(d[|d| - 1])
    decreases |d|
  {
    var k := FirstIndexOf(d, '.');
    ValidLabel(d[..k]) && (k < |d| ==> ValidDomain(d[k + 1..]))
  }

  /** What the browser accepts in a `type="email"` input without `multiple`: at least
      one local character, '@', and a domain. */
  function HtmlEmail(s: string): (r: bool)
    ensures r ==> |s| >= 3 && IsLetterOrDigit(s[|s| - 1])
  {
    var at := FirstIndexOf(s, '@');
    && 0 < at < |s|
    && (forall i :: 0 <= i < at ==> IsHtmlLocalChar(s[i]))
    && ValidDomain(s[at + 1..])
  }

  /** Every character the pattern allows before the '@' the browser allows too. */
  lemma LocalCharsAllowed(c: char)
    ensures IsLocalChar(c) ==> IsHtmlLocalChar(c)
  {
    if c in "._%+-" {
      assert c == '.' || c == '_' || c == '%' || c == '+' || c == '-';
    }
  }

  /** The first `c` of `a + [c] + b` is the one after `a` when `a` holds none. */
  lemma FirstIndexAfter(a: string, c: char, b: string)
    requires c !in a
    ensures FirstIndexOf(a + [c] + b, c) == |a|
  {
    var s := a + [c] + b;
    var r := FirstIndexOf(s, c);
    assert s[|a|] == c;
  }

  /** A domain is a label followed by nothing, or by a dot and a domain. */
  lemma DomainCons(l: string, rest: string)
    requires '.' !in l
    ensures ValidDomain(l) <==> ValidLabel(l)
    ensures ValidDomain(l + "." + rest) <==> ValidLabel(l) && ValidDomain(rest)
  {
    var k := FirstIndexOf(l, '.');
    assert l[..k] == l;
    var d := l + "." + rest;
    FirstIndexAfter(l, '.', rest);
    assert d[..|l|] == l && d[|l| + 1..] == rest;
  }

  /** The browser accepts `local + "@" + domain` exactly when the local part is
      non-empty and made of allowed characters and the domain is well formed. */
  lemma HtmlEmailParts(local: string, domain: string)
    requires '@' !in local
    ensures HtmlEmail(local + "@" + domain) <==>
              local != "" && (forall i :: 0 <= i < |local| ==> IsHtmlLocalChar(local[i])) && ValidDomain(domain)
  {
    var s := local + "@" + domain;
    FirstIndexAfter(local, '@', domain);
    assert s[|local| + 1..] == domain;
    assert forall i :: 0 <= i < |local| ==> s[i] == local[i];
  }

  /** An address both checks accept. */
  lemma EmailChecksAgree()
    ensures IsValidEmail("a.b@mail.co") && HtmlEmail("a.b@mail.co")
  {
    EmailExamples();
    SampleAccepted();
  }

  lemma SampleAccepted()
    ensures HtmlEmail("a.b@mail.co")
  {
    DomainOfSample();
    var local := "a.b";
    assert "a.b@mail.co" == local + "@" + "mail.co";
    forall i | 0 <= i < |local| ensures IsHtmlLocalChar(local[i]) {
      LocalCharsAllowed(local[i]);
    }
    HtmlEmailParts(local, "mail.co");
  }

  lemma DomainOfSample()
    ensures ValidDomain("mail.co")
  {
    assert "mail.co" == "mail" + "." + "co";
    assert ValidLabel("co");
    DomainCons("co", "");
    assert ValidLabel("mail");
    DomainCons("mail", "co");
  }

  /** An address only the pattern accepts: an empty label between two dots. */
  lemma PatternAcceptsEmptyLabel()
    ensures IsValidEmail("a@b..cc") && !HtmlEmail("a@b..cc")
  {
    PatternAcceptsSample();
    BrowserRefusesSample();
  }

  lemma PatternAcceptsSample()
    ensures IsValidEmail("a@b..cc")
  {
    var s := "a@b..cc";
    assert FirstIndexOf(s, '@') == 1;
    assert LastIndexOf(s, '.') == 4;
    assert s[..1] == "a" && s[2..4] == "b." && s[5..] == "cc";
  }

  lemma BrowserRefusesSample()
    ensures !HtmlEmail("a@b..cc")
  {
    assert "a@b..cc" == "a" + "@" + "b..cc";
    assert "b..cc" == "b" + "." + ".cc";
    assert ".cc" == "" + "." + "cc";
    HtmlEmailParts("a", "b..cc");
    DomainCons("b", ".cc");
    DomainCons("", "cc");
  }

  /** An address only the browser accepts: a domain without a dot. */
  lemma BrowserAcceptsSingleLabel()
    ensures !IsValidEmail("a@b") && HtmlEmail("a@b")
  {
    var s := "a@b";
    assert s == "a" + "@" + "b";
    HtmlEmailParts("a", "b");
    DomainCons("b", "");
  }

  // ---------------------------------------------------------------------------
  // The form
  // ---------------------------------------------------------------------------

  /** The errors the form shows for the fields a category renders. */
  function Errors(category: string, values: map<Field, Value>): (errs: map<Field, string>)
    ensures errs.Keys <= RenderedFields(category)
    ensures forall f :: f in errs <==>
              f in RenderedFields(category) && FieldError(f, Get(values, f), Get(values, Password)).Some?
  {
    map f | f in RenderedFields(category) && FieldError(f, Get(values, f), Get(values, Password)).Some?
      :: FieldError(f, Get(values, f), Get(values, Password)).value
  }

  function Get(values: map<Field, Value>, f: Field): Option<Value>
  {
    if f in values then Some(values[f]) else None
  }

  /** What `onSubmit` sends: the form values and the category as `userType`. */
  datatype Payload = Payload(values: map<Field, Value>, userType: string)

  /** An empty form never submits, in any category: at least the password, its
      confirmation and the terms are reported. */
  lemma EmptyFormReportsCommonFields(category: string)
    ensures Errors(category, map[]).Keys >= CommonFields
  {
    forall f | f in CommonFields ensures f in Errors(category, map[]) {
      assert Get(map[], f).None?;
    }
  }

  /** The browser's constraint validation of the form, which has no `noValidate`: an
      email input on screen holding text must hold an address the browser accepts, or
      the submit event never reaches the form library. An empty input passes, since
      it has no `required` attribute. */
  function BrowserAccepts(category: string, values: map<Field, Value>): (r: bool)
    ensures category !in CategoryIds ==> r
    ensures Email !in values || values[Email] == Text("") ==> r
    ensures Email in RenderedFields(category) && Email in values && values[Email].Text? && values[Email].text != "" ==>
              (r <==> HtmlEmail(values[Email].text))
  {
    FieldsByCategory(category);
    Email in RenderedFields(category) && Email in values && values[Email].Text? ==>
      values[Email].text == "" || HtmlEmail(values[Email].text)
  }

  /** The page's state: the selected category and the form values. */
  class RegisterForm {
    var selectedCategory: string
    var values: map<Field, Value>

    /** Only the fields on screen can hold a value. */
    ghost predicate Valid()
      reads this
    {
      values.Keys <= RenderedFields(selectedCategory)
    }

    constructor ()
      ensures Valid()
      ensures selectedCategory == "patient" && values == map[]
    {
      selectedCategory := "patient";
      values := map[];
    }

    /** Typing in, or ticking, a field on screen. */
    method SetValue(f: Field, v: Value)
      requires Valid() && f in RenderedFields(selectedCategory)
      modifies this
      ensures Valid()
      ensures values == old(values)[f := v] && selectedCategory == old(selectedCategory)
    {
      values := values[f := v];
    }

    /** `handleCategoryChange`: select the category and reset every value. */
    method HandleCategoryChange(category: string)
      modifies this
      ensures Valid()
      ensures selectedCategory == category && values == map[]
      ensures CommonFields <= Errors(selectedCategory, values).Keys
    {
      selectedCategory := category;
      values := map[];
      EmptyFormReportsCommonFields(category);
    }

    /** Pressing the submit button: the browser's own check runs first, then
        `handleSubmit(onSubmit)`; the payload is sent only when both pass. It is the
        values, every rendered field filled in and no other field present, with
        `userType` set to the category. */
    method Submit() returns (payload: Option<Payload>)
      requires Valid()
      ensures payload.Some? <==> BrowserAccepts(selectedCategory, values) && Errors(selectedCategory, values) == map[]
      ensures payload.Some? ==> payload.value == Payload(values, selectedCategory)
      ensures payload.Some? ==> payload.value.values.Keys == RenderedFields(selectedCategory)
      ensures payload.Some? ==> forall f :: f in payload.value.values ==> !IsEmpty(Some(payload.value.values[f]))
    {
      if !BrowserAccepts(selectedCategory, values) {
        return None;
      }
      var errs := Errors(selectedCategory, values);
      if errs == map[] {
        payload := Some(Payload(values, selectedCategory));
        forall f | f in RenderedFields(selectedCategory)
          ensures f in values && !IsEmpty(Some(values[f]))
        {
          assert f !in errs;
        }
      } else {
        payload := None;
      }
    }
  }
}
