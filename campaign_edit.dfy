/**
  The campaign edit dialog's form logic: the form state, initialisation from the ad being
  edited, the change handlers with their error clearing, the validation that fills an error
  dictionary field by field, and the submit conversion. `isNaN(Number(x))` is the
  parameter `isNumeric` (negated), `parseFloat` is `parse`, `String(n)` is `show` and
  `new Date(s)` is `readDate`.
*/
module CampaignEdit {
  import opened Common
  import opened Entities

  /** The dialog's `formData`: amounts are kept as the text typed, dates as instants or null. */
  datatype FormData = FormData(
    headline: string, ctaText: string, ctaUrl: string, imageUrl: string, status: string,
    budget: string, spendCap: string, startDate: Option<Time>, endDate: Option<Time>, categoryId: string)

  /** The state before any ad is loaded. */
  const InitialForm := FormData("", "", "", "", "active", "", "", None, None, "")

  /** The form's field names, the keys of `formData` and of `errors`. */
  datatype FieldName =
    Headline | CtaText | CtaUrl | ImageUrl | StatusField | Budget | SpendCap | StartDate | EndDate | CategoryId

  /** The dialog's `errors`: a message per field; an empty message is a cleared error. */
  type Errors = map<FieldName, string>

  predicate IsDateField(f: FieldName) {
    f == StartDate || f == EndDate
  }

  /** The value a field holds: text for inputs and selects, an instant or null for the date pickers. */
  datatype FieldValue = TextValue(s: string) | DateValue(d: Option<Time>)

  /** `formData[name]`. */
  function Get(form: FormData, f: FieldName): (v: FieldValue)
    ensures IsDateField(f) <==> v.DateValue?
  {
    match f
    case Headline => TextValue(form.headline)
    case CtaText => TextValue(form.ctaText)
    case CtaUrl => TextValue(form.ctaUrl)
    case ImageUrl => TextValue(form.imageUrl)
    case StatusField => TextValue(form.status)
    case Budget => TextValue(form.budget)
    case SpendCap => TextValue(form.spendCap)
    case StartDate => DateValue(form.startDate)
    case EndDate => DateValue(form.endDate)
    case CategoryId => TextValue(form.categoryId)
  }

  /** `{ ...form, [name]: value }` for a text field: that field reads `value`, every other field is kept. */
  function SetText(form: FormData, f: FieldName, value: string): (r: FormData)
    requires !IsDateField(f)
    ensures Get(r, f) == TextValue(value)
    ensures forall g :: g != f ==> Get(r, g) == Get(form, g)
  {
    match f
    case Headline => form.(headline := value)
    case CtaText => form.(ctaText := value)
    case CtaUrl => form.(ctaUrl := value)
    case ImageUrl => form.(imageUrl := value)
    case StatusField => form.(status := value)
    case Budget => form.(budget := value)
    case SpendCap => form.(spendCap := value)
    case CategoryId => form.(categoryId := value)
  }

  /** `{ ...form, [fieldName]: date }` for a date field. */
  function SetDate(form: FormData, f: FieldName, date: Option<Time>): (r: FormData)
    requires IsDateField(f)
    ensures Get(r, f) == DateValue(date)
    ensures forall g :: g != f ==> Get(r, g) == Get(form, g)
  {
    if f == StartDate then form.(startDate := date) else form.(endDate := date)
  }

  /** `errors[name] ? { ...errors, [name]: '' } : errors`: a shown error is blanked, nothing else moves. */
  function ClearError(errors: Errors, f: FieldName): (r: Errors)
    ensures r.Keys == errors.Keys
    ensures f in r ==> r[f] == ""
    ensures forall g :: g in errors && g != f ==> r[g] == errors[g]
  {
    if f in errors && errors[f] != "" then errors[f := ""] else errors
  }

  /**
    `handleChange` for the text inputs and selects: an event without a name changes nothing;
    otherwise the named field takes the value and that field's error, if shown, is cleared.
  */
  function HandleChange(form: FormData, errors: Errors, name: Option<FieldName>, value: string)
    : (r: (FormData, Errors))
    requires name.None? || !IsDateField(name.value)
    ensures name.None? ==> r == (form, errors)
    ensures name.Some? ==>
      && Get(r.0, name.value) == TextValue(value)
      && (forall g :: g != name.value ==> Get(r.0, g) == Get(form, g))
      && r.1 == ClearError(errors, name.value)
  {
    if name.None? then (form, errors)
    else (SetText(form, name.value, value), ClearError(errors, name.value))
  }

  /** `handleDateChange`: the date field takes the picked date (or null) and its error is cleared. */
  function HandleDateChange(form: FormData, errors: Errors, date: Option<Time>, name: FieldName)
    : (r: (FormData, Errors))
    requires IsDateField(name)
    ensures Get(r.0, name) == DateValue(date)
    ensures forall g :: g != name ==> Get(r.0, g) == Get(form, g)
    ensures r.1 == ClearError(errors, name)
  {
    (SetDate(form, name, date), ClearError(errors, name))
  }

  /** Editing a field never touches another field's error message. */
  lemma ChangeKeepsOtherErrors(form: FormData, errors: Errors, name: FieldName, value: string, g: FieldName)
    requires !IsDateField(name) && g != name && g in errors
    ensures var r := HandleChange(form, errors, Some(name), value);
      g in r.1 && r.1[g] == errors[g]
  {
  }

  /** The messages `validateForm` records. */
  const HeadlineRequired := "Headline is required"
  const CtaTextRequired := "CTA text is required"
  const CtaUrlRequired := "CTA URL is required"
  const ImageUrlRequired := "Image URL is required"
  const CategoryRequired := "Category is required"
  const BudgetNotNumber := "Budget must be a number"
  const SpendCapNotNumber := "Spend cap must be a number"
  const EndBeforeStart := "End date must be after start date"
  const UrlPrefixMessage := "URL must start with http:// or https://"

  /** The URL rule: blank after trimming is "required"; otherwise it must start with `http`. */
  function UrlError(url: string, requiredMessage: string): (e: Option<string>)
    ensures e.None? <==> !IsBlank(url) && StartsWith(url, "http")
  {
    if IsBlank(url) then Some(requiredMessage)
    else if !StartsWith(url, "http") then Some(UrlPrefixMessage)
    else None
  }

  /** The amount rule: an empty amount is allowed; a non-empty one must read as a number. */
  function AmountError(amount: string, isNumeric: string -> bool, message: string): (e: Option<string>)
    ensures e.None? <==> amount == "" || isNumeric(amount)
  {
    if amount != "" && !isNumeric(amount) then Some(message) else None
  }

  /** The dates rule: both set and the start strictly after the end. */
  predicate DatesOutOfOrder(form: FormData) {
    form.startDate.Some? && form.endDate.Some? && form.startDate.value > form.endDate.value
  }

  /** The message `validateForm` records for a field, if any. */
  function ErrorFor(form: FormData, isNumeric: string -> bool, f: FieldName): Option<string> {
    match f
    case Headline => if IsBlank(form.headline) then Some(HeadlineRequired) else None
    case CtaText => if IsBlank(form.ctaText) then Some(CtaTextRequired) else None
    case CtaUrl => UrlError(form.ctaUrl, CtaUrlRequired)
    case ImageUrl => UrlError(form.imageUrl, ImageUrlRequired)
    case CategoryId => if form.categoryId == "" then Some(CategoryRequired) else None
    case Budget => AmountError(form.budget, isNumeric, BudgetNotNumber)
    case SpendCap => AmountError(form.spendCap, isNumeric, SpendCapNotNumber)
    case EndDate => if DatesOutOfOrder(form) then Some(EndBeforeStart) else None
    case StatusField => None
    case StartDate => None
  }

  /** The form passes validation: no field has a message. */
  predicate FormValid(form: FormData, isNumeric: string -> bool) {
    forall f :: ErrorFor(form, isNumeric, f).None?
  }

  /**
    `validateForm`: starts from an empty dictionary and records one message per failing rule,
    in the order headline, CTA text, CTA URL, image URL, category, budget, spend cap, dates;
    the form is valid when no key was recorded.
  */
  method ValidateForm(form: FormData, isNumeric: string -> bool) returns (valid: bool, newErrors: Errors)
    ensures HoldsMessages(newErrors, form, isNumeric)
    ensures valid <==> FormValid(form, isNumeric)
  {
    newErrors := map[];
    if IsBlank(form.headline) {
      newErrors := newErrors[Headline := HeadlineRequired];
    }
    assert newErrors == Expected(form, isNumeric, 1);
    if IsBlank(form.ctaText) {
      newErrors := newErrors[CtaText := CtaTextRequired];
    }
    assert newErrors == Expected(form, isNumeric, 2);
    if IsBlank(form.ctaUrl) {
      newErrors := newErrors[CtaUrl := CtaUrlRequired];
    } else if !StartsWith(form.ctaUrl, "http") {
      newErrors := newErrors[CtaUrl := UrlPrefixMessage];
    }
    assert newErrors == Expected(form, isNumeric, 3);
    if IsBlank(form.imageUrl) {
      newErrors := newErrors[ImageUrl := ImageUrlRequired];
    } else if !StartsWith(form.imageUrl, "http") {
      newErrors := newErrors[ImageUrl := UrlPrefixMessage];
    }
    assert newErrors == Expected(form, isNumeric, 4);
    if form.categoryId == "" {
      newErrors := newErrors[CategoryId := CategoryRequired];
    }
    assert newErrors == Expected(form, isNumeric, 5);
    if form.budget != "" && !isNumeric(form.budget) {
      newErrors := newErrors[Budget := BudgetNotNumber];
    }
    assert newErrors == Expected(form, isNumeric, 6);
    if form.spendCap != "" && !isNumeric(form.spendCap) {
      newErrors := newErrors[SpendCap := SpendCapNotNumber];
    }
    assert newErrors == Expected(form, isNumeric, 7);
    if form.startDate.Some? && form.endDate.Some? && form.startDate.value > form.endDate.value {
      newErrors := newErrors[EndDate := EndBeforeStart];
    }
    assert newErrors == Expected(form, isNumeric, 8);
    AllRulesRun(form, isNumeric, newErrors);
    valid := |newErrors| == 0;
  }

  /** `m` has a key for exactly the fields with a message, and holds that message. */
  predicate HoldsMessages(m: Errors, form: FormData, isNumeric: string -> bool) {
    && (forall f :: f in m <==> ErrorFor(form, isNumeric, f).Some?)
    && (forall f :: f in m ==> Some(m[f]) == ErrorFor(form, isNumeric, f))
  }

  /** A dictionary holding exactly the recorded messages is empty exactly when the form is valid. */
  lemma NoMessagesIffValid(form: FormData, isNumeric: string -> bool, m: Errors)
    requires HoldsMessages(m, form, isNumeric)
    ensures |m| == 0 <==> FormValid(form, isNumeric)
  {
    if |m| != 0 {
      var f :| f in m.Keys;
      assert ErrorFor(form, isNumeric, f).Some?;
    }
  }

  /** The fields that have a rule, in the order `validateForm` checks them. */
  const RuleOrder: seq<FieldName> := [Headline, CtaText, CtaUrl, ImageUrl, CategoryId, Budget, SpendCap, EndDate]

  /** `{ ...m, [f]: message }` when the rule produced a message, else `m`. */
  function Note(m: Errors, f: FieldName, e: Option<string>): (r: Errors)
    ensures e.None? ==> r == m
    ensures e.Some? ==> r == m[f := e.value]
  {
    if e.Some? then m[f := e.value] else m
  }

  /** The dictionary after the first `k` rules have run. */
  function Expected(form: FormData, isNumeric: string -> bool, k: nat): Errors
    requires k <= |RuleOrder|
  {
    if k == 0 then map[]
    else Note(Expected(form, isNumeric, k - 1), RuleOrder[k - 1], ErrorFor(form, isNumeric, RuleOrder[k - 1]))
  }

  /** After the first `k` rules the dictionary holds exactly their messages. */
  lemma {:induction false} ExpectedHolds(form: FormData, isNumeric: string -> bool, k: nat)
    requires k <= |RuleOrder|
    ensures forall f :: f in Expected(form, isNumeric, k) <==> f in RuleOrder[..k] && ErrorFor(form, isNumeric, f).Some?
    ensures forall f :: f in Expected(form, isNumeric, k) ==>
      Some(Expected(form, isNumeric, k)[f]) == ErrorFor(form, isNumeric, f)
  {
    if k > 0 {
      ExpectedHolds(form, isNumeric, k - 1);
      assert RuleOrder[..k] == RuleOrder[..k - 1] + [RuleOrder[k - 1]];
    }
  }

  /** The dictionary after all eight rules holds exactly the messages, and is empty exactly when the form is valid. */
  lemma AllRulesRun(form: FormData, isNumeric: string -> bool, m: Errors)
    requires m == Expected(form, isNumeric, |RuleOrder|)
    ensures HoldsMessages(m, form, isNumeric)
    ensures |m| == 0 <==> FormValid(form, isNumeric)
  {
    ExpectedAll(form, isNumeric);
    NoMessagesIffValid(form, isNumeric, m);
  }

  /** The two fields without a rule have no message, so after all eight rules every message is recorded. */
  lemma ExpectedAll(form: FormData, isNumeric: string -> bool)
    ensures HoldsMessages(Expected(form, isNumeric, |RuleOrder|), form, isNumeric)
  {
    ExpectedHolds(form, isNumeric, |RuleOrder|);
    assert RuleOrder[..|RuleOrder|] == RuleOrder;
    forall f ensures f in Expected(form, isNumeric, |RuleOrder|) <==> ErrorFor(form, isNumeric, f).Some? {
      if f !in RuleOrder {
        assert f == StatusField || f == StartDate;
      }
    }
  }

  /** The validation rules, each stated on its own: the form is valid exactly when all of them hold. */
  lemma ValidIff(form: FormData, isNumeric: string -> bool)
    ensures FormValid(form, isNumeric) <==>
      && !IsBlank(form.headline) && !IsBlank(form.ctaText)
      && !IsBlank(form.ctaUrl) && StartsWith(form.ctaUrl, "http")
      && !IsBlank(form.imageUrl) && StartsWith(form.imageUrl, "http")
      && form.categoryId != ""
      && (form.budget == "" || isNumeric(form.budget))
      && (form.spendCap == "" || isNumeric(form.spendCap))
      && !DatesOutOfOrder(form)
  {
    if !FormValid(form, isNumeric) {
      var f :| ErrorFor(form, isNumeric, f).Some?;
    } else {
      assert ErrorFor(form, isNumeric, Headline).None? && ErrorFor(form, isNumeric, CtaText).None?;
      assert ErrorFor(form, isNumeric, CtaUrl).None? && ErrorFor(form, isNumeric, ImageUrl).None?;
      assert ErrorFor(form, isNumeric, CategoryId).None? && ErrorFor(form, isNumeric, Budget).None?;
      assert ErrorFor(form, isNumeric, SpendCap).None? && ErrorFor(form, isNumeric, EndDate).None?;
    }
  }

  /**
    Dates out of order put a message on the end date and never on the start date; equal dates,
    or a missing date, are accepted.
  */
  lemma DateRule(form: FormData, isNumeric: string -> bool)
    ensures ErrorFor(form, isNumeric, StartDate).None?
    ensures ErrorFor(form, isNumeric, EndDate) ==
      (if DatesOutOfOrder(form) then Some(EndBeforeStart) else None)
    ensures form.startDate.Some? && form.startDate == form.endDate ==> ErrorFor(form, isNumeric, EndDate).None?
  {
  }

  /** A blank URL is reported as missing, not as lacking the scheme. */
  lemma BlankUrlIsRequired(form: FormData, isNumeric: string -> bool)
    requires IsBlank(form.ctaUrl)
    ensures ErrorFor(form, isNumeric, CtaUrl) == Some(CtaUrlRequired)
  {
  }

  /** What `onSave` receives: the form with the amounts parsed, or null when they are empty. */
  datatype Submission = Submission(
    headline: string, ctaText: string, ctaUrl: string, imageUrl: string, status: string,
    budget: Option<real>, spendCap: Option<real>, startDate: Option<Time>, endDate: Option<Time>, categoryId: string)

  /** `x ? parseFloat(x) : null` for a typed amount. */
  function ParseAmount(x: string, parse: string -> real): (r: Option<real>)
    ensures r.None? <==> x == ""
    ensures r.Some? ==> r.value == parse(x)
  {
    if x != "" then Some(parse(x)) else None
  }

  /** The `dataToSubmit` record built from the form. */
  function ToSubmission(form: FormData, parse: string -> real): (s: Submission)
    ensures s.headline == form.headline && s.ctaText == form.ctaText && s.ctaUrl == form.ctaUrl
    ensures s.imageUrl == form.imageUrl && s.status == form.status && s.categoryId == form.categoryId
    ensures s.startDate == form.startDate && s.endDate == form.endDate
    ensures s.budget == ParseAmount(form.budget, parse) && s.spendCap == ParseAmount(form.spendCap, parse)
  {
    Submission(form.headline, form.ctaText, form.ctaUrl, form.imageUrl, form.status,
               ParseAmount(form.budget, parse), ParseAmount(form.spendCap, parse),
               form.startDate, form.endDate, form.categoryId)
  }

  /**
    `handleSubmit`: validation runs first and its messages replace the shown errors; only a
    valid form is handed to `onSave` (the `Some` result), with empty amounts as null.
  */
  method HandleSubmit(form: FormData, isNumeric: string -> bool, parse: string -> real)
    returns (errors: Errors, saved: Option<Submission>)
    ensures HoldsMessages(errors, form, isNumeric)
    ensures saved.Some? <==> FormValid(form, isNumeric)
    ensures saved.Some? ==> saved.value == ToSubmission(form, parse)
    ensures saved.Some? ==> (saved.value.budget.None? <==> form.budget == "")
                            && (saved.value.spendCap.None? <==> form.spendCap == "")
  {
    var valid;
    valid, errors := ValidateForm(form, isNumeric);
    if !valid {
      return errors, None;
    }
    saved := Some(ToSubmission(form, parse));
  }

  /** The `ad` prop: the campaign being edited, with its dates as ISO strings. */
  datatype DialogAd = DialogAd(
    id: string, headline: string, ctaText: string, ctaUrl: string, imageUrl: string, status: AdStatus,
    budget: Option<real>, spendCap: Option<real>, startDate: Option<string>, endDate: Option<string>,
    categoryId: string)

  /** `n ? String(n) : ''` for an amount. */
  function ShowAmount(n: Option<real>, show: real -> string): (s: string)
    ensures TruthyNumber(n) ==> s == show(n.value)
    ensures !TruthyNumber(n) ==> s == ""
  {
    if TruthyNumber(n) then show(n.value) else ""
  }

  /** `s ? new Date(s) : null` for a date. */
  function ReadDate(s: Option<string>, readDate: string -> Time): (d: Option<Time>)
    ensures d.None? <==> !Truthy(s)
    ensures d.Some? ==> d.value == readDate(s.value)
  {
    if Truthy(s) then Some(readDate(s.value)) else None
  }

  /**
    The effect that runs when `ad` changes: with no ad the state is kept; otherwise the form is
    filled from the ad (amounts as text, a zero or null amount as empty text) and the errors emptied.
  */
  function LoadAd(ad: Option<DialogAd>, form: FormData, errors: Errors, show: real -> string,
                  readDate: string -> Time): (r: (FormData, Errors))
    ensures ad.None? ==> r == (form, errors)
    ensures ad.Some? ==>
      && r.1 == map[]
      && r.0.headline == ad.value.headline && r.0.ctaText == ad.value.ctaText
      && r.0.ctaUrl == ad.value.ctaUrl && r.0.imageUrl == ad.value.imageUrl
      && r.0.status == StatusName(ad.value.status) && r.0.categoryId == ad.value.categoryId
      && r.0.budget == ShowAmount(ad.value.budget, show) && r.0.spendCap == ShowAmount(ad.value.spendCap, show)
      && r.0.startDate == ReadDate(ad.value.startDate, readDate)
      && r.0.endDate == ReadDate(ad.value.endDate, readDate)
  {
    if ad.None? then (form, errors)
    else
      var a := ad.value;
      (FormData(a.headline, a.ctaText, a.ctaUrl, a.imageUrl, StatusName(a.status),
                ShowAmount(a.budget, show), ShowAmount(a.spendCap, show),
                ReadDate(a.startDate, readDate), ReadDate(a.endDate, readDate), a.categoryId),
       map[])
  }

  /**
    Loading an ad and submitting it unedited gives back its amounts, provided `parse` reads what
    `show` writes and `show` never writes the empty string; a zero amount comes back as null.
  */
  lemma LoadThenSubmitAmounts(ad: DialogAd, form: FormData, errors: Errors, show: real -> string,
                              readDate: string -> Time, parse: string -> real)
    requires forall x :: parse(show(x)) == x
    requires forall x :: show(x) != ""
    ensures var s := ToSubmission(LoadAd(Some(ad), form, errors, show, readDate).0, parse);
      && s.budget == (if TruthyNumber(ad.budget) then ad.budget else None)
      && s.spendCap == (if TruthyNumber(ad.spendCap) then ad.spendCap else None)
  {
  }

  /**
    The dialog can bring an archived campaign back: it loads as `archived`, choosing `active` in the
    status select changes nothing the rules check, and the submission then carries `active`.
  */
  lemma ArchivedCanBeReactivated(ad: DialogAd, form: FormData, errors: Errors, show: real -> string,
                                 readDate: string -> Time, isNumeric: string -> bool, parse: string -> real)
    requires ad.status == Archived
    ensures var loaded := LoadAd(Some(ad), form, errors, show, readDate).0;
      var changed := HandleChange(loaded, map[], Some(StatusField), "active").0;
      && loaded.status == "archived"
      && (FormValid(changed, isNumeric) <==> FormValid(loaded, isNumeric))
      && ToSubmission(changed, parse).status == "active"
  {
    var loaded := LoadAd(Some(ad), form, errors, show, readDate).0;
    var changed := HandleChange(loaded, map[], Some(StatusField), "active").0;
    assert changed == loaded.(status := "active");
    forall f
      ensures ErrorFor(changed, isNumeric, f) == ErrorFor(loaded, isNumeric, f)
    {
    }
  }

  /** Status names never leave the three the select offers. */
  lemma LoadedStatusIsKnown(ad: DialogAd, form: FormData, errors: Errors, show: real -> string,
                            readDate: string -> Time)
    ensures LoadAd(Some(ad), form, errors, show, readDate).0.status in {"active", "paused", "archived"}
  {
  }
}
