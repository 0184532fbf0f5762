/** The three-step onboarding wizard: the platform and industry choices, the
    contact step with its email shape check, and the step counter that only
    advances past a step whose validation succeeds. Form fields are read from the
    page; here they are the `Form` record handed to each check. */
module Wizard {
  import opened Options
  import opened JsStrings

  /** Number of entries of `steps`: platform, industry, contact. */
  const StepCount: nat := 3

  /** `wizardData`: what the wizard has collected so far. */
  datatype WizardData = WizardData(email: string, dgPlatform: string, industry: string,
                                   hqLocation: string, challenge: string, companyName: string)

  const EmptyData: WizardData := WizardData("", "", "", "", "", "")

  /** The values the step checks read from the page: the `data-value` of the
      selected option button (absent when none is selected), the custom text
      inputs, the contact fields and the value of the HQ select. */
  datatype Form = Form(platformSelected: Option<string>, platformCustom: string,
                       industrySelected: Option<string>, industryCustom: string,
                       email: string, company: string, hq: string, hqCustom: string, challenge: string)

  /** A character the regular expression class `[^\s@]` accepts. */
  predicate Plain(c: char) {
    !IsSpace(c) && c != '@'
  }

  predicate AllPlain(s: string) {
    forall k :: 0 <= k < |s| ==> Plain(s[k])
  }

  /** `/^[^\s@]+@[^\s@]+\.[^\s@]+$/.test(s)`: a non-empty run of plain characters,
      an `@`, a non-empty run, a dot and a non-empty run. */
  predicate MatchesEmailPattern(s: string) {
    exists i, j | 0 < i && i + 1 < j < |s| - 1 ::
      s[i] == '@' && s[j] == '.' && AllPlain(s[..i]) && AllPlain(s[i + 1..j]) && AllPlain(s[j + 1..])
  }

  /** The shape the pattern describes, stated without it: no white space, exactly
      one `@`, something before it, and a dot after it that is neither the first
      nor the last character of the domain. */
  predicate EmailShape(s: string) {
    && NoSpace(s)
    && exists i | 0 < i < |s| ::
         && s[i] == '@'
         && (forall k | 0 <= k < |s| && s[k] == '@' :: k == i)
         && exists d | i + 1 < d < |s| - 1 :: s[d] == '.'
  }

  /** The pattern accepts exactly the strings of that shape. */
  lemma PatternIffShape(s: string)
    ensures MatchesEmailPattern(s) <==> EmailShape(s)
  {
    if MatchesEmailPattern(s) {
      PatternGivesShape(s);
    }
    if EmailShape(s) {
      ShapeGivesPattern(s);
    }
  }

  lemma PatternGivesShape(s: string)
    requires MatchesEmailPattern(s)
    ensures EmailShape(s)
  {
    var i, j :| 0 < i && i + 1 < j < |s| - 1 && s[i] == '@' && s[j] == '.'
                && AllPlain(s[..i]) && AllPlain(s[i + 1..j]) && AllPlain(s[j + 1..]);
    var local, domain, top := s[..i], s[i + 1..j], s[j + 1..];
    forall k | 0 <= k < |s| ensures Plain(s[k]) || k == i {
      if k < i { assert s[k] == local[k]; }
      else if i < k < j { assert s[k] == domain[k - i - 1]; }
      else if j < k { assert s[k] == top[k - j - 1]; }
    }
    assert s[j] == '.';
  }

  lemma ShapeGivesPattern(s: string)
    requires EmailShape(s)
    ensures MatchesEmailPattern(s)
  {
    var i :| 0 < i < |s| && s[i] == '@' && (forall k | 0 <= k < |s| && s[k] == '@' :: k == i)
             && exists d | i + 1 < d < |s| - 1 :: s[d] == '.';
    var j :| i + 1 < j < |s| - 1 && s[j] == '.';
    var local, domain, top := s[..i], s[i + 1..j], s[j + 1..];
    assert AllPlain(local) by {
      forall k | 0 <= k < |local| ensures Plain(local[k]) { assert local[k] == s[k]; }
    }
    assert AllPlain(domain) by {
      forall k | 0 <= k < |domain| ensures Plain(domain[k]) { assert domain[k] == s[i + 1 + k]; }
    }
    assert AllPlain(top) by {
      forall k | 0 <= k < |top| ensures Plain(top[k]) { assert top[k] == s[j + 1 + k]; }
    }
  }

  /** The `validate` of the platform and industry steps: an option must be selected,
      and the `'other'` option needs a custom value, which is trimmed. */
  function ValidateChoice(selected: Option<string>, custom: string, noneAlert: string, customAlert: string)
    : (r: Result<string>)
    ensures r.Ok? <==> selected.Some? && (selected.value == "other" ==> !AllSpace(custom))
    ensures selected.None? ==> r == Err(noneAlert)
    ensures selected.Some? && selected.value == "other" && AllSpace(custom) ==> r == Err(customAlert)
    ensures r.Ok? && selected.value != "other" ==> r.value == selected.value
    ensures r.Ok? && selected.value == "other" ==> r.value == Trim(custom) && r.value != ""
  {
    TrimEmptyIffAllSpace(custom);
    match selected
    case None => Err(noneAlert)
    case Some(v) =>
      if v == "other" then
        var c := Trim(custom);
        if c == "" then Err(customAlert) else Ok(c)
      else Ok(v)
  }

  /** What the contact step records. */
  datatype Contact = Contact(email: string, company: string, hqLocation: string, challenge: string)

  /** The contact step's `validate`: email, company and challenge are trimmed; the
      email, company and HQ must be non-empty, then the email must match the
      pattern, then HQ `'other'` needs a non-blank custom country. */
  function ValidateContact(email: string, company: string, hq: string, hqCustom: string, challenge: string)
    : (r: Result<Contact>)
    ensures r.Ok? <==> && !AllSpace(email) && !AllSpace(company) && hq != ""
                       && EmailShape(Trim(email))
                       && (hq == "other" ==> !AllSpace(hqCustom))
    ensures AllSpace(email) || AllSpace(company) || hq == "" ==> r == Err("Please fill in all required fields")
    ensures !AllSpace(email) && !AllSpace(company) && hq != "" && !EmailShape(Trim(email)) ==>
              r == Err("Please enter a valid email address")
    ensures (!AllSpace(email) && !AllSpace(company) && hq == "other" && EmailShape(Trim(email)) && AllSpace(hqCustom))
              ==> r == Err("Please enter your country")
    ensures r.Ok? ==> && r.value.email == Trim(email) && r.value.company == Trim(company)
                      && r.value.challenge == Trim(challenge)
                      && r.value.hqLocation == (if hq == "other" then Trim(hqCustom) else hq)
  {
    TrimEmptyIffAllSpace(email);
    TrimEmptyIffAllSpace(company);
    TrimEmptyIffAllSpace(hqCustom);
    var e, c := Trim(email), Trim(company);
    PatternIffShape(e);
    if e == "" || c == "" || hq == "" then Err("Please fill in all required fields")
    else if !MatchesEmailPattern(e) then Err("Please enter a valid email address")
    else if hq == "other" && Trim(hqCustom) == "" then Err("Please enter your country")
    else Ok(Contact(e, c, if hq == "other" then Trim(hqCustom) else hq, Trim(challenge)))
  }

  const PlatformAlert := "Please select your Data Governance platform"
  const PlatformCustomAlert := "Please enter your platform name"
  const IndustryAlert := "Please select your industry"
  const IndustryCustomAlert := "Please enter your industry"

  /** `steps[step].validate()`: on success the collected data with this step's
      fields filled in and every other field kept, otherwise that step's alert. */
  function Validate(step: nat, form: Form, data: WizardData): (r: Result<WizardData>)
    requires step < StepCount
    ensures step == 0 ==>
              var v := ValidateChoice(form.platformSelected, form.platformCustom, PlatformAlert, PlatformCustomAlert);
              && (r.Ok? <==> v.Ok?)
              && (v.Ok? ==> r.value == data.(dgPlatform := v.value))
              && (v.Err? ==> r.error == v.error)
    ensures step == 1 ==>
              var v := ValidateChoice(form.industrySelected, form.industryCustom, IndustryAlert, IndustryCustomAlert);
              && (r.Ok? <==> v.Ok?)
              && (v.Ok? ==> r.value == data.(industry := v.value))
              && (v.Err? ==> r.error == v.error)
    ensures step == 2 ==>
              var v := ValidateContact(form.email, form.company, form.hq, form.hqCustom, form.challenge);
              && (r.Ok? <==> v.Ok?)
              && (v.Ok? ==> r.value == data.(email := v.value.email, companyName := v.value.company,
                                              hqLocation := v.value.hqLocation, challenge := v.value.challenge))
              && (v.Err? ==> r.error == v.error)
    ensures r.Ok? && step == 2 ==> r.value.dgPlatform == data.dgPlatform && r.value.industry == data.industry
  {
    if step == 0 then
      match ValidateChoice(form.platformSelected, form.platformCustom, PlatformAlert, PlatformCustomAlert)
      case Ok(v) => Ok(data.(dgPlatform := v))
      case Err(m) => Err(m)
    else if step == 1 then
      match ValidateChoice(form.industrySelected, form.industryCustom, IndustryAlert, IndustryCustomAlert)
      case Ok(v) => Ok(data.(industry := v))
      case Err(m) => Err(m)
    else
      match ValidateContact(form.email, form.company, form.hq, form.hqCustom, form.challenge)
      case Ok(c) => Ok(data.(email := c.email, companyName := c.company, hqLocation := c.hqLocation,
                             challenge := c.challenge))
      case Err(m) => Err(m)
  }

  /** The step counter after `nextStep`: one further exactly when the step validated
      and is not the last one. */
  function Advance(step: nat, validated: bool): (next: nat)
    requires step < StepCount
    ensures next < StepCount
    ensures next == step || next == step + 1
    ensures next == step + 1 <==> validated && step < StepCount - 1
  {
    if validated && step < StepCount - 1 then step + 1 else step
  }

  /** The wizard's module-level state: `currentStep` and `wizardData`. */
  class WizardState {
    var currentStep: nat
    var data: WizardData

    ghost predicate Valid()
      reads this
    {
      currentStep < StepCount
    }

    constructor ()
      ensures Valid() && currentStep == 0 && data == EmptyData
    {
      currentStep, data := 0, EmptyData;
    }

    /** `nextStep()`: validates the current step; on success records its fields and
        moves one step on unless it is the last; on failure returns the alert and
        changes nothing. */
    method NextStep(form: Form) returns (alert: Option<string>)
      requires Valid()
      modifies this
      ensures Valid()
      ensures var v := Validate(old(currentStep), form, old(data));
        && currentStep == Advance(old(currentStep), v.Ok?)
        && data == (if v.Ok? then v.value else old(data))
        && alert == (if v.Err? then Some(v.error) else None)
    {
      var v := Validate(currentStep, form, data);
      match v
      case Err(m) =>
        alert := Some(m);
      case Ok(d) =>
        data := d;
        alert := None;
        if currentStep < StepCount - 1 {
          currentStep := currentStep + 1;
        }
    }
  }
}
