/** One enrollment attempt: the email and name checks, then the form
    (three text fields, the country, the submit button), then the code
    search. Every failure becomes a `Failure` outcome with its message;
    nothing escapes. The processor remembers, for the lifetime of one task,
    the addresses it has started to enroll. */
module Processor {
  import opened Common
  import opened Eligibility
  import opened Names
  import opened Locators
  import opened Extraction

  const ExpressUrl: string := "https://www.joinmarriottbonvoy.com/calaqr/s/ES/ch/cunxc"
  const JuniorUrl: string := "https://www.joinmarriottbonvoy.com/calaqr/s/ES/ch/cunjc"

  /** The enrollment page for an affiliation kind; unknown kinds have none. */
  function AffiliationUrl(kind: string): (u: Option<string>)
    ensures u.Some? <==> kind == "express" || kind == "junior"
  {
    if kind == "express" then Some(ExpressUrl)
    else if kind == "junior" then Some(JuniorUrl)
    else None
  }

  const FirstNameLocators: seq<Locator> := [
    Locator(Id, "first_name"), Locator(Name, "first_name"), Locator(Css, "input[name*='first']")
  ]
  const LastNameLocators: seq<Locator> := [
    Locator(Id, "last_name"), Locator(Name, "last_name"), Locator(Css, "input[name*='last']")
  ]
  const EmailLocators: seq<Locator> := [
    Locator(Id, "email_address"), Locator(Name, "email_address"), Locator(Css, "input[type='email']")
  ]
  const SubmitLocators: seq<Locator> := [
    Locator(Id, "ctl00_PartialEnrollFormPlaceholder_partial_enroll_EnrollButton"),
    Locator(Css, "a.css_button"),
    Locator(XPath, "//a[contains(@class, 'button')]"),
    Locator(XPath, "//input[@type='submit']")
  ]

  const NameError: string := "Nombre completo debe tener al menos nombre y apellido"
  const NoSubmitError: string := "Bot\U{F3}n de env\U{ED}o no encontrado"
  const NoCodeError: string := "C\U{F3}digo no encontrado en la p\U{E1}gina"
  const GivenError: string := "No se pudo llenar el nombre"
  const FamilyError: string := "No se pudo llenar el apellido"
  const EmailError: string := "No se pudo llenar el email"
  const InvalidEmail: string := "Correo inv\U{E1}lido: "

  /** The message of a refused email. */
  function EmailRefusal(v: Verdict): string {
    InvalidEmail + Reason(v)
  }

  /** The result of one attempt, as the dictionary the caller receives. */
  datatype Outcome =
    | Success(code: string, name: string, email: string, reservation: string)
    | Failure(error: string)

  /** What the browser does during one attempt, over elements of type `E`:
      an exception raised by opening the page, a non-timeout exception while
      waiting for the form, the locator oracle, what filling an element with
      a value observes, the country dropdown, whether the scripted click on
      the submit button completes, the exception (if any) of the native
      click, and the page that results. */
  datatype FormPage<!E> = FormPage(
    navigate: Option<string>,
    formWait: Option<string>,
    probe: Locator -> Probe<E>,
    fill: (E, string) -> FillObservation,
    dropdown: Dropdown<E>,
    scriptClick: E -> bool,
    nativeClick: E -> Option<string>,
    result: ResultPage)

  /** How far the form got: through to submission, stopped with a message,
      or stopped by an exception. */
  datatype Step = Done | Refused(error: string) | Threw(detail: string)

  /** Resolving a field and filling it with `value`. */
  function FillStep<E>(page: FormPage<E>, locators: seq<Locator>, value: string, error: string): (s: Step)
    ensures s == Done <==> Resolve(locators, page.probe).Located?
                           && FillField(page.fill(Resolve(locators, page.probe).element, value), value)
    ensures s.Threw? <==> Resolve(locators, page.probe).Raised?
    ensures s.Refused? ==> s.error == error
  {
    match Resolve(locators, page.probe)
    case Raised(d) => Threw(d)
    case NotFound => Refused(error)
    case Located(e) => if FillField(page.fill(e, value), value) then Done else Refused(error)
  }

  /** Clicking the submit button: the scripted click, then the native one. */
  function SubmitStep<E>(page: FormPage<E>): (s: Step)
    ensures s.Refused? <==> Resolve(SubmitLocators, page.probe).NotFound?
    ensures s == Done <==> Resolve(SubmitLocators, page.probe).Located?
                           && (page.scriptClick(Resolve(SubmitLocators, page.probe).element)
                               || page.nativeClick(Resolve(SubmitLocators, page.probe).element).None?)
    ensures s.Refused? ==> s.error == NoSubmitError
  {
    match Resolve(SubmitLocators, page.probe)
    case Raised(d) => Threw(d)
    case NotFound => Refused(NoSubmitError)
    case Located(b) =>
      if page.scriptClick(b) then Done
      else match page.nativeClick(b)
        case Some(d) => Threw(d)
        case None => Done
  }

  /** The three text fields, in order; the first that fails stops the form. */
  function FillFields<E>(page: FormPage<E>, parts: NameParts, email: string): (s: Step)
    ensures s == Done <==> FillStep(page, FirstNameLocators, parts.given, GivenError) == Done
                           && FillStep(page, LastNameLocators, parts.family, FamilyError) == Done
                           && FillStep(page, EmailLocators, email, EmailError) == Done
    ensures FillStep(page, FirstNameLocators, parts.given, GivenError) != Done ==>
              s == FillStep(page, FirstNameLocators, parts.given, GivenError)
    ensures FillStep(page, FirstNameLocators, parts.given, GivenError) == Done
            && FillStep(page, LastNameLocators, parts.family, FamilyError) != Done ==>
              s == FillStep(page, LastNameLocators, parts.family, FamilyError)
    ensures FillStep(page, FirstNameLocators, parts.given, GivenError) == Done
            && FillStep(page, LastNameLocators, parts.family, FamilyError) == Done ==>
              s == FillStep(page, EmailLocators, email, EmailError)
  {
    var first := FillStep(page, FirstNameLocators, parts.given, GivenError);
    if first != Done then first
    else
      var last := FillStep(page, LastNameLocators, parts.family, FamilyError);
      if last != Done then last
      else FillStep(page, EmailLocators, email, EmailError)
  }

  /** Everything between recording the address and searching for the code.
      The country is attempted but not required; only an exception while
      locating its dropdown stops the form. */
  function FillForm<E>(kind: string, parts: NameParts, email: string, page: FormPage<E>): (s: Step)
    ensures s == Done <==> AffiliationUrl(kind).Some? && page.navigate.None? && page.formWait.None?
                           && FillFields(page, parts, email) == Done
                           && !ChooseCountry(page.probe, page.dropdown).Crashed?
                           && SubmitStep(page) == Done
  {
    if AffiliationUrl(kind).None? then Threw("'" + kind + "'")
    else if page.navigate.Some? then Threw(page.navigate.value)
    else if page.formWait.Some? then Threw(page.formWait.value)
    else
      var fields := FillFields(page, parts, email);
      if fields != Done then fields
      else
        match ChooseCountry(page.probe, page.dropdown)
        case Crashed(d) => Threw(d)
        case _ => SubmitStep(page)
  }

  function CrashMessage(name: string, detail: string): string {
    "Error procesando " + name + ": " + detail
  }

  /** The outcome once the address has been recorded. */
  function OnPage<E>(kind: string, name: string, parts: NameParts, email: string, reservation: string,
                     page: FormPage<E>): (out: Outcome)
    ensures out.Success? <==> FillForm(kind, parts, email, page) == Done && ExtractCode(CodeSelectors, page.result).Some?
    ensures out.Success? ==> out == Success(ExtractCode(CodeSelectors, page.result).value, name, email, reservation)
    ensures FillForm(kind, parts, email, page).Threw? ==>
              out == Failure(CrashMessage(name, FillForm(kind, parts, email, page).detail))
    ensures FillForm(kind, parts, email, page).Refused? ==> out == Failure(FillForm(kind, parts, email, page).error)
    ensures FillForm(kind, parts, email, page) == Done && ExtractCode(CodeSelectors, page.result).None? ==>
              out == Failure(NoCodeError)
  {
    match FillForm(kind, parts, email, page)
    case Threw(d) => Failure(CrashMessage(name, d))
    case Refused(m) => Failure(m)
    case Done =>
      match ExtractCode(CodeSelectors, page.result)
      case Some(code) => Success(code, name, email, reservation)
      case None => Failure(NoCodeError)
  }

  /** Whether an attempt gets far enough to record its address: the email
      is accepted and the name has at least two tokens. */
  predicate Records(processed: set<string>, name: string, email: string) {
    CheckEmail(email, processed) == Accepted && SplitFullName(name).Some?
  }

  /** One attempt, as a function of the addresses recorded before it. */
  function Attempt<E>(kind: string, processed: set<string>, name: string, email: string, reservation: string,
                      page: FormPage<E>): (out: Outcome)
    ensures CheckEmail(email, processed) != Accepted ==>
              out == Failure(EmailRefusal(CheckEmail(email, processed)))
    ensures CheckEmail(email, processed) == Accepted && SplitFullName(name).None? ==> out == Failure(NameError)
    ensures out.Success? <==> Records(processed, name, email)
                              && FillForm(kind, SplitFullName(name).value, email, page) == Done
                              && ExtractCode(CodeSelectors, page.result).Some?
    ensures out.Success? ==> out == Success(ExtractCode(CodeSelectors, page.result).value, name, email, reservation)
                             && |out.code| >= 6 && email !in processed
  {
    var verdict := CheckEmail(email, processed);
    if verdict != Accepted then Failure(EmailRefusal(verdict))
    else
      match SplitFullName(name)
      case None => Failure(NameError)
      case Some(parts) => OnPage(kind, name, parts, email, reservation, page)
  }

  /** The browser steps as the processor runs them. */
  method FillFieldAt<E>(page: FormPage<E>, locators: seq<Locator>, value: string, error: string) returns (s: Step)
    ensures s == FillStep(page, locators, value, error)
  {
    var found := FindElement(locators, page.probe);
    if found.Raised? {
      return Threw(found.detail);
    } else if found.NotFound? {
      return Refused(error);
    }
    s := if FillField(page.fill(found.element, value), value) then Done else Refused(error);
  }

  method FillFieldsAt<E>(page: FormPage<E>, parts: NameParts, email: string) returns (s: Step)
    ensures s == FillFields(page, parts, email)
  {
    s := FillFieldAt(page, FirstNameLocators, parts.given, GivenError);
    if s != Done {
      return;
    }
    s := FillFieldAt(page, LastNameLocators, parts.family, FamilyError);
    if s != Done {
      return;
    }
    s := FillFieldAt(page, EmailLocators, email, EmailError);
  }

  method ClickSubmit<E>(page: FormPage<E>) returns (s: Step)
    ensures s == SubmitStep(page)
  {
    var button := FindElement(SubmitLocators, page.probe);
    if button.Raised? {
      return Threw(button.detail);
    } else if button.NotFound? {
      return Refused(NoSubmitError);
    }
    if !page.scriptClick(button.element) {
      var failure := page.nativeClick(button.element);
      if failure.Some? {
        return Threw(failure.value);
      }
    }
    return Done;
  }

  method RunForm<E>(kind: string, parts: NameParts, email: string, page: FormPage<E>) returns (s: Step)
    ensures s == FillForm(kind, parts, email, page)
  {
    var url := AffiliationUrl(kind);
    if url.None? {
      return Threw("'" + kind + "'");
    }
    if page.navigate.Some? {
      return Threw(page.navigate.value);
    }
    if page.formWait.Some? {
      return Threw(page.formWait.value);
    }
    s := FillFieldsAt(page, parts, email);
    if s != Done {
      return;
    }
    var country := SelectCountry(page.probe, page.dropdown);
    if country.Crashed? {
      return Threw(country.detail);
    }
    s := ClickSubmit(page);
  }

  /** The browser part of an attempt: the form, then the code search. */
  method Enroll<E>(kind: string, name: string, parts: NameParts, email: string, reservation: string,
                   page: FormPage<E>) returns (out: Outcome)
    ensures out == OnPage(kind, name, parts, email, reservation, page)
  {
    var step := RunForm(kind, parts, email, page);
    if step.Threw? {
      return Failure(CrashMessage(name, step.detail));
    } else if step.Refused? {
      return Failure(step.error);
    }
    var code := FindConfirmationCode(page.result);
    out := if code.Some? then Success(code.value, name, email, reservation) else Failure(NoCodeError);
  }

  class MarriottProcessor {
    /** The affiliation kind, lower-cased. */
    const kind: string
    const affiliator: string
    /** Addresses this processor has started to enroll. */
    var processed: set<string>

    constructor(kind: string, affiliator: string)
      ensures this.kind == Lower(kind) && this.affiliator == affiliator && processed == {}
    {
      this.kind := Lower(kind);
      this.affiliator := affiliator;
      processed := {};
    }

    /** The email check against this processor's history; it only reads it. */
    function EmailVerdict(email: string): (v: Verdict)
      reads this
      ensures v == Accepted ==> email !in processed
      ensures v == Duplicate <==> '@' in email && DomainOf(email) in AllowedDomains && email in processed
    {
      CheckEmail(email, processed)
    }

    /** One attempt. The address is recorded once the email and name checks
        pass, before the browser is touched, so a later failure still
        leaves it recorded. */
    method Process<E>(name: string, email: string, reservation: string, page: FormPage<E>) returns (out: Outcome)
      modifies this
      ensures out == Attempt(kind, old(processed), name, email, reservation, page)
      ensures Records(old(processed), name, email) ==> processed == old(processed) + {email}
      ensures !Records(old(processed), name, email) ==> processed == old(processed)
    {
      var before := processed;
      var verdict := EmailVerdict(email);
      if verdict != Accepted {
        assert !Records(before, name, email);
        AttemptRefused(kind, before, name, email, reservation, page);
        return Failure(EmailRefusal(verdict));
      }
      var parts := SplitFullName(name);
      if parts.None? {
        assert !Records(before, name, email);
        AttemptRefused(kind, before, name, email, reservation, page);
        return Failure(NameError);
      }
      assert Records(before, name, email);
      AttemptOnPage(kind, before, name, email, reservation, page);
      processed := before + {email};
      out := Enroll(kind, name, parts.value, email, reservation, page);
    }
  }

  /** An attempt that records its address goes on to the page. */
  lemma AttemptOnPage<E>(kind: string, processed: set<string>, name: string, email: string, reservation: string,
                         page: FormPage<E>)
    requires Records(processed, name, email)
    ensures Attempt(kind, processed, name, email, reservation, page)
            == OnPage(kind, name, SplitFullName(name).value, email, reservation, page)
  {
  }

  /** An attempt that does not record its address fails on the email
      check or, after it, on the name. */
  lemma AttemptRefused<E>(kind: string, processed: set<string>, name: string, email: string, reservation: string,
                          page: FormPage<E>)
    requires !Records(processed, name, email)
    ensures Attempt(kind, processed, name, email, reservation, page)
            == Failure(if CheckEmail(email, processed) != Accepted then EmailRefusal(CheckEmail(email, processed))
                       else NameError)
  {
  }

  /** A rejected email or a one-token name ends the attempt before any
      browser step: the outcome does not depend on the kind or the page. */
  lemma RefusedBeforeBrowser<E>(kind1: string, kind2: string, processed: set<string>, name: string, email: string,
                                reservation: string, page1: FormPage<E>, page2: FormPage<E>)
    requires !Records(processed, name, email)
    ensures Attempt(kind1, processed, name, email, reservation, page1)
            == Attempt(kind2, processed, name, email, reservation, page2)
    ensures Attempt(kind1, processed, name, email, reservation, page1).Failure?
  {
  }

  /** Once an attempt has recorded its address, any later attempt with the
      same address, whatever its name and page and however the first one
      ended, is refused as a duplicate. */
  lemma RecordedThenDuplicate<E>(kind: string, processed: set<string>, name: string, name2: string, email: string,
                                 reservation: string, page: FormPage<E>)
    requires Records(processed, name, email)
    ensures Attempt(kind, processed + {email}, name2, email, reservation, page)
            == Failure(EmailRefusal(Duplicate))
  {
    AcceptedThenDuplicate(email, processed);
  }

  /** A one-token name is refused with the name message. */
  lemma OneTokenNameRefused<E>(kind: string, processed: set<string>, name: string, email: string,
                               reservation: string, page: FormPage<E>)
    requires CheckEmail(email, processed) == Accepted
    requires |Words(name)| < 2
    ensures Attempt(kind, processed, name, email, reservation, page) == Failure(NameError)
  {
  }

  /** A missing submit button is reported as such once the fields are
      filled and the country step has not raised. */
  lemma MissingButtonReported<E>(kind: string, parts: NameParts, email: string, page: FormPage<E>)
    requires AffiliationUrl(kind).Some? && page.navigate.None? && page.formWait.None?
    requires FillFields(page, parts, email) == Done
    requires !ChooseCountry(page.probe, page.dropdown).Crashed?
    requires forall k :: 0 <= k < |SubmitLocators| ==> page.probe(SubmitLocators[k]).TimedOut?
    ensures FillForm(kind, parts, email, page) == Refused(NoSubmitError)
  {
  }
}
