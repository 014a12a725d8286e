/** Finding form elements through an ordered list of locators, filling a
    text field with a fallback and a read-back check, and choosing the
    country in the form's dropdown. The browser is an oracle: what waiting
    for a locator yields, what a fill attempt observes, which options a
    dropdown holds and whether selecting a value raises. */
module Locators {
  import opened Common

  datatype By = Id | Name | Css | XPath

  datatype Locator = Locator(strategy: By, value: string)

  /** Waiting for one locator to become clickable: the element, a timeout,
      or another WebDriver exception (with its message). */
  datatype Probe<E> = Found(element: E) | TimedOut | Failed(detail: string)

  /** Resolving a locator list: an element, nothing (every locator timed
      out), or an exception that escapes the resolver. */
  datatype Lookup<E> = Located(element: E) | NotFound | Raised(detail: string)

  /** Only a timeout moves the resolver on to the next locator. */
  function Resolve<E>(locators: seq<Locator>, probe: Locator -> Probe<E>): (r: Lookup<E>)
    ensures r.NotFound? <==> forall i :: 0 <= i < |locators| ==> probe(locators[i]).TimedOut?
    ensures r.Located? ==> exists i :: 0 <= i < |locators| && probe(locators[i]) == Found(r.element)
                                     && forall j :: 0 <= j < i ==> probe(locators[j]).TimedOut?
    ensures r.Raised? ==> exists i :: 0 <= i < |locators| && probe(locators[i]) == Failed(r.detail)
                                    && forall j :: 0 <= j < i ==> probe(locators[j]).TimedOut?
    decreases |locators|
  {
    if locators == [] then NotFound
    else
      match probe(locators[0])
      case Found(e) => Located(e)
      case Failed(d) => Raised(d)
      case TimedOut =>
        var r := Resolve(locators[1..], probe);
        assert forall i :: 1 <= i <= |locators[1..]| ==> locators[i] == locators[1..][i - 1];
        r
  }

  /** The resolver loop: the first locator that does not time out wins. */
  method FindElement<E>(locators: seq<Locator>, probe: Locator -> Probe<E>) returns (r: Lookup<E>)
    ensures r == Resolve(locators, probe)
  {
    var i := 0;
    while i < |locators|
      invariant 0 <= i <= |locators|
      invariant Resolve(locators[i..], probe) == Resolve(locators, probe)
    {
      var p := probe(locators[i]);
      if p.Found? {
        return Located(p.element);
      } else if p.Failed? {
        return Raised(p.detail);
      }
      assert locators[i..][1..] == locators[i + 1..];
      i := i + 1;
    }
    return NotFound;
  }

  /** What one fill attempt observes: whether scrolling, focusing and
      clearing completed, whether `send_keys` completed, whether the scripted
      value assignment completed, and the value read back (`None` when the
      read raised or the attribute is absent). */
  datatype FillObservation = FillObservation(prepared: bool, keysOk: bool, scriptOk: bool, readBack: Option<string>)

  /** A fill succeeds only when some writing method completed and the field
      reads back exactly the intended value. */
  function FillField(obs: FillObservation, value: string): (ok: bool)
    ensures ok ==> obs.prepared && obs.readBack == Some(value)
    ensures ok <==> obs.prepared && (obs.keysOk || obs.scriptOk) && obs.readBack == Some(value)
  {
    if !obs.prepared then false
    else
      var written := if obs.keysOk then true else obs.scriptOk;
      written && obs.readBack == Some(value)
  }

  /** The scripted fallback matters only when keystrokes fail. */
  lemma FallbackOnlyAfterKeys(obs: FillObservation, value: string, scriptOk: bool)
    requires obs.keysOk
    ensures FillField(obs.(scriptOk := scriptOk), value) == FillField(obs, value)
  {
  }

  // ----- country dropdown -----

  datatype Choice = Choice(value: string, text: string)

  /** A dropdown element as the browser shows it: its options (`None` when
      the element is not a `select`), and whether `select_by_value(v)`
      completes without raising. */
  datatype Dropdown<-E> = Dropdown(options: E -> Option<seq<Choice>>, selectByValue: (E, string) -> bool)

  datatype CountryOutcome = Selected(value: string) | NotSelected | Crashed(detail: string)

  const CountryLocators: seq<Locator> := [
    Locator(Id, "country"),
    Locator(Name, "country"),
    Locator(Css, "select[name*='country']"),
    Locator(XPath, "//select[contains(@id, 'country')]")
  ]

  const CountryCode: string := "MX"

  const CountrySynonyms: seq<string> := ["mexico", "m\U{E9}xico", "mx"]

  /** Index of the first option whose lower-cased text contains `synonym`,
      or `|options|` when none does. */
  function FirstMatching(options: seq<Choice>, synonym: string): (k: nat)
    ensures k <= |options|
    ensures forall j :: 0 <= j < k ==> !Contains(Lower(options[j].text), synonym)
    ensures k < |options| ==> Contains(Lower(options[k].text), synonym)
    decreases |options|
  {
    if options == [] then 0
    else if Contains(Lower(options[0].text), synonym) then 0
    else 1 + FirstMatching(options[1..], synonym)
  }

  /** Whether the synonym `syn` leads to a completed selection on `e`. */
  predicate SynonymSelects<E>(dropdown: Dropdown<E>, e: E, options: seq<Choice>, syn: string) {
    var m := FirstMatching(options, syn);
    m < |options| && dropdown.selectByValue(e, options[m].value)
  }

  /** Index of the first synonym that leads to a completed selection, or
      `|synonyms|` when none does. */
  function FirstSelecting<E>(dropdown: Dropdown<E>, e: E, options: seq<Choice>, synonyms: seq<string>): (k: nat)
    ensures k <= |synonyms|
    ensures forall j :: 0 <= j < k ==> !SynonymSelects(dropdown, e, options, synonyms[j])
    ensures k < |synonyms| ==> SynonymSelects(dropdown, e, options, synonyms[k])
    decreases |synonyms|
  {
    if synonyms == [] then 0
    else if SynonymSelects(dropdown, e, options, synonyms[0]) then 0
    else 1 + FirstSelecting(dropdown, e, options, synonyms[1..])
  }

  /** The text tier: synonyms in order; for each, the first option whose
      text contains it is selected, and a raising selection moves on to the
      next synonym. */
  function PickBySynonym<E>(dropdown: Dropdown<E>, e: E, options: seq<Choice>, synonyms: seq<string>): (r: Option<string>)
    ensures r.None? <==> forall k :: 0 <= k < |synonyms| ==> !SynonymSelects(dropdown, e, options, synonyms[k])
    ensures r.Some? ==> var k := FirstSelecting(dropdown, e, options, synonyms);
                        k < |synonyms| && r.value == options[FirstMatching(options, synonyms[k])].value
    decreases |synonyms|
  {
    if synonyms == [] then None
    else if SynonymSelects(dropdown, e, options, synonyms[0]) then
      Some(options[FirstMatching(options, synonyms[0])].value)
    else
      var r := PickBySynonym(dropdown, e, options, synonyms[1..]);
      assert forall k :: 1 <= k <= |synonyms[1..]| ==> synonyms[k] == synonyms[1..][k - 1];
      r
  }

  /** The whole country rule: a missing dropdown or a non-`select` element
      gives no selection; the exact code `MX` is tried first, then the
      synonyms. An exception while resolving the dropdown escapes. */
  function ChooseCountry<E>(probe: Locator -> Probe<E>, dropdown: Dropdown<E>): (r: CountryOutcome)
    ensures r.Crashed? <==> Resolve(CountryLocators, probe).Raised?
    ensures Resolve(CountryLocators, probe).NotFound? ==> r == NotSelected
    ensures Resolve(CountryLocators, probe).Located? ==>
              var e := Resolve(CountryLocators, probe).element;
              && (dropdown.options(e).None? ==> r == NotSelected)
              && (dropdown.options(e).Some? && dropdown.selectByValue(e, CountryCode) ==> r == Selected(CountryCode))
              && (dropdown.options(e).Some? && !dropdown.selectByValue(e, CountryCode) ==>
                    var picked := PickBySynonym(dropdown, e, dropdown.options(e).value, CountrySynonyms);
                    r == if picked.Some? then Selected(picked.value) else NotSelected)
    ensures r.Selected? && r.value != CountryCode ==>
              var e := Resolve(CountryLocators, probe).element;
              !dropdown.selectByValue(e, CountryCode) && dropdown.options(e).Some?
              && PickBySynonym(dropdown, e, dropdown.options(e).value, CountrySynonyms) == Some(r.value)
  {
    match Resolve(CountryLocators, probe)
    case Raised(d) => Crashed(d)
    case NotFound => NotSelected
    case Located(e) =>
      match dropdown.options(e)
      case None => NotSelected
      case Some(options) =>
        if dropdown.selectByValue(e, CountryCode) then Selected(CountryCode)
        else
          match PickBySynonym(dropdown, e, options, CountrySynonyms)
          case Some(v) => Selected(v)
          case None => NotSelected
  }

  /** The inner loop over the options for one synonym. */
  method FindOption(options: seq<Choice>, syn: string) returns (j: nat)
    ensures j == FirstMatching(options, syn)
  {
    j := 0;
    while j < |options|
      invariant 0 <= j <= |options|
      invariant forall jj :: 0 <= jj < j ==> !Contains(Lower(options[jj].text), syn)
    {
      if Contains(Lower(options[j].text), syn) {
        return;
      }
      j := j + 1;
    }
  }

  /** The text tier from synonym `k` on is synonym `k`'s selection, or
      else the tier from `k + 1` on. */
  lemma PickStep<E>(dropdown: Dropdown<E>, e: E, options: seq<Choice>, synonyms: seq<string>, k: nat)
    requires k < |synonyms|
    ensures PickBySynonym(dropdown, e, options, synonyms[k..])
            == if SynonymSelects(dropdown, e, options, synonyms[k])
               then Some(options[FirstMatching(options, synonyms[k])].value)
               else PickBySynonym(dropdown, e, options, synonyms[k + 1..])
  {
    assert synonyms[k..][0] == synonyms[k];
    assert synonyms[k..][1..] == synonyms[k + 1..];
  }

  /** The outer loop over the synonyms. */
  method SelectBySynonym<E>(dropdown: Dropdown<E>, e: E, options: seq<Choice>, synonyms: seq<string>) returns (r: Option<string>)
    ensures r == PickBySynonym(dropdown, e, options, synonyms)
  {
    var k := 0;
    while k < |synonyms|
      invariant 0 <= k <= |synonyms|
      invariant PickBySynonym(dropdown, e, options, synonyms[k..]) == PickBySynonym(dropdown, e, options, synonyms)
    {
      var j := FindOption(options, synonyms[k]);
      PickStep(dropdown, e, options, synonyms, k);
      if j < |options| && dropdown.selectByValue(e, options[j].value) {
        return Some(options[j].value);
      }
      k := k + 1;
    }
    assert synonyms[k..] == [];
    return None;
  }

  /** The country selection as the processor runs it. */
  method SelectCountry<E>(probe: Locator -> Probe<E>, dropdown: Dropdown<E>) returns (r: CountryOutcome)
    ensures r == ChooseCountry(probe, dropdown)
  {
    var found := FindElement(CountryLocators, probe);
    if found.Raised? {
      return Crashed(found.detail);
    } else if found.NotFound? {
      return NotSelected;
    }
    var e := found.element;
    var listed := dropdown.options(e);
    if listed.None? {
      return NotSelected;
    }
    if dropdown.selectByValue(e, CountryCode) {
      return Selected(CountryCode);
    }
    var picked := SelectBySynonym(dropdown, e, listed.value, CountrySynonyms);
    r := if picked.Some? then Selected(picked.value) else NotSelected;
  }
}
