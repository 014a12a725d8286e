/** The email eligibility rule of the enrollment processor: a recognised
    consumer-mail domain, and not already submitted in the same task. */
module Eligibility {
  import opened Common

  /** The nine domains the enrollment form is filled for. */
  const AllowedDomains: set<string> := {
    "hotmail.com", "hotmail.es", "hotmail.mx",
    "gmail.com", "gmail.mx",
    "outlook.com", "outlook.es", "outlook.mx",
    "icloud.com"
  }

  datatype Verdict = Accepted | BadFormat | DomainNotAllowed(domain: string) | Duplicate

  /** The reason text paired with each verdict. */
  function Reason(v: Verdict): string {
    match v
    case Accepted => "V\U{E1}lido"
    case BadFormat => "Formato inv\U{E1}lido"
    case DomainNotAllowed(d) => "Extensi\U{F3}n " + d + " no permitida"
    case Duplicate => "Correo ya procesado (duplicado)"
  }

  /** `email.split('@')[1].lower()`: the text after the first `@`, up to any
      further `@`, lower-cased. */
  function DomainOf(email: string): (d: string)
    requires '@' in email
    ensures '@' !in d
  {
    var parts := SplitOn(email, '@');
    var d := Lower(parts[1]);
    assert '@' !in parts[1];
    assert forall i :: 0 <= i < |d| ==> d[i] == LowerChar(parts[1][i]);
    d
  }

  /** The eligibility check. It only reads `processed`; adding the address
      is the caller's business. A missing `@` is reported before the domain,
      and the domain before the duplicate test. */
  function CheckEmail(email: string, processed: set<string>): (v: Verdict)
    ensures v == BadFormat <==> '@' !in email
    ensures '@' in email ==> (v.DomainNotAllowed? <==> DomainOf(email) !in AllowedDomains)
    ensures v.DomainNotAllowed? ==> v.domain == DomainOf(email)
    ensures v == Duplicate <==> '@' in email && DomainOf(email) in AllowedDomains && email in processed
    ensures v == Accepted ==> email !in processed
  {
    if email == [] || '@' !in email then BadFormat
    else
      var domain := DomainOf(email);
      if domain !in AllowedDomains then DomainNotAllowed(domain)
      else if email in processed then Duplicate
      else Accepted
  }

  /** The part before the first `@` of a text that has no `@` before its
      end or its first `@`. */
  lemma FirstPart(domain: string, rest: string)
    requires '@' !in domain
    requires rest == [] || rest[0] == '@'
    ensures SplitOn(domain + rest, '@')[0] == domain
  {
    if rest != [] {
      var tail := rest[1..];
      assert rest == ['@'] + tail;
      assert domain + rest == domain + ['@'] + tail;
      SplitOnAfter(domain, '@', tail);
    } else {
      assert domain + rest == domain;
    }
  }

  /** The domain is whatever sits between the first `@` and the next one
      (or the end), lower-cased. */
  lemma DomainOfParts(local: string, domain: string, rest: string)
    requires '@' !in local && '@' !in domain
    requires rest == [] || rest[0] == '@'
    ensures DomainOf(local + "@" + domain + rest) == Lower(domain)
  {
    var s := local + "@" + domain + rest;
    assert s == local + ['@'] + (domain + rest);
    SplitOnAfter(local, '@', domain + rest);
    FirstPart(domain, rest);
  }

  /** A domain outside the list is refused whatever the task has seen. */
  lemma UnlistedDomainRejected(local: string, domain: string, processed: set<string>)
    requires '@' !in local && '@' !in domain
    requires Lower(domain) !in AllowedDomains
    ensures CheckEmail(local + "@" + domain, processed) == DomainNotAllowed(Lower(domain))
  {
    DomainOfParts(local, domain, []);
    assert local + "@" + domain + [] == local + "@" + domain;
  }

  /** Acceptance depends on the set of recorded addresses only through
      membership: an accepted address is a duplicate in any set holding it. */
  lemma DuplicateOnceSeen(email: string, before: set<string>, later: set<string>)
    requires CheckEmail(email, before) == Accepted && email in later
    ensures CheckEmail(email, later) == Duplicate
  {
  }

  /** Once an accepted address has been recorded, the same address is
      reported as a duplicate. */
  lemma AcceptedThenDuplicate(email: string, processed: set<string>)
    requires CheckEmail(email, processed) == Accepted
    ensures CheckEmail(email, processed + {email}) == Duplicate
    ensures Reason(CheckEmail(email, processed + {email})) == "Correo ya procesado (duplicado)"
  {
  }

  /** A format or domain rejection does not depend on the processed set. */
  lemma RejectionIgnoresHistory(email: string, s1: set<string>, s2: set<string>)
    requires CheckEmail(email, s1) == BadFormat || CheckEmail(email, s1).DomainNotAllowed?
    ensures CheckEmail(email, s2) == CheckEmail(email, s1)
  {
  }
}
