/**
 * The email-domain checker of the web frontend: the piece of the address
 * between the first and the second '@', lower-cased, must be one of four
 * well-known providers.
 */
module ValidEmails {
  import opened Wrappers
  import opened Strings

  datatype EmailVerdict = Valid | Invalid

  /** The form: the typed address and the verdict shown, if any. */
  datatype EmailForm = EmailForm(email: string, result: Option<EmailVerdict>)

  const ValidDomains: seq<string> := ["gmail.com", "outlook.com", "protonmail.com", "yahoo.com"]

  /** Listed on the page as examples; the check never reads them. */
  const SuspiciousDomains: seq<string> :=
    ["secure-login.com", "mail-verification.co", "payinfo-support.net", "recovery-alerts.com"]

  /** `email.split('@')[1]`, which is `undefined` when there is no '@'. */
  function DomainPart(email: string): Option<string>
  {
    var pieces := Split(email, '@');
    if |pieces| >= 2 then Some(pieces[1]) else None
  }

  /** `handleCheck`: valid exactly for a non-empty domain part whose lower-case form is listed. */
  function Check(email: string): EmailVerdict
  {
    var domain := DomainPart(email);
    if domain.Some? && domain.value != "" && Lower(domain.value) in ValidDomains then Valid else Invalid
  }

  /** Pressing "Check" sets the verdict and keeps the address. */
  function PressCheck(form: EmailForm): (next: EmailForm)
    ensures next.email == form.email && next.result.Some?
    ensures next.result.value == Valid <==> Check(form.email) == Valid
  {
    EmailForm(form.email, Some(Check(form.email)))
  }

  /** Editing the address clears any verdict. */
  function EditEmail(form: EmailForm, typed: string): (next: EmailForm)
    ensures next.email == typed && next.result == None
  {
    EmailForm(typed, None)
  }

  /** Splitting after an '@'-free local part: the local part, then the pieces of what follows the '@'. */
  lemma {:induction false} SplitAfterLocal(local: string, tail: string)
    requires '@' !in local
    ensures Split(local + "@" + tail, '@') == [local] + Split(tail, '@')
  {
    var afterAt := ['@'] + tail;
    assert local + "@" + tail == local + afterAt;
    SplitPrefixWithoutSep(local, afterAt, '@');
    assert afterAt[1..] == tail;
    assert Split(afterAt, '@') == [""] + Split(tail, '@');
    assert local + "" == local;
  }

  /** The first piece of a domain followed by nothing or by '@' is the domain. */
  lemma {:induction false} FirstPieceIsDomain(domain: string, rest: string)
    requires '@' !in domain
    requires rest == [] || rest[0] == '@'
    ensures Split(domain + rest, '@')[0] == domain
  {
    SplitPrefixWithoutSep(domain, rest, '@');
    if rest == [] {
      assert Split(rest, '@') == [""];
    } else {
      assert rest == ['@'] + rest[1..];
      assert Split(rest, '@')[0] == "";
    }
  }

  /**
   * The verdict in terms of the address's shape: for a local part and a
   * domain without '@', followed by nothing or by '@' and anything, the
   * address is valid exactly when the lower-cased domain is listed.
   */
  lemma {:induction false} CheckReadsFirstDomain(local: string, domain: string, rest: string)
    requires '@' !in local && '@' !in domain
    requires rest == [] || rest[0] == '@'
    ensures Check(local + "@" + domain + rest) == Valid <==> Lower(domain) in ValidDomains
  {
    var email := local + "@" + domain + rest;
    assert email == local + "@" + (domain + rest);
    SplitAfterLocal(local, domain + rest);
    FirstPieceIsDomain(domain, rest);
    assert DomainPart(email) == Some(domain);
    assert domain == "" ==> Lower(domain) !in ValidDomains;
  }

  /** An address without '@' is invalid. */
  lemma NoAtIsInvalid(email: string)
    requires '@' !in email
    ensures Check(email) == Invalid
  {
    SplitWithoutSep(email, '@');
  }

  /** Nothing after the first '@' makes the address invalid. */
  lemma EmptyDomainIsInvalid(local: string)
    requires '@' !in local
    ensures Check(local + "@") == Invalid
  {
    CheckReadsFirstDomain(local, "", "");
    assert local + "@" + "" + "" == local + "@";
  }

  /** The case of the domain does not matter; the case of the local part is never looked at. */
  lemma CheckIgnoresDomainCase(local: string, d1: string, d2: string, rest: string)
    requires '@' !in local && '@' !in d1 && '@' !in d2
    requires rest == [] || rest[0] == '@'
    requires Lower(d1) == Lower(d2)
    ensures Check(local + "@" + d1 + rest) == Check(local + "@" + d2 + rest)
  {
    CheckReadsFirstDomain(local, d1, rest);
    CheckReadsFirstDomain(local, d2, rest);
  }

  /** Any domain outside the allow-list is invalid. */
  lemma UnlistedDomainIsInvalid(local: string, domain: string)
    requires '@' !in local && '@' !in domain
    requires Lower(domain) !in ValidDomains
    ensures Check(local + "@" + domain) == Invalid
  {
    CheckReadsFirstDomain(local, domain, "");
    assert local + "@" + domain + "" == local + "@" + domain;
  }

  /** Every domain the page lists as suspicious is judged invalid like any other unlisted one. */
  lemma SuspiciousDomainsAreInvalid(local: string, i: nat)
    requires '@' !in local && i < |SuspiciousDomains|
    ensures Check(local + "@" + SuspiciousDomains[i]) == Invalid
  {
    var d := SuspiciousDomains[i];
    assert '@' !in d && |d| >= 16;
    assert forall v | v in ValidDomains :: |v| < 16;
    UnlistedDomainIsInvalid(local, d);
  }
}
