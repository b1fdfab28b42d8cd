/**
 * Mailbox identity (1secmail.go): a mailbox is a login and a registered
 * domain; it can be built from the two parts or from a full address, and
 * gives its address back as `login@domain`.
 */
module Mailboxes {
  import opened Wrappers
  import opened Domains

  /** A mailbox's identity. The embedded HTTP client of the source is not part of it. */
  datatype Mailbox = Mailbox(login: string, domain: string) {

    /** `Address`: the login and the domain joined by `@`. */
    function Address(): (a: string)
      ensures |a| == |login| + 1 + |domain|
      ensures a[..|login|] == login && a[|login|] == '@' && a[|login| + 1..] == domain
    {
      login + "@" + domain
    }
  }

  /** Construction errors, reported before any request is made. */
  datatype Error =
    | InvalidDomain(domain: string)    // "invalid domain: <domain>"
    | InvalidAddress(address: string)  // "invalid email address: <address>"

  /** The index of the first occurrence of `c` in `s`, if any. */
  function IndexOf(s: string, c: char): (r: Option<nat>)
    ensures r.Some? ==> r.value < |s| && s[r.value] == c && c !in s[..r.value]
    ensures r.None? <==> c !in s
  {
    if |s| == 0 then None
    else if s[0] == c then Some(0)
    else match IndexOf(s[1..], c)
      case None => None
      case Some(i) => Some(i + 1)
  }

  /** The result of `strings.Cut`: the text before and after the separator, and whether it was found. */
  datatype Cut = Cut(before: string, after: string, found: bool)

  /** `strings.Cut(s, sep)` for a one-character separator: split around the first `sep`. */
  function CutAt(s: string, sep: char): (r: Cut)
    ensures r.found <==> sep in s
    ensures r.found ==> r.before + [sep] + r.after == s && sep !in r.before
    ensures !r.found ==> r.before == s && r.after == ""
  {
    match IndexOf(s, sep)
    case None => Cut(s, "", false)
    case Some(i) => Cut(s[..i], s[i + 1..], true)
  }

  /** `NewMailbox`: accepts any login, and the domain only if it is registered. */
  function NewMailbox(login: string, domain: string): (r: Result<Mailbox, Error>)
    ensures r.Failure? <==> !IsRegistered(domain)
    ensures r.Failure? ==> r.error == InvalidDomain(domain)
    ensures r.Success? ==> r.value.login == login && r.value.domain == domain
  {
    if !IsRegistered(domain) then Failure(InvalidDomain(domain))
    else Success(Mailbox(login, domain))
  }

  /**
   * The shape of a usable address, stated without reference to the split:
   * it has an `@` that is neither its first nor its last character and the
   * first character is not `@`, so the first `@` has text on both sides.
   */
  predicate WellShaped(address: string) {
    |address| >= 3 && address[0] != '@' && '@' in address[1..|address| - 1]
  }

  /** `NewMailboxWithAddress`: split at the first `@`, reject an empty side, then defer to `NewMailbox`. */
  function NewMailboxWithAddress(address: string): (r: Result<Mailbox, Error>)
    ensures r == Failure(InvalidAddress(address)) <==> !WellShaped(address)
    ensures r.Success? ==> r.value.Address() == address && '@' !in r.value.login
    ensures r.Success? ==> r.value.login != "" && r.value.domain != "" && IsRegistered(r.value.domain)
  {
    var cut := CutAt(address, '@');
    ShapeOfCut(address);
    if !cut.found || cut.before == "" || cut.after == "" then Failure(InvalidAddress(address))
    else NewMailbox(cut.before, cut.after)
  }

  /** The split leaves text on both sides exactly when the address is well shaped. */
  lemma ShapeOfCut(address: string)
    ensures var cut := CutAt(address, '@');
      cut.found && cut.before != "" && cut.after != "" <==> WellShaped(address)
  {
  }

  /** Parsing agrees with `NewMailbox`: an address written as `login@domain`
      with an `@`-free login is split into exactly that login and domain. */
  lemma {:induction false} ParseOfJoin(login: string, domain: string)
    requires '@' !in login
    ensures NewMailboxWithAddress(login + "@" + domain) ==
      if login == "" || domain == "" then Failure(InvalidAddress(login + "@" + domain))
      else NewMailbox(login, domain)
  {
    var address := login + "@" + domain;
    var cut := CutAt(address, '@');
    assert address[|login|] == '@';
    assert address[..|login|] == login;
    assert cut.before == login;
    assert cut.after == domain;
  }

  /** A mailbox whose login is non-empty and `@`-free is rebuilt from its own address. */
  lemma MailboxFromOwnAddress(login: string, domain: string)
    requires login != "" && '@' !in login
    requires NewMailbox(login, domain).Success?
    ensures NewMailboxWithAddress(NewMailbox(login, domain).value.Address()) == NewMailbox(login, domain)
  {
  }

  /** The login is never checked, so a login holding `@` gives a mailbox
      whose address does not parse back to it: the split stops at the
      login's own `@` ("a@b" at 1secmail.com reads back as login "a"). */
  lemma LoginWithAtDoesNotRoundTrip(login: string, domain: string)
    requires '@' in login && IsRegistered(domain)
    ensures NewMailbox(login, domain).Success?
    ensures NewMailboxWithAddress(NewMailbox(login, domain).value.Address()) != NewMailbox(login, domain)
  {
  }

  /** Because no registered domain contains `@`, the address of a mailbox
      built from an address holds exactly one `@`. */
  lemma ParsedAddressHasOneAt(address: string)
    ensures NewMailboxWithAddress(address).Success? ==> multiset(address)['@'] == 1
  {
  }
}
