/**
 * The domain registry of domains.go: the fixed set of mail domains the
 * service accepts. The source keeps it in a package-level map guarded by a
 * mutex that nothing ever locks, and no code writes the map, so it is a
 * constant set here.
 */
module Domains {

  /** The eight registered domains, in the order domains.go lists them. */
  const Registry: set<string> := {
    "1secmail.com", "1secmail.org", "1secmail.net", "bheps.com",
    "dcctb.com", "kzccv.com", "qiott.com", "wuuvo.com"
  }

  /** Membership test used by mailbox construction (the `Domains[domain]` lookup). */
  predicate IsRegistered(domain: string): (b: bool)
    ensures b ==> domain != "" && '@' !in domain
  {
    domain in Registry
  }

  /** The registry holds exactly eight distinct domains. */
  lemma RegistrySize()
    ensures |Registry| == 8
  {
  }

  /** Every registered domain is non-empty and has no `@`, so an address
      built from a registered domain has its only `@` between login and domain. */
  lemma RegistryEntriesWellFormed()
    ensures forall d :: d in Registry ==> d != "" && '@' !in d
  {
  }

  /** A string outside the registry, such as "bar" or the empty string, is not registered. */
  lemma UnlistedNotRegistered()
    ensures !IsRegistered("bar")
    ensures !IsRegistered("")
    ensures !IsRegistered("1secmail.co")
  {
  }
}
