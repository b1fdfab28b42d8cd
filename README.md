# onesecmail in Dafny

A model of `onesecmail`, a Go client library for the 1secmail disposable-mail REST API, with proofs about it. The library does three things this model covers:

- **Mailbox identity.** A mailbox is a login plus a domain from a fixed registry of eight domains. It can be built from the two parts (`NewMailbox`) or from a full address split at its first `@` (`NewMailboxWithAddress`). It gives back its address as `login@domain`.
- **Request construction.** Each operation sends a GET to `https://www.1secmail.com/api/v1/`. The query holds an `action` parameter carrying the operation's wire name, plus one parameter per argument (`count`, `login`, `domain`, `id`).
- **Outcome classification.** Every remote operation treats a transport error, or a status other than 200, as a failed call. Otherwise a body that does not decode is a "decode JSON failed" error, and a body that decodes is the result.

Modules, one per component:

- `Wrappers` (wrappers.dfy): `Option` and `Result`.
- `Domains` (domains.dfy): the registry as a constant set.
- `Decimal` (decimal.dfy): `strconv.Itoa`, which renders `count` and `id`, and its inverse.
- `Mailboxes` (mailbox.dfy): the mailbox and its two constructors.
- `Requests` (request.dfy): the actions, `url.Values`, and `constructRequest`. `constructRequest` is a loop that adds the arguments to the query one at a time, in any order.
- `Client` (client.dfy): mails and attachments, the abstract reply of the HTTP client, the shared outcome rule, and the four operations as methods.

The injected HTTP client is a function parameter from the request to its reply. A reply carries an optional error and an optional response. A response has a status code and a body that has already been decoded (`Parsed(v)`) or has failed to decode (`Unparsable(cause)`).

Two points about the address rules, as the code has them:

- One might expect an address to need exactly one `@`. The code splits at the first `@` and only rejects an empty side. So `a@b@1secmail.com` is rejected as an invalid domain (`b@1secmail.com`), not as an invalid address. `Mailboxes.NewMailboxWithAddress` states the code's rule. `Mailboxes.ParsedAddressHasOneAt` shows that every address that is accepted has exactly one `@`.
- The round-trip "the built mailbox's address equals the input" does not depend on the registry being `@`-free. The split and the join use the same `@`. What `@`-freeness gives is that the accepted address has exactly one `@`. The reverse round-trip (mailbox → address → mailbox) depends on the login, which is never checked: see `Mailboxes.LoginWithAtDoesNotRoundTrip`.

## Model

| member | source | states |
|---|---|---|
| `Domains.RegistrySize` | domains.go:5-14 | the registry holds exactly eight distinct domains |
| `Domains.RegistryEntriesWellFormed` | domains.go:6-13 | no registered domain is empty or contains `@` |
| `Domains.UnlistedNotRegistered` | domains.go:5-14 | `bar`, the empty string and `1secmail.co` are not registered |
| `Domains.IsRegistered` | domains.go:5-14 | membership in the constant `Registry` of the eight listed domains, the `Domains[domain]` lookup that mailbox construction makes; a registered domain is non-empty and `@`-free (its size and contents are stated by `RegistrySize`, `RegistryEntriesWellFormed`, `UnlistedNotRegistered`) |
| `Decimal.Digits` | 1secmail.go:158 | the rendering of a natural number is non-empty, all digits, with no leading zero, and has one digit exactly when the number is below 10 |
| `Decimal.Itoa` | 1secmail.go:66 | the rendering starts with `-` exactly for negative numbers and is all digits otherwise |
| `Decimal.DigitsRoundTrip` | 1secmail.go:158 | parsing the digits of `n` gives back `n` |
| `Decimal.ItoaRoundTrip` | 1secmail.go:66 | the rendered count or id is read back as the same integer |
| `Decimal.ItoaInjective` | 1secmail.go:66 | distinct integers are sent as distinct strings |
| `Mailboxes.Mailbox.Address` | 1secmail.go:104-106 | the address is the login, then one `@` at index `|login|`, then the domain |
| `Mailboxes.IndexOf` | 1secmail.go:127 | the result is the position of the first `@`, and there is none exactly when the string has no `@` |
| `Mailboxes.CutAt` | 1secmail.go:127 | found exactly when `@` occurs; if found, `before + "@" + after` is the input and `before` has no `@`; if not found, `before` is the whole input and `after` is empty |
| `Mailboxes.NewMailbox` | 1secmail.go:111-120 | fails with "invalid domain" exactly when the domain is not registered; on success stores the login (never checked) and the domain unchanged |
| `Mailboxes.NewMailboxWithAddress` | 1secmail.go:126-132 | fails with "invalid email address" exactly when the address is not well shaped (no `@` with text on both sides of the first one); on success the mailbox's address is the input, its login is non-empty and `@`-free, and its domain is non-empty and registered |
| `Mailboxes.ShapeOfCut` | 1secmail.go:127-130 | the split at the first `@` finds the separator with both sides non-empty exactly when the address is well shaped |
| `Mailboxes.ParseOfJoin` | 1secmail.go:126-131 | for an `@`-free login, `login@domain` is rejected as an address if a side is empty, and otherwise gives exactly what `NewMailbox(login, domain)` gives |
| `Mailboxes.MailboxFromOwnAddress` | 1secmail.go:104-131 | a mailbox with a non-empty, `@`-free login is rebuilt exactly from its own address |
| `Mailboxes.LoginWithAtDoesNotRoundTrip` | 1secmail.go:111-131 | a login containing `@` is accepted by `NewMailbox`, but its address does not parse back to the same mailbox |
| `Mailboxes.ParsedAddressHasOneAt` | 1secmail.go:126-131 | an address accepted by `NewMailboxWithAddress` contains exactly one `@` |
| `Requests.Ordinal` | 1secmail.go:13-19 | every action's `iota` value indexes the table of names |
| `Requests.Name` | 1secmail.go:21-25 | `mailboxAction.String`: the name in the table at the action's `iota` value; which names these are, in order, and that they are distinct is stated by `NamesInDeclarationOrder` and `NameInjective` |
| `Requests.NamesInDeclarationOrder` | 1secmail.go:13-25 | the five actions map in declaration order to `getMessages`, `readMessage`, `download`, `genRandomMailbox` and `getDomainList` |
| `Requests.NameInjective` | 1secmail.go:21-25 | two actions have the same wire name exactly when they are the same action |
| `Requests.Add` | 1secmail.go:179-181 | adding a value appends it to that key's list and leaves the other keys unchanged |
| `Requests.Query` | 1secmail.go:178-182 | the query `constructRequest` ends with, in closed form; its keys and values are stated by `QueryContents`, and `ConstructRequest` is proved to build it |
| `Requests.RequestFor` | 1secmail.go:174-177 | the request `constructRequest` returns: the given verb, the fixed root `ApiBase` (`https://www.1secmail.com/api/v1/`), and `Query`; the four operations' requests are described by the `*Query` lemmas of `Client` |
| `Requests.QueryContents` | 1secmail.go:174-185 | the query's keys are exactly `action` plus the argument keys; `action` reads as the action's name; every other argument reads back unchanged |
| `Requests.ConstructRequest` | 1secmail.go:174-185 | adding the arguments in any order builds the GET request to the API root whose query is `Query(action, args)` |
| `Client.Classify` | 1secmail.go:141-150 | a transport error or a status other than 200 gives exactly the failed-call error, carrying the transport error; otherwise an undecodable body gives exactly the decode error with its cause; otherwise the result is exactly the decoded value |
| `Client.ClassifyAsWritten` | 1secmail.go:141-142 | the outcome as the source computes it, defined only where the inbox check has a response to read the status from, agrees there with `Classify` |
| `Client.InboxTransportFailureAsWritten` | 1secmail.go:140-142 | an error with no response is sent to the error path, where the inbox check as written cannot run; the corrected outcome reports it as a failed call |
| `Client.RejectedBodyUnread` | 1secmail.go:69-78 | when the call is rejected, replacing the body does not change the outcome, so no decode is attempted |
| `Client.TransportErrorWins` | 1secmail.go:69-71 | a transport error gives a failed call carrying that error, whatever the status and the body |
| `Client.Rejected` | 1secmail.go:69 | the guard shared by all four operations: a transport error, or a response whose status is not 200; a delivered reply that passes it has a response with status 200 |
| `Client.Operation.Context` | 1secmail.go:70 | the words each operation's failed-call message starts with (1secmail.go:70, :85, :142, :162) |
| `Client.Message` | 1secmail.go:141-149 | the `fmt.Errorf` text: a failed call starts with its operation's words and the wrapped error (`%!w(<nil>)` when there is none), and the inbox check's ends with the status code in decimal; a decode failure is `decode JSON failed: ` and the decoder's error |
| `Client.MessageIdentifiesError` | 1secmail.go:64-172 | two equal messages are both failed calls or both decode failures, and failed calls with equal messages come from the same operation |
| `Client.CheckInboxMessage` | 1secmail.go:141-142 | the inbox error starts with `check inbox failed: ` and the wrapped error and ends with `, error code: ` and the status, whatever the status |
| `Client.RandomAddressesQuery` | 1secmail.go:65-67 | the random-address request goes to the API root with keys `{action, count}`, action `genRandomMailbox`, and a count that reads back as the argument |
| `Client.DomainsQuery` | 1secmail.go:82 | the domain-list request goes to the API root with the single key `action` set to `getDomainList` |
| `Client.CheckInboxQuery` | 1secmail.go:136-139 | the inbox request goes to the API root with keys `{action, login, domain}`, action `getMessages`, and the mailbox's login and domain |
| `Client.ReadMessageQuery` | 1secmail.go:155-159 | the read request goes to the API root with keys `{action, login, domain, id}`, action `readMessage`, the mailbox's login and domain, and an id that reads back as the argument |
| `Client.RandomAddressesArgs` | 1secmail.go:65-67 | the single argument `count`, in decimal; stated by `RandomAddressesQuery` |
| `Client.DomainsArgs` | 1secmail.go:82 | no arguments (the source passes a nil map, over which the loop does nothing); stated by `DomainsQuery` |
| `Client.CheckInboxArgs` | 1secmail.go:136-139 | the arguments `login` and `domain`, from the mailbox; stated by `CheckInboxQuery` |
| `Client.ReadMessageArgs` | 1secmail.go:155-159 | the arguments `login`, `domain` and `id`, the id in decimal; stated by `ReadMessageQuery` |
| `Client.RandomAddresses` | 1secmail.go:64-79 | the result is the shared outcome of the reply to the random-address request |
| `Client.Domains` | 1secmail.go:81-94 | the result is the shared outcome of the reply to the domain-list request |
| `Client.CheckInbox` | 1secmail.go:135-151 | the result is the corrected shared outcome (`Classify`) of the reply to the inbox request for this mailbox; where the client returns an error and no response, the source instead panics reading the status code (see Findings) |
| `Client.ReadMessage` | 1secmail.go:154-172 | the result is the shared outcome of the reply to the read request for this mailbox and id; a decoded JSON `null` is no mail and no error |
| `Client.CheckInboxTable` | 1secmail_test.go:30-71 | status 200 with two decoded mails gives those two mails; status 500 gives the inbox error with code 500 and no mails; the mock's error returned beside a 200 or a 500 response (every row that expects an error) takes the failed-call path, not the decode path |

## Findings

| source | as written | input that shows it | evidently intended | confidence | as-written member | corrected member |
|---|---|---|---|---|---|---|
| 1secmail.go:141-142 | `CheckInbox` builds its error message from `resp.StatusCode` even when the client returned an error | a client error with no response (a refused connection; Go's HTTP client returns a nil response with any error except a failed redirect check) | report the transport error as a failed inbox check, with a status code only when a response exists | high, not executed | `Client.ClassifyAsWritten`, `Client.InboxTransportFailureAsWritten` | `Client.Classify` |

## Left out

- The HTTP transport is not modelled. `HTTPClient.Do`, the `http.DefaultClient` fallback in `NewAPI`, and closing the body are I/O. The client is a function parameter, and the mailbox does not carry it.
- JSON decoding (`encoding/json` and the struct tags of `Mail` and `Attachment`) is a foreign library. A reply's body arrives decoded or as a decode failure. `CheckInbox` decodes into `[]*Mail`, whose elements could be JSON `null`; the model uses a sequence of mails.
- Percent-encoding and key ordering by `url.Values.Encode`, and the error from `http.NewRequest` that the source ignores, are library internals. The query is a map from key to its list of values.
- The text of the wrapped transport and decoder errors is whatever the reply carries; the model does not reproduce the wording of Go's network or JSON errors.
- A reply with neither an error nor a response would make the source dereference a nil response. Every operation requires `Delivered`, which excludes it.
- On a failed construction the source returns a zero `Mailbox` beside the error. The model returns `Failure` and no mailbox.
- `mailboxAction.String` panics on an integer outside the five constants. The model's `Action` has only the five constants.
- `Decimal.Itoa`: renders any integer, without the bounds of Go's `int` (32 or 64 bits depending on the platform), because `count` and `id` are Go `int` values and the rendering of every value in range is the same.
- Strings are sequences of characters, not bytes. The only separator is the ASCII `@`, which never occurs inside a multi-byte UTF-8 sequence, so splitting at the first `@` gives the same result either way.
- `domainsMu` and concurrency are left out. The mutex is never locked, and the registry is never written.
- The test's call `NewMailbox("foo", "bar", client)` is not modelled. It uses a single return value against a two-value signature, and `bar` is not registered.
