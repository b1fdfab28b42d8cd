/**
 * The four remote operations of 1secmail.go and the decision they share:
 * build the request, hand it to the injected HTTP client, turn a transport
 * error or a status other than 200 into an error, otherwise decode the body.
 *
 * The HTTP client is a function from the request to its reply. JSON
 * decoding is not modelled: the reply's body arrives already decoded into
 * the operation's result type, or as the decoder's failure.
 */
module Client {
  import opened Wrappers
  import opened Decimal
  import opened Mailboxes
  import opened Requests

  /** An attachment of a mail: file name, content type and size in bytes. */
  datatype Attachment = Attachment(filename: string, contentType: string, size: int)

  /** A mail. Inbox listings leave the three body fields absent; a single
      message read fills those the service sends. */
  datatype Mail = Mail(
    id: int, from: string, subject: string, date: string,
    attachments: seq<Attachment>,
    body: Option<string>, textBody: Option<string>, htmlBody: Option<string>)

  /** The response body after JSON decoding into the expected shape. */
  datatype Body<+T> = Parsed(value: T) | Unparsable(cause: string)

  /** An HTTP response: status code and body. */
  datatype Response<+T> = Response(status: int, body: Body<T>)

  /** What `HTTPClient.Do` gives back: an optional error and an optional response. */
  datatype Reply<+T> = Reply(err: Option<string>, resp: Option<Response<T>>)

  /** The client gives back an error or a response (never neither): with
      both absent the source would dereference a nil response. */
  predicate Delivered<T>(reply: Reply<T>) {
    reply.err.Some? || reply.resp.Some?
  }

  /** The guard every operation applies before decoding:
      an error, or a response whose status is not 200. */
  predicate Rejected<T>(reply: Reply<T>): (b: bool)
    ensures Delivered(reply) && !b ==> reply.resp.Some? && reply.resp.value.status == 200
  {
    reply.err.Some? || (reply.resp.Some? && reply.resp.value.status != 200)
  }

  /** The four remote operations. */
  datatype Operation = RandomAddressesOp | DomainsOp | CheckInboxOp | ReadMessageOp {

    /** The words each operation's error message starts with. */
    function Context(): string {
      match this
      case RandomAddressesOp => "generate random mailbox failed"
      case DomainsOp => "get domain list failed"
      case CheckInboxOp => "check inbox failed"
      case ReadMessageOp => "read message failed"
    }
  }

  /** Errors of the remote operations. */
  datatype Error =
    /** "<context>: <cause>", with the status code only for the inbox check. */
    | CallFailed(op: Operation, cause: Option<string>, status: Option<int>)
    /** "decode JSON failed: <cause>" */
    | DecodeFailed(reason: string)

  /** How `%w` prints the wrapped error; a nil one prints as "%!w(<nil>)". */
  function CauseText(cause: Option<string>): string {
    match cause
    case Some(c) => c
    case None => "%!w(<nil>)"
  }

  predicate EndsWith(s: string, suffix: string) {
    |suffix| <= |s| && s[|s| - |suffix|..] == suffix
  }

  /** The error's text as `fmt.Errorf` formats it: the operation's words and
      the wrapped error, then for the inbox check the status code in decimal;
      or "decode JSON failed" and the decoder's error. */
  function Message(e: Error): (m: string)
    ensures e.CallFailed? ==> e.op.Context() + ": " + CauseText(e.cause) <= m
    ensures e.CallFailed? && e.status.Some? ==> EndsWith(m, ", error code: " + Itoa(e.status.value))
    ensures e.CallFailed? && e.status.None? ==> m == e.op.Context() + ": " + CauseText(e.cause)
    ensures e.DecodeFailed? ==> m == "decode JSON failed: " + e.reason
  {
    match e
    case CallFailed(op, cause, status) =>
      op.Context() + ": " + CauseText(cause) +
      (match status case Some(s) => ", error code: " + Itoa(s) case None => "")
    case DecodeFailed(reason) => "decode JSON failed: " + reason
  }

  /** The first three characters of each kind of message. */
  function Lead(e: Error): string {
    match e
    case CallFailed(op, _, _) =>
      (match op
       case RandomAddressesOp => "gen"
       case DomainsOp => "get"
       case CheckInboxOp => "che"
       case ReadMessageOp => "rea")
    case DecodeFailed(_) => "dec"
  }

  lemma MessageLead(e: Error)
    ensures |Message(e)| >= 3 && Message(e)[..3] == Lead(e)
  {
    var m := Message(e);
    if e.CallFailed? {
      assert m[..|e.op.Context()|] == e.op.Context();
    } else {
      assert m[..20] == "decode JSON failed: ";
    }
  }

  /** The message tells the kind of error and, for a failed call, the operation. */
  lemma MessageIdentifiesError(e1: Error, e2: Error)
    requires Message(e1) == Message(e2)
    ensures e1.CallFailed? <==> e2.CallFailed?
    ensures e1.CallFailed? ==> e1.op == e2.op
  {
    MessageLead(e1);
    MessageLead(e2);
    assert Lead(e1) == Lead(e2);
  }

  /** The status code the error message reports: only the inbox check
      reports one, and only when there is a response to read it from. */
  function ReportedStatus<T>(op: Operation, reply: Reply<T>): Option<int> {
    if op == CheckInboxOp && reply.resp.Some? then Some(reply.resp.value.status) else None
  }

  /** The outcome shared by all four operations. */
  function Classify<T>(op: Operation, reply: Reply<T>): (r: Result<T, Error>)
    requires Delivered(reply)
    ensures r.Failure? && r.error.CallFailed? <==> Rejected(reply)
    ensures Rejected(reply) ==> r.error == CallFailed(op, reply.err, ReportedStatus(op, reply))
    ensures r.Failure? && r.error.DecodeFailed? <==>
      !Rejected(reply) && reply.resp.value.body.Unparsable?
    ensures r.Success? <==> !Rejected(reply) && reply.resp.value.body.Parsed?
    ensures r.Success? ==> r.value == reply.resp.value.body.value
    ensures r.Failure? && r.error.DecodeFailed? ==> r.error.reason == reply.resp.value.body.cause
  {
    if Rejected(reply) then
      Failure(CallFailed(op, reply.err, ReportedStatus(op, reply)))
    else
      match reply.resp.value.body
      case Unparsable(cause) => Failure(DecodeFailed(cause))
      case Parsed(v) => Success(v)
  }

  /** The replies the source's code can handle: for the inbox check the error
      message reads the response's status code, so a transport error that
      comes without a response dereferences a nil pointer. */
  predicate HandledAsWritten<T>(op: Operation, reply: Reply<T>) {
    Delivered(reply) && (op == CheckInboxOp ==> reply.resp.Some?)
  }

  /** The outcome as the source computes it, status read unconditionally for the inbox check. */
  function ClassifyAsWritten<T>(op: Operation, reply: Reply<T>): (r: Result<T, Error>)
    requires HandledAsWritten(op, reply)
    ensures r == Classify(op, reply)
  {
    if Rejected(reply) then
      Failure(CallFailed(op, reply.err, if op == CheckInboxOp then Some(reply.resp.value.status) else None))
    else
      match reply.resp.value.body
      case Unparsable(cause) => Failure(DecodeFailed(cause))
      case Parsed(v) => Success(v)
  }

  /** A refused connection comes back as an error with no response: the guard
      sends it to the error path, where the inbox check as written cannot
      build its message, while every other operation and the corrected
      outcome report it as a failed call. */
  lemma InboxTransportFailureAsWritten()
    ensures var reply: Reply<seq<Mail>> := Reply(Some("connection refused"), None);
      && Delivered(reply) && Rejected(reply)
      && !HandledAsWritten(CheckInboxOp, reply)
      && HandledAsWritten(DomainsOp, reply)
      && Classify(CheckInboxOp, reply) == Failure(CallFailed(CheckInboxOp, Some("connection refused"), None))
  {
  }

  /** A rejected reply's body is never read: replacing it changes nothing. */
  lemma RejectedBodyUnread<T>(op: Operation, reply: Reply<T>, other: Body<T>)
    requires Delivered(reply) && Rejected(reply) && reply.resp.Some?
    ensures Classify(op, reply) ==
      Classify(op, Reply(reply.err, Some(Response(reply.resp.value.status, other))))
  {
  }

  /** A transport error wins over any status, including 200, and over any body. */
  lemma TransportErrorWins<T>(op: Operation, cause: string, resp: Response<T>)
    ensures Classify(op, Reply(Some(cause), Some(resp))).Failure?
    ensures Classify(op, Reply(Some(cause), Some(resp))).error.CallFailed?
    ensures Classify(op, Reply(Some(cause), Some(resp))).error.cause == Some(cause)
  {
  }

  /** The argument maps each operation passes to `constructRequest`. */
  function RandomAddressesArgs(count: int): map<string, string> {
    map["count" := Itoa(count)]
  }

  function DomainsArgs(): map<string, string> {
    map[]
  }

  function CheckInboxArgs(m: Mailbox): map<string, string> {
    map["login" := m.login, "domain" := m.domain]
  }

  function ReadMessageArgs(m: Mailbox, messageID: int): map<string, string> {
    map["login" := m.login, "domain" := m.domain, "id" := Itoa(messageID)]
  }

  /** The requests the four operations send. */
  function RandomAddressesRequest(count: int): Request {
    RequestFor("GET", GenRandomMailbox, RandomAddressesArgs(count))
  }

  function DomainsRequest(): Request {
    RequestFor("GET", GetDomainList, DomainsArgs())
  }

  function CheckInboxRequest(m: Mailbox): Request {
    RequestFor("GET", GetMessages, CheckInboxArgs(m))
  }

  function ReadMessageRequest(m: Mailbox, messageID: int): Request {
    RequestFor("GET", Action.ReadMessage, ReadMessageArgs(m, messageID))
  }

  /** `RandomAddresses` sends "action" and "count", the count in decimal. */
  lemma RandomAddressesQuery(count: int)
    ensures RandomAddressesRequest(count).url == ApiBase
    ensures RandomAddressesRequest(count).query.Keys == {"action", "count"}
    ensures Get(RandomAddressesRequest(count).query, "action") == "genRandomMailbox"
    ensures Atoi(Get(RandomAddressesRequest(count).query, "count")) == Some(count)
  {
    NamesInDeclarationOrder();
    QueryContents(GenRandomMailbox, RandomAddressesArgs(count));
    ItoaRoundTrip(count);
  }

  /** `Domains` sends "action" alone. */
  lemma DomainsQuery()
    ensures DomainsRequest().url == ApiBase
    ensures DomainsRequest().query.Keys == {"action"}
    ensures Get(DomainsRequest().query, "action") == "getDomainList"
  {
    NamesInDeclarationOrder();
    QueryContents(GetDomainList, DomainsArgs());
  }

  /** `CheckInbox` sends "action", "login" and "domain", the last two from the mailbox. */
  lemma CheckInboxQuery(m: Mailbox)
    ensures CheckInboxRequest(m).url == ApiBase
    ensures CheckInboxRequest(m).query.Keys == {"action", "login", "domain"}
    ensures Get(CheckInboxRequest(m).query, "action") == "getMessages"
    ensures Get(CheckInboxRequest(m).query, "login") == m.login
    ensures Get(CheckInboxRequest(m).query, "domain") == m.domain
  {
    NamesInDeclarationOrder();
    QueryContents(GetMessages, CheckInboxArgs(m));
  }

  /** `ReadMessage` sends "action", "login", "domain" and "id", the id in decimal. */
  lemma ReadMessageQuery(m: Mailbox, messageID: int)
    ensures ReadMessageRequest(m, messageID).url == ApiBase
    ensures ReadMessageRequest(m, messageID).query.Keys == {"action", "login", "domain", "id"}
    ensures Get(ReadMessageRequest(m, messageID).query, "action") == "readMessage"
    ensures Get(ReadMessageRequest(m, messageID).query, "login") == m.login
    ensures Get(ReadMessageRequest(m, messageID).query, "domain") == m.domain
    ensures Atoi(Get(ReadMessageRequest(m, messageID).query, "id")) == Some(messageID)
  {
    NamesInDeclarationOrder();
    QueryContents(Action.ReadMessage, ReadMessageArgs(m, messageID));
    ItoaRoundTrip(messageID);
  }

  /** `API.RandomAddresses`: ask for `count` generated addresses. */
  method RandomAddresses(count: int, client: Request -> Reply<seq<string>>) returns (r: Result<seq<string>, Error>)
    requires Delivered(client(RandomAddressesRequest(count)))
    ensures r == Classify(RandomAddressesOp, client(RandomAddressesRequest(count)))
  {
    var req := ConstructRequest("GET", GenRandomMailbox, RandomAddressesArgs(count));
    r := Classify(RandomAddressesOp, client(req));
  }

  /** `API.Domains`: ask for the service's domain list. */
  method Domains(client: Request -> Reply<seq<string>>) returns (r: Result<seq<string>, Error>)
    requires Delivered(client(DomainsRequest()))
    ensures r == Classify(DomainsOp, client(DomainsRequest()))
  {
    var req := ConstructRequest("GET", GetDomainList, DomainsArgs());
    r := Classify(DomainsOp, client(req));
  }

  /** `Mailbox.CheckInbox`: list the mails in the mailbox. */
  method CheckInbox(m: Mailbox, client: Request -> Reply<seq<Mail>>) returns (r: Result<seq<Mail>, Error>)
    requires Delivered(client(CheckInboxRequest(m)))
    ensures r == Classify(CheckInboxOp, client(CheckInboxRequest(m)))
  {
    var req := ConstructRequest("GET", GetMessages, CheckInboxArgs(m));
    r := Classify(CheckInboxOp, client(req));
  }

  /** `Mailbox.ReadMessage`: fetch one mail; a JSON `null` decodes to no mail and no error. */
  method ReadMessage(m: Mailbox, messageID: int, client: Request -> Reply<Option<Mail>>)
    returns (r: Result<Option<Mail>, Error>)
    requires Delivered(client(ReadMessageRequest(m, messageID)))
    ensures r == Classify(ReadMessageOp, client(ReadMessageRequest(m, messageID)))
  {
    var req := ConstructRequest("GET", Action.ReadMessage, ReadMessageArgs(m, messageID));
    r := Classify(ReadMessageOp, client(req));
  }

  /** The inbox test table. Status 200 with two decoded mails gives those two
      mails. The test's mock returns an error beside its response on every row
      that expects one, so the "invalid json" and "empty response" rows (status
      200) and the "server error code" row (status 500) all take the failed-call
      branch, not the decode branch, and give no mails; a status of 500 alone
      gives the same failed call without a cause. */
  lemma CheckInboxTable(a: Mail, b: Mail, body: Body<seq<Mail>>, cause: string)
    ensures Classify(CheckInboxOp, Reply(None, Some(Response(200, Parsed([a, b]))))) == Success([a, b])
    ensures Classify(CheckInboxOp, Reply(None, Some(Response(500, body))))
      == Failure(CallFailed(CheckInboxOp, None, Some(500)))
    ensures Classify(CheckInboxOp, Reply(Some(cause), Some(Response(200, body))))
      == Failure(CallFailed(CheckInboxOp, Some(cause), Some(200)))
    ensures Classify(CheckInboxOp, Reply(Some(cause), Some(Response(500, body))))
      == Failure(CallFailed(CheckInboxOp, Some(cause), Some(500)))
  {
  }

  /** The inbox error the test's mock provokes reads "check inbox failed: ",
      the mock's error text, and the status code, whatever the status. */
  lemma CheckInboxMessage(cause: string, status: int)
    ensures "check inbox failed: " + cause <= Message(CallFailed(CheckInboxOp, Some(cause), Some(status)))
    ensures EndsWith(Message(CallFailed(CheckInboxOp, Some(cause), Some(status))), ", error code: " + Itoa(status))
  {
  }
}
