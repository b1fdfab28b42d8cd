/**
 * Request construction (1secmail.go): the five API actions and their wire
 * names, the query parameters (`url.Values`) and `constructRequest`, which
 * puts the action and then every argument into the query.
 */
module Requests {

  /** `mailboxAction`, declared with `iota` in this order. */
  datatype Action = GetMessages | ReadMessage | Download | GenRandomMailbox | GetDomainList

  /** The wire names, indexed by the action's ordinal. */
  const ActionNames: seq<string> :=
    ["getMessages", "readMessage", "download", "genRandomMailbox", "getDomainList"]

  /** The integer value `iota` gives each action. */
  function Ordinal(a: Action): (i: nat)
    ensures i < |ActionNames|
  {
    match a
    case GetMessages => 0
    case ReadMessage => 1
    case Download => 2
    case GenRandomMailbox => 3
    case GetDomainList => 4
  }

  /** `mailboxAction.String`: the name at the action's ordinal. */
  function Name(a: Action): string {
    ActionNames[Ordinal(a)]
  }

  /** The actions map, in declaration order, to their wire names. */
  lemma NamesInDeclarationOrder()
    ensures Name(GetMessages) == "getMessages"
    ensures Name(ReadMessage) == "readMessage"
    ensures Name(Download) == "download"
    ensures Name(GenRandomMailbox) == "genRandomMailbox"
    ensures Name(GetDomainList) == "getDomainList"
  {
  }

  /** Different actions are sent under different names. */
  lemma NameInjective(a: Action, b: Action)
    ensures Name(a) == Name(b) <==> a == b
  {
  }

  /** The fixed API root every request is sent to. */
  const ApiBase: string := "https://www.1secmail.com/api/v1/"

  /** `url.Values`: each key holds the list of values added under it, in order. */
  type Values = map<string, seq<string>>

  /** `Values.Add`: append a value to the key's list. */
  function Add(q: Values, key: string, value: string): (r: Values)
    ensures r.Keys == q.Keys + {key}
    ensures r[key] == (if key in q then q[key] else []) + [value]
    ensures forall k :: k in q && k != key ==> r[k] == q[k]
  {
    q[key := (if key in q then q[key] else []) + [value]]
  }

  /** `Values.Get`: the first value under the key, or "" when there is none. */
  function Get(q: Values, key: string): string {
    if key in q && |q[key]| > 0 then q[key][0] else ""
  }

  /** An HTTP request as far as the model sees it: verb (HTTP method), URL and query. */
  datatype Request = Request(verb: string, url: string, query: Values)

  /** The query `constructRequest` builds: the action's name under "action",
      followed there by an argument of that name if there is one, and each
      other argument's value under its own key. */
  function Query(action: Action, args: map<string, string>): Values {
    map k | k in args.Keys + {"action"} ::
      if k == "action" then [Name(action)] + (if "action" in args then [args["action"]] else [])
      else [args[k]]
  }

  /** The request `constructRequest` returns. */
  function RequestFor(verb: string, action: Action, args: map<string, string>): Request {
    Request(verb, ApiBase, Query(action, args))
  }

  /** What the query says: its keys are "action" and the argument keys,
      "action" reads back as the action's name, and every other argument
      reads back unchanged. */
  lemma QueryContents(action: Action, args: map<string, string>)
    ensures Query(action, args).Keys == {"action"} + args.Keys
    ensures Get(Query(action, args), "action") == Name(action)
    ensures forall k :: k in args && k != "action" ==> Query(action, args)[k] == [args[k]]
    ensures forall k :: k in args && k != "action" ==> Get(Query(action, args), k) == args[k]
  {
  }

  /**
   * `constructRequest`: start from the action, then add the arguments one
   * by one. Go visits a map in no fixed order; the loop picks any key not
   * yet added, and the result is the same whatever the order.
   */
  method ConstructRequest(verb: string, action: Action, args: map<string, string>) returns (req: Request)
    ensures req == RequestFor(verb, action, args)
  {
    var query: Values := map["action" := [Name(action)]];
    var pending := args.Keys;
    while pending != {}
      invariant pending <= args.Keys
      invariant query.Keys == {"action"} + (args.Keys - pending)
      invariant query["action"] ==
        [Name(action)] + (if "action" in args && "action" !in pending then [args["action"]] else [])
      invariant forall k :: k in query && k != "action" ==> query[k] == [args[k]]
      decreases pending
    {
      var k :| k in pending;
      query := Add(query, k, args[k]);
      pending := pending - {k};
    }
    req := Request(verb, ApiBase, query);
  }
}
