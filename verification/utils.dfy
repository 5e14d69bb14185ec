/** Shared command helpers (src/cli/pact_broker/main/utils.rs): the retry
    policy, credential and TLS options, broker index relations, link
    construction, pact tables and the error exit. */
module Utils {
  import opened Wrappers
  import opened Json
  import opened Errors
  import opened Hal
  import opened Client
  import Types
  import Text

  // ---------------------------------------------------------------------------
  // Retries

  /** What one transmission of a request yields: a response with its status,
      or a transport error that may carry a status. */
  datatype Sent = Response(code: nat) | Failure(errorStatus: Option<nat>)

  predicate ServerError(status: nat) {
    500 <= status < 600
  }

  /** The outcomes after which another attempt is made. */
  predicate Retryable(s: Sent) {
    match s
    case Response(st) => ServerError(st)
    case Failure(Some(st)) => ServerError(st)
    case Failure(None) => false
  }

  function Pow10(k: nat): (r: nat)
    ensures r >= 1
  {
    if k == 0 then 1 else 10 * Pow10(k - 1)
  }

  /** A transmission as the caller sees it: a response is Ok, an error is Err. */
  function AsOutcome(s: Sent): Outcome<Sent, Sent> {
    if s.Response? then Ok(s) else Err(s)
  }

  /** `with_retries`. `transport(k)` is what the k-th transmission (from 0)
      yields; `cloneable` says whether the request can be copied for a retry.
      Returns the final outcome, the number of transmissions and the delays, in
      milliseconds, slept before each retransmission. */
  method WithRetries(retries: nat, cloneable: bool, transport: nat -> Sent)
    returns (outcome: Outcome<Sent, Sent>, sends: nat, delays: seq<nat>)
    requires retries < 256
    ensures !cloneable ==> sends == 1 && outcome == AsOutcome(transport(0)) && delays == []
    ensures cloneable && retries == 0 ==> sends == 0 && outcome.Halted? && delays == []
    ensures cloneable && retries > 0 ==>
              1 <= sends <= retries && outcome == AsOutcome(transport(sends - 1))
    ensures cloneable ==> forall k :: 0 <= k < sends - 1 ==> Retryable(transport(k))
    ensures cloneable && 0 < sends < retries ==> !Retryable(transport(sends - 1))
    ensures cloneable && sends > 0 ==> |delays| == sends - 1
    ensures forall j :: 0 <= j < |delays| ==> delays[j] == Pow10(j + 2)
  {
    if !cloneable {
      return AsOutcome(transport(0)), 1, [];
    }
    var current: Option<Sent> := None;
    var live := true;
    var attempt := 1;
    sends, delays := 0, [];
    while attempt <= retries
      invariant 1 <= attempt <= retries + 1
      invariant current.None? <==> sends == 0
      invariant attempt == 1 ==> sends == 0 && live
      invariant attempt > 1 ==> 1 <= sends <= attempt - 1
      invariant live ==> sends == attempt - 1
      invariant current.Some? ==> current.value == transport(sends - 1)
      invariant forall k :: 0 <= k < sends - 1 ==> Retryable(transport(k))
      invariant !live ==> current.Some? && !Retryable(current.value)
      invariant sends > 0 ==> |delays| == sends - 1
      invariant sends == 0 ==> delays == []
      invariant forall j :: 0 <= j < |delays| ==> delays[j] == Pow10(j + 2)
      decreases retries + 1 - attempt
    {
      if live {
        match current
        case None =>
          current := Some(transport(sends));
          sends := sends + 1;
        case Some(prev) =>
          if Retryable(prev) {
            delays := delays + [Pow10(attempt)];
            current := Some(transport(sends));
            sends := sends + 1;
          } else {
            live := false;
          }
      }
      attempt := attempt + 1;
    }
    match current
    case None =>
      outcome := Halted(Panic("with_retries: no attempt was made"));
    case Some(last) =>
      outcome := AsOutcome(last);
  }

  // ---------------------------------------------------------------------------
  // Options

  /** `get_ssl_options`: skip verification off, no certificate and the root
      trust store on, unless given. */
  function SslOptionsFrom(skip: Option<bool>, cert: Option<string>, trustStore: Option<bool>): (o: Types.SslOptions)
    ensures o.skipSsl == skip.GetOr(false)
    ensures o.sslCertPath == cert
    ensures o.useRootTrustStore == trustStore.GetOr(true)
    ensures skip.None? && cert.None? && trustStore.None? ==> o == Types.DefaultSslOptions()
  {
    Types.SslOptions(skip.GetOr(false), cert, trustStore.GetOr(true))
  }

  /** `get_auth`: a token wins; otherwise a username, with the password if there is one. */
  function AuthFrom(token: Option<string>, username: Option<string>, password: Option<string>): (a: Types.Auth)
    ensures token.Some? ==> a == Types.Token(token.value)
    ensures token.None? && username.Some? ==> a == Types.User(username.value, password)
    ensures token.None? && username.None? ==> a == Types.NoAuth
    ensures a.Token? <==> token.Some?
  {
    match token
    case Some(t) => Types.Token(t)
    case None =>
      match username
      case Some(u) => Types.User(u, password)
      case None => Types.NoAuth
  }

  // ---------------------------------------------------------------------------
  // Broker index relations

  /** `get_broker_relation`: the href of a relation of the broker index, as JSON
      text with every `"` removed. A failed index fetch is passed on; an index
      without `_links`, or a relation without `href`, panics. */
  function GetBrokerRelation(broker: Broker, relation: string): (r: Run<string>)
    ensures r.sent == [Request(GET, "/", None)]
    ensures broker(Request(GET, "/", None)).Err? ==> r.outcome == Err(broker(Request(GET, "/", None)).error)
    ensures broker(Request(GET, "/", None)).Ok? ==>
              var index := broker(Request(GET, "/", None)).value;
              (Get(index, "_links").None? ==> r.outcome.Halted?) &&
              (Get(index, "_links").Some? && Get(Get(index, "_links").value, relation).None? ==>
                 r.outcome == Err(NotFound("Could not find relation '" + relation + "'"))) &&
              (Get(index, "_links").Some? && Get(Get(index, "_links").value, relation).Some? ==>
                 var rel := Get(Get(index, "_links").value, relation).value;
                 (Get(rel, "href").None? ==> r.outcome.Halted?) &&
                 (Get(rel, "href").Some? ==> r.outcome == Ok(Text.RemoveChar(ToText(Get(rel, "href").value), '"'))))
    ensures r.outcome.Ok? ==> '"' !in r.outcome.value
  {
    var fetched := Fetch(broker, "/");
    var outcome := match fetched.outcome
      case Err(e) => Err(e)
      case Halted(h) => Halted(h)
      case Ok(index) =>
        match Get(index, "_links")
        case None => Halted(Panic("get_broker_relation: index has no _links"))
        case Some(links) =>
          match Get(links, relation)
          case None => Err(NotFound("Could not find relation '" + relation + "'"))
          case Some(rel) =>
            match Get(rel, "href")
            case None => Halted(Panic("get_broker_relation: relation has no href"))
            case Some(href) => Ok(Text.RemoveChar(ToText(href), '"'));
    Run(outcome, fetched.sent)
  }

  /** For the usual index, whose relation hrefs are plain strings, the relation
      is its href exactly. */
  lemma PlainRelationHref(broker: Broker, relation: string, href: string)
    requires broker(Request(GET, "/", None)).Ok?
    requires Path(broker(Request(GET, "/", None)).value, ["_links", relation, "href"]) == Some(Str(href))
    requires Plain(href)
    ensures GetBrokerRelation(broker, relation).outcome == Ok(href)
  {
    var index := broker(Request(GET, "/", None)).value;
    var keys := ["_links", relation, "href"];
    assert keys[1..] == [relation, "href"] && keys[1..][1..] == ["href"] && keys[1..][1..][1..] == [];
    var links := Get(index, "_links").value;
    var rel := Get(links, relation).value;
    assert Path(rel, ["href"]) == Some(Str(href));
    assert Get(rel, "href") == Some(Str(href));
    UnquotePlain(href);
  }

  /** The link `follow_broker_relation` follows: plain, named after the relation. */
  function RelationLink(relation: string, href: string): (l: Link)
    ensures l.name == relation && l.href == Some(href) && !l.templated && l.title.None?
  {
    Link(relation, Some(href), false, None)
  }

  /** The link `follow_templated_broker_relation` and
      `delete_templated_broker_relation` follow: templated, named after the relation. */
  function TemplatedLink(relation: string, href: string): (l: Link)
    ensures l.name == relation && l.href == Some(href) && l.templated && l.title.None?
  {
    Link(relation, Some(href), true, None)
  }

  /** `follow_broker_relation`: a GET of the href as written. */
  function FollowBrokerRelation(broker: Broker, relation: string, href: string, url: string): (r: Run<Json>)
    ensures r == Fetch(broker, href)
  {
    FollowLink(broker, GET, RelationLink(relation, href), map[], url)
  }

  /** `follow_templated_broker_relation`: a GET of the expanded template. */
  function FollowTemplatedBrokerRelation(broker: Broker, relation: string, href: string,
                                         values: map<string, string>, url: string): (r: Run<Json>)
    ensures r == Fetch(broker, Expand(href, values))
  {
    FollowLink(broker, GET, TemplatedLink(relation, href), values, url)
  }

  /** `delete_templated_broker_relation`: a DELETE of the expanded template. */
  function DeleteTemplatedBrokerRelation(broker: Broker, relation: string, href: string,
                                         values: map<string, string>, url: string): (r: Run<Json>)
    ensures r == Send(broker, DELETE, Expand(href, values), None)
  {
    FollowLink(broker, DELETE, TemplatedLink(relation, href), values, url)
  }

  /** `handle_error`: the message is printed and the process exits with status 1. */
  function HandleError<T>(e: BrokerError): (r: Outcome<T, BrokerError>)
    ensures r == Halted(Exit(1))
  {
    Halted(Exit(1))
  }

  // ---------------------------------------------------------------------------
  // Pact tables

  /** A rendered table: its header and its rows of cells. */
  datatype Table = Table(header: seq<string>, rows: seq<seq<string>>)

  /** `generate_table`: one row per element of `pacts`, one cell per column key
      path, each the JSON text of the value the path reaches (every step a
      `get(..).unwrap()`). A response without `pacts`, or an element lacking a
      column's keys, panics; a `pacts` that is not an array gives no rows. */
  function GenerateTable(res: Json, header: seq<string>, columns: seq<seq<string>>): (t: Outcome<Table, BrokerError>)
    ensures !t.Err?
    ensures t.Ok? ==> t.value.header == header
    ensures Get(res, "pacts").None? ==> t.Halted?
    ensures Get(res, "pacts").Some? && !Get(res, "pacts").value.Arr? ==> t == Ok(Table(header, []))
    ensures t.Ok? && Get(res, "pacts").value.Arr? ==>
              var items := Get(res, "pacts").value.items;
              |t.value.rows| == |items| &&
              forall i, c :: 0 <= i < |items| && 0 <= c < |columns| ==>
                |t.value.rows[i]| == |columns| && Path(items[i], columns[c]).Some? &&
                t.value.rows[i][c] == ToText(Path(items[i], columns[c]).value)
    ensures Get(res, "pacts").Some? && Get(res, "pacts").value.Arr? ==>
              (t.Ok? <==> forall i, c :: 0 <= i < |Get(res, "pacts").value.items| && 0 <= c < |columns| ==>
                            Path(Get(res, "pacts").value.items[i], columns[c]).Some?)
  {
    match Get(res, "pacts")
    case None => Halted(Panic("generate_table: response has no pacts"))
    case Some(Arr(items)) =>
      if forall i, c :: 0 <= i < |items| && 0 <= c < |columns| ==> Path(items[i], columns[c]).Some? then
        Ok(Table(header, seq(|items|, i requires 0 <= i < |items| =>
             seq(|columns|, c requires 0 <= c < |columns| => ToText(Path(items[i], columns[c]).value)))))
      else Halted(Panic("generate_table: a pact lacks a column"))
    case Some(_) => Ok(Table(header, []))
  }
}
