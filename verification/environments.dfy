/** The `create-environment` and `update-environment` commands
    (src/cli/pact_broker/main/environments/create.rs and update.rs).

    Both build the same environment document from optional arguments; they
    differ in where a contact's email address goes (`details.emailAddress`
    on create, `email` on update), in how the target is found (the index's
    `pb:environments` relation, or the environment's own URL after an
    existence check) and in what they return. */
module Environments {
  import opened Wrappers
  import opened Json
  import opened Errors
  import opened Client
  import Text
  import Utils

  datatype EnvironmentArgs = EnvironmentArgs(
    name: Option<string>,
    displayName: Option<string>,
    production: bool,
    contactName: Option<string>,
    contactEmail: Option<string>)

  /** Where a contact's email address is stored: `details.emailAddress`
      (create) or `email` (update). */
  datatype EmailStyle = Details | Flat

  /** The keys under which each style stores the address, from the contact down. */
  function EmailPath(style: EmailStyle): (keys: seq<string>)
    ensures |keys| > 0
  {
    match style
    case Details => ["details", "emailAddress"]
    case Flat => ["email"]
  }

  /** The contact's email entry, when an address is given. */
  function EmailEntry(style: EmailStyle, email: Option<string>): seq<(string, Json)> {
    match email
    case None => []
    case Some(e) =>
      match style
      case Details => [("details", Obj([("emailAddress", Str(e))]))]
      case Flat => [("email", Str(e))]
  }

  /** The single contact: the name entry, then the email entry on the same
      contact (it is added to the contact the name created, or makes one). */
  function Contact(style: EmailStyle, contactName: Option<string>, email: Option<string>): Json {
    Obj(OptField("name", contactName) + EmailEntry(style, email))
  }

  /** The `contacts` entry, present when a contact name or an email is given. */
  function ContactsField(style: EmailStyle, contactName: Option<string>, email: Option<string>): seq<(string, Json)> {
    if contactName.None? && email.None? then []
    else [("contacts", Arr([Contact(style, contactName, email)]))]
  }

  /** The environment document: `production` always, the name, the
      contacts and the display name when given. */
  function Payload(style: EmailStyle, a: EnvironmentArgs, name: string): Json {
    Obj([("production", Bool(a.production)), ("name", Str(name))]
        + ContactsField(style, a.contactName, a.contactEmail)
        + OptField("displayName", a.displayName))
  }

  /** The first contact of a document, read back. */
  function FirstContact(doc: Json): Option<Json> {
    match Get(doc, "contacts")
    case Some(Arr(items)) => if |items| > 0 then Some(items[0]) else None
    case _ => None
  }

  function StrOf(v: Option<string>): Option<Json> {
    if v.Some? then Some(Str(v.value)) else None
  }

  lemma EmailLookup(style: EmailStyle, contactName: Option<string>, email: Option<string>)
    ensures Path(Contact(style, contactName, email), EmailPath(style)) == StrOf(email)
    ensures Get(Contact(style, contactName, email), "name") == StrOf(contactName)
  {
    var c := Contact(style, contactName, email);
    var k := EmailPath(style)[0];
    LookupConcat(OptField("name", contactName), EmailEntry(style, email), k);
    LookupConcat(OptField("name", contactName), EmailEntry(style, email), "name");
    OptFieldLookup("name", contactName, k);
    OptFieldLookup("name", contactName, "name");
    if email.Some? {
      match style
      case Details =>
        var d := Obj([("emailAddress", Str(email.value))]);
        var keys := EmailPath(style);
        assert keys[1..] == ["emailAddress"] && keys[1..][1..] == [];
        LookupCons("details", d, [], "details");
        LookupCons("emailAddress", Str(email.value), [], "emailAddress");
        assert Get(c, "details") == Some(d);
        assert Path(d, keys[1..]) == Some(Str(email.value));
      case Flat =>
        var keys := EmailPath(style);
        assert keys[1..] == [];
        LookupCons("email", Str(email.value), [], "email");
        assert Get(c, "email") == Some(Str(email.value));
    } else {
      assert Get(c, k) == None;
    }
  }

  lemma PayloadLookup(style: EmailStyle, a: EnvironmentArgs, name: string, key: string)
    ensures Get(Payload(style, a, name), key) ==
              if key == "production" then Some(Bool(a.production))
              else if key == "name" then Some(Str(name))
              else if key == "contacts" then
                (if a.contactName.None? && a.contactEmail.None? then None
                 else Some(Arr([Contact(style, a.contactName, a.contactEmail)])))
              else if key == "displayName" then StrOf(a.displayName)
              else None
  {
    var fixed := [("production", Bool(a.production)), ("name", Str(name))];
    var cs := ContactsField(style, a.contactName, a.contactEmail);
    var dn := OptField("displayName", a.displayName);
    LookupConcat(fixed + cs, dn, key);
    LookupConcat(fixed, cs, key);
    LookupCons("production", Bool(a.production), [("name", Str(name))], key);
    LookupCons("name", Str(name), [], key);
    OptFieldLookup("displayName", a.displayName, key);
    if cs != [] {
      LookupCons("contacts", Arr([Contact(style, a.contactName, a.contactEmail)]), [], key);
    }
  }

  /** What the document says, read back field by field: the flag, the name,
      the display name when given, one contact exactly when a contact name
      or an email is given, carrying the name and the email where the style
      puts it. */
  lemma PayloadFields(style: EmailStyle, a: EnvironmentArgs, name: string)
    ensures var doc := Payload(style, a, name);
            Get(doc, "production") == Some(Bool(a.production)) &&
            Get(doc, "name") == Some(Str(name)) &&
            Get(doc, "displayName") == StrOf(a.displayName) &&
            (Get(doc, "contacts").Some? <==> a.contactName.Some? || a.contactEmail.Some?) &&
            (Get(doc, "contacts").Some? ==>
               Get(doc, "contacts").value.Arr? && |Get(doc, "contacts").value.items| == 1 &&
               FirstContact(doc).Some? &&
               Get(FirstContact(doc).value, "name") == StrOf(a.contactName) &&
               Path(FirstContact(doc).value, EmailPath(style)) == StrOf(a.contactEmail))
  {
    PayloadLookup(style, a, name, "production");
    PayloadLookup(style, a, name, "name");
    PayloadLookup(style, a, name, "displayName");
    PayloadLookup(style, a, name, "contacts");
    EmailLookup(style, a.contactName, a.contactEmail);
  }

  // ---------------------------------------------------------------------------
  // create-environment

  const NameRequired := "Environment name is required"
  const Created := "Successfully created environment"

  /** The POST of the document, once the relation and the name are known. */
  function CreatePost(a: EnvironmentArgs, href: string, name: string): Request {
    Request(POST, href, Some(Payload(Details, a, name)))
  }

  /** `create_environment`: the `pb:environments` relation is read first, so
      an index failure is returned before the name is checked; a missing
      name is a validation error and nothing is posted; the POST's failure
      is passed on as it is, and its success gives the same fixed message
      whatever the output format. */
  function CreateEnvironment(broker: Broker, a: EnvironmentArgs): (r: Run<string>)
    ensures 1 <= |r.sent| <= 2 && r.sent[0] == Request(GET, "/", None)
    ensures Utils.GetBrokerRelation(broker, "pb:environments").outcome.Err? ==>
              r == Run(Err(Utils.GetBrokerRelation(broker, "pb:environments").outcome.error), [Request(GET, "/", None)])
    ensures a.name.None? ==> ReadOnly(r.sent) && !r.outcome.Ok?
    ensures a.name.None? && Utils.GetBrokerRelation(broker, "pb:environments").outcome.Ok? ==>
              r.outcome == Err(ValidationError([NameRequired]))
    ensures a.name.Some? && Utils.GetBrokerRelation(broker, "pb:environments").outcome.Ok? ==>
              var post := CreatePost(a, Utils.GetBrokerRelation(broker, "pb:environments").outcome.value, a.name.value);
              r.sent == [Request(GET, "/", None), post] &&
              (broker(post).Ok? ==> r.outcome == Ok(Created)) &&
              (broker(post).Err? ==> r.outcome == Err(broker(post).error))
    ensures r.outcome.Ok? ==> r.outcome.value == Created && a.name.Some? && |r.sent| == 2
  {
    var rel := Utils.GetBrokerRelation(broker, "pb:environments");
    match rel.outcome
    case Err(e) => Run(Err(e), rel.sent)
    case Halted(h) => Run(Halted(h), rel.sent)
    case Ok(href) =>
      match a.name
      case None => Run(Err(ValidationError([NameRequired])), rel.sent)
      case Some(name) =>
        var post := CreatePost(a, href, name);
        var outcome := match broker(post)
          case Ok(_) => Ok(Created)
          case Err(e) => Err(e)
          case Halted(h) => Halted(h);
        Run(outcome, rel.sent + [post])
  }

  // ---------------------------------------------------------------------------
  // update-environment

  const UpdateNameRequired := "\U{274C} Name is required"

  /** The environment's own URL: the broker URL without trailing `/`, then
      `/environments/<uuid>`. */
  function EnvironmentHref(brokerUrl: string, uuid: string): (r: string)
    ensures Text.EndsWith(r, "/environments/" + uuid)
  {
    var r := Text.TrimEnd(brokerUrl, '/') + ("/environments/" + uuid);
    assert r[|r| - |"/environments/" + uuid|..] == "/environments/" + uuid;
    r
  }

  /** Extra slashes at the end of the broker URL make no difference. */
  lemma {:induction false} HrefIgnoresTrailingSlash(brokerUrl: string, uuid: string)
    ensures EnvironmentHref(brokerUrl + "/", uuid) == EnvironmentHref(brokerUrl, uuid)
  {
    var s := brokerUrl + "/";
    assert s[..|s| - 1] == brokerUrl;
  }

  function NotFoundText(uuid: string, output: string): string {
    if output == "json" then "{}" else "Environment with UUID " + uuid + " not found"
  }

  /** The message of a successful update: the name and the returned uuid,
      with the quotes of its JSON text trimmed. */
  function UpdatedMessage(name: string, res: Json): string {
    "\U{2705} Updated " + name + " environment in the Pact Broker with UUID "
      + Text.TrimMatches(ToText(Index(res, "uuid")), '"')
  }

  /** What a successful update returns: the response as JSON text for the
      `json` format, the message for every other. */
  function UpdateResult(output: string, name: string, res: Json): (s: string)
    ensures output == "json" ==> s == ToText(res)
    ensures output != "json" ==> s == UpdatedMessage(name, res)
  {
    if output == "json" then ToText(res) else UpdatedMessage(name, res)
  }

  /** The PUT of the document, once the environment and the name are known. */
  function UpdatePut(a: EnvironmentArgs, href: string, name: string): Request {
    Request(PUT, href, Some(Payload(Flat, a, name)))
  }

  /** `update_environment`: the environment is fetched first; when it does
      not exist the error names the uuid (or is `{}` for the json format),
      and any other fetch error is passed on; then a missing name is a
      validation error; then the document is PUT to the same URL and the
      PUT's failure is passed on as it is. */
  function UpdateEnvironment(broker: Broker, brokerUrl: string, uuid: string, a: EnvironmentArgs,
                             output: string): (r: Run<string>)
    ensures var href := EnvironmentHref(brokerUrl, uuid);
            1 <= |r.sent| <= 2 && r.sent[0] == Request(GET, href, None) &&
            (broker(Request(GET, href, None)).Err? ==>
               r.sent == [Request(GET, href, None)] &&
               (broker(Request(GET, href, None)).error.NotFound? ==>
                  r.outcome == Err(NotFound(NotFoundText(uuid, output)))) &&
               (!broker(Request(GET, href, None)).error.NotFound? ==>
                  r.outcome == Err(broker(Request(GET, href, None)).error))) &&
            (broker(Request(GET, href, None)).Ok? && a.name.None? ==>
               r == Run(Err(ValidationError([UpdateNameRequired])), [Request(GET, href, None)])) &&
            (broker(Request(GET, href, None)).Ok? && a.name.Some? ==>
               var put := UpdatePut(a, href, a.name.value);
               r.sent == [Request(GET, href, None), put] &&
               (broker(put).Ok? ==> r.outcome == Ok(UpdateResult(output, a.name.value, broker(put).value))) &&
               (broker(put).Err? ==> r.outcome == Err(broker(put).error)))
    ensures r.outcome.Ok? ==> a.name.Some? && |r.sent| == 2 && r.sent[1].verb == PUT
  {
    var href := EnvironmentHref(brokerUrl, uuid);
    var fetched := Fetch(broker, href);
    match fetched.outcome
    case Err(NotFound(_)) => Run(Err(NotFound(NotFoundText(uuid, output))), fetched.sent)
    case Err(e) => Run(Err(e), fetched.sent)
    case Halted(h) => Run(Halted(h), fetched.sent)
    case Ok(_) =>
      match a.name
      case None => Run(Err(ValidationError([UpdateNameRequired])), fetched.sent)
      case Some(name) =>
        var put := UpdatePut(a, href, name);
        var outcome := match broker(put)
          case Ok(res) => Ok(UpdateResult(output, name, res))
          case Err(e) => Err(e)
          case Halted(h) => Halted(h);
        Run(outcome, fetched.sent + [put])
  }

  /** The same arguments give the same document on create and update, except
      that the email address sits under `details.emailAddress` on create and
      under `email` on update. */
  lemma EmailPlacement(a: EnvironmentArgs, name: string)
    requires a.contactEmail.Some?
    ensures FirstContact(Payload(Details, a, name)).Some? && FirstContact(Payload(Flat, a, name)).Some?
    ensures Path(FirstContact(Payload(Details, a, name)).value, ["details", "emailAddress"]) == Some(Str(a.contactEmail.value))
    ensures Path(FirstContact(Payload(Flat, a, name)).value, ["email"]) == Some(Str(a.contactEmail.value))
    ensures Get(FirstContact(Payload(Details, a, name)).value, "email") == None
    ensures Get(FirstContact(Payload(Flat, a, name)).value, "details") == None
  {
    PayloadFields(Details, a, name);
    PayloadFields(Flat, a, name);
    var cd := Contact(Details, a.contactName, a.contactEmail);
    var cf := Contact(Flat, a.contactName, a.contactEmail);
    LookupConcat(OptField("name", a.contactName), EmailEntry(Details, a.contactEmail), "email");
    LookupConcat(OptField("name", a.contactName), EmailEntry(Flat, a.contactEmail), "details");
    OptFieldLookup("name", a.contactName, "email");
    OptFieldLookup("name", a.contactName, "details");
    PayloadLookup(Details, a, name, "contacts");
    PayloadLookup(Flat, a, name, "contacts");
  }
}
