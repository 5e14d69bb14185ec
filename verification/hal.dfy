/** HAL documents as the broker client reads them: links, link-template
    expansion, link lookup in a fetched resource, classification of broker
    responses and flattening of validation errors (src/cli/pact_broker/main.rs).
 */
module Hal {
  import opened Wrappers
  import opened Json
  import opened Errors
  import Text
  import Percent

  // ---------------------------------------------------------------------------
  // Field helpers

  /** True only when the field is present and is the JSON boolean `true`. */
  function IsTrue(fields: seq<(string, Json)>, field: string): (r: bool)
    ensures r <==> Lookup(fields, field) == Some(Bool(true))
  {
    match Lookup(fields, field)
    case Some(Bool(b)) => b
    case _ => false
  }

  /** The first entry whose key matches `key` ignoring ASCII case, reported under
      the requested key rather than the stored one. */
  function FindEntry(fields: seq<(string, Json)>, key: string): (r: Option<(string, Json)>)
    ensures r.Some? ==> r.value.0 == key
    ensures r.Some? <==> exists i :: 0 <= i < |fields| && Text.Lower(fields[i].0) == Text.Lower(key)
  {
    if |fields| == 0 then None
    else if Text.Lower(fields[0].0) == Text.Lower(key) then Some((key, Lookup(fields, fields[0].0).value))
    else
      var r := FindEntry(fields[1..], key);
      assert r.Some? ==> exists i :: 1 <= i < |fields| && Text.Lower(fields[i].0) == Text.Lower(key) by {
        if r.Some? {
          var i :| 0 <= i < |fields[1..]| && Text.Lower(fields[1..][i].0) == Text.Lower(key);
          assert fields[i + 1] == fields[1..][i];
        }
      }
      r
  }

  /** The entry found is the first one whose key matches, and its value is that key's value. */
  lemma {:induction false} FindEntryFirst(fields: seq<(string, Json)>, key: string, i: nat)
    requires i < |fields| && Text.Lower(fields[i].0) == Text.Lower(key)
    requires forall j :: 0 <= j < i ==> Text.Lower(fields[j].0) != Text.Lower(key)
    ensures FindEntry(fields, key) == Some((key, Lookup(fields, fields[i].0).value))
  {
    if i > 0 {
      FindEntryFirst(fields[1..], key, i - 1);
      assert fields[1..][i - 1] == fields[i];
      assert fields[0].0 != fields[i].0;
    }
  }

  // ---------------------------------------------------------------------------
  // Links

  datatype Link = Link(name: string, href: Option<string>, templated: bool, title: Option<string>)

  function DefaultLink(): (l: Link)
    ensures l.name == "link" && l.href.None? && !l.templated && l.title.None?
  {
    Link("link", None, false, None)
  }

  /** `Link::from_json`: `href` is looked up ignoring case, `title` exactly; a
      non-string value is kept as its JSON text. */
  function LinkFromJson(name: string, fields: seq<(string, Json)>): (l: Link)
    ensures l.name == name
    ensures l.templated <==> Lookup(fields, "templated") == Some(Bool(true))
    ensures l.title.Some? <==> Lookup(fields, "title").Some?
    ensures l.title.Some? ==> l.title.value == AsText(Lookup(fields, "title").value)
    ensures l.href.Some? <==> FindEntry(fields, "href").Some?
    ensures l.href.Some? ==> l.href.value == AsText(FindEntry(fields, "href").value.1)
  {
    var href := match FindEntry(fields, "href")
      case Some((_, h)) => Some(AsText(h))
      case None => None;
    var title := match Lookup(fields, "title")
      case Some(t) => Some(AsText(t))
      case None => None;
    Link(name, href, IsTrue(fields, "templated"), title)
  }

  /** `Link::as_json`: `href` and `title` only when present, `templated` always,
      the name never. */
  function LinkAsJson(l: Link): (j: Json)
    ensures j.Obj?
    ensures Get(j, "href") == (if l.href.Some? then Some(Str(l.href.value)) else None)
    ensures Get(j, "title") == (if l.title.Some? then Some(Str(l.title.value)) else None)
    ensures Get(j, "templated") == Some(Bool(l.templated))
    ensures forall i :: 0 <= i < |j.fields| ==> j.fields[i].0 in {"href", "title", "templated"}
  {
    match (l.href, l.title)
    case (Some(href), Some(title)) =>
      var fields := [("href", Str(href)), ("title", Str(title)), ("templated", Bool(l.templated))];
      assert fields[1..] == [("title", Str(title)), ("templated", Bool(l.templated))];
      assert Lookup(fields[1..], "templated") == Some(Bool(l.templated));
      Obj(fields)
    case (Some(href), None) => Obj([("href", Str(href)), ("templated", Bool(l.templated))])
    case (None, Some(title)) => Obj([("title", Str(title)), ("templated", Bool(l.templated))])
    case (None, None) => Obj([("templated", Bool(l.templated))])
  }

  /** Reading back the JSON form of a link under its own name gives the link again. */
  lemma LinkRoundTrip(l: Link)
    ensures LinkFromJson(l.name, LinkAsJson(l).fields) == l
  {
    var fields := LinkAsJson(l).fields;
    var back := LinkFromJson(l.name, fields);
    if l.href.Some? {
      assert fields[0] == ("href", Str(l.href.value));
      assert Text.Lower(fields[0].0) == Text.Lower("href");
      assert FindEntry(fields, "href") == Some(("href", Str(l.href.value)));
    } else {
      forall i | 0 <= i < |fields|
        ensures Text.Lower(fields[i].0) != Text.Lower("href")
      {
        assert fields[i].0 in {"title", "templated"};
        Text.LowerAt(fields[i].0, 0);
        Text.LowerAt("href", 0);
      }
    }
  }

  // ---------------------------------------------------------------------------
  // Link templates

  /** A placeholder-name character: an ASCII letter, digit or `_`. This is the
      ASCII part of the `\w` class; the Unicode letters and digits that `\w`
      also takes are not modelled. */
  predicate WordChar(c: char) {
    ('a' <= c <= 'z') || ('A' <= c <= 'Z') || ('0' <= c <= '9') || c == '_'
  }

  predicate IsWord(s: string) {
    |s| > 0 && forall i :: 0 <= i < |s| ==> WordChar(s[i])
  }

  /** The number of word characters at the start of `s`. */
  function WordRun(s: string): (n: nat)
    ensures n <= |s|
    ensures forall i :: 0 <= i < n ==> WordChar(s[i])
    ensures n < |s| ==> !WordChar(s[n])
  {
    if |s| > 0 && WordChar(s[0]) then 1 + WordRun(s[1..]) else 0
  }

  /** The key of the `{word}` placeholder `s` starts with, if it starts with one:
      the regular expression `\{(\w+)}` matched at the first character, with `\w`
      read as `WordChar`. */
  function Placeholder(s: string): (r: Option<string>)
    ensures r.Some? ==> IsWord(r.value) && |r.value| + 2 <= |s|
    ensures r.Some? ==> s[..|r.value| + 2] == "{" + r.value + "}"
  {
    if |s| > 0 && s[0] == '{' then
      var n := WordRun(s[1..]);
      if n > 0 && n + 1 < |s| && s[n + 1] == '}' then Some(s[1..n + 1]) else None
    else None
  }

  /** What a placeholder becomes: the percent-encoded value of a known key, the
      placeholder itself for an unknown one. */
  function Replacement(key: string, values: map<string, string>): string {
    if key in values then Percent.Encode(values[key]) else "{" + key + "}"
  }

  /** `replace_all` of `\{(\w+)}`: one left-to-right pass; replaced text is not
      scanned again. */
  function Expand(s: string, values: map<string, string>): string
    decreases |s|
  {
    if |s| == 0 then ""
    else match Placeholder(s)
      case Some(key) => Replacement(key, values) + Expand(s[|key| + 2..], values)
      case None => [s[0]] + Expand(s[1..], values)
  }

  /** The keys of the placeholders the pass meets in `s`. */
  function PlaceholderKeys(s: string): set<string>
    decreases |s|
  {
    if |s| == 0 then {}
    else match Placeholder(s)
      case Some(key) => {key} + PlaceholderKeys(s[|key| + 2..])
      case None => PlaceholderKeys(s[1..])
  }

  /** No placeholder the pass meets in `s` has a value. */
  predicate NoneKnown(s: string, values: map<string, string>) {
    forall k :: k in PlaceholderKeys(s) ==> k !in values
  }

  /** A template none of whose placeholders has a value comes out unchanged. */
  lemma {:induction false} ExpandUnknownIdentity(s: string, values: map<string, string>)
    requires NoneKnown(s, values)
    ensures Expand(s, values) == s
    decreases |s|, 1
  {
    if |s| > 0 {
      if Placeholder(s).Some? {
        UnknownPlaceholderKept(s, Placeholder(s).value, values);
      } else {
        PlainCharKept(s, values);
      }
    }
  }

  lemma {:induction false} UnknownPlaceholderKept(s: string, key: string, values: map<string, string>)
    requires |s| > 0 && Placeholder(s) == Some(key)
    requires NoneKnown(s, values)
    ensures Expand(s, values) == s
    decreases |s|, 0
  {
    var rest := s[|key| + 2..];
    ExpandUnknownPlaceholder(s, key, values);
    ExpandUnknownIdentity(rest, values);
    assert s == s[..|key| + 2] + rest;
  }

  lemma {:induction false} PlainCharKept(s: string, values: map<string, string>)
    requires |s| > 0 && Placeholder(s).None?
    requires NoneKnown(s, values)
    ensures Expand(s, values) == s
    decreases |s|, 0
  {
    ExpandPlainChar(s, values);
    ExpandUnknownIdentity(s[1..], values);
    assert Expand(s, values) == [s[0]] + s[1..];
    assert s == [s[0]] + s[1..];
  }

  /** A leading placeholder whose key has no value is kept as written. */
  lemma ExpandUnknownPlaceholder(s: string, key: string, values: map<string, string>)
    requires |s| > 0 && Placeholder(s) == Some(key)
    requires NoneKnown(s, values)
    ensures Expand(s, values) == s[..|key| + 2] + Expand(s[|key| + 2..], values)
    ensures NoneKnown(s[|key| + 2..], values)
  {
  }

  /** A leading character that starts no placeholder is copied. */
  lemma ExpandPlainChar(s: string, values: map<string, string>)
    requires |s| > 0 && Placeholder(s).None?
    ensures Expand(s, values) == [s[0]] + Expand(s[1..], values)
    ensures PlaceholderKeys(s) == PlaceholderKeys(s[1..])
    ensures NoneKnown(s, values) <==> NoneKnown(s[1..], values)
  {
  }

  /** A placeholder with a known key is replaced by the encoded value, one with
      an unknown key stays as written; the rest of the template is expanded on. */
  lemma ExpandPlaceholder(key: string, rest: string, values: map<string, string>)
    requires IsWord(key)
    ensures key in values ==> Expand("{" + key + "}" + rest, values)
                              == Percent.Encode(values[key]) + Expand(rest, values)
    ensures key !in values ==> Expand("{" + key + "}" + rest, values)
                               == "{" + key + "}" + Expand(rest, values)
  {
    var s := "{" + key + "}" + rest;
    assert s[1..] == key + ("}" + rest);
    WordRunOfWord(key, "}" + rest);
    assert s[|key| + 1] == '}';
    assert s[1..|key| + 1] == key;
    assert s[1..][..|key|] == key;
    assert Placeholder(s) == Some(key);
    assert s[|key| + 2..] == rest;
  }

  lemma {:induction false} WordRunOfWord(w: string, rest: string)
    requires forall i :: 0 <= i < |w| ==> WordChar(w[i])
    requires |rest| == 0 || !WordChar(rest[0])
    ensures WordRun(w + rest) == |w|
  {
    if |w| > 0 {
      assert (w + rest)[1..] == w[1..] + rest;
      WordRunOfWord(w[1..], rest);
    } else {
      assert w + rest == rest;
    }
  }

  /** Text without an opening brace has no placeholder and passes through. */
  lemma {:induction false} ExpandNoBrace(s: string, values: map<string, string>)
    requires '{' !in s
    ensures Expand(s, values) == s
    decreases |s|
  {
    if |s| > 0 {
      assert s[0] != '{';
      ExpandNoBrace(s[1..], values);
      assert s == [s[0]] + s[1..];
    }
  }

  /** `parse_link_url`: the expanded href, or a link error when there is none. */
  function ParseLinkUrl(link: Link, values: map<string, string>, url: string): (r: Outcome<string, BrokerError>)
    ensures link.href.None? <==> r.Err?
    ensures r.Err? ==> r.error.LinkError?
    ensures !r.Halted?
    ensures link.href.Some? && values == map[] ==> r == Ok(link.href.value)
    ensures r.Ok? ==> r.value == Expand(link.href.value, values)
  {
    match link.href
    case Some(href) =>
      (if values == map[] then ExpandUnknownIdentity(href, values); Ok(Expand(href, values))
       else Ok(Expand(href, values)))
    case None =>
      Err(LinkError("Expected a HAL+JSON response from the pact broker, but got a link with no HREF. URL: '"
                    + url + "', LINK: '" + link.name + "'"))
  }

  // ---------------------------------------------------------------------------
  // Links of a fetched resource

  function NothingFetchedMessage(name: string, url: string): string {
    "No previous resource has been fetched from the pact broker. URL: '" + url + "', LINK: '" + name + "'"
  }

  function NoLinksMessage(name: string, url: string): string {
    "Expected a HAL+JSON response from the pact broker, but got a response with no '_links'. URL: '"
      + url + "', LINK: '" + name + "'"
  }

  function MalformedMessage(name: string, data: Json, url: string): string {
    "Link is malformed, expected an object but got " + ToText(data) + ". URL: '" + url + "', LINK: '" + name + "'"
  }

  function LinkNotFoundMessage(name: string, links: Json, url: string): string {
    var keys := if links.Obj? then Keys(links.fields) else [];
    "Link '" + name + "' was not found in the response, only the following links where found: \""
      + DebugEscape(Text.Join(keys, ", ")) + "\". URL: '" + url + "', LINK: '" + name + "'"
  }

  /** The entry `name` of the `_links` object of the last fetched resource. */
  function LinkEntry(pathInfo: Option<Json>, name: string): Option<Json> {
    if pathInfo.None? then None
    else match Get(pathInfo.value, "_links")
      case None => None
      case Some(links) => Get(links, name)
  }

  /** Why `_links` does not hold the named entry in the expected shape. */
  function LinkFailure(pathInfo: Option<Json>, name: string, url: string): string {
    match pathInfo
    case None => NothingFetchedMessage(name, url)
    case Some(doc) =>
      match Get(doc, "_links")
      case None => NoLinksMessage(name, url)
      case Some(links) =>
        match Get(links, name)
        case None => LinkNotFoundMessage(name, links, url)
        case Some(data) => MalformedMessage(name, data, url)
  }

  /** `find_link`: the named entry of `_links` in the last fetched resource,
      which must be an object. */
  function FindLink(pathInfo: Option<Json>, name: string, url: string): (r: Outcome<Link, BrokerError>)
    ensures !r.Halted?
    ensures r.Err? ==> r.error.LinkError?
    ensures r.Ok? <==> LinkEntry(pathInfo, name).Some? && LinkEntry(pathInfo, name).value.Obj?
    ensures r.Ok? ==> r.value == LinkFromJson(name, LinkEntry(pathInfo, name).value.fields)
    ensures pathInfo.None? ==> r == Err(LinkError(NothingFetchedMessage(name, url)))
  {
    match LinkEntry(pathInfo, name)
    case Some(Obj(fields)) => Ok(LinkFromJson(name, fields))
    case _ => Err(LinkError(LinkFailure(pathInfo, name, url)))
  }

  /** One element of a link array: an object is read as a link, a string is the
      href of a plain link, anything else is kept as its JSON text. */
  function ArrayLink(name: string, j: Json): (l: Link)
    ensures l.name == name
    ensures j.Str? ==> l == Link(name, Some(j.s), false, None)
    ensures !j.Obj? ==> !l.templated && l.title.None? && l.href == Some(AsText(j))
  {
    match j
    case Obj(fields) => LinkFromJson(name, fields)
    case Str(s) => Link(name, Some(s), false, None)
    case _ => Link(name, Some(ToText(j)), false, None)
  }

  /** `iter_links`: the named entry of `_links`, which must be an array. */
  function IterLinks(pathInfo: Option<Json>, name: string, url: string): (r: Outcome<seq<Link>, BrokerError>)
    ensures !r.Halted?
    ensures r.Err? ==> r.error.LinkError?
    ensures r.Ok? <==> LinkEntry(pathInfo, name).Some? && LinkEntry(pathInfo, name).value.Arr?
    ensures r.Ok? ==> var items := LinkEntry(pathInfo, name).value.items;
                      |r.value| == |items| &&
                      forall i :: 0 <= i < |items| ==> r.value[i] == ArrayLink(name, items[i])
    ensures pathInfo.None? ==> r == Err(LinkError(NothingFetchedMessage(name, url)))
  {
    match LinkEntry(pathInfo, name)
    case Some(Arr(items)) => Ok(seq(|items|, i requires 0 <= i < |items| => ArrayLink(name, items[i])))
    case _ => Err(LinkError(LinkFailure(pathInfo, name, url)))
  }

  /** One entry of `_links`: an object is read as a link, anything else gives a
      default link carrying the entry's name. */
  function EntryLink(entry: (string, Json)): (l: Link)
    ensures l.name == entry.0
    ensures !entry.1.Obj? ==> l == Link(entry.0, None, false, None)
  {
    if entry.1.Obj? then LinkFromJson(entry.0, entry.1.fields) else DefaultLink().(name := entry.0)
  }

  /** `links_from_json`: every entry of an object-valued `_links`, in order. */
  function LinksFromJson(j: Json): (r: seq<Link>)
    ensures (Get(j, "_links").None? || !Get(j, "_links").value.Obj?) ==> r == []
    ensures Get(j, "_links").Some? && Get(j, "_links").value.Obj? ==>
              var fields := Get(j, "_links").value.fields;
              |r| == |fields| && forall i :: 0 <= i < |fields| ==> r[i] == EntryLink(fields[i])
  {
    match Get(j, "_links")
    case Some(Obj(fields)) => seq(|fields|, i requires 0 <= i < |fields| => EntryLink(fields[i]))
    case _ => []
  }

  // ---------------------------------------------------------------------------
  // Broker responses

  /** A parsed `Content-Type`: type, subtype and optional structured-syntax suffix. */
  datatype Mime = Mime(kind: string, subtype: string, suffix: Option<string>)

  /** The `Content-Type` header as received. */
  datatype Header = Absent | Unreadable | Value(text: string)

  /** The header text, with `text/plain` for a missing or unreadable header. */
  function ContentType(h: Header): (r: string)
    ensures h.Value? ==> r == h.text
    ensures !h.Value? ==> r == "text/plain"
  {
    if h.Value? then h.text else "text/plain"
  }

  predicate IsJsonMime(m: Mime) {
    (m.kind == "application" && m.subtype == "json" && m.suffix.None?) ||
    (m.kind == "application" && m.subtype == "hal" && m.suffix == Some("json"))
  }

  /** `json_content_type`; `parse` is the media-type parser, None for text it rejects. */
  function JsonContentType(h: Header, parse: string -> Option<Mime>): (r: bool)
    ensures r <==> parse(ContentType(h)).Some? && IsJsonMime(parse(ContentType(h)).value)
  {
    match parse(ContentType(h))
    case Some(m) => IsJsonMime(m)
    case None => false
  }

  /** With a parser that reads `text/plain` as such, a missing header never counts as JSON. */
  lemma MissingHeaderIsNotJson(parse: string -> Option<Mime>)
    requires parse("text/plain") == Some(Mime("text", "plain", None))
    ensures !JsonContentType(Absent, parse)
    ensures !JsonContentType(Unreadable, parse)
  {
  }

  /** A response body as the client can read it. */
  datatype Body = Undownloadable | NotJson | Parsed(json: Json)

  /** A reply as the HTTP library hands it over: the status, the canonical
      reason phrase the library knows for it (None for an unregistered
      code), whether the content type is JSON, the content type and the body. */
  datatype Response = Response(status: nat, reason: Option<string>, jsonType: bool, contentType: string, body: Body)

  predicate Success(status: nat) {
    200 <= status < 300
  }

  const UnknownReason := "<unknown status code>"

  /** The display of a status code: its number, a space and its reason phrase
      (or the placeholder the HTTP library writes for an unregistered code). */
  function StatusText(status: nat, reason: Option<string>): (r: string)
    ensures |r| > |Text.NatText(status)| && r[..|Text.NatText(status)|] == Text.NatText(status)
    ensures r[|Text.NatText(status)|] == ' '
    ensures reason.Some? ==> r[|Text.NatText(status)| + 1..] == reason.value
    ensures reason.None? ==> r[|Text.NatText(status)| + 1..] == UnknownReason
  {
    Text.NatText(status) + " " + reason.GetOr(UnknownReason)
  }

  function FailedMessage(path: string, resp: Response, url: string): string {
    "Request to pact broker path '" + path + "' failed: " + StatusText(resp.status, resp.reason) + ". URL: '" + url + "'"
  }

  /** `parse_broker_response`: the status and content-type table. */
  function ParseBrokerResponse(path: string, resp: Response, url: string): (r: Outcome<Json, BrokerError>)
    ensures !r.Halted?
    ensures Success(resp.status) && resp.jsonType ==>
              (if resp.body.Parsed? then r == Ok(resp.body.json) else r.Err? && r.error.ContentError?)
    ensures Success(resp.status) && !resp.jsonType ==>
              (if resp.status == 204 then r == Ok(Obj([])) else r.Err? && r.error.ContentError?)
    ensures resp.status == 404 ==> r == Err(NotFound(FailedMessage(path, resp, url)))
    ensures resp.status == 400 && resp.jsonType && resp.body.Parsed? ==>
              r == Err(HandleValidationErrors(resp.body.json))
    ensures resp.status == 400 && resp.jsonType && resp.body.NotJson? ==> r.Err? && r.error.ContentError?
    ensures resp.status == 400 && (!resp.jsonType || resp.body.Undownloadable?) ==> r.Err? && r.error.IoError?
    ensures resp.status == 400 && !resp.jsonType && !resp.body.Undownloadable? ==>
              r == Err(IoError(FailedMessage(path, resp, url)))
    ensures !Success(resp.status) && resp.status != 404 && resp.status != 400 ==>
              r == Err(IoError(FailedMessage(path, resp, url)))
    ensures r.Ok? ==> Success(resp.status)
  {
    if Success(resp.status) then
      if resp.jsonType then
        if resp.body.Parsed? then Ok(resp.body.json)
        else Err(ContentError("Did not get a valid HAL response body from pact broker path '" + path + "'. URL: '" + url + "'"))
      else if resp.status == 204 then Ok(Obj([]))
      else Err(ContentError("Did not get a valid HAL response body from pact broker path '" + path
                            + "', content type is '" + resp.contentType + "'. URL: '" + url + "'"))
    else if resp.status == 404 then Err(NotFound(FailedMessage(path, resp, url)))
    else if resp.status == 400 then
      if resp.body.Undownloadable? then
        Err(IoError("Failed to download response body for path '" + path + "'. URL: '" + url + "'"))
      else if resp.jsonType then
        if resp.body.Parsed? then Err(HandleValidationErrors(resp.body.json))
        else Err(ContentError("Did not get a valid HAL response body from pact broker path '" + path + "'. URL: '" + url + "'"))
      else Err(IoError(FailedMessage(path, resp, url)))
    else Err(IoError(FailedMessage(path, resp, url)))
  }

  // ---------------------------------------------------------------------------
  // Validation errors

  /** The text of each element. */
  function Texts(items: seq<Json>): (r: seq<string>)
    ensures |r| == |items| && forall i :: 0 <= i < |items| ==> r[i] == AsText(items[i])
  {
    seq(|items|, i requires 0 <= i < |items| => AsText(items[i]))
  }

  /** One entry of an `errors` object: `field: message`, with an array of
      messages joined by ", ". */
  function FieldErrors(entry: (string, Json)): (r: string)
    ensures entry.1.Str? ==> r == entry.0 + ": " + entry.1.s
    ensures entry.1.Arr? ==> r == entry.0 + ": " + Text.Join(Texts(entry.1.items), ", ")
    ensures !entry.1.Str? && !entry.1.Arr? ==> r == entry.0 + ": " + ToText(entry.1)
  {
    match entry.1
    case Str(e) => entry.0 + ": " + e
    case Arr(es) => entry.0 + ": " + Text.Join(Texts(es), ", ")
    case _ => entry.0 + ": " + ToText(entry.1)
  }

  /** `handle_validation_errors`: always a validation error, one message per
      reported problem. */
  function HandleValidationErrors(body: Json): (e: BrokerError)
    ensures e.ValidationError?
    ensures body.Str? ==> e.errors == [body.s]
    ensures !body.Str? && Get(body, "errors").None? ==> e.errors == [ToText(body)]
    ensures Get(body, "errors").Some? && Get(body, "errors").value.Arr? ==>
              var items := Get(body, "errors").value.items;
              e.errors == Texts(items)
    ensures Get(body, "errors").Some? && Get(body, "errors").value.Obj? ==>
              var fields := Get(body, "errors").value.fields;
              |e.errors| == |fields| && forall i :: 0 <= i < |fields| ==> e.errors[i] == FieldErrors(fields[i])
    ensures Get(body, "errors").Some? && Get(body, "errors").value.Str? ==>
              e.errors == [Get(body, "errors").value.s]
    ensures Get(body, "errors").Some? && !Get(body, "errors").value.Arr? &&
            !Get(body, "errors").value.Obj? && !Get(body, "errors").value.Str? ==>
              e.errors == [ToText(Get(body, "errors").value)]
  {
    match body
    case Obj(attrs) =>
      (match Lookup(attrs, "errors")
       case Some(Arr(values)) => ValidationError(Texts(values))
       case Some(Obj(errs)) => ValidationError(seq(|errs|, i requires 0 <= i < |errs| => FieldErrors(errs[i])))
       case Some(Str(s)) => ValidationError([s])
       case Some(other) => ValidationError([ToText(other)])
       case None => ValidationError([ToText(body)]))
    case Str(s) => ValidationError([s])
    case _ => ValidationError([ToText(body)])
  }
}
