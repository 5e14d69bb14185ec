/** Connection settings and output formats (src/cli/pact_broker/main/types.rs),
    together with the authentication choice the settings carry. */
module Types {
  import opened Wrappers
  import Text

  /** `HttpAuth`: no credentials, a user with an optional password, or a bearer token. */
  datatype Auth = NoAuth | User(username: string, password: Option<string>) | Token(token: string)

  datatype SslOptions = SslOptions(skipSsl: bool, sslCertPath: Option<string>, useRootTrustStore: bool)

  /** `SslOptions::default`. */
  function DefaultSslOptions(): (o: SslOptions)
    ensures !o.skipSsl && o.sslCertPath.None? && o.useRootTrustStore
  {
    SslOptions(false, None, true)
  }

  datatype BrokerDetails = BrokerDetails(auth: Option<Auth>, url: string, ssl: SslOptions)

  /** `BrokerDetails::from_args`: the URL loses every trailing `/`, and the
      credentials are always present. */
  function BrokerDetailsFrom(url: string, auth: Auth, ssl: SslOptions): (d: BrokerDetails)
    ensures d.auth == Some(auth) && d.ssl == ssl
    ensures |d.url| == 0 || d.url[|d.url| - 1] != '/'
    ensures Text.StartsWith(url, d.url)
    ensures forall i :: |d.url| <= i < |url| ==> url[i] == '/'
  {
    BrokerDetails(Some(auth), Text.TrimEnd(url, '/'), ssl)
  }

  datatype OutputType = Json | Table | Text | Pretty

  /** The name `OutputType::from_str` accepts for each format. */
  function OutputName(o: OutputType): string {
    match o
    case Json => "json"
    case Table => "table"
    case Text => "text"
    case Pretty => "pretty"
  }

  /** `OutputType::from_str`: one of four names, compared after lower-casing. */
  function ParseOutputType(s: string): (r: Option<OutputType>)
    ensures r.Some? <==> Text.Lower(s) in {"json", "table", "text", "pretty"}
    ensures r.Some? ==> OutputName(r.value) == Text.Lower(s)
  {
    var l := Text.Lower(s);
    if l == "json" then Some(Json)
    else if l == "table" then Some(Table)
    else if l == "text" then Some(Text)
    else if l == "pretty" then Some(Pretty)
    else None
  }

  /** Parsing is the inverse of naming, and case does not matter. */
  lemma ParseOutputName(o: OutputType)
    ensures ParseOutputType(OutputName(o)) == Some(o)
  {
    LowerOfLower(OutputName(o));
  }

  lemma {:induction false} LowerOfLower(s: string)
    requires forall i :: 0 <= i < |s| ==> !('A' <= s[i] <= 'Z')
    ensures Text.Lower(s) == s
  {
    if |s| > 0 {
      LowerOfLower(s[1..]);
      assert s == [s[0]] + s[1..];
    }
  }

  /** Two spellings that differ only in ASCII case parse alike. */
  lemma ParseIgnoresCase(a: string, b: string)
    requires Text.Lower(a) == Text.Lower(b)
    ensures ParseOutputType(a) == ParseOutputType(b)
  {
  }
}
