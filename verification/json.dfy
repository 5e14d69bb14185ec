/** A JSON document in the shape of `serde_json::Value`.

    Numbers are integers only. An object is the sequence of its entries in
    iteration order; `Get` returns the first entry with the key, which is the
    only entry when the keys are distinct (as they are in every map the tool
    builds or receives).
 */
module Json {
  import opened Wrappers
  import Text

  datatype Json =
    | Null
    | Bool(b: bool)
    | Number(n: int)
    | Str(s: string)
    | Arr(items: seq<Json>)
    | Obj(fields: seq<(string, Json)>)

  function Lookup(fields: seq<(string, Json)>, key: string): (r: Option<Json>)
    ensures r.Some? <==> exists i :: 0 <= i < |fields| && fields[i].0 == key
    ensures r.Some? ==> exists i :: 0 <= i < |fields| && fields[i] == (key, r.value)
  {
    if |fields| == 0 then None
    else if fields[0].0 == key then Some(fields[0].1)
    else
      var r := Lookup(fields[1..], key);
      if r.Some? then
        var i :| 0 <= i < |fields[1..]| && fields[1..][i] == (key, r.value);
        assert fields[i + 1] == (key, r.value);
        r
      else r
  }

  /** `value.get(key)`: an object's entry, or None for a missing key or a non-object. */
  function Get(j: Json, key: string): Option<Json> {
    if j.Obj? then Lookup(j.fields, key) else None
  }

  predicate Has(j: Json, key: string) {
    Get(j, key).Some?
  }

  /** `value[key]` on a `Value`: Null for a missing key or a non-object. */
  function Index(j: Json, key: string): Json {
    Get(j, key).GetOr(Null)
  }

  /** Successive `get`s along a path of keys. */
  function Path(j: Json, keys: seq<string>): Option<Json>
    decreases |keys|
  {
    if |keys| == 0 then Some(j)
    else match Get(j, keys[0])
      case None => None
      case Some(v) => Path(v, keys[1..])
  }

  function AsStr(j: Json): Option<string> {
    if j.Str? then Some(j.s) else None
  }

  /** The string found by following `keys`, when the value there is a string. */
  function PathStr(j: Json, keys: seq<string>): (r: Option<string>)
    ensures r.Some? <==> Path(j, keys).Some? && Path(j, keys).value.Str?
    ensures r.Some? ==> Path(j, keys) == Some(Str(r.value))
  {
    match Path(j, keys)
    case Some(Str(s)) => Some(s)
    case _ => None
  }

  function AsArray(j: Json): Option<seq<Json>> {
    if j.Arr? then Some(j.items) else None
  }

  function Keys(fields: seq<(string, Json)>): (r: seq<string>)
    ensures |r| == |fields|
    ensures forall i :: 0 <= i < |fields| ==> r[i] == fields[i].0
  {
    if |fields| == 0 then [] else [fields[0].0] + Keys(fields[1..])
  }

  /** Characters that `serde_json` writes escaped inside a string literal. */
  predicate NeedsEscape(c: char) {
    c == '"' || c == '\\' || (c as int) < 0x20
  }

  function HexDigit(d: nat): char
    requires d < 16
  {
    "0123456789abcdef"[d]
  }

  function EscapeChar(c: char): (r: string)
    ensures !NeedsEscape(c) ==> r == [c]
    ensures NeedsEscape(c) ==> |r| >= 2 && r[0] == '\\'
  {
    if c == '"' then "\\\""
    else if c == '\\' then "\\\\"
    else if c == '\n' then "\\n"
    else if c == '\r' then "\\r"
    else if c == '\t' then "\\t"
    else if c as int == 0x08 then "\\b"
    else if c as int == 0x0c then "\\f"
    else if (c as int) < 0x20 then "\\u00" + [HexDigit((c as int) / 16), HexDigit((c as int) % 16)]
    else [c]
  }

  function EscapeText(s: string): (r: string)
    ensures (forall i :: 0 <= i < |s| ==> !NeedsEscape(s[i])) ==> r == s
  {
    if |s| == 0 then "" else EscapeChar(s[0]) + EscapeText(s[1..])
  }

  /** A string literal as `serde_json` writes it. */
  function Quote(s: string): (r: string)
    ensures |r| >= 2 && r[0] == '"' && r[|r| - 1] == '"'
  {
    "\"" + EscapeText(s) + "\""
  }

  /** `value.to_string()`: the compact serialisation. */
  function ToText(j: Json): (r: string)
    ensures |r| > 0
  {
    match j
    case Null => "null"
    case Bool(b) => if b then "true" else "false"
    case Number(n) => Text.IntText(n)
    case Str(s) => Quote(s)
    case Arr(items) =>
      "[" + Text.Join(seq(|items|, i requires 0 <= i < |items| => ToText(items[i])), ",") + "]"
    case Obj(fields) =>
      "{" + Text.Join(seq(|fields|, i requires 0 <= i < |fields| =>
                            Quote(fields[i].0) + ":" + ToText(fields[i].1)), ",") + "}"
  }

  /** The text a value stands for: a string's contents, otherwise its serialisation
      (both `as_string` in the HAL client and `json_to_string` behave so). */
  function AsText(j: Json): (r: string)
    ensures j.Str? ==> r == j.s
    ensures !j.Str? ==> r == ToText(j)
  {
    if j.Str? then j.s else ToText(j)
  }

  /** A string free of every character `Quote` would escape. */
  predicate Plain(s: string) {
    forall i :: 0 <= i < |s| ==> !NeedsEscape(s[i])
  }

  /** Dropping the quote marks from the serialisation of a plain string gives the string back. */
  lemma UnquotePlain(s: string)
    requires Plain(s)
    ensures Text.RemoveChar(ToText(Str(s)), '"') == s
  {
    var q: string := ['"'];
    assert ToText(Str(s)) == (q + s) + q;
    RemoveSplit(q + s, q, '"');
    RemoveSplit(q, s, '"');
    RemoveAbsent(s, '"');
  }

  lemma {:induction false} RemoveAbsent(s: string, c: char)
    requires c !in s
    ensures Text.RemoveChar(s, c) == s
  {
    if |s| > 0 {
      assert s == [s[0]] + s[1..];
      RemoveAbsent(s[1..], c);
    }
  }

  lemma {:induction false} RemoveSplit(a: string, b: string, c: char)
    ensures Text.RemoveChar(a + b, c) == Text.RemoveChar(a, c) + Text.RemoveChar(b, c)
  {
    if |a| > 0 {
      assert (a + b)[1..] == a[1..] + b;
      RemoveSplit(a[1..], b, c);
    } else {
      assert a + b == b;
    }
  }

  /** Looking up the fields of small literal objects. */
  lemma Lookup2(a: string, x: Json, b: string, y: Json)
    requires a != b
    ensures Lookup([(a, x), (b, y)], a) == Some(x)
    ensures Lookup([(a, x), (b, y)], b) == Some(y)
  {
    assert [(a, x), (b, y)][1..] == [(b, y)];
  }

  lemma Lookup3(a: string, x: Json, b: string, y: Json, c: string, z: Json)
    requires a != b && a != c && b != c
    ensures Lookup([(a, x), (b, y), (c, z)], a) == Some(x)
    ensures Lookup([(a, x), (b, y), (c, z)], b) == Some(y)
    ensures Lookup([(a, x), (b, y), (c, z)], c) == Some(z)
  {
    assert [(a, x), (b, y), (c, z)][1..] == [(b, y), (c, z)];
    Lookup2(b, y, c, z);
  }

  /** A lookup in an object finds its first field, else looks further. */
  lemma LookupCons(k: string, v: Json, rest: seq<(string, Json)>, key: string)
    ensures Lookup([(k, v)] + rest, key) == if k == key then Some(v) else Lookup(rest, key)
  {
    assert ([(k, v)] + rest)[1..] == rest;
  }

  /** A lookup in a concatenation finds the first part's entry, if any, else the second's. */
  lemma {:induction false} LookupConcat(a: seq<(string, Json)>, b: seq<(string, Json)>, key: string)
    ensures Lookup(a + b, key) == if Lookup(a, key).Some? then Lookup(a, key) else Lookup(b, key)
  {
    if |a| > 0 {
      assert (a + b)[1..] == a[1..] + b;
      assert (a + b)[0] == a[0];
      LookupConcat(a[1..], b, key);
    } else {
      assert a + b == b;
    }
  }

  /** The entry for an optional string: present only when the value is. */
  function OptField(key: string, v: Option<string>): seq<(string, Json)> {
    if v.Some? then [(key, Str(v.value))] else []
  }

  lemma OptFieldLookup(k: string, v: Option<string>, key: string)
    ensures Lookup(OptField(k, v), key) == if k == key && v.Some? then Some(Str(v.value)) else None
  {
  }

  /** A JSON array's strings, or None when an item is not a string. */
  function DecodeStrings(items: seq<Json>): (r: Option<seq<string>>)
    ensures r.Some? ==> |r.value| == |items|
  {
    if |items| == 0 then Some([])
    else match (items[0], DecodeStrings(items[1..]))
      case (Str(s), Some(rest)) => Some([s] + rest)
      case _ => None
  }

  /** A sequence of strings as JSON strings. */
  function StringsJson(names: seq<string>): (r: seq<Json>)
    ensures |r| == |names|
    ensures forall i :: 0 <= i < |r| ==> r[i] == Str(names[i])
  {
    if |names| == 0 then [] else [Str(names[0])] + StringsJson(names[1..])
  }

  lemma {:induction false} DecodeStringsJson(names: seq<string>)
    ensures DecodeStrings(StringsJson(names)) == Some(names)
  {
    if |names| > 0 {
      DecodeStringsJson(names[1..]);
      assert StringsJson(names)[1..] == StringsJson(names[1..]);
      assert names == [names[0]] + names[1..];
    }
  }
}
