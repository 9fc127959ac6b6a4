/**
 * URLs as the client builds them. A URL is kept structured (scheme, host, path
 * and the list of query entries) rather than parsed from text; `Href` gives its
 * serialisation. The query is written with the application/x-www-form-urlencoded
 * serializer of the WHATWG URL Standard (section 5.2), which UTF-8-encodes every
 * name and value and percent-encodes all but `*-._`, ASCII digits and letters,
 * writing a space as `+`. Relative references resolve against a base as in
 * section 5.2 of RFC 3986.
 */
module Url {
  import opened Wrappers

  type Byte = b: int | 0 <= b < 256
  type Entry = (string, string)

  /** An absolute URL: `scheme://host` followed by the path and the query entries. */
  datatype Url = Url(scheme: string, host: string, path: string, query: seq<Entry>)

  /** A request target as the caller writes it: an absolute URL or a reference relative to one. */
  datatype Ref = Absolute(url: Url) | Relative(path: string)

  // ---- UTF-8 ----------------------------------------------------------------

  /** The UTF-8 encoding of one Unicode scalar value. */
  function Utf8(c: char): (bs: seq<Byte>)
    ensures 1 <= |bs| <= 4
    ensures (c as int) < 0x80 ==> bs == [c as int]
    ensures (c as int) >= 0x80 ==> forall i :: 0 <= i < |bs| ==> bs[i] >= 0x80
  {
    var n := c as int;
    if n < 0x80 then [n]
    else if n < 0x800 then [0xC0 + n / 0x40, 0x80 + n % 0x40]
    else if n < 0x10000 then [0xE0 + n / 0x1000, 0x80 + (n / 0x40) % 0x40, 0x80 + n % 0x40]
    else [0xF0 + n / 0x40000, 0x80 + (n / 0x1000) % 0x40, 0x80 + (n / 0x40) % 0x40, 0x80 + n % 0x40]
  }

  function Utf8String(s: string): seq<Byte> {
    if s == [] then [] else Utf8(s[0]) + Utf8String(s[1..])
  }

  // ---- the application/x-www-form-urlencoded serializer ----------------------

  /** Bytes the form-urlencoded percent-encode set leaves alone: `*-._`, digits, letters. */
  predicate FormSafe(b: Byte) {
    b == 0x2A || b == 0x2D || b == 0x2E || b == 0x5F
    || (0x30 <= b <= 0x39) || (0x41 <= b <= 0x5A) || (0x61 <= b <= 0x7A)
  }

  function HexDigit(d: nat): (c: char)
    requires d < 16
    ensures (c as int) < 0x80 && FormSafe(c as int)
  {
    if d < 10 then (('0' as int) + d) as char else (('A' as int) + d - 10) as char
  }

  /** Characters that a serialized query component may contain. */
  predicate ComponentChar(c: char) {
    ((c as int) < 0x80 && FormSafe(c as int)) || c == '+' || c == '%'
  }

  function EncodeByte(b: Byte): (s: string)
    ensures forall i :: 0 <= i < |s| ==> ComponentChar(s[i])
  {
    if FormSafe(b) then [b as char]
    else if b == 0x20 then "+"
    else ['%', HexDigit(b / 16), HexDigit(b % 16)]
  }

  function EncodeBytes(bs: seq<Byte>): (s: string)
    ensures forall i :: 0 <= i < |s| ==> ComponentChar(s[i])
  {
    if bs == [] then [] else EncodeByte(bs[0]) + EncodeBytes(bs[1..])
  }

  /** One name or value, serialized. */
  function Encode(s: string): (e: string)
    ensures forall i :: 0 <= i < |e| ==> ComponentChar(e[i])
  {
    EncodeBytes(Utf8String(s))
  }

  function SerializePair(p: Entry): string {
    Encode(p.0) + "=" + Encode(p.1)
  }

  /** The serializer: `name=value` for every entry, in order, joined by `&`. */
  function Serialize(ps: seq<Entry>): string {
    if ps == [] then ""
    else if |ps| == 1 then SerializePair(ps[0])
    else SerializePair(ps[0]) + "&" + Serialize(ps[1..])
  }

  // ---- the application/x-www-form-urlencoded parser (to bytes) ----------------

  predicate IsHex(c: char) {
    ('0' <= c <= '9') || ('A' <= c <= 'F') || ('a' <= c <= 'f')
  }

  function HexValue(c: char): (d: nat)
    requires IsHex(c)
    ensures d < 16
  {
    if '0' <= c <= '9' then (c as int) - ('0' as int)
    else if 'A' <= c <= 'F' then (c as int) - ('A' as int) + 10
    else (c as int) - ('a' as int) + 10
  }

  /** `+` becomes a space, `%XY` the byte XY, and every other character its UTF-8 bytes. */
  function FormDecode(s: string): seq<Byte> {
    if s == [] then []
    else if s[0] == '+' then [0x20] + FormDecode(s[1..])
    else if s[0] == '%' && |s| >= 3 && IsHex(s[1]) && IsHex(s[2]) then
      [HexValue(s[1]) * 16 + HexValue(s[2])] + FormDecode(s[3..])
    else Utf8(s[0]) + FormDecode(s[1..])
  }

  function IndexOf(s: string, c: char): (i: nat)
    requires c in s
    ensures i < |s| && s[i] == c && c !in s[..i]
  {
    if s[0] == c then 0 else 1 + IndexOf(s[1..], c)
  }

  /** `s.split(sep)`. */
  function Split(s: string, sep: char): seq<string>
    decreases |s|
  {
    if sep in s then
      var i := IndexOf(s, sep);
      [s[..i]] + Split(s[i + 1..], sep)
    else [s]
  }

  function ParsePiece(piece: string): (seq<Byte>, seq<Byte>) {
    if '=' in piece then
      var i := IndexOf(piece, '=');
      (FormDecode(piece[..i]), FormDecode(piece[i + 1..]))
    else (FormDecode(piece), [])
  }

  function ParsePieces(pieces: seq<string>): seq<(seq<Byte>, seq<Byte>)> {
    if pieces == [] then []
    else if pieces[0] == [] then ParsePieces(pieces[1..])
    else [ParsePiece(pieces[0])] + ParsePieces(pieces[1..])
  }

  /** The parser, stopping short of UTF-8 decoding: name and value bytes of every entry. */
  function ParseForm(s: string): seq<(seq<Byte>, seq<Byte>)> {
    ParsePieces(Split(s, '&'))
  }

  function EntryBytes(ps: seq<Entry>): seq<(seq<Byte>, seq<Byte>)> {
    if ps == [] then [] else [(Utf8String(ps[0].0), Utf8String(ps[0].1))] + EntryBytes(ps[1..])
  }

  // ---- URLs -------------------------------------------------------------------

  /** A special URL's path is never empty: `https://example.com` has the path `/`. */
  function NormalPath(path: string): string {
    if path == "" then "/" else path
  }

  /** `url.href`. */
  function Href(u: Url): string {
    u.scheme + "://" + u.host + NormalPath(u.path) + (if u.query == [] then "" else "?" + Serialize(u.query))
  }

  /**
   * `new URL(input)` followed by `searchParams.append(key, value)` for each entry:
   * the entries go after the existing query, in order.
   */
  function AppendQuery(u: Url, entries: seq<Entry>): (r: Url)
    ensures r.scheme == u.scheme && r.host == u.host && r.path == NormalPath(u.path)
    ensures r.query == u.query + entries
  {
    u.(path := NormalPath(u.path), query := u.query + entries)
  }

  /** The base path up to and including its last `/`. */
  function Directory(path: string): (d: string)
    ensures |d| <= |path| && d == path[..|d|]
    ensures d == [] || d[|d| - 1] == '/'
    ensures '/' !in path[|d|..]
  {
    if path == [] then []
    else if path[|path| - 1] == '/' then path
    else Directory(path[..|path| - 1])
  }

  /** Section 5.2.3 of RFC 3986, for a base URL that has an authority. */
  function MergePaths(basePath: string, refPath: string): string {
    if basePath == "" then "/" + refPath else Directory(basePath) + refPath
  }

  /**
   * `new URL(ref, base)`: an absolute reference stands alone; an empty one is the
   * base itself; a path starting with `/` replaces the base path; any other path is
   * merged under the base's directory. A reference with a path drops the base's
   * query. Dot segments, query-only and network-path references are not modelled.
   */
  function Resolve(base: Url, r: Ref): Url {
    match r
    case Absolute(u) => u.(path := NormalPath(u.path))
    case Relative(p) =>
      if p == "" then base.(path := NormalPath(base.path))
      else if p[0] == '/' then base.(path := p, query := [])
      else base.(path := MergePaths(base.path, p), query := [])
  }

  // ---- lemmas -------------------------------------------------------------------

  lemma {:induction false} EncodeBytesAppend(a: seq<Byte>, b: seq<Byte>)
    ensures EncodeBytes(a + b) == EncodeBytes(a) + EncodeBytes(b)
  {
    if a != [] {
      var ab := a + b;
      assert ab[0] == a[0] && ab[1..] == a[1..] + b;
      EncodeBytesAppend(a[1..], b);
      calc {
        EncodeBytes(ab);
        EncodeByte(a[0]) + EncodeBytes(a[1..] + b);
        EncodeByte(a[0]) + (EncodeBytes(a[1..]) + EncodeBytes(b));
      }
    } else {
      assert a + b == b;
    }
  }

  /** Text made only of characters the serializer leaves alone. */
  predicate SafeText(s: string) {
    forall i :: 0 <= i < |s| ==> (s[i] as int) < 0x80 && FormSafe(s[i] as int)
  }

  /** Safe text is serialized as it is. */
  lemma {:induction false} EncodeSafe(s: string)
    requires SafeText(s)
    ensures Encode(s) == s
  {
    if s != [] {
      assert SafeText(s[1..]) by {
        assert forall i :: 0 <= i < |s| - 1 ==> s[1..][i] == s[i + 1];
      }
      EncodeSafe(s[1..]);
      var bs := Utf8String(s);
      assert bs == [s[0] as int] + Utf8String(s[1..]);
      assert bs[0] == s[0] as int && bs[1..] == Utf8String(s[1..]);
      assert EncodeByte(s[0] as int) == [s[0]];
      assert s == [s[0]] + s[1..];
    }
  }

  /** A pair of safe texts is serialized as `name=value`. */
  lemma SafePair(k: string, v: string)
    requires SafeText(k) && SafeText(v)
    ensures SerializePair((k, v)) == k + "=" + v
  {
    EncodeSafe(k);
    EncodeSafe(v);
  }

  lemma DecodeEncodedByte(b: Byte, rest: string)
    ensures FormDecode(EncodeByte(b) + rest) == [b] + FormDecode(rest)
  {
    var e := EncodeByte(b) + rest;
    if FormSafe(b) {
      assert e[0] == b as char && e[1..] == rest;
    } else if b == 0x20 {
      assert e[0] == '+' && e[1..] == rest;
    } else {
      assert e[1] == HexDigit(b / 16) && e[2] == HexDigit(b % 16) && e[3..] == rest;
    }
  }

  /** Decoding undoes the percent-encoding byte for byte. */
  lemma {:induction false} DecodeEncodeBytes(bs: seq<Byte>)
    ensures FormDecode(EncodeBytes(bs)) == bs
  {
    if bs != [] {
      DecodeEncodedByte(bs[0], EncodeBytes(bs[1..]));
      DecodeEncodeBytes(bs[1..]);
    }
  }

  lemma DecodeEncode(s: string)
    ensures FormDecode(Encode(s)) == Utf8String(s)
  {
    DecodeEncodeBytes(Utf8String(s));
  }

  lemma {:induction false} SplitAfterPiece(x: string, rest: string, sep: char)
    requires sep !in x
    ensures Split(x + [sep] + rest, sep) == [x] + Split(rest, sep)
  {
    var s := x + [sep] + rest;
    assert s[|x|] == sep;
    assert sep in s;
    assert s[..|x|] == x;
    var i := IndexOf(s, sep);
    assert i == |x|;
    assert s[i + 1..] == rest;
  }

  lemma NoSeparatorInPair(p: Entry)
    ensures '&' !in SerializePair(p)
    ensures SerializePair(p) != []
    ensures ParsePiece(SerializePair(p)) == (Utf8String(p.0), Utf8String(p.1))
  {
    var k, v := Encode(p.0), Encode(p.1);
    var s := SerializePair(p);
    assert s == k + "=" + v;
    forall i | 0 <= i < |s| ensures s[i] != '&' {
      if i < |k| { assert s[i] == k[i]; }
      else if i > |k| { assert s[i] == v[i - |k| - 1]; }
    }
    SplitAtEquals(k, v);
    DecodeEncode(p.0);
    DecodeEncode(p.1);
  }

  /** A name without `=` is split from its value at the first `=`. */
  lemma SplitAtEquals(k: string, v: string)
    requires forall i :: 0 <= i < |k| ==> ComponentChar(k[i])
    ensures var s := k + "=" + v;
      '=' in s && IndexOf(s, '=') == |k| && s[..|k|] == k && s[|k| + 1..] == v
  {
    var s := k + "=" + v;
    assert s[|k|] == '=';
    var j := IndexOf(s, '=');
    assert !ComponentChar('=');
    assert j == |k|;
    assert s[..j] == k && s[j + 1..] == v;
  }

  /** Parsing the serialized query gives back every entry's name and value bytes, in order. */
  lemma {:induction false} ParseSerialize(ps: seq<Entry>)
    ensures ParseForm(Serialize(ps)) == EntryBytes(ps)
  {
    if ps == [] {
      assert Split("", '&') == [""];
    } else if |ps| == 1 {
      NoSeparatorInPair(ps[0]);
      var piece := SerializePair(ps[0]);
      assert Split(piece, '&') == [piece];
      assert ParsePieces([piece]) == [ParsePiece(piece)] + ParsePieces([]);
      assert ps[1..] == [];
      assert EntryBytes(ps) == [(Utf8String(ps[0].0), Utf8String(ps[0].1))] + EntryBytes([]);
    } else {
      NoSeparatorInPair(ps[0]);
      SplitAfterPiece(SerializePair(ps[0]), Serialize(ps[1..]), '&');
      assert SerializePair(ps[0]) + "&" + Serialize(ps[1..]) == SerializePair(ps[0]) + ['&'] + Serialize(ps[1..]);
      ParseSerialize(ps[1..]);
    }
  }

  lemma {:induction false} SerializeAppend(a: seq<Entry>, b: seq<Entry>)
    requires a != [] && b != []
    ensures Serialize(a + b) == Serialize(a) + "&" + Serialize(b)
  {
    if |a| == 1 {
      assert (a + b)[1..] == b;
    } else {
      assert (a + b)[1..] == a[1..] + b;
      SerializeAppend(a[1..], b);
    }
  }

  /**
   * Appending entries writes the old query, `&` when there was one, then the new
   * entries.
   */
  lemma AppendQueryHref(u: Url, entries: seq<Entry>)
    requires entries != []
    ensures Href(AppendQuery(u, entries))
         == u.scheme + "://" + u.host + NormalPath(u.path) + "?"
            + (if u.query == [] then "" else Serialize(u.query) + "&") + Serialize(entries)
  {
    var r := AppendQuery(u, entries);
    SerializeAppended(u.query, entries);
    assert NormalPath(r.path) == NormalPath(u.path);
  }

  /** The serialized query after appending: the old query and `&` when there was one, then the entries. */
  lemma SerializeAppended(q: seq<Entry>, entries: seq<Entry>)
    requires entries != []
    ensures Serialize(q + entries) == (if q == [] then "" else Serialize(q) + "&") + Serialize(entries)
  {
    if q == [] {
      assert q + entries == entries;
    } else {
      SerializeAppend(q, entries);
    }
  }

  /** `https://example.com` with the entries `a=1`, `b=2` becomes `https://example.com/?a=1&b=2`. */
  lemma AppendQueryExample()
    ensures Href(AppendQuery(Url("https", "example.com", "", []), [("a", "1"), ("b", "2")]))
         == "https://example.com/?a=1&b=2"
  {
    ExamplePairs();
    SerializeTwo(("a", "1"), ("b", "2"));
    AppendQueryHref(Url("https", "example.com", "", []), [("a", "1"), ("b", "2")]);
  }

  lemma ExamplePairs()
    ensures SerializePair(("a", "1")) == "a=1" && SerializePair(("b", "2")) == "b=2"
  {
    SafePair("a", "1");
    SafePair("b", "2");
  }

  lemma SerializeTwo(x: Entry, y: Entry)
    ensures Serialize([x, y]) == SerializePair(x) + "&" + SerializePair(y)
  {
    assert [x, y][1..] == [y];
  }

  /** A path without a leading `/` lands under the base directory; the origin is the base's. */
  lemma ResolveUnderDirectory(base: Url, p: string)
    requires p != "" && p[0] != '/'
    ensures var r := Resolve(base, Relative(p));
      && r.scheme == base.scheme && r.host == base.host && r.query == []
      && r.path == MergePaths(base.path, p)
      && (base.path != "" ==> r.path == Directory(base.path) + p)
      && (base.path != "" && base.path[|base.path| - 1] == '/' ==> r.path == base.path + p)
  {
  }

  /** `https://example.com/foo/` with `bar` resolves to `https://example.com/foo/bar`. */
  lemma ResolveExample()
    ensures Href(Resolve(Url("https", "example.com", "/foo/", []), Relative("bar")))
         == "https://example.com/foo/bar"
  {
    var r := Resolve(Url("https", "example.com", "/foo/", []), Relative("bar"));
    FooDirectory("/foo/");
    assert r == Url("https", "example.com", "/foo/bar", []);
  }

  lemma FooDirectory(path: string)
    requires path == "/foo/"
    ensures MergePaths(path, "bar") == "/foo/bar"
  {
    assert path[|path| - 1] == '/';
  }
}
