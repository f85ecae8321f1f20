/**
 * The query-string encoding of the gateway's `encode` helper: every key
 * and value goes through CGI.escape and the pairs are joined as
 * `k=v&k=v`, in the hash's order. CGI.escape is modelled as percent
 * encoding (section 2.1 of RFC 3986) of the UTF-8 bytes, keeping the
 * unreserved characters of section 2.3 of RFC 3986 and writing a space as
 * `+` as application/x-www-form-urlencoded does. A decoder, written
 * independently, reads the result back.
 */
module UrlEncoding {
  import opened Wrappers
  import opened RubyValues
  import opened OrderedHashes
  import Utf8

  type Byte = Utf8.Byte

  // ---- CGI.escape ---------------------------------------------------------

  predicate UnreservedChar(c: char) {
    ('A' <= c <= 'Z') || ('a' <= c <= 'z') || ('0' <= c <= '9') || c == '-' || c == '.' || c == '_' || c == '~'
  }

  predicate UnreservedByte(b: Byte) {
    b < 0x80 && UnreservedChar(b as char)
  }

  function HexDigit(d: int): (c: char)
    requires 0 <= d < 16
    ensures UnreservedChar(c)
  {
    if d < 10 then ('0' as int + d) as char else ('A' as int + d - 10) as char
  }

  /** The value of a hexadecimal digit of either case. */
  function HexValue(c: char): (r: Option<int>)
    ensures r.Some? ==> 0 <= r.value < 16
  {
    if '0' <= c <= '9' then Some(c as int - '0' as int)
    else if 'A' <= c <= 'F' then Some(c as int - 'A' as int + 10)
    else if 'a' <= c <= 'f' then Some(c as int - 'a' as int + 10)
    else None
  }

  lemma HexValueDigit(d: int)
    requires 0 <= d < 16
    ensures HexValue(HexDigit(d)) == Some(d)
  {
  }

  /** One byte as CGI.escape writes it. */
  function EscapeByte(b: Byte): string {
    if UnreservedByte(b) then [b as char]
    else if b == 0x20 then "+"
    else ['%', HexDigit(b / 16), HexDigit(b % 16)]
  }

  function PercentEncode(bs: seq<Byte>): string
    decreases |bs|
  {
    if |bs| == 0 then "" else EscapeByte(bs[0]) + PercentEncode(bs[1..])
  }

  /** CGI.escape(s). */
  function Escape(s: string): string {
    PercentEncode(Utf8.Encode(s))
  }

  // ---- reading escaped text back -------------------------------------------

  function Prepend(b: Byte, rest: Option<seq<Byte>>): Option<seq<Byte>> {
    match rest
    case None => None
    case Some(bs) => Some([b] + bs)
  }

  function PercentDecode(s: string): Option<seq<Byte>>
    decreases |s|
  {
    if |s| == 0 then Some([])
    else if s[0] == '%' then
      if |s| >= 3 && HexValue(s[1]).Some? && HexValue(s[2]).Some? then
        Prepend(HexValue(s[1]).value * 16 + HexValue(s[2]).value, PercentDecode(s[3..]))
      else None
    else if s[0] == '+' then Prepend(0x20, PercentDecode(s[1..]))
    else if UnreservedChar(s[0]) then Prepend(s[0] as int, PercentDecode(s[1..]))
    else None
  }

  function Unescape(s: string): Option<string> {
    match PercentDecode(s)
    case None => None
    case Some(bs) => Utf8.Decode(bs)
  }

  lemma DecodeEscapeByte(b: Byte, rest: string)
    ensures PercentDecode(EscapeByte(b) + rest) == Prepend(b, PercentDecode(rest))
  {
    var s := EscapeByte(b) + rest;
    if UnreservedByte(b) {
      assert s[0] == b as char && s[1..] == rest;
    } else if b == 0x20 {
      assert s[0] == '+' && s[1..] == rest;
    } else {
      HexValueDigit(b / 16);
      HexValueDigit(b % 16);
      assert s[0] == '%' && s[1] == HexDigit(b / 16) && s[2] == HexDigit(b % 16) && s[3..] == rest;
    }
  }

  lemma {:induction false} PercentRoundTrip(bs: seq<Byte>)
    ensures PercentDecode(PercentEncode(bs)) == Some(bs)
    decreases |bs|
  {
    if |bs| > 0 {
      DecodeEscapeByte(bs[0], PercentEncode(bs[1..]));
      PercentRoundTrip(bs[1..]);
      assert bs == [bs[0]] + bs[1..];
    }
  }

  /** CGI.escape loses nothing: unescaping gives the original string back. */
  lemma UnescapeEscape(s: string)
    ensures Unescape(Escape(s)) == Some(s)
  {
    PercentRoundTrip(Utf8.Encode(s));
    Utf8.DecodeEncode(s);
  }

  /** The characters CGI.escape can emit. */
  predicate SafeChar(c: char) {
    UnreservedChar(c) || c == '+' || c == '%'
  }

  lemma {:induction false} PercentEncodeSafe(bs: seq<Byte>)
    ensures forall i :: 0 <= i < |PercentEncode(bs)| ==> SafeChar(PercentEncode(bs)[i])
    decreases |bs|
  {
    if |bs| > 0 {
      PercentEncodeSafe(bs[1..]);
      var h := EscapeByte(bs[0]);
      assert forall i :: 0 <= i < |h| ==> SafeChar(h[i]);
    }
  }

  /** Escaped text never holds the `=` and `&` that delimit a query string. */
  lemma EscapeSafe(s: string)
    ensures forall i :: 0 <= i < |Escape(s)| ==> SafeChar(Escape(s)[i])
    ensures '=' !in Escape(s) && '&' !in Escape(s)
  {
    PercentEncodeSafe(Utf8.Encode(s));
  }

  lemma {:induction false} PercentEncodeUnreserved(bs: seq<Byte>, s: string)
    requires |bs| == |s|
    requires forall i :: 0 <= i < |s| ==> UnreservedChar(s[i]) && bs[i] == s[i] as int
    ensures PercentEncode(bs) == s
    decreases |bs|
  {
    if |bs| > 0 {
      PercentEncodeUnreserved(bs[1..], s[1..]);
      assert s == [s[0]] + s[1..];
    }
  }

  /** A string of unreserved characters is left as it is. */
  lemma EscapeUnreserved(s: string)
    requires forall i :: 0 <= i < |s| ==> UnreservedChar(s[i])
    ensures Escape(s) == s
  {
    Utf8.EncodeAscii(s);
    PercentEncodeUnreserved(Utf8.Encode(s), s);
  }

  // ---- encode(hash) --------------------------------------------------------

  function Segment(key: string, value: string): string {
    Escape(key) + "=" + Escape(value)
  }

  function EncodePairs(ps: seq<(string, string)>): string
    decreases |ps|
  {
    if |ps| == 0 then ""
    else if |ps| == 1 then Segment(ps[0].0, ps[0].1)
    else Segment(ps[0].0, ps[0].1) + "&" + EncodePairs(ps[1..])
  }

  /** The hash's entries with each key and value turned into a string by `to_s`. */
  function StringPairs(e: Entries): (ps: seq<(string, string)>)
    ensures |ps| == |e|
    ensures forall i :: 0 <= i < |e| ==> ps[i] == (e[i].0, ToS(e[i].1))
  {
    if |e| == 0 then [] else [(e[0].0, ToS(e[0].1))] + StringPairs(e[1..])
  }

  /** `encode(hash)`. */
  function Encode(e: Entries): string {
    EncodePairs(StringPairs(e))
  }

  // ---- reading a query string back -----------------------------------------

  /** The pieces of `s` between occurrences of `sep` (at least one piece). */
  function Split(s: string, sep: char): (parts: seq<string>)
    ensures |parts| >= 1
    decreases |s|
  {
    if |s| == 0 then [""]
    else
      var rest := Split(s[1..], sep);
      if s[0] == sep then [""] + rest else [[s[0]] + rest[0]] + rest[1..]
  }

  /** `s` cut at its first `=`. */
  function SplitPair(s: string): Option<(string, string)>
    decreases |s|
  {
    if |s| == 0 then None
    else if s[0] == '=' then Some(("", s[1..]))
    else match SplitPair(s[1..])
      case None => None
      case Some((k, v)) => Some(([s[0]] + k, v))
  }

  function DecodeSegments(segments: seq<string>): Option<seq<(string, string)>>
    decreases |segments|
  {
    if |segments| == 0 then Some([])
    else match SplitPair(segments[0])
      case None => None
      case Some((k, v)) =>
        match (Unescape(k), Unescape(v), DecodeSegments(segments[1..]))
        case (Some(key), Some(value), Some(rest)) => Some([(key, value)] + rest)
        case _ => None
  }

  /** The pairs a query string stands for. */
  function DecodeQuery(q: string): Option<seq<(string, string)>> {
    if q == "" then Some([]) else DecodeSegments(Split(q, '&'))
  }

  lemma {:induction false} SplitPrefix(p: string, t: string, sep: char)
    requires sep !in p
    ensures Split(p + t, sep) == [p + Split(t, sep)[0]] + Split(t, sep)[1..]
    decreases |p|
  {
    var rest := Split(t, sep);
    if |p| == 0 {
      assert p + t == t && p + rest[0] == rest[0];
      assert rest == [rest[0]] + rest[1..];
    } else {
      SplitPrefix(p[1..], t, sep);
      var s := p + t;
      assert s[0] == p[0] && s[0] != sep;
      assert s[1..] == p[1..] + t;
      assert Split(s, sep) == [[s[0]] + Split(s[1..], sep)[0]] + Split(s[1..], sep)[1..];
      assert [p[0]] + (p[1..] + rest[0]) == p + rest[0];
    }
  }

  lemma {:induction false} SplitPairAt(k: string, v: string)
    requires '=' !in k
    ensures SplitPair(k + "=" + v) == Some((k, v))
    decreases |k|
  {
    if |k| > 0 {
      SplitPairAt(k[1..], v);
      assert (k + "=" + v)[1..] == k[1..] + "=" + v;
      assert [k[0]] + k[1..] == k;
    } else {
      assert (k + "=" + v)[1..] == v;
    }
  }

  function Segments(ps: seq<(string, string)>): (segs: seq<string>)
    ensures |segs| == |ps|
  {
    if |ps| == 0 then [] else [Segment(ps[0].0, ps[0].1)] + Segments(ps[1..])
  }

  lemma SegmentHasNoAmpersand(key: string, value: string)
    ensures '&' !in Segment(key, value)
  {
    EscapeSafe(key);
    EscapeSafe(value);
  }

  lemma {:induction false} SplitEncodePairs(ps: seq<(string, string)>)
    requires |ps| >= 1
    ensures Split(EncodePairs(ps), '&') == Segments(ps)
    decreases |ps|
  {
    var seg := Segment(ps[0].0, ps[0].1);
    SegmentHasNoAmpersand(ps[0].0, ps[0].1);
    if |ps| == 1 {
      SplitPrefix(seg, "", '&');
      assert seg + "" == seg;
    } else {
      var rest := EncodePairs(ps[1..]);
      SplitPrefix(seg, "&" + rest, '&');
      assert seg + "&" + rest == seg + ("&" + rest);
      assert ("&" + rest)[1..] == rest;
      SplitEncodePairs(ps[1..]);
    }
  }

  lemma {:induction false} DecodeSegmentsOf(ps: seq<(string, string)>)
    ensures DecodeSegments(Segments(ps)) == Some(ps)
    decreases |ps|
  {
    if |ps| > 0 {
      var (k, v) := ps[0];
      EscapeSafe(k);
      SplitPairAt(Escape(k), Escape(v));
      UnescapeEscape(k);
      UnescapeEscape(v);
      DecodeSegmentsOf(ps[1..]);
      assert Segments(ps)[1..] == Segments(ps[1..]);
      assert ps == [(k, v)] + ps[1..];
    }
  }

  /** What `encode` writes decodes to the hash's keys and `to_s` values, in order. */
  lemma EncodePairsNonEmpty(ps: seq<(string, string)>)
    requires |ps| >= 1
    ensures |EncodePairs(ps)| > 0
  {
    var seg := Segment(ps[0].0, ps[0].1);
    assert |seg| > 0;
    if |ps| > 1 {
      assert |EncodePairs(ps)| == |seg| + 1 + |EncodePairs(ps[1..])|;
    }
  }

  lemma QueryRoundTrip(ps: seq<(string, string)>)
    ensures DecodeQuery(EncodePairs(ps)) == Some(ps)
  {
    if |ps| > 0 {
      EncodePairsNonEmpty(ps);
      SplitEncodePairs(ps);
      DecodeSegmentsOf(ps);
    }
  }

  lemma EncodeRoundTrip(e: Entries)
    ensures DecodeQuery(Encode(e)) == Some(StringPairs(e))
  {
    QueryRoundTrip(StringPairs(e));
  }

  /** Encoding an empty hash gives the empty string, and only an empty hash does. */
  lemma EncodeEmpty(e: Entries)
    ensures Encode(e) == "" <==> |e| == 0
  {
    EncodeRoundTrip(e);
  }

  /** The first entry leads the encoding, and a nil value encodes as nothing after its `=`. */
  lemma EncodeFirst(e: Entries)
    requires |e| > 0
    ensures var seg := Segment(e[0].0, ToS(e[0].1));
      && |seg| <= |Encode(e)| && Encode(e)[..|seg|] == seg
      && (e[0].1 == NilValue ==> seg == Escape(e[0].0) + "=")
  {
    var ps := StringPairs(e);
    var seg := Segment(e[0].0, ToS(e[0].1));
    assert ps[0] == (e[0].0, ToS(e[0].1));
    if |ps| > 1 {
      assert Encode(e) == seg + ("&" + EncodePairs(ps[1..]));
    }
    assert Escape("") == "";
  }
}
