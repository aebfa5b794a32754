/**
 * The `application/x-www-form-urlencoded` serializer that the gate uses to
 * build the `next` query parameter of its redirect (Python's
 * `urllib.parse.urlencode` with its default `quote_plus`, as in Python 3.7
 * and later; Python 3.6 also escapes `~`, as `%7E`).
 *
 * A character is encoded as follows: the unreserved characters of section 2.3
 * of RFC 3986 (ASCII letters, digits, `-`, `.`, `_`, `~`) are left bare, a
 * space becomes `+`, and every other character is turned into its UTF-8 bytes,
 * each written as `%` followed by two upper-case hexadecimal digits
 * (section 2.1 of RFC 3986).
 */
module FormEncoding {

  import opened Common

  type Byte = b: int | 0 <= b < 256

  // ---------------------------------------------------------------------------
  // Character classes
  // ---------------------------------------------------------------------------

  /** The unreserved set of section 2.3 of RFC 3986. */
  predicate Unreserved(c: char) {
    ('A' <= c <= 'Z') || ('a' <= c <= 'z') || ('0' <= c <= '9')
    || c == '-' || c == '.' || c == '_' || c == '~'
  }

  predicate IsUpperHexDigit(c: char) {
    ('0' <= c <= '9') || ('A' <= c <= 'F')
  }

  /** Every character the serializer can emit. */
  predicate EncodedAlphabet(c: char) {
    Unreserved(c) || c == '+' || c == '%' || IsUpperHexDigit(c)
  }

  /** Upper-case hexadecimal digit of a nibble, as `'%{:02X}'` writes it. */
  function HexDigit(n: int): (c: char)
    requires 0 <= n < 16
    ensures IsUpperHexDigit(c)
  {
    if n < 10 then ('0' as int + n) as char else ('A' as int + n - 10) as char
  }

  /** Value of a hexadecimal digit of either case (the decoder accepts both). */
  function HexValue(c: char): (n: int)
    ensures 0 <= n < 16
  {
    if '0' <= c <= '9' then c as int - '0' as int
    else if 'A' <= c <= 'F' then c as int - 'A' as int + 10
    else if 'a' <= c <= 'f' then c as int - 'a' as int + 10
    else 0
  }

  predicate IsHexDigit(c: char) {
    ('0' <= c <= '9') || ('A' <= c <= 'F') || ('a' <= c <= 'f')
  }

  lemma HexDigitRoundTrip(n: int)
    requires 0 <= n < 16
    ensures IsHexDigit(HexDigit(n)) && HexValue(HexDigit(n)) == n
  {
  }

  // ---------------------------------------------------------------------------
  // UTF-8
  // ---------------------------------------------------------------------------

  /** The UTF-8 encoding of one Unicode scalar value. */
  function Utf8Char(c: char): (bs: seq<Byte>)
    ensures 1 <= |bs| <= 4
    ensures |bs| == 1 <==> c as int < 0x80
    ensures |bs| == 1 ==> bs[0] == c as int
  {
    var x := c as int;
    if x < 0x80 then [x]
    else if x < 0x800 then [0xC0 + x / 64, 0x80 + x % 64]
    else if x < 0x10000 then [0xE0 + x / 4096, 0x80 + (x / 64) % 64, 0x80 + x % 64]
    else [0xF0 + x / 262144, 0x80 + (x / 4096) % 64, 0x80 + (x / 64) % 64, 0x80 + x % 64]
  }

  /** The UTF-8 encoding of a string. */
  function Utf8(s: string): (bs: seq<Byte>)
    ensures |bs| >= |s|
  {
    if s == [] then [] else Utf8Char(s[0]) + Utf8(s[1..])
  }

  /** The number of bytes of the sequence a UTF-8 lead byte starts. */
  function Utf8SequenceLength(b: Byte): nat {
    if b < 0x80 then 1 else if b < 0xE0 then 2 else if b < 0xF0 then 3 else 4
  }

  predicate IsScalarValue(x: int) {
    (0 <= x < 0xD800) || (0xE000 <= x < 0x11_0000)
  }

  /** Decodes one UTF-8 sequence (lead byte plus continuation bytes). */
  function Utf8DecodeSequence(bs: seq<Byte>): int
    requires 1 <= |bs| <= 4
  {
    var b0: int := bs[0];
    if |bs| == 1 then b0
    else
      var b1: int := bs[1];
      if |bs| == 2 then (b0 - 0xC0) * 64 + (b1 - 0x80)
      else
        var b2: int := bs[2];
        if |bs| == 3 then (b0 - 0xE0) * 4096 + (b1 - 0x80) * 64 + (b2 - 0x80)
        else
          var b3: int := bs[3];
          (b0 - 0xF0) * 262144 + (b1 - 0x80) * 4096 + (b2 - 0x80) * 64 + (b3 - 0x80)
  }

  /** Decodes a byte sequence as UTF-8, failing on a truncated or invalid sequence. */
  function Utf8Decode(bs: seq<Byte>): Option<string>
    decreases |bs|
  {
    if bs == [] then Some([])
    else
      var n := Utf8SequenceLength(bs[0]);
      if |bs| < n then None
      else
        var x := Utf8DecodeSequence(bs[..n]);
        if !IsScalarValue(x) then None
        else match Utf8Decode(bs[n..])
          case None => None
          case Some(rest) => Some([x as char] + rest)
  }

  /** The lead byte of a character's encoding announces its length, and the sequence decodes back to it. */
  lemma Utf8CharDecodes(c: char)
    ensures Utf8SequenceLength(Utf8Char(c)[0]) == |Utf8Char(c)|
    ensures Utf8DecodeSequence(Utf8Char(c)) == c as int
  {
    var x := c as int;
    if x < 0x80 {
    } else if x < 0x800 {
      assert x == (x / 64) * 64 + x % 64;
    } else if x < 0x10000 {
      assert x / 64 == (x / 4096) * 64 + (x / 64) % 64;
      assert x == (x / 64) * 64 + x % 64;
    } else {
      assert x / 4096 == (x / 262144) * 64 + (x / 4096) % 64;
      assert x / 64 == (x / 4096) * 64 + (x / 64) % 64;
      assert x == (x / 64) * 64 + x % 64;
    }
  }

  /** Decoding the UTF-8 encoding of a string gives the string back. */
  lemma {:induction false} Utf8RoundTrip(s: string)
    ensures Utf8Decode(Utf8(s)) == Some(s)
  {
    if s != [] {
      var head := Utf8Char(s[0]);
      var bs := Utf8(s);
      assert bs == head + Utf8(s[1..]);
      Utf8CharDecodes(s[0]);
      assert bs[0] == head[0];
      assert bs[..|head|] == head;
      assert bs[|head|..] == Utf8(s[1..]);
      Utf8RoundTrip(s[1..]);
      assert [s[0]] + s[1..] == s;
    }
  }

  // ---------------------------------------------------------------------------
  // The serializer
  // ---------------------------------------------------------------------------

  /** `%XX` for each byte. */
  function PercentBytes(bs: seq<Byte>): (r: string)
    ensures |r| == 3 * |bs|
  {
    if bs == [] then []
    else ['%', HexDigit(bs[0] / 16), HexDigit(bs[0] % 16)] + PercentBytes(bs[1..])
  }

  /** Percent-encoded bytes are made of `%` and upper-case hexadecimal digits only. */
  lemma {:induction false} PercentBytesAlphabet(bs: seq<Byte>)
    ensures forall i :: 0 <= i < |PercentBytes(bs)| ==> PercentBytes(bs)[i] == '%' || IsUpperHexDigit(PercentBytes(bs)[i])
  {
    if bs != [] {
      PercentBytesAlphabet(bs[1..]);
      var head := ['%', HexDigit(bs[0] / 16), HexDigit(bs[0] % 16)];
      assert PercentBytes(bs) == head + PercentBytes(bs[1..]);
    }
  }

  /** The encoding of one character. */
  function EncodeChar(c: char): string {
    if Unreserved(c) then [c]
    else if c == ' ' then "+"
    else PercentBytes(Utf8Char(c))
  }

  /** The encoding of a character uses the encoded alphabet only. */
  lemma EncodeCharAlphabet(c: char)
    ensures forall i :: 0 <= i < |EncodeChar(c)| ==> EncodedAlphabet(EncodeChar(c)[i])
  {
    if !Unreserved(c) && c != ' ' {
      PercentBytesAlphabet(Utf8Char(c));
    }
  }

  /** Python's `quote_plus(s)` with no extra safe characters. */
  function FormEncode(s: string): (r: string)
    ensures |r| >= |s|
  {
    if s == [] then [] else EncodeChar(s[0]) + FormEncode(s[1..])
  }

  /** The serializer's output uses only unreserved characters, `+`, `%` and upper-case hexadecimal digits. */
  lemma {:induction false} FormEncodeAlphabet(s: string)
    ensures forall i :: 0 <= i < |FormEncode(s)| ==> EncodedAlphabet(FormEncode(s)[i])
  {
    if s != [] {
      EncodeCharAlphabet(s[0]);
      FormEncodeAlphabet(s[1..]);
      assert FormEncode(s) == EncodeChar(s[0]) + FormEncode(s[1..]);
    }
  }

  /** `urlencode({"next": value})`: the query string carried by the gate's redirect. */
  function NextQuery(value: string): (q: string)
    ensures |q| >= 5 && q[..5] == "next=" && FormDecode(q[5..]) == Some(value)
  {
    FormRoundTrip(value);
    assert ("next=" + FormEncode(value))[5..] == FormEncode(value);
    "next=" + FormEncode(value)
  }

  // ---------------------------------------------------------------------------
  // The decoder: the serializer's inverse
  // ---------------------------------------------------------------------------

  /**
   * Decodes form-encoded text to bytes: `+` is a space, `%` must be followed
   * by two hexadecimal digits, any other character stands for its UTF-8 bytes.
   */
  function FormDecodeBytes(s: string): Option<seq<Byte>>
    decreases |s|
  {
    if s == [] then Some([])
    else
      var head: Option<seq<Byte>> :=
        if s[0] == '+' then Some([0x20])
        else if s[0] == '%' then
          if |s| >= 3 && IsHexDigit(s[1]) && IsHexDigit(s[2])
          then Some([HexValue(s[1]) * 16 + HexValue(s[2])]) else None
        else Some(Utf8Char(s[0]));
      var used := if s[0] == '%' then 3 else 1;
      if head.None? || |s| < used then None
      else match FormDecodeBytes(s[used..])
        case None => None
        case Some(rest) => Some(head.value + rest)
  }

  /** Decodes form-encoded text back to the text it encodes. */
  function FormDecode(s: string): Option<string> {
    match FormDecodeBytes(s)
    case None => None
    case Some(bs) => Utf8Decode(bs)
  }

  /** The decoding of some text with the given bytes in front, if the text decodes. */
  function PrependBytes(bs: seq<Byte>, decoded: Option<seq<Byte>>): (r: Option<seq<Byte>>)
    ensures r.Some? <==> decoded.Some?
  {
    match decoded
    case None => None
    case Some(rest) => Some(bs + rest)
  }

  lemma PrependBytesTwice(a: seq<Byte>, b: seq<Byte>, decoded: Option<seq<Byte>>)
    ensures PrependBytes(a, PrependBytes(b, decoded)) == PrependBytes(a + b, decoded)
  {
    if decoded.Some? {
      assert a + (b + decoded.value) == (a + b) + decoded.value;
    }
  }

  /** One percent-encoded byte in front of any text decodes to that byte in front of its decoding. */
  lemma DecodePercentByte(b: Byte, tail: string)
    ensures FormDecodeBytes(['%', HexDigit(b / 16), HexDigit(b % 16)] + tail) == PrependBytes([b], FormDecodeBytes(tail))
  {
    HexDigitRoundTrip(b / 16);
    HexDigitRoundTrip(b % 16);
    var s := ['%', HexDigit(b / 16), HexDigit(b % 16)] + tail;
    assert s[0] == '%' && s[1] == HexDigit(b / 16) && s[2] == HexDigit(b % 16);
    assert HexValue(s[1]) * 16 + HexValue(s[2]) == b;
    assert s[3..] == tail;
  }

  lemma {:induction false} DecodePercentBytes(bs: seq<Byte>, rest: string)
    ensures FormDecodeBytes(PercentBytes(bs) + rest) == PrependBytes(bs, FormDecodeBytes(rest))
  {
    if bs == [] {
      assert PercentBytes(bs) + rest == rest;
      if FormDecodeBytes(rest).Some? {
        assert bs + FormDecodeBytes(rest).value == FormDecodeBytes(rest).value;
      }
    } else {
      var b := bs[0];
      var tail := PercentBytes(bs[1..]) + rest;
      assert PercentBytes(bs) + rest == ['%', HexDigit(b / 16), HexDigit(b % 16)] + tail;
      DecodePercentByte(b, tail);
      DecodePercentBytes(bs[1..], rest);
      PrependBytesTwice([b], bs[1..], FormDecodeBytes(rest));
      assert [b] + bs[1..] == bs;
    }
  }

  lemma DecodeEncodedChar(c: char, rest: string)
    ensures FormDecodeBytes(EncodeChar(c) + rest) == PrependBytes(Utf8Char(c), FormDecodeBytes(rest))
  {
    if Unreserved(c) || c == ' ' {
      var s := EncodeChar(c) + rest;
      assert s[0] == (if c == ' ' then '+' else c) && s[1..] == rest;
    } else {
      DecodePercentBytes(Utf8Char(c), rest);
    }
  }

  /** Decoding the serializer's output gives back the UTF-8 bytes of its input. */
  lemma {:induction false} FormBytesRoundTrip(s: string)
    ensures FormDecodeBytes(FormEncode(s)) == Some(Utf8(s))
  {
    if s != [] {
      DecodeEncodedChar(s[0], FormEncode(s[1..]));
      FormBytesRoundTrip(s[1..]);
    }
  }

  /** Decoding the serializer's output gives back its input. */
  lemma FormRoundTrip(s: string)
    ensures FormDecode(FormEncode(s)) == Some(s)
  {
    FormBytesRoundTrip(s);
    Utf8RoundTrip(s);
  }

  /** A string made only of unreserved characters is left as it is. */
  lemma {:induction false} UnreservedUnchanged(s: string)
    requires forall i :: 0 <= i < |s| ==> Unreserved(s[i])
    ensures FormEncode(s) == s
  {
    if s != [] {
      UnreservedUnchanged(s[1..]);
      assert [s[0]] + s[1..] == s;
    }
  }

  /** A character outside the unreserved set never appears bare in the output. */
  lemma ReservedNeverBare(s: string, c: char)
    requires !EncodedAlphabet(c)
    ensures c !in FormEncode(s)
  {
    FormEncodeAlphabet(s);
  }

  /** The serializer works character by character, so it distributes over concatenation. */
  lemma {:induction false} FormEncodeAppend(a: string, b: string)
    ensures FormEncode(a + b) == FormEncode(a) + FormEncode(b)
  {
    if a == [] {
      assert a + b == b;
    } else {
      assert (a + b)[0] == a[0] && (a + b)[1..] == a[1..] + b;
      FormEncodeAppend(a[1..], b);
      calc {
        FormEncode(a + b);
        EncodeChar(a[0]) + FormEncode(a[1..] + b);
        EncodeChar(a[0]) + (FormEncode(a[1..]) + FormEncode(b));
        (EncodeChar(a[0]) + FormEncode(a[1..])) + FormEncode(b);
      }
    }
  }

  lemma EncodeOne(c: char)
    ensures FormEncode([c]) == EncodeChar(c)
  {
    assert [c][1..] == [];
  }

  lemma EncodeSlash()
    ensures FormEncode("/") == "%2F"
  {
    EncodeOne('/');
    assert Utf8Char('/') == [0x2F];
  }

  lemma EncodeQuestionMark()
    ensures FormEncode("?") == "%3F"
  {
    EncodeOne('?');
    assert Utf8Char('?') == [0x3F];
  }

  lemma EncodeEquals()
    ensures FormEncode("=") == "%3D"
  {
    EncodeOne('=');
    assert Utf8Char('=') == [0x3D];
  }

  /** A run of unreserved characters between two copies of a string keeps its characters. */
  lemma EncodeEnclosed(c: string, e: string, w: string)
    requires FormEncode(c) == e
    requires forall i :: 0 <= i < |w| ==> Unreserved(w[i])
    ensures FormEncode(c + w + c) == e + w + e
  {
    UnreservedUnchanged(w);
    FormEncodeAppend(c, w);
    FormEncodeAppend(c + w, c);
  }

  /** A path segment between two slashes keeps its unreserved characters; the slashes are escaped. */
  lemma EncodeBetweenSlashes(w: string)
    requires forall i :: 0 <= i < |w| ==> Unreserved(w[i])
    ensures FormEncode("/" + w + "/") == "%2F" + w + "%2F"
  {
    EncodeSlash();
    EncodeEnclosed("/", "%2F", w);
  }

  lemma EncodeAssignment(k: string, v: string)
    requires forall i :: 0 <= i < |k| ==> Unreserved(k[i])
    requires forall i :: 0 <= i < |v| ==> Unreserved(v[i])
    ensures FormEncode(k + ("=" + v)) == k + ("%3D" + v)
  {
    EncodeEquals();
    UnreservedUnchanged(v);
    UnreservedUnchanged(k);
    FormEncodeAppend("=", v);
    FormEncodeAppend(k, "=" + v);
  }

  lemma EncodeQueryPart(k: string, v: string)
    requires forall i :: 0 <= i < |k| ==> Unreserved(k[i])
    requires forall i :: 0 <= i < |v| ==> Unreserved(v[i])
    ensures FormEncode("?" + (k + ("=" + v))) == "%3F" + (k + ("%3D" + v))
  {
    EncodeAssignment(k, v);
    EncodeQuestionMark();
    FormEncodeAppend("?", k + ("=" + v));
  }

  lemma NextQueryOfPath(w: string)
    requires forall i :: 0 <= i < |w| ==> Unreserved(w[i])
    ensures NextQuery("/" + w + "/") == "next=" + ("%2F" + w + "%2F")
  {
    EncodeBetweenSlashes(w);
  }

  /** The redirect's query for a request to `/somepath/`. */
  lemma NextQueryPathExample(path: string)
    requires path == "/somepath/"
    ensures NextQuery(path) == "next=%2Fsomepath%2F"
  {
    var w := "somepath";
    assert "/" + w + "/" == path;
    NextQueryOfPath(w);
    assert "next=" + ("%2F" + w + "%2F") == "next=%2Fsomepath%2F";
  }

  lemma NextQueryOfPathWithQuery(w: string, k: string, v: string)
    requires forall i :: 0 <= i < |w| ==> Unreserved(w[i])
    requires forall i :: 0 <= i < |k| ==> Unreserved(k[i])
    requires forall i :: 0 <= i < |v| ==> Unreserved(v[i])
    ensures NextQuery(("/" + w + "/") + ("?" + (k + ("=" + v))))
         == "next=" + (("%2F" + w + "%2F") + ("%3F" + (k + ("%3D" + v))))
  {
    EncodeBetweenSlashes(w);
    EncodeQueryPart(k, v);
    FormEncodeAppend("/" + w + "/", "?" + (k + ("=" + v)));
  }

  lemma SpellOutPathWithQuery(w: string, k: string, v: string)
    requires w == "somepath" && k == "important" && v == "param"
    ensures ("/" + w + "/") + ("?" + (k + ("=" + v))) == "/somepath/?important=param"
  {
  }

  lemma SpellOutNextQuery(w: string, k: string, v: string)
    requires w == "somepath" && k == "important" && v == "param"
    ensures "next=" + (("%2F" + w + "%2F") + ("%3F" + (k + ("%3D" + v))))
      == "next=%2Fsomepath%2F%3Fimportant%3Dparam"
  {
  }

  /** The redirect's query for a request to `/somepath/?important=param`. */
  lemma NextQueryPathAndQueryExample(fullPath: string)
    requires fullPath == "/somepath/?important=param"
    ensures NextQuery(fullPath) == "next=%2Fsomepath%2F%3Fimportant%3Dparam"
  {
    NextQueryOfPathWithQuery("somepath", "important", "param");
    SpellOutPathWithQuery("somepath", "important", "param");
    SpellOutNextQuery("somepath", "important", "param");
  }
}
