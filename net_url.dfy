// url.Values and http.Header: every key with its list of values; and the
// query escaping url.Values.Encode and url.QueryEscape apply.
module NetUrl {
  import opened GoStrings

  type Values = map<string, seq<string>>

  /** Values.Get / Header.Get: the first value of the key, "" when there is
      none. */
  function Get(v: Values, key: string): (r: string)
    ensures key !in v ==> r == ""
    ensures key in v && |v[key]| > 0 ==> r == v[key][0]
  {
    if key in v && |v[key]| > 0 then v[key][0] else ""
  }

  /** The characters url.QueryEscape leaves as they are. */
  predicate Unreserved(c: char) {
    'a' <= c <= 'z' || 'A' <= c <= 'Z' || '0' <= c <= '9' || c == '-' || c == '_' || c == '.' || c == '~'
  }

  const UpperHexDigits := "0123456789ABCDEF"

  /** One byte as "%" and two upper-case hex digits. */
  function EscapeByte(b: int): (r: string)
    requires 0 <= b < 256
    ensures |r| == 3 && r[0] == '%'
  {
    "%" + [UpperHexDigits[b / 16], UpperHexDigits[b % 16]]
  }

  function EscapeBytes(bs: seq<int>): (r: string)
    requires forall j :: 0 <= j < |bs| ==> 0 <= bs[j] < 256
    ensures |r| == 3 * |bs|
  {
    if |bs| == 0 then "" else EscapeByte(bs[0]) + EscapeBytes(bs[1..])
  }

  /** url.QueryEscape of one character: unreserved ones stay, a space
      becomes "+", any other is every byte of its UTF-8 encoding as "%XX". */
  function EscapeChar(c: char): (r: string)
    ensures Unreserved(c) <==> r == [c]
  {
    if Unreserved(c) then [c]
    else if c == ' ' then "+"
    else EscapeBytes(Utf8(c))
  }

  function QueryEscape(s: string): string {
    if |s| == 0 then "" else EscapeChar(s[0]) + QueryEscape(s[1..])
  }

  /** What may appear in escaped text: unreserved characters, "+" for a
      space, and "%" with upper-case hex digits. */
  predicate Escaped(c: char) {
    Unreserved(c) || c == '+' || c == '%'
  }

  lemma {:induction false} EscapeBytesEscaped(bs: seq<int>)
    requires forall j :: 0 <= j < |bs| ==> 0 <= bs[j] < 256
    ensures forall j :: 0 <= j < |EscapeBytes(bs)| ==> Escaped(EscapeBytes(bs)[j])
  {
    if |bs| > 0 {
      EscapeBytesEscaped(bs[1..]);
      var e := EscapeByte(bs[0]);
      assert forall j :: 0 <= j < |e| ==> Escaped(e[j]);
    }
  }

  /** Escaped text holds no "&", "=" or space, so the pairs of an encoded
      query stay apart. */
  lemma {:induction false} QueryEscapeEscaped(s: string)
    ensures forall j :: 0 <= j < |QueryEscape(s)| ==> Escaped(QueryEscape(s)[j])
  {
    if |s| > 0 {
      QueryEscapeEscaped(s[1..]);
      if !Unreserved(s[0]) && s[0] != ' ' {
        EscapeBytesEscaped(Utf8(s[0]));
      }
      var e, rest := EscapeChar(s[0]), QueryEscape(s[1..]);
      assert QueryEscape(s) == e + rest;
      assert forall j :: 0 <= j < |e| ==> Escaped(e[j]);
    }
  }

  /** Escaping text made of unreserved characters changes nothing. */
  lemma {:induction false} QueryEscapeUnreserved(s: string)
    requires forall j :: 0 <= j < |s| ==> Unreserved(s[j])
    ensures QueryEscape(s) == s
  {
    if |s| > 0 {
      QueryEscapeUnreserved(s[1..]);
      assert s == [s[0]] + s[1..];
    }
  }

  /** A space and an ampersand, escaped. */
  lemma QueryEscapeSample()
    ensures QueryEscape("a b&c") == "a+b%26c"
  {
    assert QueryEscape("c") == "c";
    assert QueryEscape("&c") == "%26" + "c";
  }

  /** A two-byte character becomes the escapes of both its bytes. */
  lemma QueryEscapeTwoByte()
    ensures QueryEscape("я") == "%D1%8F"
  {
    assert Utf8('я') == [0xD1, 0x8F];
    assert EscapeByte(0xD1) == "%D1";
    assert EscapeByte(0x8F) == "%8F";
    assert QueryEscape("я") == EscapeBytes([0xD1, 0x8F]);
  }
}
