// The two pieces of text the RealWorld repositories derive: an article's
// slug from its title, and a session token from random bytes.
module RealWorldText {
  import opened GoStrings
  import opened NetUrl

  // ---------------------------------------------------------------------
  // Slugs

  /** `\s` in Go's regular expressions: [\t\n\f\r ]. */
  predicate ReSpace(c: char) {
    c == ' ' || c == '\t' || c == '\n' || c == '\U{C}' || c == '\r'
  }

  /** The characters a slug is made of. */
  predicate SlugChar(c: char) {
    'a' <= c <= 'z' || '0' <= c <= '9' || c == '-'
  }

  predicate AllSlugChars(s: string) {
    forall j :: 0 <= j < |s| ==> SlugChar(s[j])
  }

  /** Replacing `[^a-z0-9\s-]` with "": every other character is dropped. */
  function KeepSlugChars(s: string): (r: string)
    ensures forall j :: 0 <= j < |r| ==> SlugChar(r[j]) || ReSpace(r[j])
  {
    if |s| == 0 then ""
    else (if SlugChar(s[0]) || ReSpace(s[0]) then [s[0]] else "") + KeepSlugChars(s[1..])
  }

  /** Text already made of kept characters is left as it is. */
  lemma {:induction false} KeepSlugCharsIdentity(s: string)
    requires forall j :: 0 <= j < |s| ==> SlugChar(s[j]) || ReSpace(s[j])
    ensures KeepSlugChars(s) == s
  {
    if |s| > 0 {
      KeepSlugCharsIdentity(s[1..]);
    }
  }

  /** Length of the leading run of `\s` characters. */
  function SpaceRunLength(s: string): (n: nat)
    ensures n <= |s|
    ensures forall j :: 0 <= j < n ==> ReSpace(s[j])
    ensures n < |s| ==> !ReSpace(s[n])
  {
    if |s| == 0 || !ReSpace(s[0]) then 0 else 1 + SpaceRunLength(s[1..])
  }

  /** Replacing `\s+` with "-": every maximal run of white space becomes one
      dash. */
  function DashSpaces(s: string): (r: string)
    ensures forall j :: 0 <= j < |r| ==> !ReSpace(r[j])
    ensures (forall j :: 0 <= j < |s| ==> SlugChar(s[j]) || ReSpace(s[j])) ==> AllSlugChars(r)
    decreases |s|
  {
    if |s| == 0 then ""
    else if ReSpace(s[0]) then "-" + DashSpaces(s[SpaceRunLength(s)..])
    else [s[0]] + DashSpaces(s[1..])
  }

  /** Text without white space is left as it is. */
  lemma {:induction false} DashSpacesIdentity(s: string)
    requires forall j :: 0 <= j < |s| ==> !ReSpace(s[j])
    ensures DashSpaces(s) == s
  {
    if |s| > 0 {
      DashSpacesIdentity(s[1..]);
    }
  }

  /** A word, a run of white space and the rest: the run becomes one dash. */
  lemma {:induction false} DashSpacesRun(w: string, run: string, rest: string)
    requires forall j :: 0 <= j < |w| ==> !ReSpace(w[j])
    requires |run| > 0 && forall j :: 0 <= j < |run| ==> ReSpace(run[j])
    requires |rest| == 0 || !ReSpace(rest[0])
    ensures DashSpaces(w + run + rest) == w + "-" + DashSpaces(rest)
    decreases |w|
  {
    var s := w + run + rest;
    if |w| == 0 {
      assert s == run + rest && ReSpace(s[0]);
      SpaceRunAll(run, rest);
      assert s[|run|..] == rest;
      assert DashSpaces(s) == "-" + DashSpaces(rest);
    } else {
      assert s[0] == w[0] && !ReSpace(s[0]);
      assert s[1..] == w[1..] + run + rest;
      assert DashSpaces(s) == [w[0]] + DashSpaces(s[1..]);
      DashSpacesRun(w[1..], run, rest);
      assert [w[0]] + (w[1..] + "-" + DashSpaces(rest)) == w + "-" + DashSpaces(rest);
    }
  }

  lemma {:induction false} SpaceRunAll(run: string, rest: string)
    requires forall j :: 0 <= j < |run| ==> ReSpace(run[j])
    requires |rest| == 0 || !ReSpace(rest[0])
    ensures SpaceRunLength(run + rest) == |run|
    decreases |run|
  {
    if |run| > 0 {
      assert (run + rest)[1..] == run[1..] + rest;
      SpaceRunAll(run[1..], rest);
    }
  }

  /** strings.Trim(s, "-"): leading dashes, then trailing ones, go. */
  function TrimLeftDashes(s: string): (r: string)
    ensures |r| <= |s| && r == s[|s| - |r|..]
    ensures |r| > 0 ==> r[0] != '-'
    ensures forall j :: 0 <= j < |s| - |r| ==> s[j] == '-'
  {
    if |s| > 0 && s[0] == '-' then TrimLeftDashes(s[1..]) else s
  }

  function TrimRightDashes(s: string): (r: string)
    ensures |r| <= |s| && r == s[..|r|]
    ensures |r| > 0 ==> r[|r| - 1] != '-'
    ensures forall j :: |r| <= j < |s| ==> s[j] == '-'
  {
    if |s| > 0 && s[|s| - 1] == '-' then TrimRightDashes(s[..|s| - 1]) else s
  }

  function TrimDashes(s: string): string {
    TrimRightDashes(TrimLeftDashes(s))
  }

  /** The trimmed text is a middle part of the text, everything cut off is
      dashes, and it neither starts nor ends with a dash. */
  lemma TrimDashesMeaning(s: string) returns (i: nat, j: nat)
    ensures i <= j <= |s| && TrimDashes(s) == s[i..j]
    ensures forall k :: 0 <= k < i ==> s[k] == '-'
    ensures forall k :: j <= k < |s| ==> s[k] == '-'
    ensures |TrimDashes(s)| > 0 ==> TrimDashes(s)[0] != '-' && TrimDashes(s)[|TrimDashes(s)| - 1] != '-'
  {
    var left := TrimLeftDashes(s);
    var r := TrimDashes(s);
    i := |s| - |left|;
    j := i + |r|;
    assert left == s[i..];
    assert r == left[..|r|];
    if 0 < |r| {
      assert r[0] == left[0];
    }
    forall k | j <= k < |s| ensures s[k] == '-' {
      assert s[k] == left[k - i];
    }
  }

  /** generateSlug: lower-case, drop the characters outside [a-z0-9\s-],
      turn white-space runs into dashes, trim the dashes, query-escape. */
  function Slug(title: string): string {
    QueryEscape(TrimDashes(DashSpaces(KeepSlugChars(ToLower(title)))))
  }

  /** The slug is made of [a-z0-9-] only, neither starts nor ends with a
      dash, and query-escaping left it unchanged. */
  lemma SlugShape(title: string)
    ensures var slug := Slug(title);
            && slug == TrimDashes(DashSpaces(KeepSlugChars(ToLower(title))))
            && AllSlugChars(slug)
            && (|slug| > 0 ==> slug[0] != '-' && slug[|slug| - 1] != '-')
  {
    var dashed := DashSpaces(KeepSlugChars(ToLower(title)));
    var i, j := TrimDashesMeaning(dashed);
    var trimmed := TrimDashes(dashed);
    assert AllSlugChars(trimmed) by {
      forall k | 0 <= k < |trimmed| ensures SlugChar(trimmed[k]) {
        assert trimmed[k] == dashed[i + k];
      }
    }
    QueryEscapeUnreserved(trimmed);
  }

  // ---------------------------------------------------------------------
  // Session tokens

  type Byte = x: int | 0 <= x < 256

  const HexDigits := "0123456789abcdef"

  predicate IsLowerHex(c: char) {
    '0' <= c <= '9' || 'a' <= c <= 'f'
  }

  /** hex.EncodeToString: two lower-case hex digits per byte, high half
      first. */
  function EncodeToString(bytes: seq<Byte>): (s: string)
    ensures |s| == 2 * |bytes|
    ensures forall j :: 0 <= j < |s| ==> IsLowerHex(s[j])
  {
    if |bytes| == 0 then ""
    else [HexDigits[bytes[0] / 16], HexDigits[bytes[0] % 16]] + EncodeToString(bytes[1..])
  }

  function HexValue(c: char): (v: nat)
    requires IsLowerHex(c)
    ensures v < 16
  {
    if c <= '9' then c as int - '0' as int else c as int - 'a' as int + 10
  }

  /** hex.DecodeString of well-formed text. */
  function DecodeString(s: string): seq<Byte>
    requires |s| % 2 == 0
    requires forall j :: 0 <= j < |s| ==> IsLowerHex(s[j])
  {
    if |s| == 0 then []
    else [HexValue(s[0]) * 16 + HexValue(s[1])] + DecodeString(s[2..])
  }

  /** Decoding the hex text of bytes gives the bytes back. */
  lemma {:induction false} DecodeEncode(bytes: seq<Byte>)
    ensures DecodeString(EncodeToString(bytes)) == bytes
  {
    if |bytes| > 0 {
      var s := EncodeToString(bytes);
      var b := bytes[0];
      assert HexValue(HexDigits[b / 16]) == b / 16;
      assert HexValue(HexDigits[b % 16]) == b % 16;
      assert s[2..] == EncodeToString(bytes[1..]);
      DecodeEncode(bytes[1..]);
    }
  }

  /** generateToken: the hex text of 32 random bytes, so 64 lower-case hex
      digits. */
  function Token(random: seq<Byte>): (token: string)
    requires |random| == 32
    ensures |token| == 64 && forall j :: 0 <= j < 64 ==> IsLowerHex(token[j])
  {
    EncodeToString(random)
  }
}
