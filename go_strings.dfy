// The pieces of Go's `strings` package that the exercises use, on
// `seq<char>`. Go strings are byte strings holding UTF-8; the model treats one
// `char` as one unit, and where Go's `len` of a string matters it measures
// the string with ByteLen, the length of its UTF-8 encoding.
module GoStrings {

  /** strings.HasPrefix */
  predicate HasPrefix(s: string, p: string) {
    |p| <= |s| && s[..|p|] == p
  }

  /** A string with a prefix has it; what follows is the rest. */
  lemma PrefixOfConcat(p: string, rest: string)
    ensures HasPrefix(p + rest, p) && (p + rest)[|p|..] == rest
  {
    assert (p + rest)[..|p|] == p;
  }

  /** A string with a prefix agrees with it position by position. */
  lemma PrefixChars(s: string, p: string)
    ensures HasPrefix(s, p) ==> forall i :: 0 <= i < |p| ==> s[i] == p[i]
  {
    if HasPrefix(s, p) {
      forall i | 0 <= i < |p|
        ensures s[i] == p[i]
      {
        assert s[..|p|][i] == s[i];
      }
    }
  }

  /** strings.TrimPrefix, for a string known to carry the prefix: the rest. */
  function After(s: string, p: string): (r: string)
    requires HasPrefix(s, p)
    ensures p + r == s
  {
    s[|p|..]
  }

  /** strings.Contains: `sub` occurs in `s` at some position. */
  predicate Contains(s: string, sub: string)
    decreases |s|
  {
    HasPrefix(s, sub) || (|s| > 0 && Contains(s[1..], sub))
  }

  /** Occurrence of `sub` in `s` at position `i`. */
  predicate OccursAt(s: string, sub: string, i: int) {
    0 <= i && i + |sub| <= |s| && s[i..i + |sub|] == sub
  }

  /** Contains is exactly "occurs at some position". */
  lemma {:induction false} ContainsIff(s: string, sub: string)
    ensures Contains(s, sub) <==> exists i :: OccursAt(s, sub, i)
    decreases |s|
  {
    if Contains(s, sub) {
      if HasPrefix(s, sub) {
        assert OccursAt(s, sub, 0);
      } else {
        ContainsIff(s[1..], sub);
        var i :| OccursAt(s[1..], sub, i);
        assert s[1..][i..i + |sub|] == s[i + 1..i + 1 + |sub|];
        assert OccursAt(s, sub, i + 1);
      }
    }
    if exists i :: OccursAt(s, sub, i) {
      var i :| OccursAt(s, sub, i);
      if i == 0 {
        assert HasPrefix(s, sub);
      } else {
        assert s[1..][i - 1..i - 1 + |sub|] == s[i..i + |sub|];
        assert OccursAt(s[1..], sub, i - 1);
        ContainsIff(s[1..], sub);
      }
    }
  }

  /** The empty string occurs everywhere; every string contains itself. */
  lemma ContainsTrivial(s: string)
    ensures Contains(s, "") && Contains(s, s)
  {
  }

  /** Index of the first occurrence of `c`, or |s| when there is none. */
  function IndexOf(s: string, c: char): (i: nat)
    ensures i <= |s|
    ensures i < |s| ==> s[i] == c
    ensures forall j :: 0 <= j < i ==> s[j] != c
  {
    if |s| == 0 then 0
    else if s[0] == c then 0
    else 1 + IndexOf(s[1..], c)
  }

  /** strings.Split with a one-character separator. */
  function Split(s: string, sep: char): (parts: seq<string>)
    ensures |parts| >= 1
    ensures forall k :: 0 <= k < |parts| ==> sep !in parts[k]
    decreases |s|
  {
    var i := IndexOf(s, sep);
    if i == |s| then [s] else [s[..i]] + Split(s[i + 1..], sep)
  }

  /** strings.Join */
  function Join(parts: seq<string>, sep: string): (r: string)
  {
    if |parts| == 0 then ""
    else if |parts| == 1 then parts[0]
    else parts[0] + sep + Join(parts[1..], sep)
  }

  /** Joining the pieces of a split gives the string back. */
  lemma {:induction false} JoinSplit(s: string, sep: char)
    ensures Join(Split(s, sep), [sep]) == s
    decreases |s|
  {
    var i := IndexOf(s, sep);
    if i < |s| {
      var head, tail := s[..i], s[i + 1..];
      var rest := Split(tail, sep);
      assert Split(s, sep) == [head] + rest;
      JoinSplit(tail, sep);
      JoinCons(head, rest, [sep]);
      Around(s, i);
    } else {
      assert Split(s, sep) == [s];
    }
  }

  /** A string is what comes before an index, the character there, and
      what comes after. */
  lemma Around(s: string, i: int)
    requires 0 <= i < |s|
    ensures s == s[..i] + [s[i]] + s[i + 1..]
  {
  }

  lemma JoinCons(head: string, rest: seq<string>, sep: string)
    requires |rest| >= 1
    ensures Join([head] + rest, sep) == head + sep + Join(rest, sep)
  {
    assert ([head] + rest)[1..] == rest;
  }

  /** Splitting pieces that do not contain the separator gives them back. */
  lemma {:induction false} SplitJoin(parts: seq<string>, sep: char)
    requires |parts| >= 1
    requires forall k :: 0 <= k < |parts| ==> sep !in parts[k]
    ensures Split(Join(parts, [sep]), sep) == parts
    decreases |parts|
  {
    if |parts| > 1 {
      var tail := Join(parts[1..], [sep]);
      var s := parts[0] + [sep] + tail;
      assert IndexOf(s, sep) == |parts[0]| by {
        IndexOfFirst(parts[0], sep, [sep] + tail);
        assert s == parts[0] + ([sep] + tail);
      }
      assert s[..|parts[0]|] == parts[0];
      assert s[|parts[0]| + 1..] == tail;
      assert Join(parts, [sep]) == s;
      assert Split(s, sep) == [parts[0]] + Split(tail, sep);
      SplitJoin(parts[1..], sep);
      assert parts == [parts[0]] + parts[1..];
    } else {
      IndexOfAbsent(parts[0], sep);
    }
  }

  lemma IndexOfAbsent(s: string, c: char)
    requires c !in s
    ensures IndexOf(s, c) == |s|
  {
  }

  lemma {:induction false} IndexOfFirst(a: string, c: char, b: string)
    requires c !in a && |b| > 0 && b[0] == c
    ensures IndexOf(a + b, c) == |a|
    decreases |a|
  {
    if |a| > 0 {
      assert (a + b)[1..] == a[1..] + b;
      IndexOfFirst(a[1..], c, b);
    }
  }

  /** Text up to the first separator is the first piece; the rest is split
      on its own. */
  lemma SplitFirst(a: string, sep: char, b: string)
    requires sep !in a
    ensures Split(a + [sep] + b, sep) == [a] + Split(b, sep)
  {
    var s := a + [sep] + b;
    IndexOfFirst(a, sep, [sep] + b);
    assert s == a + ([sep] + b);
    assert s[..|a|] == a;
    assert s[|a| + 1..] == b;
  }

  /** "/svc/method" has service `svc` and method `method` as pieces 1 and 2. */
  lemma SplitPath(svc: string, name: string)
    requires '/' !in svc && '/' !in name
    ensures Split("/" + svc + "/" + name, '/') == ["", svc, name]
  {
    SplitJoin(["", svc, name], '/');
    assert ["", svc, name][1..] == [svc, name];
    assert [svc, name][1..] == [name];
    assert Join([svc, name], "/") == svc + "/" + name;
    assert Join(["", svc, name], "/") == "/" + svc + "/" + name;
  }

  /** The number of bytes UTF-8 encodes a character in. */
  function RuneLen(c: char): (n: nat)
    ensures 1 <= n <= 4
    ensures n == 1 <==> c as int < 0x80
  {
    if c as int < 0x80 then 1
    else if c as int < 0x800 then 2
    else if c as int < 0x10000 then 3
    else 4
  }

  /** len of a Go string: the number of bytes of its UTF-8 encoding. */
  function ByteLen(s: string): (n: nat)
    ensures |s| <= n <= 4 * |s|
  {
    if |s| == 0 then 0 else RuneLen(s[0]) + ByteLen(s[1..])
  }

  /** The UTF-8 encoding of a character: one lead byte, then continuation
      bytes 10xxxxxx carrying six bits each. */
  function Utf8(c: char): (bs: seq<int>)
    ensures |bs| == RuneLen(c)
    ensures forall j :: 0 <= j < |bs| ==> 0 <= bs[j] < 256
    ensures c as int < 0x80 ==> bs == [c as int]
  {
    var n := c as int;
    if n < 0x80 then [n]
    else if n < 0x800 then [0xC0 + n / 0x40, 0x80 + n % 0x40]
    else if n < 0x10000 then [0xE0 + n / 0x1000, 0x80 + n / 0x40 % 0x40, 0x80 + n % 0x40]
    else [0xF0 + n / 0x40000, 0x80 + n / 0x1000 % 0x40, 0x80 + n / 0x40 % 0x40, 0x80 + n % 0x40]
  }

  predicate IsAscii(s: string) {
    forall j :: 0 <= j < |s| ==> s[j] as int < 0x80
  }

  /** A string is as long in bytes as in characters exactly when it is ASCII. */
  lemma {:induction false} ByteLenAscii(s: string)
    ensures ByteLen(s) == |s| <==> IsAscii(s)
    decreases |s|
  {
    if |s| > 0 {
      ByteLenAscii(s[1..]);
      assert forall j :: 1 <= j < |s| ==> s[1..][j - 1] == s[j];
      if IsAscii(s) {
        assert IsAscii(s[1..]);
      }
    }
  }

  /** Characters from U+0080 to U+07FF (Latin accents, Greek, Cyrillic, ...)
      take two bytes each. */
  lemma {:induction false} ByteLenTwoByte(s: string)
    requires forall j :: 0 <= j < |s| ==> 0x80 <= s[j] as int < 0x800
    ensures ByteLen(s) == 2 * |s|
    decreases |s|
  {
    if |s| > 0 {
      assert forall j :: 0 <= j < |s[1..]| ==> s[1..][j] == s[j + 1];
      ByteLenTwoByte(s[1..]);
    }
  }

  /** unicode.IsSpace: the ASCII white space, U+0085 and U+00A0, and the
      other characters of Unicode's White_Space property. */
  predicate IsSpace(c: char) {
    c == ' ' || c == '\t' || c == '\n' || c == '\r' || c == '\U{B}' || c == '\U{C}'
    || c == '\U{85}' || c == '\U{A0}' || c == '\U{1680}' || '\U{2000}' <= c <= '\U{200A}'
    || c == '\U{2028}' || c == '\U{2029}' || c == '\U{202F}' || c == '\U{205F}' || c == '\U{3000}'
  }

  /** Length of the leading run of white space. */
  function SpaceRun(s: string): (n: nat)
    ensures n <= |s|
    ensures forall j :: 0 <= j < n ==> IsSpace(s[j])
    ensures n < |s| ==> !IsSpace(s[n])
  {
    if |s| == 0 || !IsSpace(s[0]) then 0 else 1 + SpaceRun(s[1..])
  }

  /** Length of the leading run of non-space characters. */
  function WordRun(s: string): (n: nat)
    ensures n <= |s|
    ensures forall j :: 0 <= j < n ==> !IsSpace(s[j])
    ensures n < |s| ==> IsSpace(s[n])
  {
    if |s| == 0 || IsSpace(s[0]) then 0 else 1 + WordRun(s[1..])
  }

  /** strings.Fields: the maximal runs of non-space characters, in order. */
  function Fields(s: string): (words: seq<string>)
    ensures forall k :: 0 <= k < |words| ==> |words[k]| > 0
    ensures forall k, j :: 0 <= k < |words| && 0 <= j < |words[k]| ==> !IsSpace(words[k][j])
    decreases |s|
  {
    var lead := SpaceRun(s);
    if lead == |s| then []
    else
      var rest := s[lead..];
      var w := WordRun(rest);
      var word, more := rest[..w], Fields(rest[w..]);
      WordsCons(word, more);
      [word] + more
  }

  lemma WordsCons(word: string, more: seq<string>)
    requires |word| > 0 && forall j :: 0 <= j < |word| ==> !IsSpace(word[j])
    requires forall k :: 0 <= k < |more| ==> |more[k]| > 0
    requires forall k, j :: 0 <= k < |more| && 0 <= j < |more[k]| ==> !IsSpace(more[k][j])
    ensures forall k :: 0 <= k < |[word] + more| ==> |([word] + more)[k]| > 0
    ensures forall k, j :: 0 <= k < |[word] + more| && 0 <= j < |([word] + more)[k]| ==> !IsSpace(([word] + more)[k][j])
  {
    forall k | 0 <= k < |[word] + more|
      ensures ([word] + more)[k] == if k == 0 then word else more[k - 1]
    {
    }
  }

  predicate AllSpace(s: string) {
    forall j :: 0 <= j < |s| ==> IsSpace(s[j])
  }

  /** A string has no fields exactly when it is all white space. */
  lemma FieldsEmpty(s: string)
    ensures Fields(s) == [] <==> AllSpace(s)
  {
    var lead := SpaceRun(s);
    if lead < |s| {
      assert !IsSpace(s[lead]);
    }
  }

  /** Fields of words joined by single spaces are the words themselves. */
  lemma {:induction false} FieldsJoin(words: seq<string>)
    requires forall k :: 0 <= k < |words| ==> |words[k]| > 0
    requires forall k, j :: 0 <= k < |words| && 0 <= j < |words[k]| ==> !IsSpace(words[k][j])
    ensures Fields(Join(words, " ")) == words
    decreases |words|
  {
    if |words| == 1 {
      WordRunAll(words[0], "");
      assert words[0] + "" == words[0];
    } else if |words| > 1 {
      var tail := Join(words[1..], " ");
      var s := words[0] + " " + tail;
      assert SpaceRun(s) == 0;
      WordRunAll(words[0], " " + tail);
      assert s == words[0] + (" " + tail);
      assert s[|words[0]|..] == " " + tail;
      FieldsJoin(words[1..]);
      FieldsSkipSpace(tail);
    }
  }

  lemma {:induction false} WordRunAll(w: string, rest: string)
    requires forall j :: 0 <= j < |w| ==> !IsSpace(w[j])
    requires |rest| == 0 || IsSpace(rest[0])
    ensures WordRun(w + rest) == |w|
    decreases |w|
  {
    if |w| > 0 {
      assert (w + rest)[1..] == w[1..] + rest;
      WordRunAll(w[1..], rest);
    }
  }

  /** A leading space does not change the fields. */
  lemma FieldsSkipSpace(t: string)
    ensures Fields(" " + t) == Fields(t)
  {
    assert (" " + t)[1..] == t;
    assert SpaceRun(" " + t) == 1 + SpaceRun(t);
    assert (" " + t)[SpaceRun(" " + t)..] == t[SpaceRun(t)..];
  }

  /** A trailing no-break space (U+00A0) is white space too, so it does not
      stick to the word before it. */
  lemma FieldsTrailingNoBreakSpace(w: string)
    requires |w| > 0 && forall j :: 0 <= j < |w| ==> !IsSpace(w[j])
    ensures Fields(w + "\U{A0}") == [w]
  {
    var s := w + "\U{A0}";
    assert !IsSpace(s[0]);
    WordRunAll(w, "\U{A0}");
    assert s[..|w|] == w;
    assert s[|w|..] == "\U{A0}";
    assert SpaceRun("\U{A0}") == 1;
  }

  /** strings.ReplaceAll for a one-character pattern. */
  function ReplaceChar(s: string, c: char, repl: string): (r: string)
    ensures c !in repl ==> c !in r
    ensures c !in s ==> r == s
  {
    if |s| == 0 then ""
    else (if s[0] == c then repl else [s[0]]) + ReplaceChar(s[1..], c, repl)
  }

  /** unicode.ToLower for the capitals of ASCII, Latin-1, Greek and
      Cyrillic, and for the Kelvin, Ohm and Angstrom signs; any other
      character is kept. */
  function LowerChar(c: char): (l: char)
    ensures c as int < 0x80 ==> l as int < 0x80
    ensures !('A' <= l <= 'Z')
  {
    var n := c as int;
    if 'A' <= c <= 'Z' then (n + 0x20) as char
    else if 0xC0 <= n <= 0xDE && n != 0xD7 then (n + 0x20) as char
    else if 0x391 <= n <= 0x3A9 && n != 0x3A2 then (n + 0x20) as char
    else if 0x400 <= n <= 0x40F then (n + 0x50) as char
    else if 0x410 <= n <= 0x42F then (n + 0x20) as char
    else if c == '\U{212A}' then 'k'
    else if c == '\U{2126}' then '\U{3C9}'
    else if c == '\U{212B}' then '\U{E5}'
    else c
  }

  function ToLower(s: string): (r: string)
    ensures |r| == |s|
    ensures forall j :: 0 <= j < |s| ==> r[j] == LowerChar(s[j])
  {
    if |s| == 0 then "" else [LowerChar(s[0])] + ToLower(s[1..])
  }

  /** Lower-casing twice is lower-casing once. */
  lemma ToLowerIdempotent(s: string)
    ensures ToLower(ToLower(s)) == ToLower(s)
  {
    var l := ToLower(s);
    forall j | 0 <= j < |s|
      ensures ToLower(l)[j] == l[j]
    {
      LowerCharIdempotent(s[j]);
    }
  }

  lemma LowerCharIdempotent(c: char)
    ensures LowerChar(LowerChar(c)) == LowerChar(c)
  {
  }

  /** Cyrillic capitals and the Kelvin sign are lowered. */
  lemma ToLowerSample()
    ensures ToLower("Имя") == "имя"
    ensures ToLower("\U{212A}B") == "kb"
  {
  }
}
