// The browser report of the profiling chapter: a file of JSON user records,
// one per line, is scanned; users who have used both an Android and an MSIE
// browser are listed with their e-mail disguised, and the distinct matching
// browser strings over all records are counted.
module BrowserReport {
  import opened Outcomes
  import opened GoStrings
  import opened GoStrconv

  /** What json.Unmarshal puts into an interface{}. JSON numbers are kept as
      integers. */
  datatype Any = Null | Bool(b: bool) | Number(n: int) | Str(s: string) | List(items: seq<Any>) | Object(fields: map<string, Any>)

  /** The user map as FastSearch reads it: the three keys it looks up. A
      missing key reads as nil, the same as a JSON null, so both are Null;
      the other keys are never read. */
  datatype User = User(browsers: Any, email: Any, name: Any)

  /** One line of the users file: its length in bytes, and what
      json.Unmarshal makes of it (None when decoding fails; a "null" line
      decodes to the empty map, a User whose fields are all Null). */
  datatype Line = Line(size: nat, user: Option<User>)

  /** The scanner's buffer, which is also its longest token. */
  const BufferSize: nat := 100 * 1024

  const Targets: seq<string> := ["Android", "MSIE"]

  /** A line is scanned when it fits in the buffer with its newline. */
  predicate Fits(line: Line) {
    line.size < BufferSize
  }

  /** How many lines the scanner yields: it stops silently at the first line
      too long for the buffer, and the loop never asks for its error. */
  function Scanned(lines: seq<Line>): (k: nat)
    ensures k <= |lines|
    ensures forall j :: 0 <= j < k ==> Fits(lines[j])
    ensures k < |lines| ==> !Fits(lines[k])
  {
    if |lines| == 0 || !Fits(lines[0]) then 0 else 1 + Scanned(lines[1..])
  }

  // ---------------------------------------------------------------------
  // Browser matching

  /** The targets among `ts` that the browser string contains. */
  function HitsIn(browser: string, ts: seq<string>): set<string> {
    if |ts| == 0 then {}
    else HitsIn(browser, ts[..|ts| - 1]) + (if Contains(browser, ts[|ts| - 1]) then {ts[|ts| - 1]} else {})
  }

  function Hits(browser: string): set<string> {
    HitsIn(browser, Targets)
  }

  lemma {:induction false} HitsInMeaning(browser: string, ts: seq<string>)
    ensures forall t :: t in HitsIn(browser, ts) <==> t in ts && Contains(browser, t)
    decreases |ts|
  {
    if |ts| > 0 {
      HitsInMeaning(browser, ts[..|ts| - 1]);
      assert forall t :: t in ts <==> t in ts[..|ts| - 1] || t == ts[|ts| - 1];
    }
  }

  /** The targets some string browser of the list contains
      (matchedBrowsers' keys). Entries that are not strings are ignored. */
  function Matched(items: seq<Any>): set<string> {
    if |items| == 0 then {}
    else
      var x := items[|items| - 1];
      Matched(items[..|items| - 1]) + (if x.Str? then Hits(x.s) else {})
  }

  /** The browser strings of the list that contain a target. */
  function SeenIn(items: seq<Any>): set<string> {
    if |items| == 0 then {}
    else
      var x := items[|items| - 1];
      SeenIn(items[..|items| - 1]) + (if x.Str? && Hits(x.s) != {} then {x.s} else {})
  }

  /** Some string entry of the list contains `t`. */
  predicate Used(items: seq<Any>, t: string) {
    exists j :: 0 <= j < |items| && items[j].Str? && Contains(items[j].s, t)
  }

  /** A browser string the report counts. */
  predicate IsTarget(b: string) {
    Contains(b, "Android") || Contains(b, "MSIE")
  }

  lemma HitsMeaning(b: string)
    ensures Hits(b) != {} <==> IsTarget(b)
  {
    HitsInMeaning(b, Targets);
    if Contains(b, "Android") {
      assert "Android" in Hits(b);
    } else if Contains(b, "MSIE") {
      assert "MSIE" in Hits(b);
    }
  }

  /** A target is matched exactly when some string entry contains it. */
  lemma {:induction false} MatchedMeaning(items: seq<Any>)
    ensures forall t :: t in Matched(items) <==> t in Targets && Used(items, t)
    decreases |items|
  {
    if |items| > 0 {
      var prefix := items[..|items| - 1];
      var x := items[|items| - 1];
      MatchedMeaning(prefix);
      if x.Str? {
        HitsInMeaning(x.s, Targets);
      }
      assert forall j :: 0 <= j < |prefix| ==> prefix[j] == items[j];
    }
  }

  /** A browser is seen exactly when it is a string entry containing
      "Android" or "MSIE". */
  lemma {:induction false} SeenInMeaning(items: seq<Any>)
    ensures forall b :: b in SeenIn(items) <==> IsTarget(b) && Str(b) in items
    decreases |items|
  {
    if |items| > 0 {
      var prefix := items[..|items| - 1];
      var x := items[|items| - 1];
      SeenInMeaning(prefix);
      if x.Str? {
        HitsMeaning(x.s);
      }
      assert items == prefix + [x];
    }
  }

  /** len(matchedBrowsers) == len(targetBrowsers) holds exactly when both
      targets were matched. */
  lemma MatchedBoth(items: seq<Any>)
    ensures |Matched(items)| == |Targets| <==> "Android" in Matched(items) && "MSIE" in Matched(items)
  {
    MatchedMeaning(items);
    var m := Matched(items);
    assert m <= {"Android", "MSIE"};
    if "Android" in m && "MSIE" in m {
      assert m == {"Android", "MSIE"};
    } else if "Android" in m {
      assert m == {"Android"};
    } else if "MSIE" in m {
      assert m == {"MSIE"};
    } else {
      assert m == {};
    }
  }

  // ---------------------------------------------------------------------
  // One record

  /** A listed user: the record's index and the values of its name and
      e-mail. */
  datatype Listing = Listing(index: nat, name: Any, email: string)

  /** What a record leads to: nothing, a listed user, or a panic. */
  datatype Step = Skip | Crash | Print(listing: Listing)

  /** The browsers list of a user, if "browsers" holds a JSON array. */
  function Browsers(user: User): Option<seq<Any>> {
    if user.browsers.List? then Some(user.browsers.items) else None
  }

  /** The record at index `i`: an undecodable line panics, a user without a
      browsers array or without both targets is skipped, and a listed user
      whose e-mail is not a string panics at the type assertion. */
  function Visit(i: nat, user: Option<User>): (r: Step)
    ensures r.Print? ==> r.listing.index == i && user.Some? && user.value.email.Str?
  {
    if user.None? then Crash
    else
      var u := user.value;
      var browsers := Browsers(u);
      if browsers.None? || |Matched(browsers.value)| != |Targets| then Skip
      else if !u.email.Str? then Crash
      else Print(Listing(i, u.name, u.email.s))
  }

  /** The browsers a record adds to seenBrowsers. */
  function SeenBy(user: Option<User>): set<string> {
    if user.None? || Browsers(user.value).None? then {} else SeenIn(Browsers(user.value).value)
  }

  /** A user is listed exactly when it has a browsers array in which some
      string contains "Android" and some string contains "MSIE", and its
      e-mail is a string; the listing carries the record's own index. */
  lemma VisitListed(i: nat, user: Option<User>)
    ensures Visit(i, user).Print? <==>
              && user.Some? && Browsers(user.value).Some?
              && Used(Browsers(user.value).value, "Android") && Used(Browsers(user.value).value, "MSIE")
              && user.value.email.Str?
    ensures Visit(i, user).Print? ==> Visit(i, user).listing == Listing(i, user.value.name, user.value.email.s)
    ensures Visit(i, user).Crash? <==> user.None? || (Visit(i, user) != Skip && !user.value.email.Str?)
  {
    if user.Some? && Browsers(user.value).Some? {
      var items := Browsers(user.value).value;
      MatchedBoth(items);
      MatchedMeaning(items);
      assert "Android" in Targets && "MSIE" in Targets;
      assert |Matched(items)| == |Targets| <==> Used(items, "Android") && Used(items, "MSIE");
    }
  }

  // ---------------------------------------------------------------------
  // The printed lines

  /** %s of user["name"]: a string as it is; anything else (a missing name
      is nil) as fmt renders it, which `show` stands for. */
  function NameText(name: Any, show: Any -> string): string {
    if name.Str? then name.s else show(name)
  }

  /** The regexp "@" replaced by " [at] ". */
  function Disguise(email: string): string {
    ReplaceChar(email, '@', " [at] ")
  }

  /** "[%d] %s <%s>\n" of a listed user. */
  function LineText(l: Listing, show: Any -> string): string {
    "[" + Itoa(l.index) + "] " + NameText(l.name, show) + " <" + Disguise(l.email) + ">\n"
  }

  /** The lines of the listed users, in order. */
  function Render(listed: seq<Listing>, show: Any -> string): string {
    if |listed| == 0 then "" else Render(listed[..|listed| - 1], show) + LineText(listed[|listed| - 1], show)
  }

  lemma AppendAssociative(a: string, b: string, c: string)
    ensures a + b + c == a + (b + c)
  {
  }

  lemma RenderSnoc(listed: seq<Listing>, l: Listing, show: Any -> string)
    ensures Render(listed + [l], show) == Render(listed, show) + LineText(l, show)
  {
    assert (listed + [l])[..|listed|] == listed;
  }

  /** A line starts with the record's index and ends the line; the e-mail
      in it has no "@" left. */
  lemma LineTextMeaning(l: Listing, show: Any -> string)
    ensures HasPrefix(LineText(l, show), "[" + Itoa(l.index) + "] ")
    ensures LineText(l, show)[|LineText(l, show)| - 1] == '\n'
    ensures '@' !in Disguise(l.email)
  {
    var prefix := "[" + Itoa(l.index) + "] ";
    assert LineText(l, show) == prefix + (NameText(l.name, show) + " <" + Disguise(l.email) + ">\n");
  }

  /** Replacing "@" works piece by piece around each "@". */
  lemma {:induction false} DisguiseAround(a: string, b: string)
    requires '@' !in a
    ensures Disguise(a + "@" + b) == a + " [at] " + Disguise(b)
    decreases |a|
  {
    var s := a + "@" + b;
    if |a| == 0 {
      assert s[0] == '@' && s[1..] == b;
      assert Disguise(s) == " [at] " + Disguise(b);
      assert a + " [at] " + Disguise(b) == " [at] " + Disguise(b);
    } else {
      assert s[0] == a[0] && a[0] != '@';
      assert s[1..] == a[1..] + "@" + b;
      assert Disguise(s) == [a[0]] + Disguise(s[1..]);
      DisguiseAround(a[1..], b);
      assert a + " [at] " + Disguise(b) == [a[0]] + (a[1..] + " [at] " + Disguise(b));
    }
  }

  // ---------------------------------------------------------------------
  // The whole scan

  /** The users listed so far, whether the scan panicked, and the keys of
      seenBrowsers. */
  datatype Scan = Scan(listed: seq<Listing>, crashed: bool, seen: set<string>)

  /** The scanned lines' records in order, each with its index among all
      scanned lines; nothing after a panic. */
  function ScanUsers(lines: seq<Line>): Scan {
    if |lines| == 0 then Scan([], false, {})
    else
      var prev := ScanUsers(lines[..|lines| - 1]);
      var user := lines[|lines| - 1].user;
      if prev.crashed then prev
      else
        match Visit(|lines| - 1, user)
        case Crash => Scan(prev.listed, true, prev.seen)
        case Skip => Scan(prev.listed, false, prev.seen + SeenBy(user))
        case Print(l) => Scan(prev.listed + [l], false, prev.seen + SeenBy(user))
  }

  /** One more record after a scan without a panic: the record's listing, if
      it has one, follows the earlier ones, and its browsers join the seen
      ones. */
  lemma ScanNext(lines: seq<Line>, next: Line)
    requires !ScanUsers(lines).crashed && !Visit(|lines|, next.user).Crash?
    ensures var prev := ScanUsers(lines);
            var step := Visit(|lines|, next.user);
            ScanUsers(lines + [next]) ==
              Scan(prev.listed + (if step.Print? then [step.listing] else []), false, prev.seen + SeenBy(next.user))
  {
    var all := lines + [next];
    assert all[..|all| - 1] == lines;
    assert all[|all| - 1] == next;
    var step := Visit(|lines|, next.user);
    assert ScanUsers(all) == match step
      case Crash => Scan(ScanUsers(lines).listed, true, ScanUsers(lines).seen)
      case Skip => Scan(ScanUsers(lines).listed, false, ScanUsers(lines).seen + SeenBy(next.user))
      case Print(l) => Scan(ScanUsers(lines).listed + [l], false, ScanUsers(lines).seen + SeenBy(next.user));
  }

  /** A record that panics ends the scan with the users listed before it. */
  lemma ScanCrash(lines: seq<Line>, next: Line)
    requires !ScanUsers(lines).crashed && Visit(|lines|, next.user).Crash?
    ensures ScanUsers(lines + [next]) == ScanUsers(lines).(crashed := true)
  {
    assert (lines + [next])[..|lines|] == lines;
  }

  /** After a panic nothing more is read. */
  lemma {:induction false} CrashIsFinal(lines: seq<Line>, more: seq<Line>)
    requires ScanUsers(lines).crashed
    ensures ScanUsers(lines + more) == ScanUsers(lines)
    decreases |more|
  {
    if |more| > 0 {
      var init := more[..|more| - 1];
      CrashIsFinal(lines, init);
      assert (lines + more)[..|lines + more| - 1] == lines + init;
    } else {
      assert lines + more == lines;
    }
  }

  /** Every listing of a scan is the listing of the record at its index:
      indices count all earlier records, skipped ones included. */
  lemma {:induction false} ListedIndex(lines: seq<Line>)
    ensures forall k :: 0 <= k < |ScanUsers(lines).listed| ==>
              var l := ScanUsers(lines).listed[k];
              l.index < |lines| && Visit(l.index, lines[l.index].user) == Print(l)
    decreases |lines|
  {
    if |lines| > 0 {
      var prefix := lines[..|lines| - 1];
      ListedIndex(prefix);
      assert forall j :: 0 <= j < |prefix| ==> prefix[j] == lines[j];
    }
  }

  /** The browsers all the records add to seenBrowsers. */
  function SeenAll(lines: seq<Line>): set<string> {
    if |lines| == 0 then {} else SeenAll(lines[..|lines| - 1]) + SeenBy(lines[|lines| - 1].user)
  }

  /** A scan that did not panic has seen what every record adds. */
  lemma {:induction false} ScanSeen(lines: seq<Line>)
    requires !ScanUsers(lines).crashed
    ensures ScanUsers(lines).seen == SeenAll(lines)
    decreases |lines|
  {
    if |lines| > 0 {
      ScanSeen(lines[..|lines| - 1]);
    }
  }

  /** The record has a browsers array with the string `b` in it. */
  predicate Lists(user: Option<User>, b: string) {
    user.Some? && Browsers(user.value).Some? && Str(b) in Browsers(user.value).value
  }

  lemma SeenByMeaning(user: Option<User>)
    ensures forall b :: b in SeenBy(user) <==> IsTarget(b) && Lists(user, b)
  {
    if user.Some? && Browsers(user.value).Some? {
      SeenInMeaning(Browsers(user.value).value);
    }
  }

  /** The records together count every string entry, of every record with a
      browsers array (listed or not), that contains a target. */
  lemma {:induction false} SeenAllMeaning(lines: seq<Line>)
    ensures forall b :: b in SeenAll(lines) <==> IsTarget(b) && exists j :: 0 <= j < |lines| && Lists(lines[j].user, b)
    decreases |lines|
  {
    if |lines| > 0 {
      var prefix := lines[..|lines| - 1];
      var last := lines[|lines| - 1];
      SeenAllMeaning(prefix);
      SeenByMeaning(last.user);
      assert lines == prefix + [last];
    }
  }

  /** A scan that did not panic counts exactly those browsers. */
  lemma SeenMeaning(lines: seq<Line>)
    requires !ScanUsers(lines).crashed
    ensures forall b :: b in ScanUsers(lines).seen <==> IsTarget(b) && exists j :: 0 <= j < |lines| && Lists(lines[j].user, b)
  {
    ScanSeen(lines);
    SeenAllMeaning(lines);
  }

  // ---------------------------------------------------------------------
  // The report

  /** The report: its text, and whether FastSearch panicked. */
  datatype Report = Report(text: string, panicked: bool)

  const Header: string := "found users:\n"

  /** "\nTotal unique browsers <N>\n", as Println writes it. */
  function Footer(seen: set<string>): string {
    "\nTotal unique browsers " + Itoa(|seen|) + "\n"
  }

  /** The report begins with the header and the listed users' lines; unless
      a record panics it ends with the number of distinct matching
      browsers. */
  function Search(lines: seq<Line>, show: Any -> string): (r: Report)
    ensures HasPrefix(r.text, Header)
    ensures var s := ScanUsers(lines[..Scanned(lines)]);
            && r.panicked == s.crashed
            && (r.panicked ==> r.text == Header + Render(s.listed, show))
            && (!r.panicked ==> r.text == Header + Render(s.listed, show) + Footer(s.seen))
  {
    var s := ScanUsers(lines[..Scanned(lines)]);
    Report(Header + Render(s.listed, show) + (if s.crashed then "" else Footer(s.seen)), s.crashed)
  }

  /** Nothing after the first too-long line is read: such a line ends the
      report as if the file ended there. */
  lemma ScannerStops(lines: seq<Line>, long: Line, more: seq<Line>, show: Any -> string)
    requires forall j :: 0 <= j < |lines| ==> Fits(lines[j])
    requires !Fits(long)
    ensures Search(lines + [long] + more, show) == Search(lines, show)
  {
    ScannedPrefix(lines, [long] + more);
    assert lines + [long] + more == lines + ([long] + more);
    assert (lines + [long] + more)[..|lines|] == lines;
    ScannedAll(lines);
  }

  lemma {:induction false} ScannedPrefix(lines: seq<Line>, rest: seq<Line>)
    requires forall j :: 0 <= j < |lines| ==> Fits(lines[j])
    requires |rest| > 0 && !Fits(rest[0])
    ensures Scanned(lines + rest) == |lines|
    decreases |lines|
  {
    if |lines| > 0 {
      assert (lines + rest)[1..] == lines[1..] + rest;
      ScannedPrefix(lines[1..], rest);
    } else {
      assert lines + rest == rest;
    }
  }

  lemma {:induction false} ScannedAll(lines: seq<Line>)
    requires forall j :: 0 <= j < |lines| ==> Fits(lines[j])
    ensures Scanned(lines) == |lines| && lines[..Scanned(lines)] == lines
    decreases |lines|
  {
    if |lines| > 0 {
      ScannedAll(lines[1..]);
    }
  }

  /** A line that fits, reached by the scan, is scanned. */
  lemma ScannedOn(lines: seq<Line>, i: nat)
    requires i <= Scanned(lines) && i < |lines| && Fits(lines[i])
    ensures i < Scanned(lines)
  {
  }

  /** The scan stops at the end of the file or at the first line that does
      not fit, whichever comes first. */
  lemma ScannedOff(lines: seq<Line>, i: nat)
    requires i <= Scanned(lines) && (i == |lines| || !Fits(lines[i]))
    ensures i == Scanned(lines)
  {
  }

  // ---------------------------------------------------------------------
  // FastSearch

  /** The matching loops for one record: every string entry against every
      target, filling the record's matchedBrowsers and the shared
      seenBrowsers. */
  method MatchBrowsers(browsers: seq<Any>, seenBrowsers: set<string>)
    returns (matchedBrowsers: set<string>, seen: set<string>)
    ensures matchedBrowsers == Matched(browsers)
    ensures seen == seenBrowsers + SeenIn(browsers)
  {
    matchedBrowsers := {};
    seen := seenBrowsers;
    var j := 0;
    while j < |browsers|
      invariant 0 <= j <= |browsers|
      invariant matchedBrowsers == Matched(browsers[..j])
      invariant seen == seenBrowsers + SeenIn(browsers[..j])
    {
      assert browsers[..j + 1][..j] == browsers[..j];
      var browserRaw := browsers[j];
      if !browserRaw.Str? {
        j := j + 1;
        continue;
      }
      var browser := browserRaw.s;
      var t := 0;
      ghost var matchedBefore := matchedBrowsers;
      ghost var seenBefore := seen;
      while t < |Targets|
        invariant 0 <= t <= |Targets|
        invariant matchedBrowsers == matchedBefore + HitsIn(browser, Targets[..t])
        invariant seen == seenBefore + (if HitsIn(browser, Targets[..t]) != {} then {browser} else {})
      {
        assert Targets[..t + 1][..t] == Targets[..t];
        var targetBrowser := Targets[t];
        if Contains(browser, targetBrowser) {
          matchedBrowsers := matchedBrowsers + {targetBrowser};
          seen := seen + {browser};
        }
        t := t + 1;
      }
      assert Targets[..t] == Targets;
      j := j + 1;
    }
    assert browsers[..j] == browsers;
  }

  /** The body of FastSearch's loop for the record at index `i`: the line
      it writes (if any), whether it panics, and seenBrowsers after it. */
  method VisitRecord(i: nat, user: Option<User>, seenBrowsers: set<string>, show: Any -> string)
    returns (line: string, panicked: bool, seen: set<string>)
    ensures panicked <==> Visit(i, user).Crash?
    ensures !panicked ==> seen == seenBrowsers + SeenBy(user)
    ensures !panicked ==> line == if Visit(i, user).Print? then LineText(Visit(i, user).listing, show) else ""
  {
    line, seen := "", seenBrowsers;
    if user.None? {
      return line, true, seen;
    }
    var browsers := Browsers(user.value);
    if browsers.None? {
      return line, false, seen;
    }
    var matchedBrowsers;
    matchedBrowsers, seen := MatchBrowsers(browsers.value, seenBrowsers);
    if |matchedBrowsers| != |Targets| {
      return line, false, seen;
    }
    var fields := user.value;
    if !fields.email.Str? {
      return line, true, seen;
    }
    var email := Disguise(fields.email.s);
    line := "[" + Itoa(i) + "] " + NameText(fields.name, show) + " <" + email + ">\n";
    panicked := false;
  }

  /** One record that does not panic: the text written so far grows by the
      record's line, if it has one. */
  lemma WriteNext(lines: seq<Line>, next: Line, out: string, text: string, show: Any -> string)
    requires !ScanUsers(lines).crashed && !Visit(|lines|, next.user).Crash?
    requires out == Header + Render(ScanUsers(lines).listed, show)
    requires text == if Visit(|lines|, next.user).Print? then LineText(Visit(|lines|, next.user).listing, show) else ""
    ensures !ScanUsers(lines + [next]).crashed
    ensures out + text == Header + Render(ScanUsers(lines + [next]).listed, show)
    ensures ScanUsers(lines + [next]).seen == ScanUsers(lines).seen + SeenBy(next.user)
  {
    ScanNext(lines, next);
    var listed := ScanUsers(lines).listed;
    var after := ScanUsers(lines + [next]);
    if Visit(|lines|, next.user).Print? {
      assert after.listed == listed + [Visit(|lines|, next.user).listing];
      RenderSnoc(listed, Visit(|lines|, next.user).listing, show);
    } else {
      assert after.listed == listed + [] == listed;
    }
    AppendAssociative(Header, Render(listed, show), text);
  }

  /** A record that panics ends the scan of all the lines after it. */
  lemma {:induction false} CrashAt(lines: seq<Line>, i: nat)
    requires i < |lines|
    requires !ScanUsers(lines[..i]).crashed && Visit(i, lines[i].user).Crash?
    ensures ScanUsers(lines) == ScanUsers(lines[..i]).(crashed := true)
    decreases |lines|
  {
    if |lines| == i + 1 {
      var pre := lines[..i];
      assert |pre| == i && lines == pre + [lines[i]];
      ScanCrash(pre, lines[i]);
    } else {
      var init := lines[..|lines| - 1];
      assert init[..i] == lines[..i] && init[i] == lines[i];
      CrashAt(init, i);
      assert ScanUsers(init).crashed;
      assert ScanUsers(lines) == ScanUsers(init);
    }
  }

  /** The same, for the lines the scanner reads. */
  lemma CrashScan(lines: seq<Line>, i: nat)
    requires i < Scanned(lines)
    requires !ScanUsers(lines[..i]).crashed && Visit(i, lines[i].user).Crash?
    ensures ScanUsers(lines[..Scanned(lines)]) == ScanUsers(lines[..i]).(crashed := true)
  {
    var scanned := lines[..Scanned(lines)];
    assert scanned[..i] == lines[..i] && scanned[i] == lines[i];
    CrashAt(scanned, i);
  }

  /** WriteNext for the record at index `i` of the file. */
  lemma WriteAt(lines: seq<Line>, i: nat, out: string, text: string, show: Any -> string)
    requires i < |lines|
    requires !ScanUsers(lines[..i]).crashed && !Visit(i, lines[i].user).Crash?
    requires out == Header + Render(ScanUsers(lines[..i]).listed, show)
    requires text == if Visit(i, lines[i].user).Print? then LineText(Visit(i, lines[i].user).listing, show) else ""
    ensures !ScanUsers(lines[..i + 1]).crashed
    ensures out + text == Header + Render(ScanUsers(lines[..i + 1]).listed, show)
    ensures ScanUsers(lines[..i + 1]).seen == ScanUsers(lines[..i]).seen + SeenBy(lines[i].user)
  {
    var pre, next := lines[..i], lines[i];
    assert |pre| == i;
    WriteNext(pre, next, out, text, show);
    assert lines[..i + 1] == pre + [next];
  }

  /** A record that panics ends the report with the lines before it. */
  lemma PanicReport(lines: seq<Line>, i: nat, show: Any -> string)
    requires i < Scanned(lines)
    requires !ScanUsers(lines[..i]).crashed && Visit(i, lines[i].user).Crash?
    ensures Search(lines, show) == Report(Header + Render(ScanUsers(lines[..i]).listed, show), true)
  {
    CrashScan(lines, i);
  }

  /** Once every scanned record is through, the footer completes the
      report. */
  lemma FinalReport(lines: seq<Line>, out: string, seen: set<string>, show: Any -> string)
    requires !ScanUsers(lines[..Scanned(lines)]).crashed
    requires out == Header + Render(ScanUsers(lines[..Scanned(lines)]).listed, show)
    requires seen == ScanUsers(lines[..Scanned(lines)]).seen
    ensures Search(lines, show) == Report(out + Footer(seen), false)
  {
  }

  /** FastSearch over the lines of the file; `show` is fmt's rendering of a
      name that is not a string. The text is what was written to `out`
      before returning or panicking. */
  method FastSearch(lines: seq<Line>, show: Any -> string) returns (out: string, panicked: bool)
    ensures Report(out, panicked) == Search(lines, show)
  {
    var seenBrowsers: set<string> := {};
    out := "found users:\n";
    var i := 0;
    while i < |lines| && Fits(lines[i])
      invariant 0 <= i <= Scanned(lines)
      invariant !ScanUsers(lines[..i]).crashed
      invariant out == Header + Render(ScanUsers(lines[..i]).listed, show)
      invariant seenBrowsers == ScanUsers(lines[..i]).seen
    {
      ScannedOn(lines, i);
      var line, crashed;
      line, crashed, seenBrowsers := VisitRecord(i, lines[i].user, seenBrowsers, show);
      if crashed {
        PanicReport(lines, i, show);
        return out, true;
      }
      WriteAt(lines, i, out, line, show);
      out := out + line;
      i := i + 1;
    }
    ScannedOff(lines, i);
    FinalReport(lines, out, seenBrowsers, show);
    out := out + Footer(seenBrowsers);
    panicked := false;
  }
}
