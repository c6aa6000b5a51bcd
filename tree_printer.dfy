// The directory-tree printer: a stack of pending entries is popped one at a
// time; a directory pushes its sorted children in front of the rest, and
// each entry but the root prints one line with the tree drawn before it.
// The file system is given as a tree of nodes; the two ways the walk can
// fail (a path that cannot be stat'ed, a directory that cannot be opened)
// are nodes of their own.
module TreePrinter {
  import opened Outcomes
  import opened GoStrings
  import opened GoStrconv
  import opened Slices

  /** What os.Lstat and ReadDir tell about a path: a directory (and whether
      it can be opened), a regular file with its size, anything else
      (a link, a device), or a path that cannot be stat'ed. */
  datatype Node =
    | Dir(name: string, children: seq<Node>, readable: bool)
    | File(name: string, size: nat)
    | Special(name: string)
    | Missing(name: string)

  /** The number of nodes in a tree. */
  function Size(n: Node): nat
    decreases n
  {
    match n
    case Dir(_, children, _) => 1 + TotalSize(children)
    case _ => 1
  }

  function TotalSize(ns: seq<Node>): nat
    decreases ns
  {
    if |ns| == 0 then 0 else Size(ns[0]) + TotalSize(ns[1..])
  }

  lemma {:induction false} TotalSizeAppend(a: seq<Node>, b: seq<Node>)
    ensures TotalSize(a + b) == TotalSize(a) + TotalSize(b)
    decreases |a|
  {
    if |a| > 0 {
      assert (a + b)[1..] == a[1..] + b;
      TotalSizeAppend(a[1..], b);
    } else {
      assert a + b == b;
    }
  }

  lemma {:induction false} TotalSizeFilter(ns: seq<Node>, keep: Node -> bool)
    ensures TotalSize(Filter(ns, keep)) <= TotalSize(ns)
    decreases |ns|
  {
    if |ns| > 0 {
      var init := ns[..|ns| - 1];
      var last := ns[|ns| - 1];
      TotalSizeFilter(init, keep);
      assert ns == init + [last];
      TotalSizeAppend(init, [last]);
      TotalSizeAppend(Filter(init, keep), if keep(last) then [last] else []);
    }
  }

  // ---------------------------------------------------------------------
  // Ordering children by name

  /** Go's `<` on strings: byte-wise, which for UTF-8 is the order of the
      code points. */
  predicate NameBefore(a: string, b: string)
    decreases |a|
  {
    if |a| == 0 then |b| > 0
    else if |b| == 0 then false
    else if a[0] != b[0] then a[0] < b[0]
    else NameBefore(a[1..], b[1..])
  }

  predicate NameLe(a: string, b: string) {
    a == b || NameBefore(a, b)
  }

  /** Of two names, one comes no later than the other. */
  lemma {:induction false} NameTotal(a: string, b: string)
    ensures NameLe(a, b) || NameLe(b, a)
    decreases |a|
  {
    if |a| > 0 && |b| > 0 && a[0] == b[0] {
      NameTotal(a[1..], b[1..]);
      if a[1..] == b[1..] {
        assert a == [a[0]] + a[1..] && b == [b[0]] + b[1..];
      }
    }
  }

  /** A name never comes before itself. */
  lemma {:induction false} NameIrreflexive(a: string)
    ensures !NameBefore(a, a)
    decreases |a|
  {
    if |a| > 0 {
      NameIrreflexive(a[1..]);
    }
  }

  predicate SortedByName(ns: seq<Node>) {
    forall i :: 0 <= i < |ns| - 1 ==> NameLe(ns[i].name, ns[i + 1].name)
  }

  function Insert(x: Node, ns: seq<Node>): (r: seq<Node>)
    requires SortedByName(ns)
    ensures SortedByName(r)
    ensures multiset(r) == multiset(ns) + multiset{x}
    ensures |r| > 0 && (r[0] == x || (|ns| > 0 && r[0] == ns[0]))
    decreases |ns|
  {
    if |ns| == 0 then [x]
    else if NameLe(x.name, ns[0].name) then [x] + ns
    else
      NameTotal(x.name, ns[0].name);
      var rest := Insert(x, ns[1..]);
      assert ns == [ns[0]] + ns[1..];
      [ns[0]] + rest
  }

  /** sort.Slice by name, as an insertion sort: the children in ascending
      order of name, none added or lost. */
  function SortByName(ns: seq<Node>): (r: seq<Node>)
    ensures SortedByName(r)
    ensures multiset(r) == multiset(ns)
  {
    if |ns| == 0 then []
    else
      assert ns == [ns[0]] + ns[1..];
      Insert(ns[0], SortByName(ns[1..]))
  }

  lemma {:induction false} TotalSizeInsert(x: Node, ns: seq<Node>)
    requires SortedByName(ns)
    ensures TotalSize(Insert(x, ns)) == Size(x) + TotalSize(ns)
    decreases |ns|
  {
    if |ns| > 0 && !NameLe(x.name, ns[0].name) {
      TotalSizeInsert(x, ns[1..]);
    }
  }

  lemma {:induction false} TotalSizeSort(ns: seq<Node>)
    ensures TotalSize(SortByName(ns)) == TotalSize(ns)
    decreases |ns|
  {
    if |ns| > 0 {
      TotalSizeSort(ns[1..]);
      TotalSizeInsert(ns[0], SortByName(ns[1..]));
    }
  }
  // ---------------------------------------------------------------------
  // Lines

  /** FileMetadata: the path, the depth below the root, and for each level
      above the entry whether a vertical line continues there. */
  datatype FileMetadata = FileMetadata(path: string, depth: nat, useVerticalLine: seq<bool>, node: Node)

  /** An entry carries one flag per level of depth. */
  predicate WellFormed(e: FileMetadata) {
    |e.useVerticalLine| == e.depth
  }

  /** The indentation for one level: a vertical line and a tab, or a tab. */
  function Tab(line: bool): string {
    if line then "│\t" else "\t"
  }

  /** The indentation for the levels of `flags`, one after the other. */
  function Indent(flags: seq<bool>): string {
    if |flags| == 0 then "" else Indent(flags[..|flags| - 1]) + Tab(flags[|flags| - 1])
  }

  /** getTreePrefix: the indentation of the levels above the entry, then
      the symbol and "───". */
  function TreePrefix(depth: int, symbol: string, flags: seq<bool>): string
    requires 1 <= depth <= |flags| + 1
  {
    Indent(flags[..depth - 1]) + symbol + "───"
  }

  function Concat(parts: seq<string>): string {
    if |parts| == 0 then "" else parts[0] + Concat(parts[1..])
  }

  lemma {:induction false} ConcatAppend(a: seq<string>, b: seq<string>)
    ensures Concat(a + b) == Concat(a) + Concat(b)
    decreases |a|
  {
    if |a| > 0 {
      assert (a + b)[1..] == a[1..] + b;
      ConcatAppend(a[1..], b);
    } else {
      assert a + b == b;
    }
  }

  /** strings.Join with an empty separator concatenates. */
  lemma {:induction false} JoinNoSeparator(parts: seq<string>)
    ensures Join(parts, "") == Concat(parts)
    decreases |parts|
  {
    if |parts| > 1 {
      JoinNoSeparator(parts[1..]);
    }
  }

  lemma {:induction false} ConcatBlanks(n: nat)
    ensures Concat(seq(n, _ => "")) == ""
  {
    if n > 0 {
      assert seq(n, _ => "")[1..] == seq(n - 1, _ => "");
      ConcatBlanks(n - 1);
    }
  }

  /** getTreePrefix: the slice of tabs starts with depth - 1 empty strings
      (from `make`) and gets one piece appended per level. */
  method GetTreePrefix(depth: int, lineStartSymbol: string, useVerticalLine: seq<bool>) returns (resultPrefix: string)
    requires 1 <= depth <= |useVerticalLine| + 1
    ensures resultPrefix == TreePrefix(depth, lineStartSymbol, useVerticalLine)
  {
    var prefix := lineStartSymbol + "───";
    ghost var blanks: seq<string> := seq(depth - 1, _ => "");
    var tabs: seq<string> := seq(depth - 1, _ => "");
    ghost var pieces: seq<string> := [];
    var i := 0;
    while i < depth - 1
      invariant 0 <= i <= depth - 1
      invariant tabs == blanks + pieces
      invariant Concat(pieces) == Indent(useVerticalLine[..i])
    {
      var piece := if useVerticalLine[i] then "│\t" else "\t";
      ConcatAppend(pieces, [piece]);
      assert useVerticalLine[..i + 1][..i] == useVerticalLine[..i];
      tabs := tabs + [piece];
      pieces := pieces + [piece];
      i := i + 1;
    }
    JoinNoSeparator(tabs);
    ConcatAppend(blanks, pieces);
    ConcatBlanks(depth - 1);
    assert Join(tabs, "") == Indent(useVerticalLine[..depth - 1]);
    resultPrefix := Join(tabs, "") + prefix;
    assert resultPrefix == Indent(useVerticalLine[..depth - 1]) + lineStartSymbol + "───";
  }

  /** The size shown for a file: "empty" for no bytes, else the byte count
      and "b". */
  function SizeText(size: nat): (text: string)
    ensures size == 0 ==> text == "empty"
    ensures size > 0 ==> text == Itoa(size) + "b"
  {
    if size == 0 then "empty" else Itoa(size) + "b"
  }

  /** A directory's line: the prefix and the name. */
  function DirLine(e: FileMetadata, symbol: string): string
    requires WellFormed(e) && e.depth >= 1
  {
    TreePrefix(e.depth, symbol, e.useVerticalLine) + e.node.name + "\n"
  }

  /** A file's line: the prefix, the name and the size in brackets. */
  function FileLine(e: FileMetadata, symbol: string): string
    requires WellFormed(e) && e.depth >= 1 && e.node.File?
  {
    TreePrefix(e.depth, symbol, e.useVerticalLine) + e.node.name + " (" + SizeText(e.node.size) + ")\n"
  }

  /** handleRegularFile: the file's line, except for the root. */
  method HandleRegularFile(isRootFile: bool, lineStartSymbol: string, fileMetadata: FileMetadata) returns (printString: string)
    requires fileMetadata.node.File? && WellFormed(fileMetadata) && (isRootFile || fileMetadata.depth >= 1)
    ensures printString == if isRootFile then "" else FileLine(fileMetadata, lineStartSymbol)
  {
    var size := fileMetadata.node.size;
    var sizeStr;
    if size == 0 {
      sizeStr := "empty";
    } else {
      sizeStr := Itoa(size) + "b";
    }
    printString := "";
    if !isRootFile {
      var prefix := GetTreePrefix(fileMetadata.depth, lineStartSymbol, fileMetadata.useVerticalLine);
      printString := prefix + fileMetadata.node.name + " (" + sizeStr + ")\n";
    }
  }

  // ---------------------------------------------------------------------
  // Children

  /** Which children are listed: directories always, files only with -f. */
  function Keep(printFiles: bool): Node -> bool {
    (k: Node) => k.Dir? || printFiles
  }

  /** The listed children of a directory, in order of name. */
  function Kids(n: Node, printFiles: bool): (kids: seq<Node>)
    requires n.Dir?
    ensures SortedByName(kids)
    ensures multiset(kids) == multiset(Filter(n.children, Keep(printFiles)))
    ensures TotalSize(kids) < Size(n)
  {
    TotalSizeFilter(n.children, Keep(printFiles));
    TotalSizeSort(Filter(n.children, Keep(printFiles)));
    SortByName(Filter(n.children, Keep(printFiles)))
  }

  /** The entry of the i-th listed child: its path, one level deeper, and
      the parent's flags with one more, set unless it is the last child. */
  function ChildMeta(e: FileMetadata, kids: seq<Node>, i: int): FileMetadata
    requires 0 <= i < |kids|
  {
    FileMetadata(e.path + "/" + kids[i].name, e.depth + 1, e.useVerticalLine + [i != |kids| - 1], kids[i])
  }

  /** The entries handleDir pushes for a directory. */
  function ChildEntries(e: FileMetadata, printFiles: bool): seq<FileMetadata>
    requires e.node.Dir?
  {
    var kids := Kids(e.node, printFiles);
    seq(|kids|, i requires 0 <= i < |kids| => ChildMeta(e, kids, i))
  }

  /** The number of nodes still to visit under the entries. */
  function EntriesSize(es: seq<FileMetadata>): nat {
    if |es| == 0 then 0 else Size(es[0].node) + EntriesSize(es[1..])
  }

  lemma {:induction false} EntriesSizeAppend(a: seq<FileMetadata>, b: seq<FileMetadata>)
    ensures EntriesSize(a + b) == EntriesSize(a) + EntriesSize(b)
    decreases |a|
  {
    if |a| > 0 {
      assert (a + b)[1..] == a[1..] + b;
      EntriesSizeAppend(a[1..], b);
    } else {
      assert a + b == b;
    }
  }

  lemma {:induction false} EntriesSizeOfNodes(es: seq<FileMetadata>, ns: seq<Node>)
    requires |es| == |ns| && forall i :: 0 <= i < |es| ==> es[i].node == ns[i]
    ensures EntriesSize(es) == TotalSize(ns)
    decreases |es|
  {
    if |es| > 0 {
      EntriesSizeOfNodes(es[1..], ns[1..]);
    }
  }

  /** The children's entries hold fewer nodes than their directory. */
  lemma ChildEntriesSmaller(e: FileMetadata, printFiles: bool)
    requires e.node.Dir?
    ensures EntriesSize(ChildEntries(e, printFiles)) < Size(e.node)
  {
    EntriesSizeOfNodes(ChildEntries(e, printFiles), Kids(e.node, printFiles));
  }

  /** The listed children come in order of name; they are exactly the
      directories among the children, and the files too with -f; each is one
      level deeper, under the parent's path, with the parent's flags and a
      vertical line for every child but the last. */
  lemma ChildEntriesMeaning(e: FileMetadata, printFiles: bool)
    requires e.node.Dir?
    ensures var es := ChildEntries(e, printFiles);
            && (forall i :: 0 <= i < |es| - 1 ==> NameLe(es[i].node.name, es[i + 1].node.name))
            && multiset(seq(|es|, i requires 0 <= i < |es| => es[i].node)) ==
                 multiset(Filter(e.node.children, Keep(printFiles)))
            && (forall i :: 0 <= i < |es| ==>
                  && es[i].path == e.path + "/" + es[i].node.name
                  && es[i].depth == e.depth + 1
                  && es[i].useVerticalLine == e.useVerticalLine + [i != |es| - 1])
  {
    var es := ChildEntries(e, printFiles);
    var kids := Kids(e.node, printFiles);
    assert seq(|es|, i requires 0 <= i < |es| => es[i].node) == kids;
  }

  /** A child is listed exactly when it is a directory, or when files are
      printed. */
  lemma ListedChildren(n: Node, printFiles: bool)
    requires n.Dir?
    ensures forall k :: k in Kids(n, printFiles) <==> k in n.children && (k.Dir? || printFiles)
  {
    var kids := Kids(n, printFiles);
    FilterMeaning(n.children, Keep(printFiles));
    forall k ensures k in kids <==> k in Filter(n.children, Keep(printFiles)) {
      assert k in kids <==> k in multiset(kids);
    }
  }

  // ---------------------------------------------------------------------
  // The walk

  /** Why the walk stops: a path that cannot be stat'ed, or a directory
      that cannot be opened. */
  datatype TreeError = CannotStat(path: string) | CannotOpen(path: string)

  /** The text written, and the error that ended the walk, if any. */
  datatype Printed = Printed(text: string, err: Option<TreeError>)

  /** Output in sequence: the second part only follows when the first ended
      without an error. */
  function Then(p: Printed, q: Printed): Printed {
    if p.err.Some? then p else Printed(p.text + q.text, q.err)
  }

  lemma ThenAssociative(a: Printed, b: Printed, c: Printed)
    ensures Then(Then(a, b), c) == Then(a, Then(b, c))
  {
  }

  const Done := Printed("", None)

  /** Writing two texts one after the other is writing them together. */
  lemma ThenText(a: string, b: string, q: Printed)
    ensures Then(Printed(a, None), Then(Printed(b, None), q)) == Then(Printed(a + b, None), q)
  {
    assert a + (b + q.text) == a + b + q.text;
  }

  /** The entries on a stack are well formed, and only the root (first,
      while it is still to be printed) is at depth 0. */
  predicate StackOk(stack: seq<FileMetadata>, isRoot: bool) {
    forall i :: 0 <= i < |stack| ==> WellFormed(stack[i]) && (stack[i].depth >= 1 || (isRoot && i == 0))
  }

  /** An entry the walk can pass: it exists, and is readable if a directory. */
  predicate Reachable(e: FileMetadata) {
    !e.node.Missing? && !(e.node.Dir? && !e.node.readable)
  }

  /** The symbol of a popped entry: "└" when the stack is empty or the next
      entry is at another depth, "├" otherwise (and for the root). */
  function LineSymbol(e: FileMetadata, rest: seq<FileMetadata>, isRoot: bool): string {
    if !isRoot && (|rest| == 0 || rest[0].depth != e.depth) then "└" else "├"
  }

  /** The stack loop of dirTree, one popped entry at a time. */
  function Run(stack: seq<FileMetadata>, isRoot: bool, printFiles: bool): Printed
    requires StackOk(stack, isRoot)
    decreases EntriesSize(stack)
  {
    if |stack| == 0 then Done
    else
      var e := stack[0];
      var rest := stack[1..];
      var symbol := LineSymbol(e, rest, isRoot);
      match e.node
      case Missing(_) => Printed("", Some(CannotStat(e.path)))
      case Special(_) => Run(rest, false, printFiles)
      case File(_, _) =>
        Then(Printed(if !isRoot && printFiles then FileLine(e, symbol) else "", None), Run(rest, false, printFiles))
      case Dir(_, _, readable) =>
        if !readable then Printed("", Some(CannotOpen(e.path)))
        else
          ChildEntriesSmaller(e, printFiles);
          EntriesSizeAppend(ChildEntries(e, printFiles), rest);
          Then(Printed(if isRoot then "" else DirLine(e, symbol), None),
               Run(ChildEntries(e, printFiles) + rest, false, printFiles))
  }

  /** A walk that ends without an error met no missing entry and no
      unreadable directory on its stack. */
  lemma {:induction false} RunReachable(stack: seq<FileMetadata>, isRoot: bool, printFiles: bool)
    requires StackOk(stack, isRoot)
    ensures Run(stack, isRoot, printFiles).err.None? ==> forall i :: 0 <= i < |stack| ==> Reachable(stack[i])
    decreases EntriesSize(stack)
  {
    if |stack| > 0 && Run(stack, isRoot, printFiles).err.None? {
      RunNext(stack, isRoot, printFiles);
      var e, rest := stack[0], stack[1..];
      var next := if e.node.Dir? then ChildEntries(e, printFiles) + rest else rest;
      RunReachable(next, false, printFiles);
      TailReachable(stack, next);
    }
  }

  lemma TailReachable(stack: seq<FileMetadata>, next: seq<FileMetadata>)
    requires |stack| > 0 && Reachable(stack[0]) && |stack| - 1 <= |next| && next[|next| - (|stack| - 1)..] == stack[1..]
    requires forall i :: 0 <= i < |next| ==> Reachable(next[i])
    ensures forall i :: 0 <= i < |stack| ==> Reachable(stack[i])
  {
    forall i | 1 <= i < |stack| ensures Reachable(stack[i]) {
      assert stack[i] == stack[1..][i - 1] == next[|next| - |stack| + i];
    }
  }

  /** A walk that gets past its top entry found it reachable, and goes on
      with its children (for a directory) and the rest of the stack, on a
      smaller stack. */
  lemma RunNext(stack: seq<FileMetadata>, isRoot: bool, printFiles: bool)
    requires StackOk(stack, isRoot) && |stack| > 0 && Run(stack, isRoot, printFiles).err.None?
    ensures Reachable(stack[0])
    ensures var next := if stack[0].node.Dir? then ChildEntries(stack[0], printFiles) + stack[1..] else stack[1..];
            && StackOk(next, false) && EntriesSize(next) < EntriesSize(stack)
            && Run(stack, isRoot, printFiles).err == Run(next, false, printFiles).err
  {
    var e, rest := stack[0], stack[1..];
    if e.node.Dir? {
      ChildEntriesSmaller(e, printFiles);
      EntriesSizeAppend(ChildEntries(e, printFiles), rest);
      ChildEntriesOk(e, printFiles, rest);
    }
  }

  /** The children's entries are well formed, one level deeper. */
  lemma ChildEntriesOk(e: FileMetadata, printFiles: bool, rest: seq<FileMetadata>)
    requires e.node.Dir? && WellFormed(e) && StackOk(rest, false)
    ensures forall i :: 0 <= i < |ChildEntries(e, printFiles)| ==>
              WellFormed(ChildEntries(e, printFiles)[i]) && ChildEntries(e, printFiles)[i].depth == e.depth + 1
    ensures StackOk(ChildEntries(e, printFiles) + rest, false)
  {
    var kids := ChildEntries(e, printFiles);
    var stack := kids + rest;
    forall i | 0 <= i < |stack| ensures WellFormed(stack[i]) && stack[i].depth >= 1 {
      if i >= |kids| {
        assert stack[i] == rest[i - |kids|];
      }
    }
  }

  /** One step of the loop: what popping the first entry does. */
  lemma RunPop(stack: seq<FileMetadata>, isRoot: bool, printFiles: bool)
    requires StackOk(stack, isRoot) && |stack| > 0
    ensures StackOk(stack[1..], false)
    ensures var e := stack[0];
            var rest := stack[1..];
            var symbol := LineSymbol(e, rest, isRoot);
            && (e.node.Missing? ==> Run(stack, isRoot, printFiles) == Printed("", Some(CannotStat(e.path))))
            && (e.node.Special? ==> Run(stack, isRoot, printFiles) == Run(rest, false, printFiles))
            && (e.node.File? ==>
                  Run(stack, isRoot, printFiles) ==
                  Then(Printed(if !isRoot && printFiles then FileLine(e, symbol) else "", None), Run(rest, false, printFiles)))
            && (e.node.Dir? && !e.node.readable ==> Run(stack, isRoot, printFiles) == Printed("", Some(CannotOpen(e.path))))
            && (e.node.Dir? && e.node.readable ==>
                  && StackOk(ChildEntries(e, printFiles) + rest, false)
                  && Run(stack, isRoot, printFiles) ==
                       Then(Printed(if isRoot then "" else DirLine(e, symbol), None),
                            Run(ChildEntries(e, printFiles) + rest, false, printFiles)))
  {
    var rest := stack[1..];
    assert forall i :: 0 <= i < |rest| ==> rest[i] == stack[i + 1];
    if stack[0].node.Dir? {
      ChildEntriesOk(stack[0], printFiles, rest);
    }
  }

  /** The list handleDir builds with mapped is the children's entries. */
  lemma MappedChildren(e: FileMetadata, printFiles: bool, kids: seq<Node>, parentLines: seq<bool>, ms: seq<FileMetadata>)
    requires e.node.Dir? && kids == Kids(e.node, printFiles) && parentLines == e.useVerticalLine
    requires |ms| == |kids|
    requires forall i :: 0 <= i < |kids| ==>
               ms[i] == FileMetadata(e.path + "/" + kids[i].name, e.depth + 1, parentLines + [i != |kids| - 1], kids[i])
    ensures ms == ChildEntries(e, printFiles)
  {
    var es := ChildEntries(e, printFiles);
    assert |es| == |ms|;
    forall i | 0 <= i < |ms| ensures ms[i] == es[i] {
      assert es[i] == ChildMeta(e, kids, i);
    }
  }

  /** handleDir: an unreadable directory is an error; otherwise its listed
      children, sorted by name, go in front of the stack, and its line is
      printed unless it is the root. */
  method HandleDir(isRootFile: bool, printFiles: bool, lineStartSymbol: string, fileMetadata: FileMetadata,
                   stack: seq<FileMetadata>) returns (printString: string, err: Option<TreeError>, newStack: seq<FileMetadata>)
    requires fileMetadata.node.Dir? && WellFormed(fileMetadata) && (isRootFile || fileMetadata.depth >= 1)
    ensures !fileMetadata.node.readable ==> printString == "" && err == Some(CannotOpen(fileMetadata.path)) && newStack == stack
    ensures fileMetadata.node.readable ==>
              && err == None
              && newStack == ChildEntries(fileMetadata, printFiles) + stack
              && printString == if isRootFile then "" else DirLine(fileMetadata, lineStartSymbol)
  {
    if !fileMetadata.node.readable {
      return "", Some(CannotOpen(fileMetadata.path)), stack;
    }
    var children := fileMetadata.node.children;
    var filtered := FilterSlice(children, Keep(printFiles));
    var childrenFiltered := SortByName(filtered);
    var parentLines := CopySlice(fileMetadata.useVerticalLine);
    assert parentLines == fileMetadata.useVerticalLine;
    var childrenMetadata := MapSlice(childrenFiltered, (i: int, child: Node) =>
      FileMetadata(fileMetadata.path + "/" + child.name, fileMetadata.depth + 1,
                   parentLines + [i != |childrenFiltered| - 1], child));
    MappedChildren(fileMetadata, printFiles, childrenFiltered, parentLines, childrenMetadata);
    newStack := childrenMetadata + stack;
    printString := "";
    if !isRootFile {
      var prefix := GetTreePrefix(fileMetadata.depth, lineStartSymbol, fileMetadata.useVerticalLine);
      printString := prefix + fileMetadata.node.name + "\n";
    }
    err := None;
  }

  /** One turn of dirTree's loop: pop the top entry and handle it by kind.
      Either the walk stops with the entry's error, or the entry's text is
      written and the walk goes on with the new stack. */
  method VisitEntry(stack: seq<FileMetadata>, isRootFile: bool, printFiles: bool)
    returns (printString: string, err: Option<TreeError>, newStack: seq<FileMetadata>)
    requires StackOk(stack, isRootFile) && |stack| > 0
    ensures err.Some? ==> Run(stack, isRootFile, printFiles) == Printed("", err)
    ensures err.None? ==>
              && StackOk(newStack, false)
              && EntriesSize(newStack) < EntriesSize(stack)
              && Run(stack, isRootFile, printFiles) == Then(Printed(printString, None), Run(newStack, false, printFiles))
  {
    var fileMetadata := stack[0];
    RunPop(stack, isRootFile, printFiles);
    newStack := stack[1..];
    assert stack == [fileMetadata] + newStack;
    EntriesSizeAppend([fileMetadata], newStack);
    if fileMetadata.node.Missing? {
      return "", Some(CannotStat(fileMetadata.path)), newStack;
    }
    var lineStartSymbol := "├";
    if !isRootFile && (|newStack| == 0 || newStack[0].depth != fileMetadata.depth) {
      lineStartSymbol := "└";
    }
    assert lineStartSymbol == LineSymbol(fileMetadata, stack[1..], isRootFile);
    printString := "";
    err := None;
    if fileMetadata.node.Dir? {
      ghost var rest := newStack;
      printString, err, newStack := HandleDir(isRootFile, printFiles, lineStartSymbol, fileMetadata, newStack);
      if err.None? {
        ChildEntriesSmaller(fileMetadata, printFiles);
        EntriesSizeAppend(ChildEntries(fileMetadata, printFiles), rest);
      }
    } else if fileMetadata.node.File? && printFiles {
      printString := HandleRegularFile(isRootFile, lineStartSymbol, fileMetadata);
    }
  }

  /** dirTree: the walk from the root, writing each entry's line as it
      goes; the first error ends it with what was written so far. */
  method DirTree(root: Node, rootPath: string, printFiles: bool) returns (out: string, err: Option<TreeError>)
    ensures Printed(out, err) == Run([FileMetadata(rootPath, 0, [], root)], true, printFiles)
  {
    var start := [FileMetadata(rootPath, 0, [], root)];
    var stack := start;
    var isRootFile := true;
    out := "";
    while |stack| != 0
      invariant StackOk(stack, isRootFile)
      invariant Then(Printed(out, None), Run(stack, isRootFile, printFiles)) == Run(start, true, printFiles)
      decreases EntriesSize(stack)
    {
      ghost var done := out;
      var printString, visitErr;
      printString, visitErr, stack := VisitEntry(stack, isRootFile, printFiles);
      if visitErr.Some? {
        return out, visitErr;
      }
      if |printString| != 0 {
        out := out + printString;
      }
      assert out == done + printString;
      ThenText(done, printString, Run(stack, false, printFiles));
      isRootFile := false;
    }
    err := None;
  }

  // ---------------------------------------------------------------------
  // The tree the walk draws

  /** The symbol of an entry: "└" for the last child of its directory, "├"
      for the others. */
  function SymbolFor(last: bool): string {
    if last then "└" else "├"
  }

  /** The drawing of one entry: its line, then (for a directory) the
      drawing of its listed children. */
  function RenderEntry(e: FileMetadata, last: bool, printFiles: bool): Printed
    requires WellFormed(e) && e.depth >= 1
    decreases Size(e.node), 1
  {
    match e.node
    case Missing(_) => Printed("", Some(CannotStat(e.path)))
    case Special(_) => Done
    case File(_, _) => Printed(if printFiles then FileLine(e, SymbolFor(last)) else "", None)
    case Dir(_, _, readable) =>
      if !readable then Printed("", Some(CannotOpen(e.path)))
      else
        ChildEntriesSmaller(e, printFiles);
        Then(Printed(DirLine(e, SymbolFor(last)), None), RenderEntries(ChildEntries(e, printFiles), printFiles))
  }

  /** The drawing of sibling entries, in order, the last one marked. */
  function RenderEntries(es: seq<FileMetadata>, printFiles: bool): Printed
    requires forall i :: 0 <= i < |es| ==> WellFormed(es[i]) && es[i].depth >= 1
    decreases EntriesSize(es), 2
  {
    if |es| == 0 then Done
    else Then(RenderEntry(es[0], |es| == 1, printFiles), RenderEntries(es[1..], printFiles))
  }

  /** Four outputs in sequence, however they are grouped. */
  lemma ThenFour(a: Printed, b: Printed, c: Printed, d: Printed)
    ensures Then(a, Then(b, Then(c, d))) == Then(Then(Then(a, b), c), d)
  {
    ThenAssociative(a, b, Then(c, d));
    ThenAssociative(Then(a, b), c, d);
  }

  /** Popping one sibling: its symbol marks whether it is the last entry at
      its depth, and what it writes before the rest of the stack is its own
      line (a directory's children are pushed in front of the rest). */
  lemma RunHead(e: FileMetadata, after: seq<FileMetadata>, last: bool, printFiles: bool)
    requires WellFormed(e) && e.depth >= 1 && StackOk(after, false)
    requires last <==> (|after| == 0 || after[0].depth != e.depth)
    ensures StackOk([e] + after, false)
    ensures !(e.node.Dir? && e.node.readable) ==>
              Run([e] + after, false, printFiles) == Then(RenderEntry(e, last, printFiles), Run(after, false, printFiles))
    ensures e.node.Dir? && e.node.readable ==>
              && StackOk(ChildEntries(e, printFiles) + after, false)
              && Run([e] + after, false, printFiles) ==
                   Then(Printed(DirLine(e, SymbolFor(last)), None), Run(ChildEntries(e, printFiles) + after, false, printFiles))
  {
    var stack := [e] + after;
    assert stack[0] == e && stack[1..] == after;
    assert StackOk(stack, false) by {
      forall i | 0 <= i < |stack| ensures WellFormed(stack[i]) && stack[i].depth >= 1 {
        if i > 0 {
          assert stack[i] == after[i - 1];
        }
      }
    }
    RunPop(stack, false, printFiles);
    assert LineSymbol(e, after, false) == SymbolFor(last);
  }

  /** Popping siblings of one depth off the stack draws them, subtree by
      subtree, before anything below them on the stack: the stack walk is a
      pre-order walk of the tree, and "└" marks exactly the last child. */
  lemma {:induction false} RunSiblings(es: seq<FileMetadata>, rest: seq<FileMetadata>, d: nat, printFiles: bool)
    requires d >= 1
    requires forall i :: 0 <= i < |es| ==> WellFormed(es[i]) && es[i].depth == d
    requires StackOk(rest, false)
    requires |rest| == 0 || rest[0].depth < d
    ensures StackOk(es + rest, false)
    ensures Run(es + rest, false, printFiles) == Then(RenderEntries(es, printFiles), Run(rest, false, printFiles))
    decreases EntriesSize(es)
  {
    if |es| == 0 {
      assert es + rest == rest;
    } else {
      var e := es[0];
      var tail := es[1..];
      var after := tail + rest;
      assert es + rest == [e] + after;
      assert |after| == 0 || after[0].depth <= d by {
        if |tail| > 0 {
          assert after[0] == tail[0];
        }
      }
      assert (|after| == 0 || after[0].depth != e.depth) <==> |es| == 1 by {
        if |tail| > 0 {
          assert after[0] == tail[0];
        }
      }
      RunSiblings(tail, rest, d, printFiles);
      RunHead(e, after, |es| == 1, printFiles);
      if e.node.Dir? && e.node.readable {
        var kids := ChildEntries(e, printFiles);
        ChildEntriesMeaning(e, printFiles);
        ChildEntriesSmaller(e, printFiles);
        RunSiblings(kids, after, d + 1, printFiles);
        ThenFour(Printed(DirLine(e, SymbolFor(|es| == 1)), None), RenderEntries(kids, printFiles),
                 RenderEntries(tail, printFiles), Run(rest, false, printFiles));
      } else {
        ThenAssociative(RenderEntry(e, |es| == 1, printFiles), RenderEntries(tail, printFiles), Run(rest, false, printFiles));
      }
    }
  }

  /** What dirTree writes: nothing for the root itself, then the drawing of
      the root's listed children; or the error of a root that cannot be
      stat'ed or opened. A root that is not a directory writes nothing. */
  lemma DirTreeDraws(root: Node, rootPath: string, printFiles: bool)
    ensures var rootMeta := FileMetadata(rootPath, 0, [], root);
            Run([rootMeta], true, printFiles) ==
              match root
              case Missing(_) => Printed("", Some(CannotStat(rootPath)))
              case Dir(_, _, readable) =>
                if readable then RenderEntries(ChildEntries(rootMeta, printFiles), printFiles)
                else Printed("", Some(CannotOpen(rootPath)))
              case _ => Done
  {
    var rootMeta := FileMetadata(rootPath, 0, [], root);
    assert [rootMeta][1..] == [];
    if root.Dir? && root.readable {
      var kids := ChildEntries(rootMeta, printFiles);
      ChildEntriesMeaning(rootMeta, printFiles);
      RunSiblings(kids, [], 1, printFiles);
      assert kids + [] == kids;
    }
  }
}
