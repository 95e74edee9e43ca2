/** The git helpers the watch loop samples and acts through. Each command's output (or the error
    it throws) is a parameter; what is modelled is how the helpers read that output. */
module Git {
  import opened Wrappers
  import opened JsString

  // ---------------------------------------------------------------- hasChanges

  /** `hasChanges()`: `git diff --quiet`, then `git diff --cached --quiet`. A command that exits
      non-zero (there are differences, or git failed) lands in the catch, which answers true. */
  function HasChanges(unstagedQuiet: bool, stagedQuiet: bool): (changed: bool)
    ensures !changed <==> unstagedQuiet && stagedQuiet
  {
    if !unstagedQuiet then true
    else if !stagedQuiet then true
    else false
  }

  // ---------------------------------------------------------------- getChangeSize

  /** A number as JavaScript computes it here: an integer, or NaN. */
  datatype JsNumber = Finite(v: int) | NaN

  /** `+` on numbers: NaN absorbs. */
  function JsAdd(a: JsNumber, b: JsNumber): JsNumber {
    if a.Finite? && b.Finite? then Finite(a.v + b.v) else NaN
  }

  /** The k-th tab-separated column of a numstat line, `undefined` past the end. */
  function Column(line: string, k: nat): Option<string> {
    var parts := Split(line, '\t');
    if k < |parts| then Some(parts[k]) else None
  }

  /** `parseInt(column || 0)` as the source writes it: a missing or empty column is 0, and a
      column without leading digits (git prints `-` for a binary file) is NaN. */
  function ColumnAsWritten(column: Option<string>): JsNumber {
    if column.None? || column.value == "" then Finite(0)
    else match ParseInt(column.value)
      case Some(n) => Finite(n)
      case None => NaN
  }

  /** The running total of the numstat loop as written: NaN once any column was NaN. */
  function NumstatTotalAsWritten(lines: seq<string>): JsNumber {
    if lines == [] then Finite(0)
    else
      var line := lines[|lines| - 1];
      JsAdd(NumstatTotalAsWritten(lines[..|lines| - 1]),
            JsAdd(ColumnAsWritten(Column(line, 0)), ColumnAsWritten(Column(line, 1))))
  }

  /** One numstat column as a line count: its leading integer, and 0 when there is none (a
      missing or empty column, or the `-` git prints for a binary file). */
  function ColumnLines(column: Option<string>): int {
    if column.None? then 0
    else match ParseInt(column.value)
      case Some(n) => n
      case None => 0
  }

  /** Lines added plus lines deleted on one numstat line. */
  function LineCount(line: string): int {
    ColumnLines(Column(line, 0)) + ColumnLines(Column(line, 1))
  }

  /** The changed-line count of a numstat listing, the sum over its lines. */
  function NumstatTotal(lines: seq<string>): int {
    if lines == [] then 0 else NumstatTotal(lines[..|lines| - 1]) + LineCount(lines[|lines| - 1])
  }

  /** `getChangeSize()` over the output of `git diff --numstat`, corrected: the loop adds up
      added plus deleted over the non-empty lines, a binary entry counting 0 where the source's
      total becomes NaN (`NumstatTotalAsWritten`). */
  method ChangeSize(numstat: string) returns (total: int)
    ensures total == NumstatTotal(Lines(numstat))
  {
    var lines := Lines(numstat);
    total := 0;
    for i := 0 to |lines|
      invariant total == NumstatTotal(lines[..i])
    {
      total := total + LineCount(lines[i]);
      NumstatTotalStep(lines, i);
    }
    assert lines[..|lines|] == lines;
  }

  lemma NumstatTotalStep(lines: seq<string>, i: nat)
    requires i < |lines|
    ensures NumstatTotal(lines[..i + 1]) == NumstatTotal(lines[..i]) + LineCount(lines[i])
  {
    assert lines[..i + 1][..i] == lines[..i];
  }

  /** Where the source's loop produces a number, the corrected count is that number. */
  lemma {:induction false} NumstatAgreesWhenFinite(lines: seq<string>)
    requires NumstatTotalAsWritten(lines).Finite?
    ensures NumstatTotal(lines) == NumstatTotalAsWritten(lines).v
  {
    if lines != [] {
      var line := lines[|lines| - 1];
      NumstatAgreesWhenFinite(lines[..|lines| - 1]);
      ColumnAgreesWhenFinite(Column(line, 0));
      ColumnAgreesWhenFinite(Column(line, 1));
    }
  }

  lemma ColumnAgreesWhenFinite(column: Option<string>)
    requires ColumnAsWritten(column).Finite?
    ensures ColumnLines(column) == ColumnAsWritten(column).v
  {
    if column.Some? && column.value == "" {
      assert LeadingDigits(SignFree(TrimStart(""))) == "";
    }
  }

  /** One record of `git diff --numstat`: counts for a text file, dashes for a binary one. */
  datatype NumstatEntry = TextFile(added: nat, deleted: nat, path: string) | BinaryFile(path: string)

  /** The line git prints for an entry. Paths holding a tab or a newline are quoted by git, so
      printed paths hold neither. */
  function NumstatLine(e: NumstatEntry): string {
    match e
    case TextFile(a, d, p) => NatToString(a) + "\t" + NatToString(d) + "\t" + p
    case BinaryFile(p) => "-\t-\t" + p
  }

  function NumstatLines(es: seq<NumstatEntry>): (r: seq<string>)
    ensures |r| == |es|
    ensures forall k :: 0 <= k < |es| ==> r[k] == NumstatLine(es[k])
  {
    if es == [] then [] else NumstatLines(es[..|es| - 1]) + [NumstatLine(es[|es| - 1])]
  }

  predicate PrintablePath(p: string) {
    '\t' !in p && '\n' !in p
  }

  /** The changed lines the entries stand for; a binary file contributes none. */
  function EntriesTotal(es: seq<NumstatEntry>): nat {
    if es == [] then 0
    else EntriesTotal(es[..|es| - 1]) + match es[|es| - 1]
      case TextFile(a, d, _) => a + d
      case BinaryFile(_) => 0
  }

  /** Reading the listing git prints for any entries gives back the lines they changed. */
  lemma ChangeSizeOfListing(es: seq<NumstatEntry>)
    requires forall k :: 0 <= k < |es| ==> PrintablePath(es[k].path)
    ensures NumstatTotal(Lines(Join(NumstatLines(es), "\n"))) == EntriesTotal(es)
  {
    ListingLines(es);
    TotalOfEntries(es);
  }

  /** The non-empty lines of a printed listing are its entries' lines. */
  lemma ListingLines(es: seq<NumstatEntry>)
    requires forall k :: 0 <= k < |es| ==> PrintablePath(es[k].path)
    ensures Lines(Join(NumstatLines(es), "\n")) == NumstatLines(es)
  {
    var ls := NumstatLines(es);
    forall k | 0 <= k < |ls| ensures '\n' !in ls[k] && ls[k] != "" {
      NumstatLineShape(es[k]);
    }
    if es == [] {
      assert Lines("") == [];
    } else {
      SplitJoin(ls, '\n');
      NonEmptyKeeps(ls);
    }
  }

  lemma {:induction false} TotalOfEntries(es: seq<NumstatEntry>)
    requires forall k :: 0 <= k < |es| ==> PrintablePath(es[k].path)
    ensures NumstatTotal(NumstatLines(es)) == EntriesTotal(es)
  {
    if es != [] {
      var ls := NumstatLines(es);
      assert ls[..|ls| - 1] == NumstatLines(es[..|es| - 1]);
      TotalOfEntries(es[..|es| - 1]);
      LineCountOfEntry(es[|es| - 1]);
    }
  }

  lemma {:induction false} NonEmptyKeeps(ls: seq<string>)
    requires forall k :: 0 <= k < |ls| ==> ls[k] != ""
    ensures NonEmpty(ls) == ls
  {
    if ls != [] {
      NonEmptyKeeps(ls[1..]);
    }
  }

  lemma NumstatLineShape(e: NumstatEntry)
    requires PrintablePath(e.path)
    ensures NumstatLine(e) != "" && '\n' !in NumstatLine(e)
  {
    match e
    case TextFile(a, d, p) =>
      var line := NumstatLine(e);
      assert line[0] == NatToString(a)[0];
      forall i | 0 <= i < |line| ensures line[i] != '\n' {
        var sa, sd := NatToString(a), NatToString(d);
        assert line == sa + "\t" + sd + "\t" + p;
        if i < |sa| { assert line[i] == sa[i]; }
        else if i == |sa| { }
        else if i < |sa| + 1 + |sd| { assert line[i] == sd[i - |sa| - 1]; }
        else if i == |sa| + 1 + |sd| { }
        else { assert line[i] == p[i - |sa| - 2 - |sd|]; }
      }
    case BinaryFile(p) =>
      assert NumstatLine(e) == "-\t-\t" + p;
  }

  lemma LineCountOfEntry(e: NumstatEntry)
    requires PrintablePath(e.path)
    ensures LineCount(NumstatLine(e)) == match e
      case TextFile(a, d, _) => a + d
      case BinaryFile(_) => 0
  {
    match e
    case TextFile(a, d, p) => TextLineCount(a, d, p);
    case BinaryFile(p) => BinaryLineCount(p);
  }

  lemma TextLineCount(a: nat, d: nat, p: string)
    requires PrintablePath(p)
    ensures LineCount(NumstatLine(TextFile(a, d, p))) == a + d
  {
    var sa, sd := NatToString(a), NatToString(d);
    var line := NumstatLine(TextFile(a, d, p));
    assert line == sa + "\t" + sd + "\t" + p;
    DigitsHaveNoTab(sa);
    DigitsHaveNoTab(sd);
    ColumnsOfLine(sa, sd, p);
    assert Column(line, 0) == Some(sa) && Column(line, 1) == Some(sd);
    ParseIntOfIntToString(a);
    ParseIntOfIntToString(d);
    assert IntToString(a) == sa && IntToString(d) == sd;
  }

  lemma BinaryLineCount(p: string)
    requires PrintablePath(p)
    ensures LineCount(NumstatLine(BinaryFile(p))) == 0
  {
    var line := NumstatLine(BinaryFile(p));
    assert line == "-" + "\t" + "-" + "\t" + p;
    ColumnsOfLine("-", "-", p);
    assert Column(line, 0) == Some("-") && Column(line, 1) == Some("-");
    DashIsNaN();
  }

  lemma DigitsHaveNoTab(ds: string)
    requires AllDigits(ds)
    ensures '\t' !in ds
  {
  }

  lemma DashIsNaN()
    ensures ParseInt("-") == None
  {
    assert TrimStart("-") == "-";
    assert SignFree("-") == "";
  }

  /** The first two columns of a line made of three tab-free fields. */
  lemma ColumnsOfLine(x: string, y: string, z: string)
    requires '\t' !in x && '\t' !in y && '\t' !in z
    ensures Column(x + "\t" + y + "\t" + z, 0) == Some(x)
    ensures Column(x + "\t" + y + "\t" + z, 1) == Some(y)
  {
    JoinThree(x, y, z);
    SplitJoin([x, y, z], '\t');
  }

  lemma JoinThree(x: string, y: string, z: string)
    ensures Join([x, y, z], "\t") == x + "\t" + y + "\t" + z
  {
    assert [x, y, z][1..] == [y, z];
    assert [y, z][1..] == [z];
    assert Join([z], "\t") == z;
    assert Join([y, z], "\t") == y + "\t" + z;
    assert x + "\t" + (y + "\t" + z) == x + "\t" + y + "\t" + z;
  }

  /** The source's loop as written: one binary file anywhere in the listing (git prints
      `-\t-\tlogo.png` for one) makes the whole count NaN, where the corrected count skips it. */
  lemma BinaryEntryMakesNaN(es: seq<NumstatEntry>)
    requires forall k :: 0 <= k < |es| ==> PrintablePath(es[k].path)
    requires exists k :: 0 <= k < |es| && es[k].BinaryFile?
    ensures NumstatTotalAsWritten(Lines(Join(NumstatLines(es), "\n"))) == NaN
  {
    ListingLines(es);
    AsWrittenNaN(es);
  }

  lemma {:induction false} AsWrittenNaN(es: seq<NumstatEntry>)
    requires forall k :: 0 <= k < |es| ==> PrintablePath(es[k].path)
    requires exists k :: 0 <= k < |es| && es[k].BinaryFile?
    ensures NumstatTotalAsWritten(NumstatLines(es)) == NaN
  {
    var ls := NumstatLines(es);
    assert ls[..|ls| - 1] == NumstatLines(es[..|es| - 1]);
    var last := es[|es| - 1];
    if last.BinaryFile? {
      BinaryColumnIsNaN(last.path);
    } else {
      var k :| 0 <= k < |es| && es[k].BinaryFile?;
      assert es[..|es| - 1][k] == es[k];
      AsWrittenNaN(es[..|es| - 1]);
    }
  }

  lemma BinaryColumnIsNaN(p: string)
    requires PrintablePath(p)
    ensures ColumnAsWritten(Column(NumstatLine(BinaryFile(p)), 0)) == NaN
  {
    var line := NumstatLine(BinaryFile(p));
    assert line == "-" + "\t" + "-" + "\t" + p;
    ColumnsOfLine("-", "-", p);
    assert Column(line, 0) == Some("-");
    DashIsNaN();
  }

  // ---------------------------------------------------------------- commit and push

  /** How the git commands behind `commitChanges` turn out: `git add -A` fails; nothing is staged
      after it; `git commit` fails; or the commit is made. */
  datatype CommitProbe = AddFails(addError: string) | NothingStaged | CommitFails(commitError: string) | Commits

  datatype CommitResult = CommitResult(committed: bool, message: string)

  /** `commitChanges(message)`: stages everything first, then commits only if something is
      staged; a failing git command throws. */
  function CommitChanges(probe: CommitProbe, message: string): (r: Result<CommitResult>)
    ensures r.Success? <==> probe == NothingStaged || probe == Commits
    ensures r.Success? ==> (r.value.committed <==> probe == Commits)
    ensures r.Success? && r.value.committed ==> r.value.message == message
    ensures r.Success? && !r.value.committed ==> r.value.message == "No changes to commit"
  {
    match probe
    case AddFails(e) => Failure(e)
    case NothingStaged => Success(CommitResult(false, "No changes to commit"))
    case CommitFails(e) => Failure(e)
    case Commits => Success(CommitResult(true, message))
  }

  datatype PushResult = PushResult(success: bool, error: Option<string>)

  /** `pushChanges(branch)`: never throws; the error of `git push -u origin <branch>`, if any,
      is reported in the result. */
  function PushChanges(pushError: Option<string>): (r: PushResult)
    ensures r.success <==> pushError.None?
    ensures !r.success ==> r.error == pushError
  {
    match pushError
    case None => PushResult(true, None)
    case Some(e) => PushResult(false, Some(e))
  }

  // ---------------------------------------------------------------- branches

  /** `switchBranch(ref)`: what `git checkout` is given. */
  function CheckoutTarget(ref: string): (target: string)
    ensures ref == "prev" ==> target == "HEAD~1"
    ensures ref == "next" ==> target == "@{-1}"
    ensures ref != "prev" && ref != "next" ==> target == ref
  {
    if ref == "prev" then "HEAD~1" else if ref == "next" then "@{-1}" else ref
  }

  /** `b.trim().replace(/^\*\s*\/, '')`. */
  function CleanBranchLine(line: string): string {
    var t := Trim(line);
    if t != [] && t[0] == '*' then TrimStart(t[1..]) else t
  }

  /** The filter: non-empty and not a symbolic `->` line. */
  predicate KeepBranch(b: string) {
    b != "" && !Includes(b, "->")
  }

  /** `b.replace(/^remotes\/origin\//, '')`. */
  function StripOrigin(b: string): string {
    if StartsWith(b, "remotes/origin/") then b[|"remotes/origin/"|..] else b
  }

  function CleanBranches(lines: seq<string>): (r: seq<string>)
    ensures |r| <= |lines|
  {
    if lines == [] then []
    else
      var b := CleanBranchLine(lines[0]);
      (if KeepBranch(b) then [StripOrigin(b)] else []) + CleanBranches(lines[1..])
  }

  /** `listBranches()` over the output of `git branch -a`. */
  function ListBranches(stdout: string): seq<string> {
    CleanBranches(Split(stdout, '\n'))
  }

  /** A line of `git branch -a`: a local branch (marked `*` when checked out), a branch of
      origin, or origin's symbolic HEAD pointer. */
  datatype BranchLine = Local(name: string, current: bool) | Remote(name: string) | RemoteHead(target: string)

  function BranchLineText(b: BranchLine): string {
    match b
    case Local(n, c) => (if c then "* " else "  ") + n
    case Remote(n) => "  " + ("remotes/origin/" + n)
    case RemoteHead(t) => "  " + ("remotes/origin/HEAD -> " + t)
  }

  function BranchListing(bs: seq<BranchLine>): (r: seq<string>)
    ensures |r| == |bs|
    ensures forall k :: 0 <= k < |bs| ==> r[k] == BranchLineText(bs[k])
  {
    if bs == [] then [] else [BranchLineText(bs[0])] + BranchListing(bs[1..])
  }

  /** The names the listing stands for, symbolic pointers left out. */
  function BranchNames(bs: seq<BranchLine>): seq<string> {
    if bs == [] then []
    else (match bs[0]
          case Local(n, _) => [n]
          case Remote(n) => [n]
          case RemoteHead(_) => []) + BranchNames(bs[1..])
  }

  /** A name as git allows it (no white space, no `*`), without `->`, and for a local branch
      not itself starting with `remotes/origin/`. */
  predicate GoodBranchLine(b: BranchLine) {
    match b
    case Local(n, _) => n != "" && NoSpace(n) && '*' !in n && !Includes(n, "->") && !StartsWith(n, "remotes/origin/")
    case Remote(n) => n != "" && NoSpace(n) && '*' !in n && !Includes(n, "->")
    case RemoteHead(t) => t != "" && NoSpace(t)
  }

  /** Reading the listing git prints gives back the branch names, in order, without the
      current-branch marker, without `remotes/origin/`, and without the HEAD pointer. */
  lemma {:induction false} ListBranchesOfListing(bs: seq<BranchLine>)
    requires forall k :: 0 <= k < |bs| ==> GoodBranchLine(bs[k])
    ensures ListBranches(Join(BranchListing(bs), "\n")) == BranchNames(bs)
  {
    var ls := BranchListing(bs);
    if bs == [] {
      assert Split("", '\n') == [""];
      assert CleanBranchLine("") == "";
    } else {
      forall k | 0 <= k < |ls| ensures '\n' !in ls[k] {
        BranchLineHasNoNewline(bs[k]);
      }
      SplitJoin(ls, '\n');
      CleanListing(bs);
    }
  }

  lemma {:induction false} CleanListing(bs: seq<BranchLine>)
    requires forall k :: 0 <= k < |bs| ==> GoodBranchLine(bs[k])
    ensures CleanBranches(BranchListing(bs)) == BranchNames(bs)
  {
    if bs != [] {
      assert BranchListing(bs)[1..] == BranchListing(bs[1..]);
      CleanListing(bs[1..]);
      CleanOneLine(bs[0]);
    }
  }

  lemma BranchLineHasNoNewline(b: BranchLine)
    requires GoodBranchLine(b)
    ensures '\n' !in BranchLineText(b)
  {
    var t := BranchLineText(b);
    match b
    case Local(n, c) =>
      assert t == (if c then "* " else "  ") + n;
      assert forall i :: 0 <= i < |n| ==> n[i] != '\n';
    case Remote(n) =>
      assert forall i :: 0 <= i < |n| ==> n[i] != '\n';
    case RemoteHead(tg) =>
      assert forall i :: 0 <= i < |tg| ==> tg[i] != '\n';
  }

  /** Each printed line cleans up to its name, or is filtered out for the HEAD pointer. */
  lemma CleanOneLine(b: BranchLine)
    requires GoodBranchLine(b)
    ensures var c := CleanBranchLine(BranchLineText(b));
      match b
      case Local(n, _) => KeepBranch(c) && StripOrigin(c) == n
      case Remote(n) => KeepBranch(c) && StripOrigin(c) == n
      case RemoteHead(_) => !KeepBranch(c)
  {
    match b
    case Local(n, cur) => CleanLocalLine(n, cur);
    case Remote(n) => CleanRemoteLine(n);
    case RemoteHead(tg) => CleanHeadLine(tg);
  }

  lemma CleanLocalLine(n: string, cur: bool)
    requires GoodBranchLine(Local(n, cur))
    ensures var c := CleanBranchLine(BranchLineText(Local(n, cur)));
      KeepBranch(c) && StripOrigin(c) == n
  {
    assert CleanBranchLine(BranchLineText(Local(n, cur))) == n by {
      assert n[0] in n && n[|n| - 1] in n;
      if cur { CleanCurrentLine(n); } else { CleanOtherLine(n); }
    }
  }

  lemma CleanCurrentLine(n: string)
    requires n != "" && !IsSpace(n[0]) && !IsSpace(n[|n| - 1])
    ensures CleanBranchLine("* " + n) == n
  {
    var line := "* " + n;
    assert line[0] == '*' && line[|line| - 1] == n[|n| - 1];
    CleanOfTrimmed(line);
    DropMarker(n);
    TrimStartOfSpaces(" ", n);
  }

  /** A line already free of white space at its ends is only stripped of a leading `*`. */
  lemma CleanOfTrimmed(line: string)
    requires line != [] && !IsSpace(line[0]) && !IsSpace(line[|line| - 1])
    ensures CleanBranchLine(line) == if line[0] == '*' then TrimStart(line[1..]) else line
  {
    TrimKeepsClean(line);
  }

  lemma DropMarker(n: string)
    ensures ("* " + n)[1..] == " " + n
  {
  }

  lemma CleanOtherLine(n: string)
    requires n != "" && !IsSpace(n[0]) && !IsSpace(n[|n| - 1]) && n[0] != '*'
    ensures CleanBranchLine("  " + n) == n
  {
    TrimAround("  ", n, "");
    assert "  " + n + "" == "  " + n;
  }

  lemma CleanRemoteLine(n: string)
    requires GoodBranchLine(Remote(n))
    ensures var c := CleanBranchLine(BranchLineText(Remote(n)));
      KeepBranch(c) && StripOrigin(c) == n
  {
    RemoteBody(n);
    CleanOtherLine("remotes/origin/" + n);
  }

  /** What `remotes/origin/<name>` cleans up to. */
  lemma RemoteBody(n: string)
    requires GoodBranchLine(Remote(n))
    ensures var body := "remotes/origin/" + n;
      KeepBranch(body) && StripOrigin(body) == n && body[0] == 'r' && !IsSpace(body[|body| - 1])
  {
    var body := "remotes/origin/" + n;
    NoOccurrenceWithoutHead("remotes/origin/", "->");
    NoArrowAcross("remotes/origin/", n);
    OriginPrefix(n);
    assert body[|body| - 1] == n[|n| - 1] && n[|n| - 1] in n;
  }

  lemma OriginPrefix(n: string)
    ensures StartsWith("remotes/origin/" + n, "remotes/origin/")
    ensures ("remotes/origin/" + n)[|"remotes/origin/"|..] == n
  {
  }

  lemma CleanHeadLine(tg: string)
    requires GoodBranchLine(RemoteHead(tg))
    ensures !KeepBranch(CleanBranchLine(BranchLineText(RemoteHead(tg))))
  {
    HeadBody(tg);
    CleanOtherLine("remotes/origin/HEAD -> " + tg);
  }

  lemma HeadBody(tg: string)
    requires GoodBranchLine(RemoteHead(tg))
    ensures var body := "remotes/origin/HEAD -> " + tg;
      !KeepBranch(body) && body[0] == 'r' && !IsSpace(body[|body| - 1])
  {
    assert tg[|tg| - 1] in tg;
    ArrowInHeadLine(tg);
  }

  lemma ArrowInHeadLine(tg: string)
    ensures Includes("remotes/origin/HEAD -> " + tg, "->")
  {
    var body := "remotes/origin/HEAD -> " + tg;
    assert body[20..22] == "->";
    assert OccursAt(body, "->", 20);
    IncludesExactly(body, "->");
  }

  /** A prefix ending in `/` followed by a name without `->` has no `->` either. */
  lemma NoArrowAcross(a: string, n: string)
    requires a != [] && a[|a| - 1] == '/'
    requires !Includes(a, "->") && !Includes(n, "->")
    ensures !Includes(a + n, "->")
  {
    IncludesExactly(a, "->");
    IncludesExactly(n, "->");
    forall i ensures !OccursAt(a + n, "->", i) {
      if i < 0 || i + 2 > |a + n| {
      } else if i + 2 <= |a| {
        assert (a + n)[i..i + 2] == a[i..i + 2];
        assert !OccursAt(a, "->", i);
      } else if i >= |a| {
        assert (a + n)[i..i + 2] == n[i - |a|..i - |a| + 2];
        assert !OccursAt(n, "->", i - |a|);
      } else {
        assert (a + n)[i..i + 2][0] == a[|a| - 1];
      }
    }
    IncludesExactly(a + n, "->");
  }

  /** A text without the first character of `s` does not contain `s`. */
  lemma NoOccurrenceWithoutHead(t: string, s: string)
    requires s != [] && s[0] !in t
    ensures !Includes(t, s)
  {
    forall i ensures !OccursAt(t, s, i) {
      if 0 <= i && i + |s| <= |t| {
        assert t[i..i + |s|][0] == t[i];
      }
    }
    IncludesExactly(t, s);
  }

  // ---------------------------------------------------------------- repository facts

  /** The last piece of a `/`-separated path. */
  function LastSegment(path: string): (r: string)
    ensures '/' !in r
    ensures EndsWith(path, r)
    ensures r == path || path[|path| - |r| - 1] == '/'
  {
    var pieces := Split(path, '/');
    JoinEndsWithLast(pieces, '/');
    pieces[|pieces| - 1]
  }

  lemma {:induction false} JoinEndsWithLast(pieces: seq<string>, sep: char)
    requires |pieces| >= 1
    ensures var j := Join(pieces, [sep]); var l := pieces[|pieces| - 1];
      EndsWith(j, l) && (|pieces| == 1 || (|l| < |j| && j[|j| - |l| - 1] == sep))
    ensures |pieces| == 1 ==> Join(pieces, [sep]) == pieces[0]
  {
    if |pieces| > 1 {
      JoinEndsWithLast(pieces[1..], sep);
      var rest := Join(pieces[1..], [sep]);
      var l := pieces[|pieces| - 1];
      assert pieces[1..][|pieces[1..]| - 1] == l;
      var j := pieces[0] + [sep] + rest;
      assert Join(pieces, [sep]) == j;
      assert j[|j| - |rest|..] == rest;
      if |pieces| == 2 {
        assert rest == l;
        assert j[|j| - |l| - 1] == sep;
      } else {
        assert j[|j| - |l| - 1] == rest[|rest| - |l| - 1];
      }
    }
  }

  /** `getRepoName()` over the output of `git rev-parse --show-toplevel`. */
  function RepoName(topLevel: string): (name: string)
    ensures '/' !in name
    ensures EndsWith(Trim(topLevel), name)
  {
    LastSegment(Trim(topLevel))
  }

  /** The upstream of the current branch, as `git rev-parse @{u}` finds it: none (or an error),
      or a tracking branch with the count `git rev-list --count @{u}..HEAD` prints and the text
      `git log --oneline @{u}..HEAD` prints. */
  datatype Upstream = NoUpstream | Tracking(ahead: nat, onelineLog: string)

  /** `getUnpushedCommitsCount()`: 0 without an upstream or on error. */
  function UnpushedCommitsCount(u: Upstream): (n: nat)
    ensures u.NoUpstream? ==> n == 0
    ensures u.Tracking? ==> n == u.ahead
  {
    match u
    case NoUpstream => 0
    case Tracking(ahead, _) => ahead
  }

  /** `getUnpushedCommits()`: the non-empty lines of the trimmed log, or none without an
      upstream or on error. */
  function UnpushedCommits(u: Upstream): (r: seq<string>)
    ensures u.NoUpstream? ==> r == []
    ensures forall k :: 0 <= k < |r| ==> r[k] != "" && '\n' !in r[k]
  {
    match u
    case NoUpstream => []
    case Tracking(_, log) => Lines(Trim(log))
  }

  /** Reading back a one-line-per-commit log gives exactly its lines, in order, when the log
      does not start or end with white space. */
  lemma UnpushedCommitsOfLog(ahead: nat, cs: seq<string>)
    requires forall k :: 0 <= k < |cs| ==> cs[k] != "" && '\n' !in cs[k]
    requires cs != [] ==> !IsSpace(cs[0][0]) && !IsSpace(cs[|cs| - 1][|cs[|cs| - 1]| - 1])
    ensures UnpushedCommits(Tracking(ahead, Join(cs, "\n"))) == cs
  {
    var log := Join(cs, "\n");
    if cs == [] {
      assert Split("", '\n') == [""];
    } else {
      JoinEnds(cs, "\n");
      TrimKeepsClean(log);
      SplitJoin(cs, '\n');
      NonEmptyKeepsAll(cs);
    }
  }
}
