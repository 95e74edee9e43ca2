/** The slice of JavaScript's string semantics the tool relies on: `trim`, `split`, `indexOf`,
    `replace`, `startsWith`/`endsWith`, `parseInt` and number formatting. Strings are sequences
    of code points. */
module JsString {
  import opened Wrappers

  /** ECMAScript WhiteSpace and LineTerminator code points: what `trim` strips and `\s` matches. */
  predicate IsSpace(c: char) {
    || c == ' ' || c == '\t' || c == '\n' || c == '\r' || c == '\U{000B}' || c == '\U{000C}'
    || c == '\U{00A0}' || c == '\U{1680}' || ('\U{2000}' <= c <= '\U{200A}')
    || c == '\U{2028}' || c == '\U{2029}' || c == '\U{202F}' || c == '\U{205F}'
    || c == '\U{3000}' || c == '\U{FEFF}'
  }

  predicate NoSpace(s: string) {
    forall i :: 0 <= i < |s| ==> !IsSpace(s[i])
  }

  predicate StartsWith(s: string, prefix: string) {
    |prefix| <= |s| && s[..|prefix|] == prefix
  }

  predicate EndsWith(s: string, suffix: string) {
    |suffix| <= |s| && s[|s| - |suffix|..] == suffix
  }

  /** `s` occurs in `t` at index `i`. */
  predicate OccursAt(t: string, s: string, i: int) {
    0 <= i && i + |s| <= |t| && t[i..i + |s|] == s
  }

  // ---------------------------------------------------------------- trim

  /** `trimStart`: drops the leading white space and nothing else. */
  function TrimStart(s: string): (r: string)
    ensures |r| <= |s| && r == s[|s| - |r|..]
    ensures forall i :: 0 <= i < |s| - |r| ==> IsSpace(s[i])
    ensures r == [] || !IsSpace(r[0])
  {
    if s != [] && IsSpace(s[0]) then TrimStart(s[1..]) else s
  }

  /** `trimEnd`: drops the trailing white space and nothing else. */
  function TrimEnd(s: string): (r: string)
    ensures |r| <= |s| && r == s[..|r|]
    ensures forall i :: |r| <= i < |s| ==> IsSpace(s[i])
    ensures r == [] || !IsSpace(r[|r| - 1])
  {
    if s != [] && IsSpace(s[|s| - 1]) then TrimEnd(s[..|s| - 1]) else s
  }

  /** `trim`. */
  function Trim(s: string): (r: string)
    ensures r == [] || (!IsSpace(r[0]) && !IsSpace(r[|r| - 1]))
  {
    TrimEnd(TrimStart(s))
  }

  /** `trim` is the whole string once the ends are free of white space. */
  lemma TrimKeepsClean(s: string)
    requires s == [] || (!IsSpace(s[0]) && !IsSpace(s[|s| - 1]))
    ensures Trim(s) == s
  {
  }

  /** Leading white space before a body that starts with something else is what `trimStart` drops. */
  lemma {:induction false} TrimStartOfSpaces(lead: string, body: string)
    requires forall i :: 0 <= i < |lead| ==> IsSpace(lead[i])
    requires body == [] || !IsSpace(body[0])
    ensures TrimStart(lead + body) == body
  {
    if lead != [] {
      assert (lead + body)[1..] == lead[1..] + body;
      TrimStartOfSpaces(lead[1..], body);
    } else {
      assert lead + body == body;
    }
  }

  /** Trailing white space after a body that ends with something else is what `trimEnd` drops. */
  lemma {:induction false} TrimEndOfSpaces(body: string, trail: string)
    requires forall i :: 0 <= i < |trail| ==> IsSpace(trail[i])
    requires body == [] || !IsSpace(body[|body| - 1])
    ensures TrimEnd(body + trail) == body
  {
    if trail != [] {
      assert (body + trail)[..|body + trail| - 1] == body + trail[..|trail| - 1];
      TrimEndOfSpaces(body, trail[..|trail| - 1]);
    } else {
      assert body + trail == body;
    }
  }

  /** `trim` gives back a body from around which only white space was added. */
  lemma TrimAround(lead: string, body: string, trail: string)
    requires forall i :: 0 <= i < |lead| ==> IsSpace(lead[i])
    requires forall i :: 0 <= i < |trail| ==> IsSpace(trail[i])
    requires body != [] && !IsSpace(body[0]) && !IsSpace(body[|body| - 1])
    ensures Trim(lead + body + trail) == body
  {
    assert lead + body + trail == lead + (body + trail);
    TrimStartOfSpaces(lead, body + trail);
    TrimEndOfSpaces(body, trail);
  }

  /** Trimming twice changes nothing. */
  lemma TrimIdempotent(s: string)
    ensures Trim(Trim(s)) == Trim(s)
  {
    TrimKeepsClean(Trim(s));
  }

  // ---------------------------------------------------------------- split / join

  /** `pieces.join(sep)`. */
  function Join(pieces: seq<string>, sep: string): string {
    if |pieces| == 0 then ""
    else if |pieces| == 1 then pieces[0]
    else pieces[0] + sep + Join(pieces[1..], sep)
  }

  /** `s.split(sep)` for a one-character separator: never empty, no piece holds the separator,
      and joining the pieces gives `s` back. */
  function Split(s: string, sep: char): (r: seq<string>)
    ensures |r| >= 1
    ensures forall k :: 0 <= k < |r| ==> sep !in r[k]
    ensures Join(r, [sep]) == s
  {
    if s == [] then [""]
    else
      var rest := Split(s[1..], sep);
      if s[0] == sep then [""] + rest
      else [[s[0]] + rest[0]] + rest[1..]
  }

  /** Splitting what was joined gives the pieces back, when no piece holds the separator. */
  lemma {:induction false} SplitJoin(pieces: seq<string>, sep: char)
    requires |pieces| >= 1
    requires forall k :: 0 <= k < |pieces| ==> sep !in pieces[k]
    ensures Split(Join(pieces, [sep]), sep) == pieces
  {
    if |pieces| == 1 {
      SplitPiece(pieces[0], sep, []);
      assert pieces[0] + [] == pieces[0];
    } else {
      var rest := Join(pieces[1..], [sep]);
      var tail := [sep] + rest;
      SplitJoin(pieces[1..], sep);
      assert Join(pieces, [sep]) == pieces[0] + tail;
      assert tail[1..] == rest;
      assert Split(tail, sep) == [""] + pieces[1..];
      SplitPiece(pieces[0], sep, tail);
      assert pieces[0] + "" == pieces[0];
      assert ([""] + pieces[1..])[1..] == pieces[1..];
    }
  }

  /** A separator-free head glues onto the first piece of what follows it. */
  lemma {:induction false} SplitPiece(p: string, sep: char, tail: string)
    requires sep !in p
    requires tail == [] || tail[0] == sep
    ensures Split(p + tail, sep) == [p + Split(tail, sep)[0]] + Split(tail, sep)[1..]
  {
    var x := Split(tail, sep);
    if p != [] {
      SplitPiece(p[1..], sep, tail);
      assert (p + tail)[1..] == p[1..] + tail;
      assert [p[0]] + (p[1..] + x[0]) == p + x[0];
    } else {
      assert p + tail == tail;
      assert "" + x[0] == x[0];
      assert [x[0]] + x[1..] == x;
    }
  }

  /** `filter(Boolean)` on strings: drops the empty ones. */
  function NonEmpty(pieces: seq<string>): (r: seq<string>)
    ensures |r| <= |pieces|
    ensures forall k :: 0 <= k < |r| ==> r[k] != "" && r[k] in pieces
    ensures forall k :: 0 <= k < |pieces| && pieces[k] != "" ==> pieces[k] in r
  {
    if pieces == [] then []
    else if pieces[0] == "" then NonEmpty(pieces[1..])
    else [pieces[0]] + NonEmpty(pieces[1..])
  }

  /** Filtering pieces that are all non-empty keeps every one of them. */
  lemma {:induction false} NonEmptyKeepsAll(pieces: seq<string>)
    requires forall k :: 0 <= k < |pieces| ==> pieces[k] != ""
    ensures NonEmpty(pieces) == pieces
  {
    if pieces != [] {
      NonEmptyKeepsAll(pieces[1..]);
      assert [pieces[0]] + pieces[1..] == pieces;
    }
  }

  /** Joining non-empty pieces starts with the first piece's first character and ends with
      the last piece's last character. */
  lemma JoinEnds(pieces: seq<string>, sep: string)
    requires |pieces| >= 1 && pieces[0] != "" && pieces[|pieces| - 1] != ""
    ensures var j := Join(pieces, sep); var last := pieces[|pieces| - 1];
      j != "" && j[0] == pieces[0][0] && j[|j| - 1] == last[|last| - 1]
  {
    JoinLast(pieces, sep);
    if |pieces| > 1 {
      assert Join(pieces, sep) == pieces[0] + sep + Join(pieces[1..], sep);
    }
  }

  /** A join whose last piece is non-empty ends with that piece's last character. */
  lemma {:induction false} JoinLast(pieces: seq<string>, sep: string)
    requires |pieces| >= 1 && pieces[|pieces| - 1] != ""
    ensures var j := Join(pieces, sep); var last := pieces[|pieces| - 1];
      j != "" && j[|j| - 1] == last[|last| - 1]
  {
    if |pieces| > 1 {
      assert pieces[1..][|pieces| - 2] == pieces[|pieces| - 1];
      JoinLast(pieces[1..], sep);
      assert Join(pieces, sep) == pieces[0] + sep + Join(pieces[1..], sep);
    }
  }

  /** `s.split('\n').filter(Boolean)`: the non-empty lines of a command's output. */
  function Lines(s: string): (r: seq<string>)
    ensures forall k :: 0 <= k < |r| ==> r[k] != "" && '\n' !in r[k]
  {
    NonEmpty(Split(s, '\n'))
  }

  // ---------------------------------------------------------------- search and replace

  /** `t.indexOf(s)`: the first index where `s` occurs, or -1. */
  function IndexOf(t: string, s: string): (r: int)
    ensures -1 <= r <= |t|
    ensures r >= 0 ==> OccursAt(t, s, r)
    ensures forall i :: 0 <= i && (r < 0 || i < r) ==> !OccursAt(t, s, i)
    decreases |t|
  {
    if |s| > |t| then -1
    else if t[..|s|] == s then 0
    else
      var k := IndexOf(t[1..], s);
      assert forall i :: 1 <= i ==> (OccursAt(t, s, i) <==> OccursAt(t[1..], s, i - 1)) by {
        forall i | 1 <= i ensures OccursAt(t, s, i) <==> OccursAt(t[1..], s, i - 1) {
          OccursShift(t, s, i);
        }
      }
      if k < 0 then -1 else k + 1
  }

  lemma OccursShift(t: string, s: string, i: int)
    requires 1 <= i && |t| >= 1
    ensures OccursAt(t, s, i) <==> OccursAt(t[1..], s, i - 1)
  {
    if i + |s| <= |t| {
      assert t[1..][i - 1..i - 1 + |s|] == t[i..i + |s|];
    }
  }

  /** `t.includes(s)`. */
  predicate Includes(t: string, s: string) {
    IndexOf(t, s) >= 0
  }

  lemma IncludesExactly(t: string, s: string)
    ensures Includes(t, s) <==> exists i :: OccursAt(t, s, i)
  {
    if Includes(t, s) {
      assert OccursAt(t, s, IndexOf(t, s));
    }
  }

  /** `t.replace(s, q)` with a plain-string pattern: the first occurrence only. */
  function ReplaceFirst(t: string, s: string, q: string): (r: string)
    ensures IndexOf(t, s) < 0 ==> r == t
    ensures IndexOf(t, s) >= 0 ==>
      var i := IndexOf(t, s); r == t[..i] + q + t[i + |s|..]
  {
    var i := IndexOf(t, s);
    if i < 0 then t else t[..i] + q + t[i + |s|..]
  }

  /** `t.replace(/suffix$/, '')` for a literal suffix: removes one trailing copy. */
  function DropSuffix(t: string, suffix: string): (r: string)
    ensures EndsWith(t, suffix) ==> r + suffix == t
    ensures !EndsWith(t, suffix) ==> r == t
  {
    if EndsWith(t, suffix) then t[..|t| - |suffix|] else t
  }

  /** `s.replace(/\s+/g, rep)`: each maximal run of white space becomes `rep`. */
  function ReplaceSpaceRuns(s: string, rep: string): (r: string)
    requires NoSpace(rep)
    ensures NoSpace(r)
    ensures NoSpace(s) ==> r == s
    decreases |s|
  {
    if s == [] then []
    else if IsSpace(s[0]) then rep + ReplaceSpaceRuns(TrimStart(s), rep)
    else [s[0]] + ReplaceSpaceRuns(s[1..], rep)
  }

  /** `'x'.repeat(n)`. */
  function Repeat(s: string, n: nat): (r: string)
    ensures |r| == |s| * n
  {
    if n == 0 then "" else s + Repeat(s, n - 1)
  }

  /** `toLowerCase` on the ASCII letters. */
  function LowerAscii(s: string): (r: string)
    ensures |r| == |s|
    ensures forall i :: 0 <= i < |s| ==> r[i] == (if 'A' <= s[i] <= 'Z' then (s[i] as int + 32) as char else s[i])
  {
    if s == [] then []
    else [if 'A' <= s[0] <= 'Z' then (s[0] as int + 32) as char else s[0]] + LowerAscii(s[1..])
  }

  // ---------------------------------------------------------------- numbers

  predicate IsDigit(c: char) {
    '0' <= c <= '9'
  }

  predicate AllDigits(s: string) {
    forall i :: 0 <= i < |s| ==> IsDigit(s[i])
  }

  /** The value of a string of decimal digits, most significant first. */
  function DecimalValue(ds: string): (n: nat)
    requires AllDigits(ds)
  {
    if ds == [] then 0 else 10 * DecimalValue(ds[..|ds| - 1]) + (ds[|ds| - 1] as int - '0' as int)
  }

  /** The longest prefix of `s` made of decimal digits. */
  function LeadingDigits(s: string): (r: string)
    ensures AllDigits(r) && StartsWith(s, r)
    ensures |r| == |s| || !IsDigit(s[|r|])
  {
    if s != [] && IsDigit(s[0]) then [s[0]] + LeadingDigits(s[1..]) else ""
  }

  /** `parseInt(s)` in base ten: leading white space, an optional sign, then as many decimal
      digits as there are; `None` stands for NaN (no digit at all). */
  function ParseInt(s: string): (r: Option<int>)
    ensures r.None? <==> LeadingDigits(SignFree(TrimStart(s))) == ""
  {
    var t := TrimStart(s);
    var ds := LeadingDigits(SignFree(t));
    if ds == "" then None
    else if t != [] && t[0] == '-' then Some(0 - DecimalValue(ds) as int)
    else Some(DecimalValue(ds))
  }

  /** What follows an optional leading `+` or `-`. */
  function SignFree(t: string): string {
    if t != [] && (t[0] == '-' || t[0] == '+') then t[1..] else t
  }

  /** `String(n)` for a natural number. */
  function NatToString(n: nat): (s: string)
    ensures |s| >= 1 && AllDigits(s)
    ensures s[0] != '0' || n == 0
  {
    if n < 10 then [('0' as int + n) as char]
    else NatToString(n / 10) + [('0' as int + n % 10) as char]
  }

  /** `String(n)` for an integer. */
  function IntToString(n: int): (s: string)
    ensures |s| >= 1
  {
    if n < 0 then "-" + NatToString(-n) else NatToString(n)
  }

  lemma {:induction false} DecimalValueOfNatToString(n: nat)
    ensures DecimalValue(NatToString(n)) == n
  {
    if n >= 10 {
      DecimalValueOfNatToString(n / 10);
      var s := NatToString(n);
      assert s[..|s| - 1] == NatToString(n / 10);
    }
  }

  lemma {:induction false} LeadingDigitsOfDigits(s: string, tail: string)
    requires AllDigits(s)
    requires tail == [] || !IsDigit(tail[0])
    ensures LeadingDigits(s + tail) == s
  {
    if s != [] {
      LeadingDigitsOfDigits(s[1..], tail);
      assert (s + tail)[1..] == s[1..] + tail;
    }
  }

  /** `parseInt(String(n))` gives `n` back. */
  lemma ParseIntOfIntToString(n: int)
    ensures ParseInt(IntToString(n)) == Some(n)
  {
    var s := IntToString(n);
    var digits := if n < 0 then NatToString(-n) else NatToString(n);
    assert TrimStart(s) == s by {
      assert !IsSpace(s[0]);
    }
    assert SignFree(s) == digits;
    LeadingDigitsOfDigits(digits, []);
    assert digits + [] == digits;
    DecimalValueOfNatToString(if n < 0 then -n else n);
  }
}
