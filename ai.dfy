/** The AI helpers: the provider dispatch with its error wrapping, the prompts built for each
    request, and the clean-up applied to what the model answers. The provider's command-line tool
    is an oracle: `reply` maps a prompt to the text it prints or the error it throws. */
module Ai {
  import opened Wrappers
  import opened JsString

  // ---------------------------------------------------------------- dispatch

  const NotConfigured := "AI provider not configured. Run: gta ai set-provider gemini"
  const GenerationFailed := "AI generation failed: "

  /** The providers the dispatch has a back end for. */
  predicate HasBackEnd(provider: string) {
    provider == "gemini" || provider == "openai" || provider == "anthropic" || provider == "ollama"
  }

  /** `generateWithAI(prompt)`: provider `none` is refused outright; an unknown provider and a
      failing back end are both reported through the catch, which prefixes the message. */
  function GenerateWithAI(provider: string, backEnd: Result<string>): (r: Result<string>)
    ensures r.Success? <==> HasBackEnd(provider) && backEnd.Success?
    ensures r.Success? ==> r.value == backEnd.value
    ensures provider == "none" ==> r == Failure(NotConfigured)
    ensures provider != "none" && r.Failure? ==> StartsWith(r.error, GenerationFailed)
    ensures provider != "none" && !HasBackEnd(provider) ==>
      r == Failure(GenerationFailed + "Unsupported AI provider: " + provider)
  {
    if provider == "none" then Failure(NotConfigured)
    else
      var attempt := if HasBackEnd(provider) then backEnd else Failure("Unsupported AI provider: " + provider);
      match attempt
      case Success(text) => Success(text)
      case Failure(e) => Failure(GenerationFailed + e)
  }

  // ---------------------------------------------------------------- response clean-up

  predicate IsQuote(c: char) {
    c == '"' || c == '\''
  }

  /** `s.replace(/^["']|["']$/g, '')`: one quote at the start and one at the end come off; a lone
      quote is removed once. */
  function StripQuotes(s: string): (r: string)
    ensures |s| - 2 <= |r| <= |s|
    ensures r == s[..|r|] || (|r| < |s| && r == s[1..1 + |r|])
    ensures |s| >= 2 && IsQuote(s[0]) && IsQuote(s[|s| - 1]) ==> r == s[1..|s| - 1]
    ensures s == [] || (!IsQuote(s[0]) && !IsQuote(s[|s| - 1])) ==> r == s
  {
    var a := if s != [] && IsQuote(s[0]) then 1 else 0;
    var b := if |s| > a && IsQuote(s[|s| - 1]) then |s| - 1 else |s|;
    s[a..b]
  }

  /** Quoting a message with any quote characters and stripping gives the message back. */
  lemma StripQuotesOfQuoted(m: string, open: char, close: char)
    requires IsQuote(open) && IsQuote(close)
    ensures StripQuotes([open] + m + [close]) == m
  {
    var s := [open] + m + [close];
    assert s[1..|s| - 1] == m;
  }

  /** `message.trim().split('\n')[0]` with the quotes stripped: the commit message. */
  function CleanCommitMessage(reply: string): (r: string)
    ensures '\n' !in r
  {
    StripQuotes(Split(Trim(reply), '\n')[0])
  }

  /** Whatever white space surrounds the answer and whatever lines follow its first, the commit
      message is the first line with its quotes taken off. */
  lemma CleanCommitMessageOfReply(lead: string, m: string, open: char, close: char, rest: string)
    requires forall i :: 0 <= i < |lead| ==> IsSpace(lead[i])
    requires IsQuote(open) && IsQuote(close) && '\n' !in m
    ensures CleanCommitMessage(lead + ([open] + m + [close]) + "\n" + rest) == m
  {
    FirstLineOfReply(lead, [open] + m + [close], rest);
    StripQuotesOfQuoted(m, open, close);
  }

  /** The first line of a padded answer, when that line starts and ends with something other
      than white space. */
  lemma FirstLineOfReply(lead: string, line: string, rest: string)
    requires forall i :: 0 <= i < |lead| ==> IsSpace(lead[i])
    requires line != [] && !IsSpace(line[0]) && !IsSpace(line[|line| - 1]) && '\n' !in line
    ensures Split(Trim(lead + line + "\n" + rest), '\n')[0] == line
  {
    TrimLeadOff(lead, line, rest);
    FirstLineAfterTrimEnd(line, "\n" + rest);
  }

  lemma TrimLeadOff(lead: string, line: string, rest: string)
    requires forall i :: 0 <= i < |lead| ==> IsSpace(lead[i])
    requires line != [] && !IsSpace(line[0])
    ensures Trim(lead + line + "\n" + rest) == TrimEnd(line + ("\n" + rest))
  {
    assert lead + line + "\n" + rest == lead + (line + ("\n" + rest));
    TrimStartOfSpaces(lead, line + ("\n" + rest));
  }

  lemma FirstLineAfterTrimEnd(line: string, tail: string)
    requires line != [] && !IsSpace(line[|line| - 1]) && '\n' !in line
    requires tail == [] || tail[0] == '\n'
    ensures Split(TrimEnd(line + tail), '\n')[0] == line
  {
    var t := TrimEnd(line + tail);
    TrimEndKeepsLine(line, tail);
    var y := t[|line|..];
    assert y == [] || y[0] == '\n';
    assert t == line + y;
    FirstLineOf(line, y);
  }

  /** Trimming the end never eats into a first part that ends with something other than white
      space, and what is left after it starts where the rest started. */
  lemma TrimEndKeepsLine(line: string, tail: string)
    requires line != [] && !IsSpace(line[|line| - 1])
    ensures var t := TrimEnd(line + tail);
      |t| >= |line| && t[..|line|] == line && (|t| == |line| || t[|line|] == tail[0])
  {
    var t := TrimEnd(line + tail);
    assert !IsSpace((line + tail)[|line| - 1]);
    assert t == (line + tail)[..|t|];
  }

  /** The first piece of a line followed by nothing or by a line break is the line. */
  lemma FirstLineOf(line: string, y: string)
    requires '\n' !in line
    requires y == [] || y[0] == '\n'
    ensures Split(line + y, '\n')[0] == line
  {
    SplitPiece(line, '\n', y);
    if y != [] {
      assert Split(y, '\n') == [""] + Split(y[1..], '\n');
    }
    assert line + "" == line;
  }

  /** `branchName.trim()`, quotes stripped, white-space runs turned into `-`. */
  function CleanBranchName(reply: string): (r: string)
    ensures NoSpace(r)
  {
    assert "-"[0] == '-';
    ReplaceSpaceRuns(StripQuotes(Trim(reply)), "-")
  }

  /** An answer holding just a valid branch name, however padded, cleans up to that name. */
  lemma CleanBranchNameOfReply(lead: string, name: string, trail: string)
    requires forall i :: 0 <= i < |lead| ==> IsSpace(lead[i])
    requires forall i :: 0 <= i < |trail| ==> IsSpace(trail[i])
    requires name != [] && NoSpace(name) && !IsQuote(name[0]) && !IsQuote(name[|name| - 1])
    ensures CleanBranchName(lead + name + trail) == name
  {
    TrimAround(lead, name, trail);
  }

  /** `description.trim()` with the quotes stripped. */
  function CleanDescription(reply: string): (r: string)
    ensures |r| <= |Trim(reply)|
  {
    StripQuotes(Trim(reply))
  }

  /** A quoted one-sentence answer, however padded, cleans up to the sentence. */
  lemma CleanDescriptionOfReply(lead: string, d: string, open: char, close: char, trail: string)
    requires forall i :: 0 <= i < |lead| ==> IsSpace(lead[i])
    requires forall i :: 0 <= i < |trail| ==> IsSpace(trail[i])
    requires IsQuote(open) && IsQuote(close)
    ensures CleanDescription(lead + ([open] + d + [close]) + trail) == d
  {
    var line := [open] + d + [close];
    TrimAround(lead, line, trail);
    StripQuotesOfQuoted(d, open, close);
  }

  // ---------------------------------------------------------------- commit message

  const CommitInstructions := "Generate a concise git commit message for these changes. Follow conventional commits format (type(scope): description).\nKeep it under 72 characters. Only return the commit message, nothing else.\n\n"
  const DiffLimit := 3000

  /** `s.slice(0, n)`. */
  function Prefix(s: string, n: nat): (r: string)
    ensures |r| == if |s| <= n then |s| else n
    ensures StartsWith(s, r)
  {
    if |s| <= n then s else s[..n]
  }

  /** A configured prompt counts only when it is a non-empty string. */
  predicate Truthy(s: Option<string>) {
    s.Some? && s.value != ""
  }

  /** The context sent with the diff: at most its first 3000 characters. */
  function CommitContext(diff: string): (r: string)
    ensures StartsWith(r, "Changes:\n") && |r| <= |"Changes:\n"| + DiffLimit
    ensures StartsWith(diff, r[|"Changes:\n"|..])
    ensures |diff| <= DiffLimit ==> r == "Changes:\n" + diff
  {
    "Changes:\n" + Prefix(diff, DiffLimit)
  }

  /** The prompt: the configured one, or the built-in instructions, followed by the context. */
  function CommitPrompt(custom: Option<string>, context: string): (r: string)
    ensures EndsWith(r, context)
    ensures Truthy(custom) ==> StartsWith(r, custom.value + "\n\n")
    ensures !Truthy(custom) ==> StartsWith(r, CommitInstructions)
  {
    if Truthy(custom) then custom.value + "\n\n" + context else CommitInstructions + context
  }

  /** The diff the prompt shows as the source writes it: the staged one, even when it is empty
      and only the unstaged diff holds the changes. */
  function PromptDiffAsWritten(staged: string, unstaged: string): string {
    staged
  }

  /** The diff the prompt is meant to show: the staged one, or else the unstaged one whose
      presence let the request through. */
  function PromptDiff(staged: string, unstaged: string): (d: string)
    ensures staged != "" ==> d == staged
    ensures staged == "" ==> d == unstaged
  {
    if staged != "" then staged else unstaged
  }

  /** With only unstaged changes, the prompt as written shows no diff at all, while the
      corrected prompt carries (the start of) the unstaged diff. */
  lemma UnstagedOnlyPromptIsEmpty(unstaged: string, custom: Option<string>)
    requires unstaged != ""
    ensures CommitContext(PromptDiffAsWritten("", unstaged)) == "Changes:\n"
    ensures CommitContext(PromptDiff("", unstaged)) != "Changes:\n"
    ensures StartsWith(unstaged, CommitContext(PromptDiff("", unstaged))[|"Changes:\n"|..])
  {
    assert Prefix("", DiffLimit) == "";
    assert "Changes:\n" + "" == "Changes:\n";
  }

  /** `generateCommitMessage()` over the two diffs, the configured prompt, the provider and its
      answer to the prompt, corrected: the prompt carries `PromptDiff`, where the source always
      sends the staged diff (`PromptDiffAsWritten`). */
  function GenerateCommitMessage(staged: string, unstaged: string, custom: Option<string>,
                                 provider: string, reply: string -> Result<string>): (r: Result<string>)
    ensures staged == "" && unstaged == "" ==> r == Failure("No changes to commit")
    ensures r.Success? ==> '\n' !in r.value
    ensures staged != "" || unstaged != "" ==>
      var prompt := CommitPrompt(custom, CommitContext(PromptDiff(staged, unstaged)));
      (r.Success? <==> HasBackEnd(provider) && reply(prompt).Success?) &&
      (r.Success? ==> r.value == CleanCommitMessage(reply(prompt).value))
  {
    if staged == "" && unstaged == "" then Failure("No changes to commit")
    else
      var prompt := CommitPrompt(custom, CommitContext(PromptDiff(staged, unstaged)));
      match GenerateWithAI(provider, reply(prompt))
      case Success(text) => Success(CleanCommitMessage(text))
      case Failure(e) => Failure(e)
  }

  // ---------------------------------------------------------------- branch name

  const BranchInstructions := "Generate a short, kebab-case git branch name for the following task description.\nRules:\n- Use only lowercase letters, numbers, and hyphens\n- Start with a type prefix if obvious (feature/, fix/, chore/)\n- Keep it under 50 characters\n- Return ONLY the branch name\n\n"

  function BranchPrompt(custom: Option<string>, description: string): (r: string)
    ensures EndsWith(r, "Description: " + description)
    ensures Truthy(custom) ==> StartsWith(r, custom.value + "\n\n")
    ensures !Truthy(custom) ==> StartsWith(r, BranchInstructions)
  {
    if Truthy(custom) then custom.value + "\n\n" + ("Description: " + description)
    else BranchInstructions + ("Description: " + description)
  }

  /** `generateBranchName(description)`. */
  function GenerateBranchName(description: string, custom: Option<string>, provider: string,
                              reply: string -> Result<string>): (r: Result<string>)
    ensures r.Success? ==> NoSpace(r.value)
    ensures r.Success? <==> HasBackEnd(provider) && reply(BranchPrompt(custom, description)).Success?
    ensures r.Success? ==> r.value == CleanBranchName(reply(BranchPrompt(custom, description)).value)
  {
    match GenerateWithAI(provider, reply(BranchPrompt(custom, description)))
    case Success(text) => Success(CleanBranchName(text))
    case Failure(e) => Failure(e)
  }

  // ---------------------------------------------------------------- project description

  const DescriptionTail := ".\nKeep it under 100 characters. Return only the description, nothing else."

  /** The file clause: present only for a non-empty list. */
  function FileClause(files: seq<string>): (r: string)
    ensures r == "" <==> files == []
  {
    if |files| > 0 then " with files: " + Join(files, ", ") else ""
  }

  function DescriptionPrompt(name: string, files: seq<string>): string {
    "Generate a brief one-sentence description for a project named \"" + name + "\""
      + FileClause(files) + DescriptionTail
  }

  /** Without files, the prompt names only the project; with files, it lists them all, joined
      with commas, after the name. */
  lemma DescriptionPromptListsFiles(name: string, files: seq<string>)
    ensures files == [] ==>
      DescriptionPrompt(name, files) == "Generate a brief one-sentence description for a project named \"" + name + "\"" + DescriptionTail
    ensures files != [] ==>
      Includes(DescriptionPrompt(name, files), " with files: " + Join(files, ", ") + DescriptionTail)
  {
    var p := DescriptionPrompt(name, files);
    if files != [] {
      var head := "Generate a brief one-sentence description for a project named \"" + name + "\"";
      var t := " with files: " + Join(files, ", ") + DescriptionTail;
      assert p == head + t;
      assert p[|head|..|head| + |t|] == t;
      assert OccursAt(p, t, |head|);
      IncludesExactly(p, t);
    } else {
      assert FileClause(files) == "";
    }
  }

  /** `generateProjectDescription(name, files)`. */
  function GenerateProjectDescription(name: string, files: seq<string>, provider: string,
                                      reply: string -> Result<string>): (r: Result<string>)
    ensures r.Success? <==> HasBackEnd(provider) && reply(DescriptionPrompt(name, files)).Success?
    ensures r.Success? ==> r.value == CleanDescription(reply(DescriptionPrompt(name, files)).value)
  {
    match GenerateWithAI(provider, reply(DescriptionPrompt(name, files)))
    case Success(text) => Success(CleanDescription(text))
    case Failure(e) => Failure(e)
  }

  // ---------------------------------------------------------------- commit summary

  function SummaryPrompt(commits: string): (r: string)
    ensures Includes(r, "\n\n" + commits + "\n\n")
  {
    var head := "Summarize these recent git commits in 2-3 sentences. Focus on what was changed and why it matters:";
    var mid := "\n\n" + commits + "\n\n";
    var r := head + mid + "Return only the summary, nothing else.";
    assert r[|head|..|head| + |mid|] == mid;
    assert OccursAt(r, mid, |head|);
    IncludesExactly(r, mid);
    r
  }

  /** `summarizeCommits()` over the output of `git log -N --format=%h %s`. */
  function SummarizeCommits(log: string, provider: string, reply: string -> Result<string>): (r: Result<string>)
    ensures log == "" ==> r == Failure("No commits found")
    ensures log != "" ==> (r.Success? <==> HasBackEnd(provider) && reply(SummaryPrompt(log)).Success?)
    ensures r.Success? ==> r.value == Trim(reply(SummaryPrompt(log)).value) && Trim(r.value) == r.value
  {
    if log == "" then Failure("No commits found")
    else
      var g := GenerateWithAI(provider, reply(SummaryPrompt(log)));
      if g.Success? then
        TrimIdempotent(g.value);
        Success(Trim(g.value))
      else g
  }
}
