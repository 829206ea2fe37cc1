/** Formatting rules both translators apply in the same way: the push commit listing, the
    branch name, issue-body truncation, the issue colour table, the pull-request branch and
    change-count fields, the diff excerpt of a review comment and the star count. Where the
    two differ only in wording, the wording is a parameter. */
module Render {
  import opened Common
  import opened Text
  import opened GitHub
  import opened Discord

  /** How many commits a push message lists. */
  const ListedCommits := 5

  const HeadsPrefix := "refs/heads/"

  /** `ref.replace('refs/heads/', '')`: the branch named by a push's ref. */
  function Branch(ref: string): (b: string)
    ensures HeadsPrefix <= ref ==> b == ref[|HeadsPrefix|..]
    ensures (forall j :: 0 <= j <= |ref| ==> !OccursAt(ref, HeadsPrefix, j)) ==> b == ref
    ensures forall i: nat :: FirstOccurrence(ref, HeadsPrefix, i) ==> b == ref[..i] + ref[i + |HeadsPrefix|..]
  {
    RemoveFirst(ref, HeadsPrefix)
  }

  /** Whether none of the commit's texts that are copied whole into its line holds a
      line break (the message contributes only its first line). */
  predicate SingleLine(c: Commit) {
    '\n' !in c.id && '\n' !in c.url && '\n' !in c.authorName
  }

  /** One commit of a push listing: short hash linked to the commit, first line of the
      message, author's name. */
  function CommitLine(c: Commit): (line: string)
    ensures "[`" <= line
    ensures "[`" + Prefix(c.id, 7) + "`](" + c.url + ") - " + FirstLine(c.message) + " - *" <= line
    ensures |line| > |c.authorName| && line[|line| - |c.authorName| - 1..] == c.authorName + "*"
    ensures |line| == |"[`" + Prefix(c.id, 7) + "`](" + c.url + ") - " + FirstLine(c.message) + " - *"| + |c.authorName| + 1
    ensures SingleLine(c) ==> '\n' !in line
  {
    "[`" + Prefix(c.id, 7) + "`](" + c.url + ") - " + FirstLine(c.message) + " - *" + c.authorName + "*"
  }

  /** The lines of the first five commits, in push order. */
  function CommitLines(commits: seq<Commit>): (lines: seq<string>)
    ensures |lines| == if |commits| < ListedCommits then |commits| else ListedCommits
    ensures forall i :: 0 <= i < |lines| ==> lines[i] == CommitLine(commits[i])
  {
    var shown := if |commits| < ListedCommits then |commits| else ListedCommits;
    seq(shown, i requires 0 <= i < shown => CommitLine(commits[i]))
  }

  /** The language-dependent texts of a push message: the line reporting unlisted commits
      is `morePrefix`, the count, then `moreSuffix`; `warning` heads a forced push. */
  datatype PushWording = PushWording(morePrefix: string, moreSuffix: string, warning: string)

  /** Neither text of a wording holds a line break, and the warning does not open the way a
      commit line does. */
  predicate WellWorded(w: PushWording) {
    && '\n' !in w.morePrefix && '\n' !in w.moreSuffix && '\n' !in w.warning
    && w.warning != "" && w.warning[0] != '['
  }

  function MoreLine(w: PushWording, remaining: nat): (line: string)
    ensures WellWorded(w) ==> '\n' !in line
  {
    var n := NatToString(remaining);
    assert forall i :: 0 <= i < |n| ==> n[i] != '\n' by {
      forall i | 0 <= i < |n| ensures n[i] != '\n' {
        assert IsDigit(n[i]);
      }
    }
    w.morePrefix + n + w.moreSuffix
  }

  /** The listed commits, one per line, followed by the count of the others when there
      are more than five. */
  function Listed(w: PushWording, commits: seq<Commit>): (d: string)
    ensures |commits| > 0 ==> "[`" <= d
    ensures |commits| > 0 ==> CommitLine(commits[0]) <= d
  {
    var lines := CommitLines(commits);
    var listing := Join(lines, "\n");
    assert |commits| > 0 ==> "[`" <= listing && CommitLine(commits[0]) <= listing by {
      if |commits| > 1 {
        assert listing == lines[0] + "\n" + Join(lines[1..], "\n");
      }
    }
    if |commits| > ListedCommits then listing + "\n" + MoreLine(w, |commits| - ListedCommits) else listing
  }

  /** The description of a push message: the listing, headed by the warning and an empty
      line for a forced push. */
  function PushDescription(w: PushWording, commits: seq<Commit>, forced: bool): (d: string)
    ensures forced ==> w.warning + "\n\n" <= d
    ensures WellWorded(w) && |commits| > 0 ==> (['['] <= d <==> !forced)
    ensures !forced && |commits| > 0 ==> CommitLine(commits[0]) <= d
  {
    if forced then w.warning + "\n\n" + Listed(w, commits) else Listed(w, commits)
  }

  /** The line reporting the unlisted commits, when there are more than five. */
  function Remainder(w: PushWording, commits: seq<Commit>): (tail: seq<string>)
    ensures |tail| == if |commits| > ListedCommits then 1 else 0
  {
    if |commits| > ListedCommits then [MoreLine(w, |commits| - ListedCommits)] else []
  }

  /** The lines of a listing, when no copied text breaks a line. */
  lemma ListedLines(w: PushWording, commits: seq<Commit>)
    requires WellWorded(w)
    requires |commits| > 0
    requires forall i :: 0 <= i < |commits| ==> SingleLine(commits[i])
    ensures Split(Listed(w, commits), '\n') == CommitLines(commits) + Remainder(w, commits)
  {
    var lines := CommitLines(commits);
    SplitJoin(lines, '\n');
    if |commits| > ListedCommits {
      var more := MoreLine(w, |commits| - ListedCommits);
      SplitPieces(more, '\n');
      SplitAppend(Join(lines, "\n"), '\n', more);
    } else {
      assert lines + [] == lines;
    }
  }

  /** The lines of a push description, when no copied text breaks a line: the warning and
      an empty line for a forced push, then one line per listed commit (the first five),
      then the count of the others when there are more than five. */
  lemma PushDescriptionLines(w: PushWording, commits: seq<Commit>, forced: bool)
    requires WellWorded(w)
    requires |commits| > 0
    requires forall i :: 0 <= i < |commits| ==> SingleLine(commits[i])
    ensures Split(PushDescription(w, commits, forced), '\n')
         == (if forced then [w.warning, ""] else []) + (CommitLines(commits) + Remainder(w, commits))
  {
    var lines := CommitLines(commits) + Remainder(w, commits);
    ListedLines(w, commits);
    if forced {
      ForcedLines(w, commits, lines);
    } else {
      assert PushDescription(w, commits, false) == Listed(w, commits);
      assert [] + lines == lines;
    }
  }

  /** The lines of a forced push's description. */
  lemma ForcedLines(w: PushWording, commits: seq<Commit>, lines: seq<string>)
    requires WellWorded(w)
    requires |commits| > 0
    requires Split(Listed(w, commits), '\n') == lines
    ensures Split(PushDescription(w, commits, true), '\n') == [w.warning, ""] + lines
  {
    assert PushDescription(w, commits, true) == w.warning + "\n\n" + Listed(w, commits);
    SplitHeaded(w.warning, Listed(w, commits), lines);
  }

  /** A line-free heading followed by an empty line adds exactly those two lines. */
  lemma SplitHeaded(heading: string, rest: string, lines: seq<string>)
    requires '\n' !in heading
    requires Split(rest, '\n') == lines
    ensures Split(heading + "\n\n" + rest, '\n') == [heading, ""] + lines
  {
    assert heading + "\n\n" + rest == heading + ['\n'] + ("" + ['\n'] + rest);
    SplitPieces(heading, '\n');
    SplitAppend(heading, '\n', "" + ['\n'] + rest);
    SplitAppend("", '\n', rest);
  }

  /** The number of lines of a push description. */
  lemma PushDescriptionLineCount(w: PushWording, commits: seq<Commit>, forced: bool)
    requires WellWorded(w)
    requires |commits| > 0
    requires forall i :: 0 <= i < |commits| ==> SingleLine(commits[i])
    ensures |Split(PushDescription(w, commits, forced), '\n')|
         == (if |commits| < ListedCommits then |commits| else ListedCommits)
          + (if |commits| > ListedCommits then 1 else 0)
          + (if forced then 2 else 0)
  {
    PushDescriptionLines(w, commits, forced);
  }

  /** The colour of a push message: the alert colour exactly for a forced push. */
  function PushColor(forced: bool): (c: int)
    ensures c == Alert <==> forced
  {
    if forced then Alert else Blurple
  }

  /** `body ? (body.length > cap ? body.substring(0, cap) + '...' : body) : placeholder` */
  function IssueBody(body: Option<string>, cap: nat, placeholder: string): (d: string)
    ensures !Truthy(body) ==> d == placeholder
    ensures Truthy(body) && |body.value| <= cap ==> d == body.value
    ensures Truthy(body) && |body.value| > cap ==> d == body.value[..cap] + Ellipsis
  {
    if Truthy(body) then Ellipsize(body.value, cap) else placeholder
  }

  /** `colors[action] || 0x95a5a6` over the issue colour table. */
  function IssueColor(action: Option<string>): (c: int)
    ensures action == Some("opened") ==> c == Emerald
    ensures action == Some("closed") ==> c == Alizarin
    ensures action == Some("reopened") ==> c == Carrot
    ensures c == Concrete <==> !(action.Some? && action.value in {"opened", "closed", "reopened"})
  {
    match action
    case Some("opened") => Emerald
    case Some("closed") => Alizarin
    case Some("reopened") => Carrot
    case _ => Concrete
  }

  /** The source and target branch of a pull request. */
  function BranchesValue(pr: PullRequest): string {
    "`" + pr.headRef + "` ➡️ `" + pr.baseRef + "`"
  }

  /** The added-line, removed-line and changed-file counts of a pull request. */
  function ChangesValue(pr: PullRequest): string {
    "➕ " + NatToString(pr.additions) + " | ➖ " + NatToString(pr.deletions) + " | 📄 " + NatToString(pr.changedFiles)
  }

  /** How many characters of a diff hunk or comment are kept before the ellipsis. */
  const CommentCap := 300

  const DiffOpen := "```diff\n"
  const DiffClose := "\n```"

  /** The diff a review comment is anchored to, cut to 300 characters plus an ellipsis
      when longer, as a diff code block. */
  function CodeBlock(diffHunk: string): (v: string)
    ensures |diffHunk| <= CommentCap ==> v == DiffOpen + diffHunk + DiffClose
    ensures |diffHunk| > CommentCap ==> v == DiffOpen + diffHunk[..CommentCap] + Ellipsis + DiffClose
    ensures |v| <= |DiffOpen| + CommentCap + |Ellipsis| + |DiffClose|
    ensures DiffOpen <= v
  {
    DiffOpen + Ellipsize(diffHunk, CommentCap) + DiffClose
  }

  /** `issue.pull_request ? "PR" : "Issue"` */
  function ThreadKind(issue: Issue): (kind: string)
    ensures kind == "PR" <==> issue.isPullRequest
    ensures !issue.isPullRequest ==> kind == "Issue"
  {
    if issue.isPullRequest then "PR" else "Issue"
  }

  /** The star count of a repository. */
  function StarsValue(repository: Repository): string {
    NatToString(repository.stargazersCount) + " ⭐"
  }
}
