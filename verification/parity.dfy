/** How the two translators relate: the same push rules under different wording, the
    same pull-request colours for the actions both report, and the places where they
    deliberately part (issue gating, the issue-body cap, the issue-comment ellipsis). */
module Parity {
  import opened Common
  import opened Text
  import opened GitHub
  import opened Discord
  import opened Render
  import LambdaHandler
  import ActionScript

  /** The Lambda handler's push wording keeps every line of the description apart. */
  lemma LambdaWordingWellWorded()
    ensures WellWorded(LambdaHandler.Wording)
  {
    var w := LambdaHandler.Wording;
    assert w.warning[0] == '⚠';
    assert forall i :: 0 <= i < |w.warning| ==> w.warning[i] != '\n';
  }

  /** The Action script's push wording keeps every line of the description apart. */
  lemma ScriptWordingWellWorded()
    ensures WellWorded(ActionScript.Wording)
  {
    var w := ActionScript.Wording;
    assert w.warning[0] == '⚠';
    assert forall i :: 0 <= i < |w.warning| ==> w.warning[i] != '\n';
  }

  /** The lines of the Lambda handler's push description: the warning and an empty line
      when forced, the first five commits, and `...i N więcej.` for the N others. */
  lemma LambdaPushLines(p: Payload, now: string)
    requires LambdaHandler.Emits(LambdaHandler.HandlePush(p, now))
    requires forall i :: 0 <= i < |p.commits.value| ==> SingleLine(p.commits.value[i])
    ensures var n := |p.commits.value|;
            Split(LambdaHandler.HandlePush(p, now).value.value.description.value, '\n')
            == (if p.forced then ["⚠️ **FORCE PUSH** (Historia nadpisana!)", ""] else [])
             + (CommitLines(p.commits.value)
                + (if n > ListedCommits then ["...i " + NatToString(n - ListedCommits) + " więcej."] else []))
  {
    LambdaWordingWellWorded();
    PushDescriptionLines(LambdaHandler.Wording, p.commits.value, p.forced);
  }

  /** The lines of the Action script's push description: the warning and an empty line
      when forced, the first five commits, and `...and N more.` for the N others. */
  lemma ScriptPushLines(p: Payload, now: string)
    requires HasCommits(p) && p.ref.Some? && p.sender.Some? && p.repository.Some?
    requires forall i :: 0 <= i < |p.commits.value| ==> SingleLine(p.commits.value[i])
    ensures ActionScript.PushEmbed(p, now).Done? && ActionScript.PushEmbed(p, now).value.Some?
    ensures var n := |p.commits.value|;
            Split(ActionScript.PushEmbed(p, now).value.value.description.value, '\n')
            == (if p.forced then ["⚠️ **FORCE PUSH** (History overwritten!)", ""] else [])
             + (CommitLines(p.commits.value)
                + (if n > ListedCommits then ["...and " + NatToString(n - ListedCommits) + " more."] else []))
  {
    ScriptWordingWellWorded();
    var e := ActionScript.PushEmbed(p, now).value.value;
    assert e.description == Some(PushDescription(ActionScript.Wording, p.commits.value, p.forced));
    PushDescriptionLines(ActionScript.Wording, p.commits.value, p.forced);
  }

  /** The two push translators decline and throw on the same payloads. */
  lemma PushOutcomeParity(p: Payload, now: string)
    ensures LambdaHandler.HandlePush(p, now) == Done(None) <==> ActionScript.PushEmbed(p, now) == Done(None)
    ensures LambdaHandler.HandlePush(p, now).Throws? <==> ActionScript.PushEmbed(p, now).Throws?
  {
  }

  /** When both report a push, they colour it alike and link the same comparison. */
  lemma PushEmbedParity(p: Payload, now: string)
    requires HasCommits(p) && p.ref.Some? && p.sender.Some? && p.repository.Some?
    ensures LambdaHandler.Emits(LambdaHandler.HandlePush(p, now))
    ensures ActionScript.PushEmbed(p, now).Done? && ActionScript.PushEmbed(p, now).value.Some?
    ensures var l := LambdaHandler.HandlePush(p, now).value.value;
            var s := ActionScript.PushEmbed(p, now).value.value;
            l.color == s.color && l.url == s.url && l.author == s.author && l.footer == s.footer
  {
    PushOutcomeParity(p, now);
  }

  /** When both report a push whose commit messages are single lines, their descriptions
      have the same number of lines. */
  lemma PushLineCountParity(p: Payload, now: string)
    requires LambdaHandler.Emits(LambdaHandler.HandlePush(p, now))
    requires forall i :: 0 <= i < |p.commits.value| ==> SingleLine(p.commits.value[i])
    ensures ActionScript.PushEmbed(p, now).Done? && ActionScript.PushEmbed(p, now).value.Some?
    ensures |Split(LambdaHandler.HandlePush(p, now).value.value.description.value, '\n')|
         == |Split(ActionScript.PushEmbed(p, now).value.value.description.value, '\n')|
  {
    PushOutcomeParity(p, now);
    LambdaWordingWellWorded();
    ScriptWordingWellWorded();
    var l := LambdaHandler.HandlePush(p, now).value.value;
    var s := ActionScript.PushEmbed(p, now).value.value;
    assert l.description == Some(PushDescription(LambdaHandler.Wording, p.commits.value, p.forced));
    assert s.description == Some(PushDescription(ActionScript.Wording, p.commits.value, p.forced));
    PushDescriptionLineCount(LambdaHandler.Wording, p.commits.value, p.forced);
    PushDescriptionLineCount(ActionScript.Wording, p.commits.value, p.forced);
  }

  /** For the actions the Lambda handler reports, both pull-request translators choose the
      same colour. */
  lemma PullRequestColorParity(p: Payload, now: string)
    requires LambdaHandler.Emits(LambdaHandler.HandlePullRequest(p, now))
    ensures ActionScript.PullRequestEmbed(p, now).Done?
    ensures LambdaHandler.HandlePullRequest(p, now).value.value.color == ActionScript.PullRequestEmbed(p, now).value.color
  {
  }

  /** An issue action outside opened, closed and reopened: the Lambda handler sends
      nothing, the Action script reports it in grey. */
  lemma IssueGatingDiffers(p: Payload, now: string)
    requires p.action.Some? && p.action.value !in LambdaHandler.LifecycleActions
    requires p.issue.Some? && p.sender.Some? && p.repository.Some?
    ensures LambdaHandler.HandleIssue(p, now) == Done(None)
    ensures ActionScript.IssueEmbed(p, now).Done?
    ensures ActionScript.IssueEmbed(p, now).value.color == Some(Concrete)
  {
  }

  /** Issue bodies up to 200 characters are shown whole by both translators; from 201 to
      300 characters only the Action script shows them whole, the Lambda handler cuts them. */
  lemma IssueBodyCaps(body: string)
    requires body != ""
    ensures |body| <= LambdaHandler.IssueCap ==>
              IssueBody(Some(body), LambdaHandler.IssueCap, "*Brak opisu*")
              == IssueBody(Some(body), ActionScript.IssueCap, "*No description*")
    ensures LambdaHandler.IssueCap < |body| <= ActionScript.IssueCap ==>
              && IssueBody(Some(body), ActionScript.IssueCap, "*No description*") == body
              && IssueBody(Some(body), LambdaHandler.IssueCap, "*Brak opisu*")
                 == body[..LambdaHandler.IssueCap] + Ellipsis
  {
  }

  /** A long issue comment: the Lambda handler ends its cut with an ellipsis, the Action
      script cuts it bare, so the two descriptions differ exactly by that ellipsis. */
  lemma CommentCutParity(p: Payload, now: string)
    requires LambdaHandler.Emits(LambdaHandler.HandleComment(p, now))
    requires |p.comment.value.body| > CommentCap
    ensures ActionScript.IssueCommentEmbed(p, now).Done?
    ensures LambdaHandler.HandleComment(p, now).value.value.description.value
            == ActionScript.IssueCommentEmbed(p, now).value.description.value + Ellipsis
  {
  }
}
