# GitHub-to-Discord webhook bot, modelled in Dafny

The bot turns GitHub webhook events into Discord embeds. It exists in two independent
versions, and both are modelled:

- the AWS Lambda handler (`index.mjs`) checks the `X-Hub-Signature-256` header against an
  HMAC-SHA256 of the raw body. It dispatches on the `X-GitHub-Event` header to seven
  translators (push, issues, pull requests, review comments, issue comments, releases,
  stars), which write Polish text. A ping gets a fixed confirmation.
- the GitHub Action script (`src/index.js`) builds one English embed with an `if/else`
  chain on the event name. It reports every action of an event, handles pull-request
  reviews, and lists assignees for issues.

Modules:

- `Common`: `Option`, and `Attempt`. An `Attempt` is an evaluation that may throw a
  JavaScript exception.
- `Text`: the string operations used: `substring`, the `...` cut, `split`/`join` with
  their round trips, `replace` of a literal, ASCII `toUpperCase`, and decimal rendering.
- `Utf8`: the bytes `Buffer.from` produces. Their injectivity is proved.
- `GitHub`: the payload records. `Discord`: the embed records and the colour constants.
- `Render`: the rules the two versions share. These are the push listing (the first five
  commits, the "N more" line, the force-push warning), the branch, issue-body truncation,
  the issue colour table, the pull-request fields and the diff block. The wording is a
  parameter where the versions differ.
- `Signature`: `verifySignature`. The digest is an uninterpreted function parameter.
- `LambdaHandler`: the handlers of `index.mjs`, the event switch (`Route`) and `handler`
  (`Handle`).
- `ActionScript`: `translateAction`, the branches of `run`, and the post-or-not decision.
- `Parity`: lemmas relating the two versions.

A translator returns `Done(Some(embed))`, `Done(None)` ("no message", which is not an
error), or `Throws`. `Throws` stands for the TypeError JavaScript raises when the code reads
a field of an object the payload lacks. The Lambda handler turns it into a 500; the
script exits with an error.

Behaviours of the code worth noting:

- the release notes are cut to 500 characters with no ellipsis;
- a signature whose UTF-8 length differs from the expected one makes `timingSafeEqual`
  throw, which gives a 500 rather than a quiet rejection;
- the script reports every issue and pull-request action;
- the script cuts an issue comment with no ellipsis;
- the Lambda handler words a reopened pull request as `Zamknął(ęła)` ("closed"), with
  the open colour.

## Model

| member | source | states |
|---|---|---|
| Text.Prefix | index.mjs:80 | `substring(0, n)` keeps min(n, length) characters and is a prefix of the text |
| Text.Ellipsize | index.mjs:163 | a text of length at most the cap is unchanged; a longer one becomes its first `cap` characters plus `...`; the result is never longer than cap + 3 |
| Text.EllipsizeIdempotent | index.mjs:195 | cutting an already cut text changes nothing |
| Text.Split | index.mjs:79 | `split` always gives at least one piece, even for the empty text |
| Text.SplitPieces | index.mjs:79 | no piece contains the separator; the first piece is the text up to the first separator; a text without the separator is its own only piece |
| Text.SplitAppend | index.mjs:83 | a separator placed between two texts splits exactly there: the pieces of the whole are the pieces of each part |
| Text.SplitJoin | index.mjs:78-81 | joining separator-free lines with `\n` and splitting again gives the lines back |
| Text.JoinSplit | index.mjs:79 | splitting and re-joining with the same separator restores the text |
| Text.JoinEmpty | index.mjs:117 | a comma join is empty exactly when the list is empty or holds one empty name, which are the cases that fall back to `Brak` |
| Text.FirstLine | index.mjs:79 | the first line of a commit message has no line break, is a prefix of the message, and is cut exactly at the first `\n` |
| Text.Find | index.mjs:75 | finds the first occurrence of a pattern at or after a position, or reports that there is none |
| Text.RemoveFirst | index.mjs:75 | `replace` with a literal removes only the first occurrence, wherever it is: the text before it and the text after it are kept; text without an occurrence is unchanged |
| Text.Upper | src/index.js:58 | `toUpperCase` keeps the length and upper-cases each ASCII letter |
| Text.Capitalize | src/index.js:29-33 | the capitalised word has the same length, an upper-case first letter, and the rest unchanged |
| Text.NatToString | index.mjs:88 | a count renders as a non-empty decimal numeral without leading zeros whose value is the count |
| Utf8.EncodeChar | index.mjs:254 | one character becomes 1 byte below U+0080, 2 below U+0800, 3 below U+10000 and 4 above; the lead byte announces the width and the others are continuation bytes |
| Utf8.DecodeEncodeChar | index.mjs:254 | decoding the bytes of a character gives the character back |
| Utf8.Encode | index.mjs:254 | a string's bytes are at least as many as its characters |
| Utf8.EncodeInjective | index.mjs:254 | strings with equal bytes are equal, so comparing buffers compares strings |
| Common.Read | index.mjs:109 | reading a field of a missing object throws; reading one of a present object gives its value |
| Common.OrElse | index.mjs:212 | `x \|\| fallback` gives the text when it is non-empty and the fallback when it is missing or empty |
| Render.Branch | index.mjs:75 | the branch is `ref` with its first `refs/heads/` removed, wherever it occurs; a ref without one is unchanged |
| Render.CommitLine | index.mjs:80 | a commit line is the linked 7-character short hash, ` - `, the first line of the message, ` - *`, and ends with the author name and `*`, with nothing between the two parts; it has no line break when the copied texts have none |
| Render.CommitLines | index.mjs:78 | exactly min(5, n) lines, the i-th being the line of the i-th commit |
| Render.MoreLine | index.mjs:83 | the remainder line is a single line |
| Render.Listed | index.mjs:78-83 | a non-empty listing starts with the whole line of the first commit |
| Render.PushDescription | index.mjs:78-84 | a forced push's description starts with the warning and an empty line; otherwise it starts with the whole line of the first commit, so it starts with `[` exactly when not forced |
| Render.ListedLines | index.mjs:78-83 | the listing's lines are the first five commit lines, plus a remainder line exactly when there are more than five |
| Render.PushDescriptionLines | index.mjs:78-84 | the description's lines are the warning and an empty line when forced, then the min(5, n) commit lines, then the remainder line exactly when n > 5 |
| Render.Remainder | index.mjs:83 | one remainder line when there are more than five commits, none otherwise |
| Render.ForcedLines | index.mjs:84 | a forced push's lines are the warning, an empty line, then the listing's lines |
| Render.SplitHeaded | index.mjs:84 | prefixing a heading and an empty line adds exactly those two lines |
| Render.PushDescriptionLineCount | index.mjs:78-84 | the description has min(5, n) + (1 if n > 5) + (2 if forced) lines |
| Render.PushColor | index.mjs:91 | the colour is the alert red exactly for a forced push, whatever the commit count |
| Render.IssueBody | index.mjs:112 | a missing or empty body gives the placeholder; a body up to the cap is kept whole; a longer one is cut at the cap with `...` |
| Render.IssueColor | src/index.js:41-50 | opened is green, closed red and reopened orange; grey is used exactly for every other or missing action |
| Render.CodeBlock | index.mjs:161-163 | the diff block is the diff fence, the hunk when it has at most 300 characters or else its first 300 characters plus `...`, and the closing fence |
| Render.ThreadKind | index.mjs:190 | the comment is on a "PR" when the issue carries a pull-request reference and on an "Issue" otherwise |
| Signature.TimingSafeEqual | index.mjs:254 | throws exactly on buffers of different lengths, otherwise says whether they are equal |
| Signature.VerifySignature | index.mjs:250-255 | false when the signature, body or secret is missing or empty; true exactly when the signature equals `sha256=` + digest; throws exactly on a UTF-8 length mismatch |
| LambdaHandler.HandlePush | index.mjs:71-97 | no message exactly when commits are missing or empty; throws exactly when ref, sender or repository is missing; the colour follows `forced`, the title names the branch |
| LambdaHandler.LabelList | index.mjs:117 | the labels show as `Brak` for no labels (or one empty name), otherwise as their comma join |
| LambdaHandler.HandleIssue | index.mjs:100-122 | no message exactly for actions other than opened/closed/reopened; throws when issue, labels, sender or repository is missing; body cut at 200 with `*Brak opisu*` placeholder; colour per action; the author line is the sender, the Polish verb and the issue number |
| LambdaHandler.PullRequestStatus | index.mjs:129-137 | merged closed → `Zmergował(a)` purple, unmerged closed → dark red, opened → `Otworzył(a)` blue, reopened → `Zamknął(ęła)` blue |
| LambdaHandler.HandlePullRequest | index.mjs:125-153 | no message exactly for other actions; colour and author wording from the status; branch and change-count fields |
| LambdaHandler.HandleReviewComment | index.mjs:156-184 | no message unless created; the file field and the code field (the diff cut to 300 plus `...` only when longer); the description is `**Komentarz:**` and the comment body |
| LambdaHandler.HandleComment | index.mjs:187-201 | no message unless created; the description is the body, or its first 300 characters plus `...`; the author line names "PR" or "Issue" |
| LambdaHandler.ReleaseNotes | index.mjs:212 | empty when absent or empty; the whole body up to 500 characters; a longer body gives exactly its first 500 characters, with no ellipsis |
| LambdaHandler.HandleRelease | index.mjs:204-220 | no message unless published; the description is the bold name and the cut notes; the owner's avatar is the thumbnail |
| LambdaHandler.HandleStar | index.mjs:223-237 | no message unless started; the sender's avatar is the thumbnail, the star count a field, no timestamp |
| LambdaHandler.Dispatch | index.mjs:25-52 | an event outside the switch is ignored; a known one sends nothing exactly when its translator declines; a ping sends the confirmation; each of the seven other events sends exactly its own handler's embed, alone, is silent when that handler declines and fails when it throws |
| LambdaHandler.Route | index.mjs:18-52 | as `Dispatch` for the header's value, and a request without an event header falls to the default case and is ignored |
| LambdaHandler.Header | index.mjs:10 | the lower-case header wins when present and non-empty, otherwise the canonical spelling |
| LambdaHandler.Handle | index.mjs:7-66 | a request without a headers object fails with 500 before anything else; otherwise 401 exactly when verification says false, and always for a missing or empty signature, body or secret; only verified bodies are ever sent; a throw while verifying, a body that does not parse and a translator that throws give 500; a translator that declines gives 200 `OK` with nothing sent; unknown events give 200 `Ignored`; a verified, parsed request whose event yields a message sends that very message, with 200 exactly when it was delivered; statuses are 200, 401 or 500 |
| ActionScript.TranslationsCapitalize | src/index.js:29-33 | the dictionary knows exactly the seven actions, and each word is its action capitalised |
| ActionScript.TranslateAction | src/index.js:28-35 | the seven known actions become their capitalised word; any other action is returned unchanged |
| ActionScript.ListOrNone | src/index.js:43-44 | a missing list shows as `None`; a present list, even an empty one, as its comma join |
| ActionScript.IssueEmbed | src/index.js:39-60 | every action gets a message; throws exactly when action, issue, sender or repository is missing; body cut at 300 with `*No description*`; grey for other actions; labels, assignees, upper-cased action in the footer; the author line is the sender, the translated action and the issue number |
| ActionScript.PullRequestStatus | src/index.js:64-75 | merged closed → `Merged` purple; unmerged closed → `Rejected / Closed` dark red; any other action → its translation, blue |
| ActionScript.PullRequestEmbed | src/index.js:62-90 | every action gets a message; colour and author wording from the status; repository, branches and changes fields |
| ActionScript.ReviewStyle | src/index.js:94-102 | APPROVED → `✅ Approved` green; CHANGES_REQUESTED → `🛑 Requested changes on` red; anything else → `Commented on` grey |
| ActionScript.ReviewEmbed | src/index.js:92-113 | colour and title prefix from the review state; the description is the bold PR title and the review body or nothing |
| ActionScript.PushEmbed | src/index.js:115-134 | no embed exactly when commits are missing or empty; colour follows `forced`; title names the branch |
| ActionScript.ReviewCommentEmbed | src/index.js:136-153 | the file and code fields, the code being the diff cut to 300 plus `...` only when longer |
| ActionScript.IssueCommentEmbed | src/index.js:155-164 | the description is the body when it has at most 300 characters and exactly its first 300 characters otherwise, with no ellipsis; the title names "PR" or "Issue" |
| ActionScript.ReleaseEmbed | src/index.js:165-171 | the description is the release name as given; the owner's avatar is the thumbnail; no footer |
| ActionScript.WatchEmbed | src/index.js:172-178 | the star count is the only field, with no layout hint; no timestamp |
| ActionScript.Translate | src/index.js:39-178 | no embed exactly for an event outside the eight branches or a push without commits; each of the eight events gives exactly its own builder's embed, or its throw |
| ActionScript.Run | src/index.js:180-189 | the built embed is posted as the only embed; nothing is sent exactly when no embed was built; the run fails exactly when building threw |
| Parity.LambdaWordingWellWorded | index.mjs:83-84 | the Polish wording keeps the warning, remainder and commit lines apart |
| Parity.ScriptWordingWellWorded | src/index.js:123-124 | the English wording keeps the warning, remainder and commit lines apart |
| Parity.LambdaPushLines | index.mjs:78-84 | the Lambda push description's lines: warning and empty line if forced, first five commits, `...i N więcej.` for N = n − 5 when n > 5 |
| Parity.ScriptPushLines | src/index.js:119-124 | the script's push description's lines: warning and empty line if forced, first five commits, `...and N more.` for N = n − 5 when n > 5 |
| Parity.PushOutcomeParity | src/index.js:115-134 | both push translators decline and throw on the same payloads |
| Parity.PushEmbedParity | src/index.js:115-134 | for a payload with commits, a ref, a sender and a repository, both push translators report it and agree on colour, link, author and footer |
| Parity.PushLineCountParity | src/index.js:119-124 | when the commit messages are single lines, both push descriptions have the same number of lines |
| Parity.PullRequestColorParity | src/index.js:64-75 | for opened, closed and reopened both versions choose the same pull-request colour |
| Parity.IssueGatingDiffers | index.mjs:102 | for another issue action the Lambda handler sends nothing while the script reports it in grey |
| Parity.IssueBodyCaps | src/index.js:49 | bodies of at most 200 characters read the same in both; from 201 to 300 characters the script keeps them whole and the Lambda handler cuts them |
| Parity.CommentCutParity | src/index.js:160 | a comment longer than 300 characters: the Lambda description is the script's plus `...` |

Helpers without a contract of their own are the fixed-text pieces: the issue verb, the branch
and change-count fields, the star count, `Join`, template interpolation of `undefined`, which
translator declines which payload, and the mapping of a translation to a dispatch outcome.
`SplitCons`, `AppendAssoc`, `PieceAppend` and `SplitAppendStep` are proof steps of
`SplitAppend` and `SplitPieces`.

## Left out

- The HMAC-SHA256 digest is a function parameter with no properties. The constant-time
  behaviour of `timingSafeEqual` is a timing property and is not modelled.
- `sendToDiscord` and the script's `fetch` are network I/O. For the Lambda handler, the
  outcome of the POST is a parameter (`delivered`). The script ignores the response
  status, so `Run` ends at the message it posts.
- Environment variables, `dotenv`, reading the event file and `process.exit` are left out.
  `Handle` takes the secret as a parameter. `Run` starts after the configuration and the
  event file are loaded.
- `JSON.parse` is a library call. It is a parameter of `Handle` that may fail, and
  payloads are already-typed records. A field of the wrong JSON type is not modelled, and
  neither is a `null` where an object or a string is read. A missing release name and a
  `null` one are the same `None`.
- `new Date().toISOString()` is nondeterministic. It is the opaque parameter `now`.
- `console.log` logging and async/await plumbing are left out.
- JavaScript lengths and `substring` count UTF-16 code units; the model counts Unicode
  scalar values. The two agree on text in the Basic Multilingual Plane. Lone surrogates
  cannot be represented, although `Buffer.from` would map them to U+FFFD.
- Text.Upper: does not model Unicode case mapping beyond the ASCII letters.
- ActionScript.TranslateAction: does not model keys inherited from `Object.prototype`
  (`toString`, `constructor`), which the source's plain-object lookup would return.
  Render.IssueColor omits them for the same reason.
- Text.NatToString: renders counts in plain decimal. JavaScript's exponent form for values
  of 10^21 and above is not modelled.
- LambdaHandler.HandlePush: the contract does not state the author (sender login, avatar, link), the footer (repository full name) or the timestamp.
- LambdaHandler.HandleIssue: the contract does not state the author avatar, the URL, the repository field, the `GitHub Issues` footer or the timestamp.
- LambdaHandler.HandlePullRequest: the contract does not state the title (the pull request title), the URL, the author avatar, the footer (repository full name) or the timestamp.
- LambdaHandler.HandleReviewComment: the contract does not state the title (pull request number), the URL, the author, the footer (repository full name) or the timestamp.
- LambdaHandler.HandleComment: the contract does not state the author avatar and link, the colour, the footer (repository full name) or the timestamp.
- LambdaHandler.HandleRelease: the contract does not state the title (tag name), the URL, the colour, the author (sender login), the `Produkcja` footer or the timestamp.
- LambdaHandler.HandleStar: the contract does not state the title, the description (sender login), the colour or the URL (repository link).
- ActionScript.IssueEmbed: the contract does not state the title (issue title), the URL, the repository field, the author avatar and link, or the timestamp.
- ActionScript.PullRequestEmbed: the contract does not state the title (pull request title), the URL, the author avatar and link, the footer (repository name) or the timestamp.
- ActionScript.ReviewEmbed: the contract does not state the URL, the author (sender login), the footer (repository full name) or the timestamp.
- ActionScript.PushEmbed: the contract does not state the author (sender login, avatar, link), the footer (repository full name) or the timestamp.
- ActionScript.ReviewCommentEmbed: the contract does not state the title (pull request number), the URL, the colour, the author (sender login), the footer (repository full name) or the timestamp.
- ActionScript.IssueCommentEmbed: the contract does not state the URL, the colour, the author (sender login), the footer (repository full name) or the timestamp.
- ActionScript.ReleaseEmbed: the contract does not state the title (tag name), the URL, the colour, the author (sender login) or the timestamp.
- ActionScript.WatchEmbed: the contract does not state the title, the colour, the author (sender login) or the URL (repository link).
