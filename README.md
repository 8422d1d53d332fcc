# Club 100 bot: claim validator and interaction dispatcher

A model of the two decision-making parts of the Club 100 Discord bot, written as pure Dafny functions with proved properties.

- **`verify`** (src/verify.js) checks a claim that a GitHub pull request earns the club role. It runs an ordered, short-circuiting chain of checks and ends in exactly one of three outcomes:
  1. the link must match `^https://github.com/([\w-]+)/([\w-]+)/pull/(\d+)$`;
  2. the pull request must be fetchable, then merged;
  3. the comments must be fetchable;
  4. the first comment that contains the verification code must be by the pull request's author;
  5. some comment by the Helix bot (user 43241697) must carry `PERFORMANCE-97` or `SCORE-100`.

  Each outcome names the callback that fires: `onsuccess`, `onreject` or `onerror`. In the model these become `Accepted`, `Rejected` and `Errored`.
- **`router.post('/')`** (src/server.js) handles Discord interactions. PING is answered with PONG. A slash command is answered with a message and a button whose custom id is `commented.<code>`. Clicking the button shows a modal whose field custom id is `url.<code>`. Submitting the modal grants the Club 100 role. Any other type gets a 400 response.

The model has five modules:

- `Wrappers`: the `Option` type.
- `Strings`: the JavaScript string built-ins the code uses. These are `includes`, `split` on one character, array indexing that gives `undefined` past the end, and `undefined` printed as text.
- `PullUrl`: a hand-written matcher for the one fixed link pattern.
- `Verification`: `verify`.
- `Server`: the POST handler.

Every effect becomes an input:

- the pull-request fetch and the comments fetch are `Fetched` values;
- whether the signature verified is a boolean;
- the random code from `Math.random().toString(36).substring(2, 15)` is a parameter limited to at most 13 lower-case base-36 characters;
- whether the role-grant PUT succeeded is a boolean.

The reply records which role grant was attempted.

Where the code and its tests disagree, the model follows the code. A link of the wrong shape and a pull request that cannot be fetched are errors (`onerror`), not rejections. The test file expects `onreject`, and for the second case a different message about public repositories.

The modal submission does not call `verify`. It grants the role whatever link was submitted (see the TODO at src/server.js:285-288). The "not a valid PR" reply after the unconditional `return` cannot be reached.

The message answering the slash command is flagged ephemeral (src/server.js:97). Its text asks the user to paste the fixed string `hte5au4a336a` (src/server.js:81-82), not the minted code. The minted code only travels inside the button and field ids.

The lemmas about the steps after the link check assume that `PullUrl.Parse` accepted the link. `PullUrl.ParseIff` proves that this holds exactly for links of the pattern's shape.

The unescaped `.` in `github.com` matches any single character except a line terminator. The pattern has no `u` flag, so it runs over UTF-16 code units. A character outside the Basic Multilingual Plane takes two units and so cannot stand in for that `.`. `PullUrl.IsDotChar` says exactly this.

## Model

| member | source | states |
|---|---|---|
| `Strings.ContainsIffOccurs` | src/verify.js:56-58 | `includes` as modelled holds exactly when the needle occurs at some position of the body |
| `Strings.Split` | src/server.js:116 | `split('.')` yields at least one piece and no piece contains the separator |
| `Strings.JoinSplit` | src/server.js:116 | joining the pieces of a split with the separator gives back the original string |
| `Strings.SplitJoin` | src/server.js:91-116 | splitting a join of separator-free pieces gives back exactly those pieces |
| `Strings.SecondSegmentNeedsDot` | src/server.js:116 | `split('.')[1]` is defined exactly when the string contains a dot |
| `Strings.TaggedSecondSegment` | src/server.js:91-116 | for a dot-free tag and a dot-free code, the second segment of `tag.code` is the code |
| `PullUrl.WordRun` | src/verify.js:8 | the greedy `[\w-]+` run: every character in it is a word character, and the next one is not |
| `PullUrl.ParseSound` | src/verify.js:7-16 | every link the matcher accepts is the head, the any-character, `com/`, owner, `/`, repo, `/pull/`, number; the groups are non-empty and in their classes |
| `PullUrl.ParseComplete` | src/verify.js:7-16 | every link of the pattern's shape is accepted, and the capture groups returned are exactly its owner, repo and number |
| `PullUrl.ParseIff` | src/verify.js:7-11 | the matcher succeeds exactly on the links the anchored pattern matches |
| `Verification.FindFirst` | src/verify.js:56-79 | `find` returns the least index whose comment satisfies the predicate; it returns nothing only when no comment does |
| `Verification.FirstMatchUnique` | src/verify.js:56-58 | whenever index i is the first match, `find` returns exactly i |
| `Verification.Verify` | src/verify.js:1-98 | every error carries one of the three `onerror` messages and every rejection one of the four `onreject` messages; an acceptance carries the fetched, merged pull request and an approval comment by the bot taken from the fetched comments |
| `Verification.MatchedLink` | src/verify.js:14-18 | once the link matches, the outcome depends on the fetched pull request, the comments and the code alone |
| `Verification.WrongLinkIff` | src/verify.js:7-13 | a link that does not match gives the wrong-link error whatever the fetches return, and no other link gives it |
| `Verification.PrNotFoundErrors` | src/verify.js:29-32 | a pull request whose response is not ok gives the "could not find that PR" error, whatever the comments are |
| `Verification.PrFetchThrewErrors` | src/verify.js:18-35 | an exception while fetching or reading the pull request gives the generic checking error |
| `Verification.UnmergedRejected` | src/verify.js:37-39 | an unmerged pull request is rejected as not merged, whatever the comments fetch returns |
| `Verification.CommentsFailedErrors` | src/verify.js:50-53 | for a merged pull request, a not-ok or throwing comments fetch gives the generic checking error |
| `Verification.CodeMissingRejected` | src/verify.js:56-63 | when the code occurs in no comment body, the claim is rejected for the missing verification code |
| `Verification.FirstCodeCommentByOtherRejected` | src/verify.js:56-67 | when the first comment holding the code is not by the pull request's author, the claim is rejected as not by the author, even if a later such comment is |
| `Verification.ScoreMissingRejected` | src/verify.js:68-85 | when the author check passes but no comment is by user 43241697 with either marker, the claim is rejected for the missing score |
| `Verification.CommentsAcceptIff` | src/verify.js:56-91 | the comment checks accept with a exactly when the first code comment is by the author and a is the first bot approval |
| `Verification.AcceptedIff` | src/verify.js:7-91 | the claim is accepted with (q, a) exactly when all of these hold: the link matches; the fetched pull request is q and merged; the comments were fetched; the first code comment is by q's author; and a is the first bot approval |
| `Verification.ApprovalBodyIff` | src/verify.js:76-77 | a body is an approval exactly when `PERFORMANCE-97` or `SCORE-100` occurs in it |
| `Server.HandlePost` | src/server.js:58-324 | a role grant is attempted exactly for a verified modal submission, and always for the club role; the status is 200 exactly for a verified request of the four handled types |
| `Server.BadSignatureRefused` | src/server.js:63-65 | an unverified request gets 401 "Bad request signature." with no grant, whatever its type |
| `Server.PingPongs` | src/server.js:67-73 | PING gets PONG with status 200, no data and no grant |
| `Server.CommandOffersButton` | src/server.js:74-99 | a command gets an ephemeral message with one button whose id is exactly `commented.<id>`, from which the id reads back as the second segment; the shown text does not depend on the id |
| `Server.ComponentShowsModal` | src/server.js:101-128 | a click gets the "Your Club 100 Entry Ticket" modal `club_modal`. It has one required field with lengths 1 to 4000. The field id is `url.` plus the second segment of the clicked id, or `url.undefined` when that id has no dot |
| `Server.MintedIdHasNoDot` | src/server.js:77 | a base-36 id contains no dot |
| `Server.DialogRoundTrip` | src/server.js:91-278 | the command's button id, once clicked, gives the field id `url.<id>`; submitting that field extracts exactly the minted id |
| `Server.SubmitGrantsRole` | src/server.js:276-319 | a submission grants role 1149357829162020955 to the member in their guild; the ephemeral reply is the welcome or "Sorry, that did not work." by the grant's result, and never "not a valid PR" |
| `Server.SubmitIgnoresLink` | src/server.js:276-291 | two submissions from the same member and guild get the same reply and grant, whatever link and field id they carry |
| `Server.UnknownTypeRejected` | src/server.js:322-323 | any other interaction type gets 400 with the "Unknown Type" error and no grant |

## Left out

- Ed25519 signature verification (`verifyDiscordRequest`, src/server.js:327-340) calls into a foreign cryptographic library. It is the `isValid` input, and a missing interaction is `None`.
- The HTTP calls are inputs. These are the GitHub fetches (src/verify.js:19-27, 41-49) and the role-grant PUT (src/server.js:25-42). The GitHub token only reaches those fetches, so it is not a parameter of `Verification.Verify`. The fetched results stand for the responses for the matched owner, repo and number.
- `Math.random()` and its base-36 formatting (src/server.js:77) work on floating point. The minted id is a parameter meeting `Server.IsMintedId`.
- Routing, JSON serialisation, the GET greeting, the 404 catch-all, logging and the unused `exampleinteraction` literal are left out: they are wiring with no decisions in them.
- Callback re-entrancy is left out. If `onsuccess` or `onreject` threw inside the `try`, `onerror` would fire as well. The callbacks are taken not to throw.
- A pull request without `merged` is treated as unmerged by the source (src/verify.js:37-38): that is `Ok(PullRequest(authorId, false))`. One without `user` throws at src/verify.js:35: that is `Threw`.
- A single comment without a `body` is not modelled on its own. In the source it throws only when `find` reaches it. The model covers malformed data for the whole response, as `Threw`.
- Interactions missing fields the handler reads are partly out of scope, because the record has every field. A `type` that is not a number fails every comparison and gets the 400 "Unknown Type" answer: that is any `kind` outside the four handled ones. A missing `guild_id` makes the role-grant PUT fail, and the reply is "Sorry, that did not work.": that is `grantSucceeds` false. A missing `data` throws only for a button click or a modal submission (src/server.js:102, 116, 276), and a missing `member` only for a modal submission (src/server.js:279). Those throws are not modelled. `Server.HandlePost` requires a verified modal submission to carry a first field in its first row, because the source reads it unguarded.
- Discord's button and text-input `type` numbers and the action-row wrapper are not modelled. The model keeps the fields the source sets on them.
