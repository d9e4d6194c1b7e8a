# GitLab token rotator: the rotation-decision core

This project models the decision logic of `rotate-tokens.py`, a script that
goes through every access token an account can manage and asks the operator,
token by token, whether to rotate, delete or ignore it. It then proves
properties of that model. The model covers:

- the freshness policy `needs_rotation`, which decides which tokens are put
  before the operator (`Tokens`);
- the operator's answers at the prompts, which look only at their first
  character, lower-cased (`Operator`);
- the per-token prompt loop `process_token` (`Resolver`);
- the three traversals: personal tokens, the projects the user owns, and
  each group together with its projects (`Traversal`);
- the renewal of the session's own token and the closing summary
  (`Rotator`);
- the choice and normalisation of the instance URL (`Instance`).

State that the script keeps in globals and in the operator's terminal is
threaded by value as a `Traversal.Session`. It holds the lines the operator
has still to type, the log of observable effects (`Effects.Event`: rotations,
deletions, notices, the credential write), the flag `we_did_something`, and
whether an uncaught exception has ended the run. Input running out raises
EOFError in `input()`, and nothing catches it, so it ends the run.

Each loop of the script is a method proved equal to a specification
function: `Resolver.ResolveToken` to `Resolver.Resolve`,
`Traversal.TraversePersonal` to `ResolveEach` over the due tokens,
`Traversal.TraverseProjects` to `VisitProjects`, `Traversal.TraverseGroups` to
`VisitGroups`, and `Rotator.Run` to `RunSpec`. The properties the script
promises are proved as lemmas about those functions. The main ones are:

- only due tokens are ever rotated or deleted, so revoked, never-expiring
  and fresh tokens are left alone;
- the session's own token is never offered to the operator and is renewed
  only at the very end;
- the summary announces fresh tokens exactly when some other token was
  rotated;
- answers that are not recognised, and deletions that are declined, leave
  no trace;
- the group gate skips a whole group on `i`.

A project dictionary (`project_tokens`) is an association list kept in
insertion order (`Traversal.Sections`). Assigning to an existing key replaces
that key's value in place, as a Python `dict` does. So two projects of one
group that share a name leave only the later project's tokens to be offered
(`Traversal.SameNameOverwrites`).

An empty instance value, such as `GITLAB_INSTANCE=""`, normalises to
`https:/` (`Instance.EmptyValue`). Normalising an already normalised URL can
change it again (`Instance.NotIdempotent`).

## Model

| member | source | states |
|---|---|---|
| Tokens.NeedsRotation | rotate-tokens.py:45-53 | revoked and never-expiring tokens and the session's own token are never due; any other token is due exactly when it is at least `freshness` days old |
| Tokens.DueStaysDue | rotate-tokens.py:51-53 | a token that is due stays due as it gets older |
| Tokens.WiderWindowFewerDue | rotate-tokens.py:51-53 | a token due under a wider freshness window is due under a narrower one |
| Tokens.Due | rotate-tokens.py:134 | the filtered list is no longer than the original and holds exactly the tokens of the original that need rotation |
| Tokens.DueAppend | rotate-tokens.py:134 | filtering distributes over concatenation, so due tokens keep the platform's order |
| Tokens.OwnTokenNeverDue | rotate-tokens.py:49-50 | the session's own token is never among the due tokens of any list |
| Tokens.FreshTokenFiltered | rotate-tokens.py:51-52 | with a 14-day window, a token created 3 days ago is dropped and one created 30 days ago is kept |
| Operator.Parse | rotate-tokens.py:69-88 | an answer selects rotate, delete or ignore exactly when its first character is `r`/`R`, `d`/`D` or `i`/`I`; the empty line and anything else selects none of them |
| Operator.Confirms | rotate-tokens.py:78 | a confirmation is given exactly when the answer starts with `y` or `Y` |
| Resolver.Resolve | rotate-tokens.py:67-88 | only a suffix of the input is left; a `True` return comes with exactly one rotation of the token; a `False` return comes with nothing or exactly one deletion of it; running out of input leaves no lines and at most the rotation |
| Resolver.ResolveToken | rotate-tokens.py:67-88 | the `while True` prompt loop returns the outcome, the remaining input and the effects that `Resolve` specifies |
| Resolver.RotateAnswer | rotate-tokens.py:70-76 | `r` followed by the acknowledging line rotates the token once with the new expiry date, returns `True` and consumes both lines |
| Resolver.IgnoreAnswer | rotate-tokens.py:85-86 | `i` returns `False`, has no effect and consumes one line |
| Resolver.ConfirmedDelete | rotate-tokens.py:77-82 | `d` confirmed with `y` deletes the token once and returns `False` |
| Resolver.RetryLeavesNoTrace | rotate-tokens.py:83-88 | one unrecognised answer, or one declined deletion, ends exactly as if it had not been typed |
| Resolver.RetriesLeaveNoTrace | rotate-tokens.py:68-88 | any number of unrecognised answers and declined deletions before the decisive lines leave no trace |
| Traversal.ResolveEachExtends | rotate-tokens.py:138-140 | resolving a list of tokens only consumes input from the front and appends to the log; it rotates or deletes only tokens of the list, never lowers the flag, and raises it exactly when one of them was rotated and the run went on |
| Traversal.TraversePersonal | rotate-tokens.py:122-126 | the loop over personal tokens resolves exactly the due tokens, in order |
| Traversal.ResolveTokens | rotate-tokens.py:138-140 | the loop `for t in tokens: if process_token(t): ...` resolves each token in turn |
| Traversal.TraverseProjects | rotate-tokens.py:129-140 | the loop over owned projects gives the project-by-project specification |
| Traversal.ProjectWithoutDueTokensSkipped | rotate-tokens.py:132-137 | a project without tokens is passed over silently; one whose tokens are all fresh is passed over with the "all fresh" notice; neither reads input nor touches a token |
| Traversal.VisitProjectsExtends | rotate-tokens.py:129-140 | the owned-project traversal rotates or deletes only due tokens of those projects and keeps the flag in step with the rotations |
| Traversal.Put | rotate-tokens.py:155 | assigning to a new key appends it last with the given tokens; assigning to an existing key replaces the value of its first entry in place and changes nothing else; no token ids other than those assigned are introduced |
| Traversal.PutTwice | rotate-tokens.py:155 | assigning to one key twice leaves exactly the second value |
| Traversal.CollectProjectTokens | rotate-tokens.py:149-155 | the loop over a group's projects builds the dictionary of their due tokens |
| Traversal.CollectIds | rotate-tokens.py:149-155 | the dictionary holds only due tokens of the group's projects |
| Traversal.CollectNothingDue | rotate-tokens.py:153-155 | a project without due tokens never enters the dictionary |
| Traversal.CollectDistinctNames | rotate-tokens.py:149-155 | when the projects' names are distinct, the dictionary has exactly one entry per project with due tokens, in project order |
| Traversal.SameNameOverwrites | rotate-tokens.py:150-155 | for any dictionary, two consecutive projects named alike that both have due tokens give the same dictionary as assigning only the later project's tokens, so the earlier project's tokens are never offered |
| Traversal.ResolveProjectSections | rotate-tokens.py:169-173 | the intended loop over `(name, tokens)` pairs prints each project's header and then resolves its tokens, as `ResolveSections` specifies |
| Traversal.ResolveSectionsExtends | rotate-tokens.py:169-173 | resolving the dictionary rotates or deletes only tokens held in it |
| Traversal.RotatingEveryToken | rotate-tokens.py:138-140 | an operator who rotates every token offered gets every token of the list rotated, in order, with the flag raised when the list is not empty |
| Traversal.SectionsRotatingEveryToken | rotate-tokens.py:169-173 | resolved as intended, an operator who rotates everything gets every dictionary token rotated, each project's under its header, and the run goes on |
| Traversal.SectionsAsWritten | rotate-tokens.py:169-173 | as written, a non-empty dictionary ends the run without consuming input and without rotating or deleting anything |
| Traversal.SectionsAsWrittenLosesTokens | rotate-tokens.py:169-173 | as written, an operator who would rotate every project token gets none rotated, although there are tokens to rotate |
| Traversal.TraverseGroups | rotate-tokens.py:143-173 | the loop over groups gives the group-by-group specification |
| Traversal.VisitGroupExtends | rotate-tokens.py:143-173 | a group rotates or deletes only its own due tokens and those of its projects |
| Traversal.VisitGroupsExtends | rotate-tokens.py:143-173 | the group traversal rotates or deletes only due tokens of the groups and their projects |
| Traversal.NothingDueSkipsGate | rotate-tokens.py:158-160 | a group with no due token, itself or in its projects, gets the "nothing to rotate" notice and no gate question |
| Traversal.GateIgnoreSkipsGroup | rotate-tokens.py:161-163 | `i` at the gate consumes only that line and skips every token of the group and its projects |
| Traversal.GroupTokensFirst | rotate-tokens.py:166-173 | past the gate, every effect on a group token comes before every effect on a project token |
| Rotator.SelfRenewal | rotate-tokens.py:176-180 | the own token is rotated and its new secret stored exactly when it is at least `freshness` days old |
| Rotator.Run | rotate-tokens.py:119-184 | the main block runs the three traversals in order, stops on an uncaught exception, then renews the own token and picks the summary |
| Rotator.TraverseExtends | rotate-tokens.py:121-173 | the three traversals together touch only due tokens, never the own token, and raise the flag exactly when they rotated something and the run went on |
| Rotator.SummaryReportsRotation | rotate-tokens.py:181-184 | a completed run announces fresh tokens exactly when a token other than the own one was rotated, and "nothing to rotate" otherwise |
| Rotator.OwnTokenRenewedLast | rotate-tokens.py:175-180 | the own token is touched exactly when the run completes and it is old enough; then its rotation and the credential write are the last two effects, and nothing before them touches it |
| Rotator.OnlyDueTokensTouched | rotate-tokens.py:119-180 | every token a run rotates or deletes is a due token or the session's own |
| Rotator.IgnoredTokenScenario | rotate-tokens.py:122-184 | an ignored personal token leaves the summary at "nothing to rotate" while the old own token is still renewed |
| Rotator.RotatedTokenScenario | rotate-tokens.py:122-184 | a rotated personal token, with a fresh own token, gives the "fresh tokens" summary and exactly that one rotation |
| Instance.HasDoubleSlash | rotate-tokens.py:39 | `'//' in s` holds exactly when two adjacent characters are both `/` |
| Instance.Normalise | rotate-tokens.py:32-42 | no value gives `https://gitlab.com`; a non-empty value without `//` gets the `https://` prefix; the result is the prefixed value less at most one trailing slash, and a trailing slash is always removed; a value with `//` and no trailing slash is kept as it is |
| Instance.ResolveInstance | rotate-tokens.py:32-42 | the argument wins over the environment variable, and the successive assignments to `args.instance` give `Normalise` of that value |
| Instance.NotIdempotent | rotate-tokens.py:39-42 | `a//` normalises to `a/`, which normalises again to `https://a` |
| Instance.EmptyValue | rotate-tokens.py:39-42 | an empty value normalises to `https:/` |

## Left out

- Authentication loop (rotate-tokens.py:91-113): credential-store reads and writes, the browser, the clipboard and the retry/exit prompt are I/O. The model starts after a successful login.
- Argument parsing (rotate-tokens.py:10-30): `--lifetime` is reduced to the expiry date it produces (`expiry`), and `--freshness` is a parameter.
- The status block printed before each prompt (rotate-tokens.py:55-65) and every other `print`: display only. The notices that decide what the operator sees next (all fresh, nothing due, project header) are kept as events.
- Clock readings and date arithmetic: each token's age is given in whole days (`createdDaysAgo`), taken once when the token is listed, and dates are day numbers. The session's own token is not listed: its `createdDaysAgo` stands for the age computed at rotate-tokens.py:177, after all traversals.
- Platform calls: listing is replaced by the given `Rotator.Account`. `rotate()` and `delete()` are effects that always succeed; an API error they would raise is not modelled.
- Operator.Lower: only ASCII capitals are mapped. No other single character lower-cases to exactly one of `r`, `d`, `i` or `y`, so the comparisons keep their meaning.
- Rotator.SelfRenewal: the test `if this_scripts_token and ...` is modelled as always passing its first half, because the object the platform returns for "self" is truthy.
- The copy of each new secret to the clipboard (rotate-tokens.py:74) is not modelled and produces no event. The keyring write on self-renewal (rotate-tokens.py:180) is modelled as the `CredentialSaved` event.

## Findings

| source | as written | input that shows it | evidently intended | confidence | as-written member | corrected member |
|---|---|---|---|---|---|---|
| rotate-tokens.py:169 | `for project_name, tokens in project_tokens:` iterates the dictionary's keys and unpacks each name string. A name not of two characters raises ValueError, and a two-character name hands its second character to `process_token`, which raises AttributeError. Either way the run ends before any project token is offered. | a group with one project named `api` holding one due token, and the operator answering `r` and pressing enter | iterate `project_tokens.items()`, printing each project's header and offering its tokens | not executed | Traversal.SectionsAsWritten, Traversal.SectionsAsWrittenLosesTokens | Traversal.ResolveSections, Traversal.SectionsRotatingEveryToken |

The rest of the model (`Traversal.VisitGroup`, `Traversal.TraverseGroups`,
`Rotator.Run`) uses the corrected iteration.
