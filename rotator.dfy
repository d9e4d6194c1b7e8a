/**
 * The main block (rotate-tokens.py:116-184) after authentication: the three
 * traversals in turn, then the renewal of the session's own token, then the
 * closing summary.
 *
 * Authentication, the credential store's contents, the clipboard and the
 * platform's listing calls are not modelled: the account's tokens, projects
 * and groups are given, and so is the session's own token (the "self" token
 * the platform reports).
 */
module Rotator {
  import opened Tokens
  import opened Effects
  import opened Resolver
  import opened Traversal

  /** Everything the traversals list for the authenticated user. */
  datatype Account = Account(personal: seq<Token>, owned: seq<Project>, groups: seq<Group>)

  /** The closing message: the date rotated tokens will expire on, or that
      nothing needed rotating within the freshness window. */
  datatype Summary = FreshTokens(expires: Date) | NothingToRotate(freshness: int)

  /** A run either reaches its summary or is ended by input running out or
      by an exception in the group traversal. */
  datatype RunResult = Completed(log: seq<Event>, summary: Summary) | Aborted(log: seq<Event>)

  function AccountDueIds(acct: Account, pol: Policy): set<TokenId>
  {
    Ids(Due(acct.personal, pol)) + ProjectsDueIds(acct.owned, pol) + GroupsDueIds(acct.groups, pol)
  }

  /** The three traversals, from a session with the operator's whole input,
      an empty log and the flag down. */
  function Traverse(acct: Account, cfg: Config, lines: seq<string>): Session
  {
    var personal := ResolveEach(Session(lines, [], false, false), Due(acct.personal, cfg.policy), cfg.expiry);
    VisitGroups(VisitProjects(personal, acct.owned, cfg), acct.groups, cfg)
  }

  /** The own token is renewed, and the new secret stored, exactly when it is
      at least `freshness` days old: revocation, expiry and the flag play
      no part. */
  function SelfRenewal(own: Token, freshness: int, expiry: Date): (evs: seq<Event>)
    ensures freshness <= own.createdDaysAgo <==> evs != []
    ensures evs != [] ==> evs == [Rotated(own.id, expiry), CredentialSaved]
  {
    if freshness <= own.createdDaysAgo then [Rotated(own.id, expiry), CredentialSaved] else []
  }

  function RunSpec(acct: Account, own: Token, freshness: int, expiry: Date, lines: seq<string>): RunResult
  {
    var s := Traverse(acct, Config(Policy(own.id, freshness), expiry), lines);
    if s.aborted then Aborted(s.log)
    else Completed(s.log + SelfRenewal(own, freshness, expiry),
                   if s.changed then FreshTokens(expiry) else NothingToRotate(freshness))
  }

  /** The main block from `we_did_something = False` to the summary. */
  method Run(acct: Account, own: Token, freshness: int, expiry: Date, lines: seq<string>)
    returns (r: RunResult)
    ensures r == RunSpec(acct, own, freshness, expiry, lines)
  {
    var cfg := Config(Policy(own.id, freshness), expiry);
    var s := Session(lines, [], false, false);
    s := TraversePersonal(s, acct.personal, cfg);
    if !s.aborted {
      s := TraverseProjects(s, acct.owned, cfg);
    }
    if !s.aborted {
      s := TraverseGroups(s, acct.groups, cfg);
    }
    if s.aborted {
      return Aborted(s.log);
    }
    var log := s.log;
    if freshness <= own.createdDaysAgo {
      log := log + [Rotated(own.id, expiry), CredentialSaved];
    }
    if s.changed {
      r := Completed(log, FreshTokens(expiry));
    } else {
      r := Completed(log, NothingToRotate(freshness));
    }
  }

  lemma {:induction false} OwnIdNotInProjects(ps: seq<Project>, pol: Policy)
    ensures pol.ownId !in ProjectsDueIds(ps, pol)
    decreases |ps|
  {
    if ps != [] {
      OwnTokenNeverDue(ps[0].tokens, pol);
      OwnIdNotInProjects(ps[1..], pol);
    }
  }

  lemma {:induction false} OwnIdNotInGroups(gs: seq<Group>, pol: Policy)
    ensures pol.ownId !in GroupsDueIds(gs, pol)
    decreases |gs|
  {
    if gs != [] {
      OwnTokenNeverDue(gs[0].tokens, pol);
      OwnIdNotInProjects(gs[0].projects, pol);
      OwnIdNotInGroups(gs[1..], pol);
    }
  }

  /** The traversals offer only due tokens, never the session's own, and
      raise the flag exactly when one of them was rotated. */
  lemma TraverseExtends(acct: Account, cfg: Config, lines: seq<string>)
    ensures Extends(Session(lines, [], false, false), Traverse(acct, cfg, lines), AccountDueIds(acct, cfg.policy))
    ensures cfg.policy.ownId !in AccountDueIds(acct, cfg.policy)
  {
    var s0 := Session(lines, [], false, false);
    var s1 := ResolveEach(s0, Due(acct.personal, cfg.policy), cfg.expiry);
    var s2 := VisitProjects(s1, acct.owned, cfg);
    ResolveEachExtends(s0, Due(acct.personal, cfg.policy), cfg.expiry);
    VisitProjectsExtends(s1, acct.owned, cfg);
    VisitGroupsExtends(s2, acct.groups, cfg);
    ExtendsTrans(s0, s1, s2, Ids(Due(acct.personal, cfg.policy)), ProjectsDueIds(acct.owned, cfg.policy));
    ExtendsTrans(s0, s2, Traverse(acct, cfg, lines),
                 Ids(Due(acct.personal, cfg.policy)) + ProjectsDueIds(acct.owned, cfg.policy),
                 GroupsDueIds(acct.groups, cfg.policy));
    OwnTokenNeverDue(acct.personal, cfg.policy);
    OwnIdNotInProjects(acct.owned, cfg.policy);
    OwnIdNotInGroups(acct.groups, cfg.policy);
  }

  /** The summary announces fresh tokens exactly when some token other than
      the session's own was rotated; renewing the own token never counts. */
  lemma SummaryReportsRotation(acct: Account, own: Token, freshness: int, expiry: Date, lines: seq<string>)
    ensures var r := RunSpec(acct, own, freshness, expiry, lines);
            r.Completed? ==>
              (r.summary == FreshTokens(expiry) <==> RotatedIds(r.log) - {own.id} != {})
              && (r.summary == NothingToRotate(freshness) <==> RotatedIds(r.log) - {own.id} == {})
  {
    var cfg := Config(Policy(own.id, freshness), expiry);
    var s := Traverse(acct, cfg, lines);
    TraverseExtends(acct, cfg, lines);
    assert s.log[0..] == s.log;
    TouchedIdsAppend(s.log, SelfRenewal(own, freshness, expiry));
  }

  /** The own token is rotated only by the renewal, which comes last, and
      happens on every completed run where it is old enough. */
  lemma OwnTokenRenewedLast(acct: Account, own: Token, freshness: int, expiry: Date, lines: seq<string>)
    ensures var r := RunSpec(acct, own, freshness, expiry, lines);
            && (own.id in TouchedIds(r.log) <==> r.Completed? && freshness <= own.createdDaysAgo)
            && (r.Completed? && freshness <= own.createdDaysAgo ==>
                  |r.log| >= 2 && r.log[|r.log| - 2..] == [Rotated(own.id, expiry), CredentialSaved]
                  && own.id !in TouchedIds(r.log[..|r.log| - 2]))
  {
    var cfg := Config(Policy(own.id, freshness), expiry);
    var s := Traverse(acct, cfg, lines);
    TraverseExtends(acct, cfg, lines);
    assert s.log[0..] == s.log;
    var renew := SelfRenewal(own, freshness, expiry);
    TouchedIdsAppend(s.log, renew);
    var log := s.log + renew;
    if !s.aborted && renew != [] {
      assert log[..|log| - 2] == s.log;
      assert log[|log| - 2..] == renew;
    }
  }

  /** Only due tokens and the session's own token are ever rotated or
      deleted: revoked, never-expiring and fresh tokens are left alone. */
  lemma OnlyDueTokensTouched(acct: Account, own: Token, freshness: int, expiry: Date, lines: seq<string>)
    ensures TouchedIds(RunSpec(acct, own, freshness, expiry, lines).log)
            <= AccountDueIds(acct, Policy(own.id, freshness)) + {own.id}
  {
    var cfg := Config(Policy(own.id, freshness), expiry);
    var s := Traverse(acct, cfg, lines);
    TraverseExtends(acct, cfg, lines);
    assert s.log[0..] == s.log;
    TouchedIdsAppend(s.log, SelfRenewal(own, freshness, expiry));
  }

  /** A 14-day window, the own token and a personal token both 20 days old:
      the operator is asked about the personal token only; ignoring it leaves
      the summary at "nothing to rotate" although the own token is renewed. */
  lemma IgnoredTokenScenario(own: Token, t: Token, expiry: Date)
    requires own.createdDaysAgo == 20 && t.createdDaysAgo == 20
    requires t.expiresAt.Some? && !t.revoked && t.id != own.id
    ensures RunSpec(Account([own, t], [], []), own, 14, expiry, ["i"])
            == Completed([Rotated(own.id, expiry), CredentialSaved], NothingToRotate(14))
  {
    var pol := Policy(own.id, 14);
    assert Due([own, t], pol) == [t] by {
      assert [own, t][1..] == [t];
      assert [t][1..] == [];
    }
    var s0 := Session(["i"], [], false, false);
    assert Resolve(t, expiry, ["i"]) == Step(Returned(false), [], []) by {
      IgnoreAnswer(t, expiry, "i", []);
      assert ["i"] + [] == ["i"];
    }
    assert ResolveEach(s0, [t], expiry) == Session([], [], false, false) by {
      assert [t][1..] == [];
    }
    assert Traverse(Account([own, t], [], []), Config(pol, expiry), ["i"]) == Session([], [], false, false);
  }

  /** The same run when the operator rotates the personal token: the summary
      announces the new expiry date. */
  lemma RotatedTokenScenario(own: Token, t: Token, expiry: Date)
    requires own.createdDaysAgo == 3 && t.createdDaysAgo == 20
    requires t.expiresAt.Some? && !t.revoked && t.id != own.id
    ensures RunSpec(Account([own, t], [], []), own, 14, expiry, ["r", ""])
            == Completed([Rotated(t.id, expiry)], FreshTokens(expiry))
  {
    var pol := Policy(own.id, 14);
    assert Due([own, t], pol) == [t] by {
      assert [own, t][1..] == [t];
      assert [t][1..] == [];
    }
    var s0 := Session(["r", ""], [], false, false);
    assert Resolve(t, expiry, ["r", ""]) == Step(Returned(true), [], [Rotated(t.id, expiry)]) by {
      RotateAnswer(t, expiry, "r", "", []);
      assert ["r", ""] + [] == ["r", ""];
    }
    assert ResolveEach(s0, [t], expiry) == Session([], [Rotated(t.id, expiry)], true, false) by {
      assert [t][1..] == [];
    }
    assert Traverse(Account([own, t], [], []), Config(pol, expiry), ["r", ""])
           == Session([], [Rotated(t.id, expiry)], true, false);
  }
}
