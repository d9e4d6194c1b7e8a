/**
 * The three traversals of the main block (rotate-tokens.py:121-173): the
 * user's personal tokens, the tokens of the projects the user owns, and the
 * tokens of each group the user belongs to together with those of the
 * group's projects.
 *
 * The state the traversals share is threaded through them as a `Session`:
 * the operator's remaining lines, the events so far, the flag
 * `we_did_something`, and whether an uncaught exception has ended the run.
 */
module Traversal {
  import opened Tokens
  import opened Operator
  import opened Effects
  import opened Resolver

  datatype Session = Session(lines: seq<string>, log: seq<Event>, changed: bool, aborted: bool)

  /** The freshness policy and the expiry date given to every rotation. */
  datatype Config = Config(policy: Policy, expiry: Date)

  datatype Project = Project(name: string, tokens: seq<Token>)

  datatype Group = Group(name: string, tokens: seq<Token>, projects: seq<Project>)

  /** The `project_tokens` dictionary: project names in insertion order, each
      with its due tokens. */
  type Sections = seq<(string, seq<Token>)>

  /** One `if process_token(t): we_did_something = True`. */
  function Feed(s: Session, t: Token, expiry: Date): Session
  {
    if s.aborted then s
    else
      var st := Resolve(t, expiry, s.lines);
      Session(st.rest, s.log + st.events, s.changed || st.outcome == Returned(true),
              st.outcome == InputExhausted)
  }

  /** The resolver applied to each token of a list in turn. */
  function ResolveEach(s: Session, ts: seq<Token>, expiry: Date): (r: Session)
    ensures s.aborted ==> r == s
    decreases |ts|
  {
    if ts == [] then s else ResolveEach(Feed(s, ts[0], expiry), ts[1..], expiry)
  }

  /** The ids of all tokens held in a dictionary of sections. */
  function SectionIds(d: Sections): set<TokenId>
  {
    if d == [] then {} else Ids(d[0].1) + SectionIds(d[1..])
  }

  /** The ids of the due tokens of a list of projects. */
  function ProjectsDueIds(ps: seq<Project>, pol: Policy): set<TokenId>
  {
    if ps == [] then {} else Ids(Due(ps[0].tokens, pol)) + ProjectsDueIds(ps[1..], pol)
  }

  /** The ids of the due tokens of a list of groups and of their projects. */
  function GroupsDueIds(gs: seq<Group>, pol: Policy): set<TokenId>
  {
    if gs == [] then {}
    else Ids(Due(gs[0].tokens, pol)) + ProjectsDueIds(gs[0].projects, pol) + GroupsDueIds(gs[1..], pol)
  }

  /**
   * How a later session `r` relates to an earlier one `s` when only tokens
   * with ids in `ids` were offered to the resolver in between: input was
   * consumed from the front, events were only appended, an ended run stays
   * as it was, the flag was never reset, only tokens in `ids` were rotated
   * or deleted, and the flag was raised exactly when a token was rotated
   * and the resolver returned (a rotation whose acknowledgement ran into the
   * end of input ends the run without raising it).
   */
  ghost predicate Extends(s: Session, r: Session, ids: set<TokenId>)
  {
    && IsSuffix(r.lines, s.lines)
    && |s.log| <= |r.log| && r.log[..|s.log|] == s.log
    && (s.aborted ==> r == s)
    && (s.changed ==> r.changed)
    && TouchedIds(r.log[|s.log|..]) <= ids
    && (r.changed ==> s.changed || RotatedIds(r.log[|s.log|..]) != {})
    && (!r.aborted && RotatedIds(r.log[|s.log|..]) != {} ==> r.changed)
  }

  lemma ExtendsTrans(s: Session, m: Session, r: Session, a: set<TokenId>, b: set<TokenId>)
    requires Extends(s, m, a) && Extends(m, r, b)
    ensures Extends(s, r, a + b)
  {
    var n1, n2 := m.log[|s.log|..], r.log[|m.log|..];
    assert r.log[|s.log|..] == n1 + n2;
    TouchedIdsAppend(n1, n2);
    assert r.log[..|s.log|] == m.log[..|m.log|][..|s.log|];
    assert r.lines == s.lines[|s.lines| - |r.lines|..];
  }

  lemma ExtendsRefl(s: Session)
    ensures Extends(s, s, {})
  {
    assert s.log[|s.log|..] == [];
    assert s.lines[|s.lines| - |s.lines|..] == s.lines;
  }

  lemma IdsCons(ts: seq<Token>)
    requires ts != []
    ensures Ids(ts) == {ts[0].id} + Ids(ts[1..])
  {
    assert ts == [ts[0]] + ts[1..];
  }

  /** A notice only appends to the log. */
  lemma NoticeExtends(s: Session, e: Event)
    requires !s.aborted && !e.Rotated? && !e.Deleted?
    ensures Extends(s, s.(log := s.log + [e]), {})
  {
    var r := s.(log := s.log + [e]);
    assert r.log[|s.log|..] == [e];
    assert r.log[..|s.log|] == s.log;
  }

  /** The resolver rotates or deletes at most the token it is given. */
  lemma FeedExtends(s: Session, t: Token, expiry: Date)
    ensures Extends(s, Feed(s, t, expiry), {t.id})
  {
    if !s.aborted {
      var st := Resolve(t, expiry, s.lines);
      var r := Feed(s, t, expiry);
      assert r.log[|s.log|..] == st.events;
      assert r.log[..|s.log|] == s.log;
    }
  }

  /** Resolving a list of tokens rotates or deletes only tokens of the list,
      and raises the flag exactly when one of them was rotated. */
  lemma {:induction false} ResolveEachExtends(s: Session, ts: seq<Token>, expiry: Date)
    ensures Extends(s, ResolveEach(s, ts, expiry), Ids(ts))
    decreases |ts|
  {
    if ts == [] {
      ExtendsRefl(s);
    } else {
      var m := Feed(s, ts[0], expiry);
      FeedExtends(s, ts[0], expiry);
      ResolveEachExtends(m, ts[1..], expiry);
      ExtendsTrans(s, m, ResolveEach(m, ts[1..], expiry), {ts[0].id}, Ids(ts[1..]));
      IdsCons(ts);
    }
  }

  // ---------------------------------------------------------------------
  // Personal tokens (rotate-tokens.py:122-126)

  /** Each personal token is offered to the resolver if it is due; the
      result is the resolver applied to exactly the due tokens, in order. */
  method TraversePersonal(s: Session, tokens: seq<Token>, cfg: Config) returns (r: Session)
    requires !s.aborted
    ensures r == ResolveEach(s, Due(tokens, cfg.policy), cfg.expiry)
  {
    r := s;
    for i := 0 to |tokens|
      invariant !r.aborted
      invariant ResolveEach(r, Due(tokens[i..], cfg.policy), cfg.expiry)
                == ResolveEach(s, Due(tokens, cfg.policy), cfg.expiry)
    {
      assert tokens[i..][1..] == tokens[i + 1..];
      if NeedsRotation(tokens[i], cfg.policy) {
        assert Due(tokens[i..], cfg.policy) == [tokens[i]] + Due(tokens[i + 1..], cfg.policy);
        assert Due(tokens[i..], cfg.policy)[1..] == Due(tokens[i + 1..], cfg.policy);
        ghost var before := r;
        var outcome, rest, events := ResolveToken(tokens[i], cfg.expiry, r.lines);
        r := Session(rest, r.log + events, r.changed || outcome == Returned(true), outcome == InputExhausted);
        assert r == Feed(before, tokens[i], cfg.expiry);
        if r.aborted {
          return;
        }
      } else {
        assert Due(tokens[i..], cfg.policy) == Due(tokens[i + 1..], cfg.policy);
      }
    }
  }

  /** `for t in tokens: if process_token(t): we_did_something = True`. */
  method ResolveTokens(s: Session, ts: seq<Token>, expiry: Date) returns (r: Session)
    requires !s.aborted
    ensures r == ResolveEach(s, ts, expiry)
  {
    r := s;
    for i := 0 to |ts|
      invariant !r.aborted
      invariant ResolveEach(r, ts[i..], expiry) == ResolveEach(s, ts, expiry)
    {
      assert ts[i..][1..] == ts[i + 1..];
      var outcome, rest, events := ResolveToken(ts[i], expiry, r.lines);
      r := Session(rest, r.log + events, r.changed || outcome == Returned(true), outcome == InputExhausted);
      if r.aborted {
        return;
      }
    }
  }

  // ---------------------------------------------------------------------
  // Owned projects (rotate-tokens.py:129-140)

  /** One owned project: silently passed over when it has no tokens at all,
      passed over with a notice when none of its tokens is due, otherwise its
      due tokens are resolved in order. */
  function VisitProject(s: Session, p: Project, cfg: Config): Session
  {
    if s.aborted || p.tokens == [] then s
    else
      var due := Due(p.tokens, cfg.policy);
      if due == [] then s.(log := s.log + [AllFresh(p.name)])
      else ResolveEach(s, due, cfg.expiry)
  }

  function VisitProjects(s: Session, ps: seq<Project>, cfg: Config): (r: Session)
    ensures s.aborted ==> r == s
    decreases |ps|
  {
    if ps == [] then s else VisitProjects(VisitProject(s, ps[0], cfg), ps[1..], cfg)
  }

  method TraverseProjects(s: Session, projects: seq<Project>, cfg: Config) returns (r: Session)
    requires !s.aborted
    ensures r == VisitProjects(s, projects, cfg)
  {
    r := s;
    for i := 0 to |projects|
      invariant !r.aborted
      invariant VisitProjects(r, projects[i..], cfg) == VisitProjects(s, projects, cfg)
    {
      assert projects[i..][1..] == projects[i + 1..];
      var project := projects[i];
      var tokens := project.tokens;
      if tokens == [] {
        continue;
      }
      tokens := Due(tokens, cfg.policy);
      if tokens == [] {
        r := r.(log := r.log + [AllFresh(project.name)]);
        continue;
      }
      r := ResolveTokens(r, tokens, cfg.expiry);
      if r.aborted {
        return;
      }
    }
  }

  /** A project with no tokens, or with none due, takes no input, touches
      no token and leaves the flag alone; only the second kind is announced. */
  lemma ProjectWithoutDueTokensSkipped(s: Session, p: Project, cfg: Config)
    requires !s.aborted && Due(p.tokens, cfg.policy) == []
    ensures p.tokens == [] ==> VisitProject(s, p, cfg) == s
    ensures p.tokens != [] ==> VisitProject(s, p, cfg) == s.(log := s.log + [AllFresh(p.name)])
  {
  }

  lemma {:induction false} VisitProjectsExtends(s: Session, ps: seq<Project>, cfg: Config)
    ensures Extends(s, VisitProjects(s, ps, cfg), ProjectsDueIds(ps, cfg.policy))
    decreases |ps|
  {
    if ps == [] {
      ExtendsRefl(s);
    } else {
      var p := ps[0];
      var m := VisitProject(s, p, cfg);
      var due := Due(p.tokens, cfg.policy);
      if s.aborted || p.tokens == [] {
        ExtendsRefl(s);
      } else if due == [] {
        NoticeExtends(s, AllFresh(p.name));
      } else {
        ResolveEachExtends(s, due, cfg.expiry);
      }
      VisitProjectsExtends(m, ps[1..], cfg);
      ExtendsTrans(s, m, VisitProjects(m, ps[1..], cfg), Ids(due), ProjectsDueIds(ps[1..], cfg.policy));
    }
  }

  // ---------------------------------------------------------------------
  // Groups and their projects (rotate-tokens.py:143-173)

  /** `d[k] = v` on an insertion-ordered dictionary: an existing key keeps
      its place and takes the new value, a new key goes last. */
  function Put(d: Sections, k: string, v: seq<Token>): (r: Sections)
    ensures k !in Keys(d) ==> r == d + [(k, v)]
    ensures k in Keys(d) ==> r == d[KeyIndex(d, k) := (k, v)]
    ensures SectionIds(r) <= SectionIds(d) + Ids(v)
    decreases |d|
  {
    if d == [] then [(k, v)]
    else if d[0].0 == k then
      assert d[0 := (k, v)] == [(k, v)] + d[1..];
      [(k, v)] + d[1..]
    else
      KeysTail(d);
      var r := [d[0]] + Put(d[1..], k, v);
      assert k in Keys(d) ==> r == d[KeyIndex(d, k) := (k, v)] by {
        if k in Keys(d) {
          assert KeyIndex(d, k) == 1 + KeyIndex(d[1..], k);
          assert r == [d[0]] + d[1..][KeyIndex(d[1..], k) := (k, v)];
        }
      }
      r
  }

  /** Where a key sits: the index of its first entry. */
  function KeyIndex(d: Sections, k: string): (i: nat)
    requires k in Keys(d)
    ensures i < |d| && d[i].0 == k
    ensures forall j :: 0 <= j < i ==> d[j].0 != k
    decreases |d|
  {
    KeysTail(d);
    if d[0].0 == k then 0
    else
      var i := 1 + KeyIndex(d[1..], k);
      assert forall j :: 1 <= j < i ==> d[j] == d[1..][j - 1];
      i
  }

  /** The keys of a dictionary are its first key and the keys of the rest. */
  lemma KeysTail(d: Sections)
    requires d != []
    ensures Keys(d) == {d[0].0} + Keys(d[1..])
  {
    forall x | x in Keys(d[1..]) ensures x in Keys(d) {
      var i :| 0 <= i < |d[1..]| && d[1..][i].0 == x;
      assert d[i + 1].0 == x;
    }
    forall x | x in Keys(d) ensures x == d[0].0 || x in Keys(d[1..]) {
      var i :| 0 <= i < |d| && d[i].0 == x;
      if i > 0 { assert d[1..][i - 1].0 == x; }
    }
  }

  /** Assigning twice to one key leaves only the second value. */
  lemma {:induction false} PutTwice(d: Sections, k: string, a: seq<Token>, b: seq<Token>)
    ensures Put(Put(d, k, a), k, b) == Put(d, k, b)
    decreases |d|
  {
    if d != [] && d[0].0 != k {
      PutTwice(d[1..], k, a, b);
      assert Put(d, k, a)[1..] == Put(d[1..], k, a);
    }
  }

  /** The dictionary `project_tokens` after the loop over a group's projects
      has added, under each project's name, its due tokens when there are any. */
  function CollectFrom(d: Sections, ps: seq<Project>, pol: Policy): Sections
    decreases |ps|
  {
    if ps == [] then d
    else
      var due := Due(ps[0].tokens, pol);
      CollectFrom(if due != [] then Put(d, ps[0].name, due) else d, ps[1..], pol)
  }

  /** `any(project_tokens)`: some key, a project name, is a non-empty string. */
  function AnyKey(d: Sections): (b: bool)
  {
    exists i :: 0 <= i < |d| && d[i].0 != ""
  }

  method CollectProjectTokens(projects: seq<Project>, pol: Policy) returns (d: Sections)
    ensures d == CollectFrom([], projects, pol)
  {
    d := [];
    for i := 0 to |projects|
      invariant CollectFrom(d, projects[i..], pol) == CollectFrom([], projects, pol)
    {
      assert projects[i..][1..] == projects[i + 1..];
      var tokens := Due(projects[i].tokens, pol);
      if tokens != [] {
        d := Put(d, projects[i].name, tokens);
      }
    }
  }

  /** The intended iteration over `(name, tokens)` pairs: a header for each
      project, then its tokens. */
  function ResolveSections(s: Session, d: Sections, expiry: Date): (r: Session)
    ensures s.aborted ==> r == s
    decreases |d|
  {
    if s.aborted || d == [] then s
    else ResolveSections(ResolveEach(s.(log := s.log + [ProjectHeader(d[0].0)]), d[0].1, expiry), d[1..], expiry)
  }

  /** The loop at rotate-tokens.py:169-173 as written: iterating the
      dictionary yields its keys, and `for project_name, tokens in ...`
      unpacks each key, a string. A name of other than two characters raises
      ValueError; a two-character name `ab` prints the header `a` and hands
      the string `b` to `process_token`, which raises AttributeError. Either
      way the run ends before any project token is offered. */
  function SectionsAsWritten(s: Session, d: Sections): (r: Session)
    ensures !s.aborted && d != [] ==>
              r.aborted && r.lines == s.lines && |s.log| <= |r.log| && TouchedIds(r.log[|s.log|..]) == {}
    ensures s.aborted || d == [] ==> r == s
  {
    if s.aborted || d == [] then s
    else if |d[0].0| == 2 then s.(log := s.log + [ProjectHeader(d[0].0[..1])], aborted := true)
    else s.(aborted := true)
  }

  method ResolveProjectSections(s: Session, d: Sections, expiry: Date) returns (r: Session)
    requires !s.aborted
    ensures r == ResolveSections(s, d, expiry)
  {
    r := s;
    for i := 0 to |d|
      invariant !r.aborted
      invariant ResolveSections(r, d[i..], expiry) == ResolveSections(s, d, expiry)
    {
      assert d[i..][1..] == d[i + 1..];
      var (name, tokens) := d[i];
      r := r.(log := r.log + [ProjectHeader(name)]);
      r := ResolveTokens(r, tokens, expiry);
      if r.aborted {
        return;
      }
    }
  }

  /** One group: when neither the group nor any of its projects has a due
      token the group is passed over with a notice; otherwise one line is
      read at the gate, `i` skips the whole group, and anything else resolves
      the group's due tokens and then each project's. */
  function VisitGroup(s: Session, g: Group, cfg: Config): Session
  {
    if s.aborted then s
    else
      var groupDue := Due(g.tokens, cfg.policy);
      var projectDue := CollectFrom([], g.projects, cfg.policy);
      if !(groupDue != [] || AnyKey(projectDue)) then s.(log := s.log + [NothingDue(g.name)])
      else if s.lines == [] then s.(aborted := true)
      else if Parse(s.lines[0]) == Ignore then s.(lines := s.lines[1..])
      else ResolveSections(ResolveEach(s.(lines := s.lines[1..]), groupDue, cfg.expiry), projectDue, cfg.expiry)
  }

  function VisitGroups(s: Session, gs: seq<Group>, cfg: Config): (r: Session)
    ensures s.aborted ==> r == s
    decreases |gs|
  {
    if gs == [] then s else VisitGroups(VisitGroup(s, gs[0], cfg), gs[1..], cfg)
  }

  method TraverseGroups(s: Session, groups: seq<Group>, cfg: Config) returns (r: Session)
    requires !s.aborted
    ensures r == VisitGroups(s, groups, cfg)
  {
    r := s;
    for i := 0 to |groups|
      invariant !r.aborted
      invariant VisitGroups(r, groups[i..], cfg) == VisitGroups(s, groups, cfg)
    {
      assert groups[i..][1..] == groups[i + 1..];
      var group := groups[i];
      var groupTokens := Due(group.tokens, cfg.policy);
      var projectTokens := CollectProjectTokens(group.projects, cfg.policy);
      if !(groupTokens != [] || AnyKey(projectTokens)) {
        r := r.(log := r.log + [NothingDue(group.name)]);
        continue;
      }
      // "(i)gnore all, or press enter to continue"
      if r.lines == [] {
        r := r.(aborted := true);
        return;
      }
      var answer := r.lines[0];
      r := r.(lines := r.lines[1..]);
      if Parse(answer) == Ignore {
        continue;
      }
      r := ResolveTokens(r, groupTokens, cfg.expiry);
      if r.aborted {
        return;
      }
      r := ResolveProjectSections(r, projectTokens, cfg.expiry);
      if r.aborted {
        return;
      }
    }
  }

  // ---------------------------------------------------------------------
  // Properties of the group traversal

  lemma {:induction false} CollectIds(d: Sections, ps: seq<Project>, pol: Policy)
    ensures SectionIds(CollectFrom(d, ps, pol)) <= SectionIds(d) + ProjectsDueIds(ps, pol)
    decreases |ps|
  {
    if ps != [] {
      var due := Due(ps[0].tokens, pol);
      var d' := if due != [] then Put(d, ps[0].name, due) else d;
      CollectIds(d', ps[1..], pol);
    }
  }

  lemma {:induction false} ResolveSectionsExtends(s: Session, d: Sections, expiry: Date)
    ensures Extends(s, ResolveSections(s, d, expiry), SectionIds(d))
    decreases |d|
  {
    if s.aborted || d == [] {
      ExtendsRefl(s);
    } else {
      var h := s.(log := s.log + [ProjectHeader(d[0].0)]);
      var m := ResolveEach(h, d[0].1, expiry);
      NoticeExtends(s, ProjectHeader(d[0].0));
      ResolveEachExtends(h, d[0].1, expiry);
      ExtendsTrans(s, h, m, {}, Ids(d[0].1));
      ResolveSectionsExtends(m, d[1..], expiry);
      ExtendsTrans(s, m, ResolveSections(m, d[1..], expiry), Ids(d[0].1), SectionIds(d[1..]));
    }
  }

  /** Input running out at the gate ends the run and nothing else. */
  lemma AbortExtends(s: Session)
    requires !s.aborted
    ensures Extends(s, s.(aborted := true), {})
  {
    assert s.log[|s.log|..] == [];
    assert s.lines[|s.lines| - |s.lines|..] == s.lines;
  }

  /** Reading the gate's answer only consumes that line. */
  lemma GateExtends(s: Session)
    requires !s.aborted && s.lines != []
    ensures Extends(s, s.(lines := s.lines[1..]), {})
  {
    var s' := s.(lines := s.lines[1..]);
    assert s'.log[|s.log|..] == [];
    assert s'.log[..|s.log|] == s.log;
    assert s'.lines == s.lines[|s.lines| - |s'.lines|..];
  }

  /** A group passes the gate only to resolve its own due tokens and those
      of its projects. */
  lemma VisitGroupExtends(s: Session, g: Group, cfg: Config)
    ensures Extends(s, VisitGroup(s, g, cfg),
                    Ids(Due(g.tokens, cfg.policy)) + ProjectsDueIds(g.projects, cfg.policy))
  {
    var groupDue := Due(g.tokens, cfg.policy);
    var projectDue := CollectFrom([], g.projects, cfg.policy);
    if s.aborted {
      ExtendsRefl(s);
    } else if !(groupDue != [] || AnyKey(projectDue)) {
      NoticeExtends(s, NothingDue(g.name));
    } else if s.lines == [] {
      AbortExtends(s);
    } else {
      var s' := s.(lines := s.lines[1..]);
      GateExtends(s);
      if Parse(s.lines[0]) != Ignore {
        var m := ResolveEach(s', groupDue, cfg.expiry);
        ResolveEachExtends(s', groupDue, cfg.expiry);
        ExtendsTrans(s, s', m, {}, Ids(groupDue));
        ResolveSectionsExtends(m, projectDue, cfg.expiry);
        CollectIds([], g.projects, cfg.policy);
        ExtendsTrans(s, m, ResolveSections(m, projectDue, cfg.expiry), Ids(groupDue), SectionIds(projectDue));
      }
    }
  }

  lemma {:induction false} VisitGroupsExtends(s: Session, gs: seq<Group>, cfg: Config)
    ensures Extends(s, VisitGroups(s, gs, cfg), GroupsDueIds(gs, cfg.policy))
    decreases |gs|
  {
    if gs == [] {
      ExtendsRefl(s);
    } else {
      var m := VisitGroup(s, gs[0], cfg);
      VisitGroupExtends(s, gs[0], cfg);
      VisitGroupsExtends(m, gs[1..], cfg);
      ExtendsTrans(s, m, VisitGroups(m, gs[1..], cfg),
                   Ids(Due(gs[0].tokens, cfg.policy)) + ProjectsDueIds(gs[0].projects, cfg.policy),
                   GroupsDueIds(gs[1..], cfg.policy));
    }
  }

  /** A project without due tokens never enters the dictionary. */
  lemma {:induction false} CollectNothingDue(d: Sections, ps: seq<Project>, pol: Policy)
    requires forall i :: 0 <= i < |ps| ==> Due(ps[i].tokens, pol) == []
    ensures CollectFrom(d, ps, pol) == d
    decreases |ps|
  {
    if ps != [] {
      assert Due(ps[0].tokens, pol) == [];
      CollectNothingDue(d, ps[1..], pol);
    }
  }

  /** A group none of whose tokens, and none of whose projects' tokens, is
      due is announced and passed over without asking the gate question. */
  lemma NothingDueSkipsGate(s: Session, g: Group, cfg: Config)
    requires !s.aborted
    requires Due(g.tokens, cfg.policy) == []
    requires forall i :: 0 <= i < |g.projects| ==> Due(g.projects[i].tokens, cfg.policy) == []
    ensures VisitGroup(s, g, cfg) == s.(log := s.log + [NothingDue(g.name)])
  {
    CollectNothingDue([], g.projects, cfg.policy);
  }

  /** `i` at the gate skips every token of the group and of its projects:
      only the gate's line is consumed. */
  lemma GateIgnoreSkipsGroup(s: Session, g: Group, cfg: Config)
    requires !s.aborted && s.lines != [] && Parse(s.lines[0]) == Ignore
    requires Due(g.tokens, cfg.policy) != [] || AnyKey(CollectFrom([], g.projects, cfg.policy))
    ensures VisitGroup(s, g, cfg) == s.(lines := s.lines[1..])
  {
  }

  /** Past the gate, every rotation or deletion of a group token comes
      before every rotation or deletion of a project token. */
  lemma GroupTokensFirst(s: Session, g: Group, cfg: Config)
    requires !s.aborted && s.lines != [] && Parse(s.lines[0]) != Ignore
    requires Due(g.tokens, cfg.policy) != [] || AnyKey(CollectFrom([], g.projects, cfg.policy))
    ensures var r := VisitGroup(s, g, cfg);
            exists k :: |s.log| <= k <= |r.log|
                        && TouchedIds(r.log[|s.log|..k]) <= Ids(Due(g.tokens, cfg.policy))
                        && TouchedIds(r.log[k..]) <= ProjectsDueIds(g.projects, cfg.policy)
  {
    var groupDue := Due(g.tokens, cfg.policy);
    var projectDue := CollectFrom([], g.projects, cfg.policy);
    var s' := s.(lines := s.lines[1..]);
    var m := ResolveEach(s', groupDue, cfg.expiry);
    var r := ResolveSections(m, projectDue, cfg.expiry);
    assert r == VisitGroup(s, g, cfg);
    ResolveEachExtends(s', groupDue, cfg.expiry);
    ResolveSectionsExtends(m, projectDue, cfg.expiry);
    CollectIds([], g.projects, cfg.policy);
    var k := |m.log|;
    assert r.log[|s.log|..k] == m.log[|s.log|..];
  }

  /** The names of a dictionary. */
  function Keys(d: Sections): set<string>
  {
    set i | 0 <= i < |d| :: d[i].0
  }

  /** The dictionary a group's projects would give if no two of them shared
      a name: one entry per project with due tokens, in order. */
  function DueSections(ps: seq<Project>, pol: Policy): Sections
  {
    if ps == [] then []
    else
      var due := Due(ps[0].tokens, pol);
      (if due != [] then [(ps[0].name, due)] else []) + DueSections(ps[1..], pol)
  }

  lemma KeysAppend(d: Sections, k: string, v: seq<Token>)
    ensures Keys(d + [(k, v)]) == Keys(d) + {k}
  {
    var e := d + [(k, v)];
    assert e[|d|].0 == k;
    forall x | x in Keys(d) ensures x in Keys(e) {
      var i :| 0 <= i < |d| && d[i].0 == x;
      assert e[i].0 == x;
    }
  }

  ghost predicate DistinctNames(ps: seq<Project>)
  {
    forall i, j :: 0 <= i < j < |ps| ==> ps[i].name != ps[j].name
  }

  /** The dictionary after one more project whose name is new to it. */
  function Added(d: Sections, p: Project, pol: Policy): Sections
  {
    var due := Due(p.tokens, pol);
    if due != [] then d + [(p.name, due)] else d
  }

  lemma CollectStep(d: Sections, ps: seq<Project>, pol: Policy)
    requires ps != [] && ps[0].name !in Keys(d)
    ensures CollectFrom(d, ps, pol) == CollectFrom(Added(d, ps[0], pol), ps[1..], pol)
  {
  }

  lemma DueSectionsStep(d: Sections, ps: seq<Project>, pol: Policy)
    requires ps != []
    ensures Added(d, ps[0], pol) + DueSections(ps[1..], pol) == d + DueSections(ps, pol)
  {
  }

  lemma NamesStayNew(d: Sections, ps: seq<Project>, pol: Policy)
    requires ps != [] && DistinctNames(ps)
    requires forall i :: 0 <= i < |ps| ==> ps[i].name !in Keys(d)
    ensures DistinctNames(ps[1..])
    ensures forall i :: 0 <= i < |ps[1..]| ==> ps[1..][i].name !in Keys(Added(d, ps[0], pol))
  {
    var due := Due(ps[0].tokens, pol);
    KeysAppend(d, ps[0].name, due);
    forall i | 0 <= i < |ps[1..]| ensures ps[1..][i].name !in Keys(Added(d, ps[0], pol)) {
      assert ps[1..][i] == ps[i + 1];
    }
  }

  /** When the projects' names are distinct and new to the dictionary, the
      dictionary gains exactly one entry per project with due tokens, in
      the order of the projects. */
  lemma {:induction false} CollectDistinctNames(d: Sections, ps: seq<Project>, pol: Policy)
    requires DistinctNames(ps)
    requires forall i :: 0 <= i < |ps| ==> ps[i].name !in Keys(d)
    ensures CollectFrom(d, ps, pol) == d + DueSections(ps, pol)
    decreases |ps|
  {
    if ps == [] {
      assert d + [] == d;
    } else {
      assert ps[0].name !in Keys(d);
      CollectStep(d, ps, pol);
      DueSectionsStep(d, ps, pol);
      NamesStayNew(d, ps, pol);
      CollectDistinctNames(Added(d, ps[0], pol), ps[1..], pol);
    }
  }

  /** Two projects of one group that share a name and both have due tokens
      leave a single entry under that name, holding the later project's
      tokens: the earlier project's tokens are never offered. */
  lemma SameNameOverwrites(d: Sections, p: Project, q: Project, pol: Policy)
    requires p.name == q.name && Due(p.tokens, pol) != [] && Due(q.tokens, pol) != []
    ensures CollectFrom(d, [p, q], pol) == Put(d, q.name, Due(q.tokens, pol))
  {
    var once := Put(d, p.name, Due(p.tokens, pol));
    assert [p, q][1..] == [q];
    assert CollectFrom(d, [p, q], pol) == CollectFrom(once, [q], pol);
    assert [q][1..] == [];
    assert CollectFrom(once, [q], pol) == Put(once, q.name, Due(q.tokens, pol));
    PutTwice(d, q.name, Due(p.tokens, pol), Due(q.tokens, pol));
  }

  // ---------------------------------------------------------------------
  // The loop over `project_tokens`, as written and as intended

  /** The operator answers `r` and acknowledges, `n` times. */
  function RotateAnswers(n: nat): (lines: seq<string>)
    ensures |lines| == 2 * n
  {
    if n == 0 then [] else ["r", ""] + RotateAnswers(n - 1)
  }

  /** The number of tokens in a dictionary. */
  function SectionsSize(d: Sections): nat
  {
    if d == [] then 0 else |d[0].1| + SectionsSize(d[1..])
  }

  lemma {:induction false} RotateAnswersAppend(a: nat, b: nat)
    ensures RotateAnswers(a + b) == RotateAnswers(a) + RotateAnswers(b)
    decreases a
  {
    if a > 0 {
      RotateAnswersAppend(a - 1, b);
    }
  }

  /** The events of rotating each token of a list, in order. */
  function Rotations(ts: seq<Token>, expiry: Date): seq<Event>
  {
    if ts == [] then [] else [Rotated(ts[0].id, expiry)] + Rotations(ts[1..], expiry)
  }

  /** The events of rotating every token of a dictionary under its header. */
  function SectionsRotations(d: Sections, expiry: Date): seq<Event>
  {
    if d == [] then []
    else [ProjectHeader(d[0].0)] + Rotations(d[0].1, expiry) + SectionsRotations(d[1..], expiry)
  }

  lemma {:induction false} RotationsIds(ts: seq<Token>, expiry: Date)
    ensures RotatedIds(Rotations(ts, expiry)) == Ids(ts)
    decreases |ts|
  {
    if ts != [] {
      RotationsIds(ts[1..], expiry);
      TouchedIdsAppend([Rotated(ts[0].id, expiry)], Rotations(ts[1..], expiry));
      IdsCons(ts);
    }
  }

  lemma {:induction false} SectionsRotationsIds(d: Sections, expiry: Date)
    ensures RotatedIds(SectionsRotations(d, expiry)) == SectionIds(d)
    decreases |d|
  {
    if d != [] {
      var head := [ProjectHeader(d[0].0)] + Rotations(d[0].1, expiry);
      RotationsIds(d[0].1, expiry);
      SectionsRotationsIds(d[1..], expiry);
      TouchedIdsAppend([ProjectHeader(d[0].0)], Rotations(d[0].1, expiry));
      TouchedIdsAppend(head, SectionsRotations(d[1..], expiry));
    }
  }

  lemma FeedRotates(s: Session, t: Token, expiry: Date, n: nat, later: seq<string>)
    requires !s.aborted && s.lines == RotateAnswers(n + 1) + later
    ensures Feed(s, t, expiry) == Session(RotateAnswers(n) + later, s.log + [Rotated(t.id, expiry)], true, false)
  {
    assert s.lines == ["r", ""] + (RotateAnswers(n) + later);
    RotateAnswer(t, expiry, "r", "", RotateAnswers(n) + later);
  }

  /** An operator who rotates every token offered gets every token of the
      list rotated, in order, and the flag raised when the list is not empty. */
  lemma {:induction false} RotatingEveryToken(s: Session, ts: seq<Token>, expiry: Date, later: seq<string>)
    requires !s.aborted && s.lines == RotateAnswers(|ts|) + later
    ensures ResolveEach(s, ts, expiry)
            == Session(later, s.log + Rotations(ts, expiry), s.changed || ts != [], false)
    decreases |ts|
  {
    if ts == [] {
      assert s.log + [] == s.log;
    } else {
      FeedRotates(s, ts[0], expiry, |ts| - 1, later);
      var m := Feed(s, ts[0], expiry);
      RotatingEveryToken(m, ts[1..], expiry, later);
      assert m.log + Rotations(ts[1..], expiry) == s.log + Rotations(ts, expiry);
    }
  }

  /** One section resolved by an operator who rotates every token. */
  lemma SectionRotates(s: Session, d: Sections, expiry: Date, mid: seq<string>)
    requires !s.aborted && d != [] && s.lines == RotateAnswers(|d[0].1|) + mid
    ensures ResolveSections(s, d, expiry)
            == ResolveSections(Session(mid, s.log + [ProjectHeader(d[0].0)] + Rotations(d[0].1, expiry),
                                       s.changed || d[0].1 != [], false), d[1..], expiry)
  {
    RotatingEveryToken(s.(log := s.log + [ProjectHeader(d[0].0)]), d[0].1, expiry, mid);
  }

  /** As intended, an operator who rotates every token offered gets every
      due project token of the group rotated, under its project's header. */
  lemma {:induction false} SectionsRotatingEveryToken(s: Session, d: Sections, expiry: Date, later: seq<string>)
    requires !s.aborted && s.lines == RotateAnswers(SectionsSize(d)) + later
    ensures ResolveSections(s, d, expiry)
            == Session(later, s.log + SectionsRotations(d, expiry), s.changed || SectionsSize(d) > 0, false)
    decreases |d|
  {
    if d == [] {
      assert s.log + [] == s.log;
    } else {
      var mid := RotateAnswers(SectionsSize(d[1..])) + later;
      var m := Session(mid, s.log + [ProjectHeader(d[0].0)] + Rotations(d[0].1, expiry),
                       s.changed || d[0].1 != [], false);
      assert ResolveSections(s, d, expiry) == ResolveSections(m, d[1..], expiry) by {
        RotateAnswersAppend(|d[0].1|, SectionsSize(d[1..]));
        SectionRotates(s, d, expiry, mid);
      }
      SectionsRotatingEveryToken(m, d[1..], expiry, later);
      assert m.log + SectionsRotations(d[1..], expiry) == s.log + SectionsRotations(d, expiry) by {
        var h, rs, tail := [ProjectHeader(d[0].0)], Rotations(d[0].1, expiry), SectionsRotations(d[1..], expiry);
        assert SectionsRotations(d, expiry) == h + rs + tail;
        assert s.log + h + rs + tail == s.log + (h + rs + tail);
      }
    }
  }

  /** As written, the same operator gets none of them rotated, and the run
      ends there. */
  lemma SectionsAsWrittenLosesTokens(s: Session, d: Sections, expiry: Date, later: seq<string>)
    requires !s.aborted && s.lines == RotateAnswers(SectionsSize(d)) + later
    requires d != [] && d[0].1 != []
    ensures var r := SectionsAsWritten(s, d);
            r.aborted && RotatedIds(r.log[|s.log|..]) == {}
            && RotatedIds(SectionsRotations(d, expiry)) != {}
  {
    SectionsRotationsIds(d, expiry);
    assert d[0].1[0].id in Ids(d[0].1);
  }
}
