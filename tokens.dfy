/**
 * Access tokens as the rotator sees them, and the freshness policy that
 * decides which of them are put before the operator (rotate-tokens.py:45-53).
 *
 * Clock readings are not modelled: the caller supplies each token's age in
 * whole days, as `(now - created_at).days` would compute it.
 */
module Tokens {
  import opened Wrappers

  type TokenId = int

  /** A calendar day, counted in days from a fixed epoch. */
  type Date = int

  /** The metadata of one personal, project or group access token. */
  datatype Token = Token(
    id: TokenId,
    name: string,
    createdDaysAgo: int,
    expiresAt: Option<Date>,
    revoked: bool)

  /** What the policy depends on besides the token: the id of the token this
      session authenticates with, and the freshness window in days. */
  datatype Policy = Policy(ownId: TokenId, freshness: int)

  /** Whether a token is due to be offered for rotation. Revoked and
      never-expiring tokens are out of scope, the session's own token is
      deferred to self-renewal, and any other token is due once it is at
      least `freshness` days old. */
  function NeedsRotation(t: Token, pol: Policy): (due: bool)
    ensures t.revoked || t.expiresAt.None? || t.id == pol.ownId ==> !due
    ensures !t.revoked && t.expiresAt.Some? && t.id != pol.ownId ==>
              (due <==> pol.freshness <= t.createdDaysAgo)
  {
    if t.revoked || t.expiresAt.None? then false
    else if t.id == pol.ownId then false
    else if t.createdDaysAgo < pol.freshness then false
    else true
  }

  /** A token that is due stays due as it ages. */
  lemma DueStaysDue(t: Token, pol: Policy, days: nat)
    requires NeedsRotation(t, pol)
    ensures NeedsRotation(t.(createdDaysAgo := t.createdDaysAgo + days), pol)
  {
  }

  /** Widening the freshness window never makes a token due. */
  lemma WiderWindowFewerDue(t: Token, pol: Policy, wider: int)
    requires pol.freshness <= wider
    requires NeedsRotation(t, pol.(freshness := wider))
    ensures NeedsRotation(t, pol)
  {
  }

  /** The tokens of `ts` that are due, in their original order: the list
      comprehension `[t for t in tokens if needs_rotation(t)]`. */
  function Due(ts: seq<Token>, pol: Policy): (due: seq<Token>)
    ensures |due| <= |ts|
    ensures forall t :: t in due <==> t in ts && NeedsRotation(t, pol)
  {
    if ts == [] then []
    else (if NeedsRotation(ts[0], pol) then [ts[0]] else []) + Due(ts[1..], pol)
  }

  /** Filtering distributes over concatenation, so the due tokens keep the
      order they have in the platform's list. */
  lemma {:induction false} DueAppend(a: seq<Token>, b: seq<Token>, pol: Policy)
    ensures Due(a + b, pol) == Due(a, pol) + Due(b, pol)
  {
    if a == [] {
      assert a + b == b;
    } else {
      assert (a + b)[1..] == a[1..] + b;
      DueAppend(a[1..], b, pol);
    }
  }

  /** The ids of a list of tokens. */
  function Ids(ts: seq<Token>): set<TokenId>
  {
    set t | t in ts :: t.id
  }

  /** The session's own token is never among the due tokens. */
  lemma OwnTokenNeverDue(ts: seq<Token>, pol: Policy)
    ensures pol.ownId !in Ids(Due(ts, pol))
  {
  }

  /** A project holding a token created 3 days ago and one created 30 days
      ago, both expiring and unrevoked, with a 14-day window: only the older
      one is due. */
  lemma FreshTokenFiltered(a: Token, b: Token, ownId: TokenId)
    requires a.createdDaysAgo == 3 && b.createdDaysAgo == 30
    requires a.expiresAt.Some? && b.expiresAt.Some? && !a.revoked && !b.revoked
    requires a.id != ownId && b.id != ownId
    ensures Due([a, b], Policy(ownId, 14)) == [b]
  {
    assert [a, b][1..] == [b];
    assert [b][1..] == [];
  }
}
