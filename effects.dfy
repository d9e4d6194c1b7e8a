/**
 * What a run does that can be observed from outside: the calls that change
 * tokens on the platform, the write to the credential store, and the notices
 * that explain why a project or group was skipped.
 */
module Effects {
  import opened Tokens

  datatype Event =
    | Rotated(id: TokenId, expiry: Date)     // token.rotate(expires_at=...)
    | Deleted(id: TokenId)                   // token.delete()
    | AllFresh(project: string)              // "tokens are all fresh" notice
    | NothingDue(group: string)              // "doesn't have any tokens" notice
    | ProjectHeader(project: string)         // "Project: <name>" header
    | CredentialSaved                        // keyring.set_password(...)

  /** The ids of the tokens that a list of events rotates or deletes. */
  function TouchedIds(evs: seq<Event>): (ids: set<TokenId>)
    ensures forall e :: e in evs && (e.Rotated? || e.Deleted?) ==> e.id in ids
    ensures forall id :: id in ids ==> exists e :: e in evs && (e.Rotated? || e.Deleted?) && e.id == id
  {
    if evs == [] then {}
    else (if evs[0].Rotated? || evs[0].Deleted? then {evs[0].id} else {}) + TouchedIds(evs[1..])
  }

  /** The ids of the tokens that a list of events rotates. */
  function RotatedIds(evs: seq<Event>): (ids: set<TokenId>)
    ensures ids <= TouchedIds(evs)
    ensures forall e :: e in evs && e.Rotated? ==> e.id in ids
    ensures forall id :: id in ids ==> exists e :: e in evs && e.Rotated? && e.id == id
  {
    if evs == [] then {}
    else (if evs[0].Rotated? then {evs[0].id} else {}) + RotatedIds(evs[1..])
  }

  lemma {:induction false} TouchedIdsAppend(a: seq<Event>, b: seq<Event>)
    ensures TouchedIds(a + b) == TouchedIds(a) + TouchedIds(b)
    ensures RotatedIds(a + b) == RotatedIds(a) + RotatedIds(b)
  {
    if a == [] {
      assert a + b == b;
    } else {
      assert (a + b)[1..] == a[1..] + b;
      TouchedIdsAppend(a[1..], b);
    }
  }
}
