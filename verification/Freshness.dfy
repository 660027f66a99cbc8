/**
 * Exactly which committed changes are certain to be published on a live doc. A lookup is read when a worker gets to
 * it, with the arguments of the change, so a doc the reverse index named at the change and no longer names at the read
 * is not marked by it, unless the read is over the cap and dirties every live doc of the query.
 */
module Freshness {
  import opened Wrappers
  import opened Spec
  import opened ChannelCodec
  import opened EventMapping
  import opened EngineCore
  import opened Protocol
  import opened ProtocolInvariants
  import opened ProtocolSteps
  import opened Guarantees
  import opened Convergence

  /** Whenever the engine has worked off history `h`, live doc `c` shows change `i`. */
  ghost predicate Shown(r: Rules, h: seq<Change>, i: nat, c: Channel) {
    forall s | Reachable(r, s) && s.running && Stuck(r, s) && s.history == h && c in s.engine.live ::
      Latest(s.published, c) >= i + 1
  }

  /** This op of change `j` is certain to dirty `c`: it marks it, or asks for a lookup every read of which hits it. */
  ghost predicate Forces(r: Rules, h: seq<Change>, j: nat, op: Op, c: Channel) {
    match op
    case Mark(channel) => channel == c
    case Ask(key, _) => HitSince(r, h, key, c, j + 1)
  }

  ghost predicate ForcedBy(r: Rules, h: seq<Change>, j: nat, k: nat, c: Channel) {
    j < |h| && k < |h[j].ops| && Forces(r, h, j, h[j].ops[k], c)
  }

  /** Some op of change `i` or a later one is certain to dirty `c`. */
  ghost predicate Forced(r: Rules, h: seq<Change>, i: nat, c: Channel) {
    exists j: nat, k: nat :: i <= j && ForcedBy(r, h, j, k, c)
  }

  ghost predicate AllValid(r: Rules, h: seq<Change>) { forall k | 0 <= k < |h| :: ValidChange(r, h[k]) }

  /** What is certain to be dirtied is published. */
  lemma ForcedIsShown(r: Rules, h: seq<Change>, i: nat, c: Channel)
    requires Forced(r, h, i, c)
    ensures Shown(r, h, i, c)
  {
    var j: nat, k: nat :| i <= j && ForcedBy(r, h, j, k, c);
    forall s | Reachable(r, s) && s.running && Stuck(r, s) && s.history == h && c in s.engine.live
      ensures Latest(s.published, c) >= i + 1
    {
      if h[j].ops[k].Mark? {
        Converged(r, s, j, k, c);
      } else {
        HitChannelConverged(r, s, j, k, c);
      }
    }
  }

  // ----- what the condition comes to

  /** Every lookup the key has been asked with has the cap of this one. */
  ghost predicate OneCap(h: seq<Change>, key: LookupKey, lookup: Lookup) {
    forall other | AskedBefore(h, |h|, key, other) ::
      EffectiveCap(other.watch.maxKeys) == EffectiveCap(lookup.watch.maxKeys)
  }

  lemma AskedByNow(h: seq<Change>, u: nat, key: LookupKey, lookup: Lookup)
    requires AskedBefore(h, u, key, lookup)
    ensures AskedBefore(h, |h|, key, lookup)
  {
    var j, k :| 0 <= j < u && j < |h| && 0 <= k < |h[j].ops| && h[j].ops[k] == Ask(key, lookup);
  }

  /** If the watches that share a key share its cap, it does not matter which of their lookups reads. */
  lemma HitSinceWithOneCap(r: Rules, h: seq<Change>, key: LookupKey, c: Channel, v: nat, lookup: Lookup)
    requires AskedBefore(h, v, key, lookup) && OneCap(h, key, lookup)
    ensures HitSince(r, h, key, c, v) <==> forall u | v <= u <= |h| :: Hits(r, h, u, key, lookup, c)
  {
    forall u | v <= u <= |h| ensures AskedBefore(h, u, key, lookup) {
      AskStands(h, h, v, key, lookup);
    }
    if forall u | v <= u <= |h| :: Hits(r, h, u, key, lookup, c) {
      forall u, other | v <= u <= |h| && AskedBefore(h, u, key, other) ensures Hits(r, h, u, key, other, c) {
        AskedByNow(h, u, key, other);
        assert Hits(r, h, u, key, lookup, c);
      }
    }
  }
}
