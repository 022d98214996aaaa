/**
 Pruning while the GPU inventory is unavailable keeps the evidence that stale-scope
 eviction needs.
 */
module Evidence {
  import opened Model
  import opened Sequences
  import opened StoreOps
  import opened Scopes

  predicate SameEntry(m: map<string, Token>, m': map<string, Token>, hash: string) {
    (hash in m' <==> hash in m) && (hash in m ==> m'[hash] == m[hash])
  }

  /** Keeping every token of one hash keeps the hash's entry. */
  lemma {:induction false} TokensByHashFilter(p: Token -> bool, tokens: seq<Token>, hash: string)
    requires forall t :: t in tokens && t.hash == hash ==> p(t)
    ensures SameEntry(TokensByHash(tokens), TokensByHash(Filter(p, tokens)), hash)
  {
    if tokens != [] {
      var front, last := tokens[..|tokens| - 1], tokens[|tokens| - 1];
      assert tokens == front + [last];
      assert last in tokens && forall t :: t in front ==> t in tokens;
      TokensByHashFilter(p, front, hash);
      EntryAfterSnoc(p, front, last, hash);
    }
  }

  lemma EntryAfterSnoc(p: Token -> bool, front: seq<Token>, last: Token, hash: string)
    requires last.hash == hash ==> p(last)
    requires SameEntry(TokensByHash(front), TokensByHash(Filter(p, front)), hash)
    ensures SameEntry(TokensByHash(front + [last]), TokensByHash(Filter(p, front + [last])), hash)
  {
    hide TokensByHash, Filter;
    FilterSnoc(p, front, last);
    TokensByHashSnoc(front, last);
    if p(last) {
      TokensByHashSnoc(Filter(p, front), last);
    } else {
      assert Filter(p, front + [last]) == Filter(p, front);
    }
  }

  lemma TokensByHashSnoc(tokens: seq<Token>, last: Token)
    ensures TokensByHash(tokens + [last]) == TokensByHash(tokens)[last.hash := last]
  {
    assert (tokens + [last])[..|tokens|] == tokens;
  }

  /** What pruning leaves of one hash that a scope still refers to: everything. */
  lemma ReferencedHashUntouched(s: State, now: Time, hash: string)
    requires PruneUnreferenced(s, now).Write? && hash in Referenced(s)
    ensures var s' := PruneUnreferenced(s, now).state;
            && (hash in TokensByHash(s'.tokens) <==> hash in TokensByHash(s.tokens))
            && (hash in TokensByHash(s.tokens) ==> TokensByHash(s'.tokens)[hash] == TokensByHash(s.tokens)[hash])
            && (forall r: Reservation :: r.tokenHash == hash ==> (r in s'.reservations <==> r in s.reservations))
  {
    var needed := Referenced(s);
    var index := TokensByHash(s.tokens);
    TokensByHashFilter((t: Token) => HashValid(index, t.hash, now) || t.hash in needed, s.tokens, hash);
  }

  /** Two states that agree on one hash give every GPU the same key membership for it. */
  lemma SameKeys(s: State, s': State, now: Time, gpu: int, hash: string)
    requires var t, t' := TokensByHash(s.tokens), TokensByHash(s'.tokens);
             (hash in t' <==> hash in t) && (hash in t ==> t'[hash] == t[hash])
    requires forall r: Reservation :: r.tokenHash == hash ==> (r in s'.reservations <==> r in s.reservations)
    ensures Key(gpu, hash) in ValidKeys(s, now) <==> Key(gpu, hash) in ValidKeys(s', now)
    ensures Key(gpu, hash) in StaleKeys(s, now) <==> Key(gpu, hash) in StaleKeys(s', now)
  {
    var t, t' := TokensByHash(s.tokens), TokensByHash(s'.tokens);
    forall r: Reservation | r.tokenHash == hash
      ensures ReservationValid(t, r, now) <==> ReservationValid(t', r, now)
      ensures ReservationStale(t, r, now) <==> ReservationStale(t', r, now) {
    }
  }

  /**
   For every scope outside a managed cgroup and every GPU, the (entitled, stale) pair is the
   same before and after pruning at the same instant.
   */
  lemma PruneKeepsAuthorizationStanding(s: State, now: Time, a: Authorization, gpu: int)
    requires PruneUnreferenced(s, now).Write?
    requires forall t :: t in s.tokens ==> t.hash != ""
    requires a in s.authorizations && a.cgroupPath == ""
    ensures var s' := PruneUnreferenced(s, now).state;
            && a in s'.authorizations
            && AuthorizationStanding(a, gpu, TokensByHash(s'.tokens), ValidKeys(s', now), StaleKeys(s', now), now)
               == AuthorizationStanding(a, gpu, TokensByHash(s.tokens), ValidKeys(s, now), StaleKeys(s, now), now)
  {
    var s' := PruneUnreferenced(s, now).state;
    if a.tokenHash == "" {
      NoTokenForEmptyHash(s.tokens);
      NoTokenForEmptyHash(s'.tokens);
    } else {
      assert a.tokenHash in Referenced(s);
      ReferencedHashUntouched(s, now, a.tokenHash);
    }
    AgreeingStanding(s, s', now, a, gpu);
  }

  lemma NoTokenForEmptyHash(tokens: seq<Token>)
    requires forall t :: t in tokens ==> t.hash != ""
    ensures "" !in TokensByHash(tokens)
  {
  }

  lemma AgreeingStanding(s: State, s': State, now: Time, a: Authorization, gpu: int)
    requires var t, t' := TokensByHash(s.tokens), TokensByHash(s'.tokens);
             (a.tokenHash in t' <==> a.tokenHash in t) && (a.tokenHash in t ==> t'[a.tokenHash] == t[a.tokenHash])
    requires a.tokenHash != "" ==>
               forall r: Reservation :: r.tokenHash == a.tokenHash ==> (r in s'.reservations <==> r in s.reservations)
    ensures AuthorizationStanding(a, gpu, TokensByHash(s'.tokens), ValidKeys(s', now), StaleKeys(s', now), now)
            == AuthorizationStanding(a, gpu, TokensByHash(s.tokens), ValidKeys(s, now), StaleKeys(s, now), now)
  {
    if a.tokenHash != "" {
      SameKeys(s, s', now, gpu, a.tokenHash);
    }
    SameStanding(a, gpu, TokensByHash(s.tokens), TokensByHash(s'.tokens),
                 ValidKeys(s, now), ValidKeys(s', now), StaleKeys(s, now), StaleKeys(s', now), now);
  }

  lemma SameStanding(a: Authorization, gpu: int, t: map<string, Token>, t': map<string, Token>,
                     valid: set<Key>, valid': set<Key>, stale: set<Key>, stale': set<Key>, now: Time)
    requires (a.tokenHash in t' <==> a.tokenHash in t) && (a.tokenHash in t ==> t'[a.tokenHash] == t[a.tokenHash])
    requires Key(gpu, a.tokenHash) in valid <==> Key(gpu, a.tokenHash) in valid'
    requires Key(gpu, a.tokenHash) in stale <==> Key(gpu, a.tokenHash) in stale'
    ensures AuthorizationStanding(a, gpu, t', valid', stale', now)
         == AuthorizationStanding(a, gpu, t, valid, stale, now)
  {
  }

  lemma PruneKeepsLeaseStanding(s: State, now: Time, l: Lease, gpu: int)
    requires PruneUnreferenced(s, now).Write? && l in s.leases && l.cgroupPath == ""
    ensures var s' := PruneUnreferenced(s, now).state;
            && l in s'.leases
            && LeaseStanding(l, gpu, TokensByHash(s'.tokens), now) == LeaseStanding(l, gpu, TokensByHash(s.tokens), now)
  {
    if l.tokenHash != "" {
      ReferencedHashUntouched(s, now, l.tokenHash);
    }
  }

  lemma SameKeyHashes(s: State, s': State, now: Time, hash: string)
    requires var t, t' := TokensByHash(s.tokens), TokensByHash(s'.tokens);
             (hash in t' <==> hash in t) && (hash in t ==> t'[hash] == t[hash])
    requires forall r: Reservation :: r.tokenHash == hash ==> (r in s'.reservations <==> r in s.reservations)
    ensures hash in Hashes(ValidKeys(s, now)) <==> hash in Hashes(ValidKeys(s', now))
    ensures hash in Hashes(StaleKeys(s, now)) <==> hash in Hashes(StaleKeys(s', now))
  {
    hide ValidKeys, StaleKeys, Hashes;
    forall gpu: int
      ensures Key(gpu, hash) in ValidKeys(s, now) <==> Key(gpu, hash) in ValidKeys(s', now)
      ensures Key(gpu, hash) in StaleKeys(s, now) <==> Key(gpu, hash) in StaleKeys(s', now) {
      SameKeys(s, s', now, gpu, hash);
    }
    SameHashes(ValidKeys(s, now), ValidKeys(s', now), hash);
    SameHashes(StaleKeys(s, now), StaleKeys(s', now), hash);
  }

  lemma NoKeyForEmptyHash(s: State, now: Time)
    ensures "" !in Hashes(ValidKeys(s, now)) && "" !in Hashes(StaleKeys(s, now))
  {
  }

  lemma PruneKeepsAssessedAuthorization(s: State, now: Time, a: Authorization)
    requires PruneUnreferenced(s, now).Write? && a in s.authorizations
    requires forall t :: t in s.tokens ==> t.hash != ""
    ensures var s' := PruneUnreferenced(s, now).state;
            AssessedAuthorization(a, TokensByHash(s'.tokens), ValidKeys(s', now), StaleKeys(s', now), now)
            <==> AssessedAuthorization(a, TokensByHash(s.tokens), ValidKeys(s, now), StaleKeys(s, now), now)
  {
    hide ValidKeys, StaleKeys, Hashes, TokensByHash, HashValid;
    var s' := PruneUnreferenced(s, now).state;
    if a.cgroupPath == "" {
      if a.tokenHash == "" {
        NoTokenForEmptyHash(s.tokens);
        NoTokenForEmptyHash(s'.tokens);
        NoKeyForEmptyHash(s, now);
        NoKeyForEmptyHash(s', now);
      } else {
        ReferencedHashUntouched(s, now, a.tokenHash);
        SameKeyHashes(s, s', now, a.tokenHash);
      }
    }
  }

  lemma PruneKeepsAssessedLease(s: State, now: Time, l: Lease)
    requires PruneUnreferenced(s, now).Write? && l in s.leases
    ensures var s' := PruneUnreferenced(s, now).state;
            AssessedLease(l, TokensByHash(s'.tokens), now) <==> AssessedLease(l, TokensByHash(s.tokens), now)
  {
    if l.cgroupPath == "" {
      PruneKeepsLeaseStanding(s, now, l, l.gpu);
    }
  }

  /** Consequently the next sample assesses exactly the same scopes. */
  lemma PruneKeepsAssessment(s: State, now: Time)
    requires PruneUnreferenced(s, now).Write?
    requires forall t :: t in s.tokens ==> t.hash != ""
    ensures var s' := PruneUnreferenced(s, now).state;
            && AssessedAuthorizations(s', now) == AssessedAuthorizations(s, now)
            && AssessedLeases(s', now) == AssessedLeases(s, now)
  {
    hide AssessedAuthorization, AssessedLease, TokensByHash, ValidKeys, StaleKeys;
    forall a | a in s.authorizations {
      PruneKeepsAssessedAuthorization(s, now, a);
    }
    forall l | l in s.leases {
      PruneKeepsAssessedLease(s, now, l);
    }
  }

  lemma SameHashes(keys: set<Key>, keys': set<Key>, hash: string)
    requires forall gpu: int :: Key(gpu, hash) in keys <==> Key(gpu, hash) in keys'
    ensures hash in Hashes(keys) <==> hash in Hashes(keys')
  {
    if k :| k in keys && k.tokenHash == hash {
      assert k == Key(k.gpu, hash);
    }
    if k :| k in keys' && k.tokenHash == hash {
      assert k == Key(k.gpu, hash);
    }
  }
}
