/** Which decision and flags a counterparty preflight can report together, and the follow-up kinds
    that `submit` and the projection derive from them. */
module Preflight {
  import opened Common

  datatype Decision = Normal | Attention | BlockingFact | Unknown | Conflicting
  datatype Flag =
    | IdentifierNotProvided | InvalidChecksum | ProviderUnavailable | NonAuthoritativeProvider
    | LegalNameMismatch | EntityStatusBlocking | ReorganizationSignal | InvalidProviderTimestamp
  datatype IdentityMatch = Match | NameMismatch | NotChecked
  datatype Snapshot = Snapshot(id: nat, decision: Decision, identity: IdentityMatch, flags: seq<Flag>)

  datatype LegalStatus = Blocking | Reorganizing | Other
  /** The registry's answer: whether a supplied company name agrees, the legal status, the timestamp. */
  datatype Lookup =
    | Unavailable
    | Found(nameSupplied: bool, nameMatches: bool, status: LegalStatus, timestampValid: bool)
  datatype Provider = NoProvider | NotAuthoritative | Authoritative
  datatype Query = Query(cacheKey: string, identifierGiven: bool, checksumValid: bool, provider: Provider,
                         lookup: Lookup)

  type Cache = map<string, Snapshot>

  /** One preflight; the answer carries the cache it leaves. `cacheFresh` says whether a cached
      snapshot has not expired, `budgetLeft` whether the lookup budget admits a call. */
  function RunPreflight(cache: Cache, q: Query, id: nat, cacheFresh: bool, budgetLeft: bool)
    : Option<(Cache, Snapshot)> {
    if !q.identifierGiven then Some((cache, Snapshot(id, Unknown, NotChecked, [IdentifierNotProvided])))
    else if !q.checksumValid then Some((cache, Snapshot(id, BlockingFact, NotChecked, [InvalidChecksum])))
    else if q.provider.NoProvider? then Some((cache, Snapshot(id, Unknown, NotChecked, [ProviderUnavailable])))
    else if q.provider.NotAuthoritative? then
      Some((cache, Snapshot(id, Unknown, NotChecked, [NonAuthoritativeProvider])))
    else if q.cacheKey in cache && cacheFresh then Some((cache, cache[q.cacheKey]))
    else if !budgetLeft then None
    else if q.lookup.Unavailable? then Some((cache, Snapshot(id, Unknown, NotChecked, [ProviderUnavailable])))
    else
      var s := FromLookup(q.lookup, id);
      Some((cache[q.cacheKey := s], s))
  }

  function FromLookup(l: Lookup, id: nat): Snapshot
    requires l.Found?
  {
    var identity := if !l.nameSupplied then NotChecked else if l.nameMatches then Match else NameMismatch;
    var flags := (if identity.NameMismatch? then [LegalNameMismatch] else [])
               + (match l.status
                  case Blocking => [EntityStatusBlocking]
                  case Reorganizing => [ReorganizationSignal]
                  case Other => [])
               + (if l.timestampValid then [] else [InvalidProviderTimestamp]);
    var decision := match l.status
                    case Blocking => BlockingFact
                    case Reorganizing => Attention
                    case Other => if identity.NameMismatch? then Conflicting else Normal;
    Snapshot(id, decision, identity, flags)
  }

  datatype Kind = AttentionKind | BlockingKind | ProviderKind

  /** The extra event `submit` appends: the decision is tested first. */
  function SubmitFollowUp(s: Snapshot): Option<Kind> {
    if s.decision == Attention then Some(AttentionKind)
    else if s.decision == BlockingFact then Some(BlockingKind)
    else if ProviderUnavailable in s.flags then Some(ProviderKind)
    else None
  }

  /** The extra notification the projection writes: the flag is tested first. */
  function ProjectionFollowUp(s: Snapshot): Option<Kind> {
    if ProviderUnavailable in s.flags then Some(ProviderKind)
    else if s.decision == Attention then Some(AttentionKind)
    else if s.decision == BlockingFact then Some(BlockingKind)
    else None
  }

  predicate Coherent(s: Snapshot) { ProviderUnavailable in s.flags ==> s.decision == Unknown }

  /** For an arbitrary snapshot the two orders of tests agree exactly when the flag does not come
      with a decision that has a kind of its own. */
  lemma FollowUpsAgreeIff(s: Snapshot)
    ensures SubmitFollowUp(s) == ProjectionFollowUp(s)
       <==> !(ProviderUnavailable in s.flags && (s.decision == Attention || s.decision == BlockingFact))
  {}

  /** What a sequence of preflights can ever return, starting from an empty cache. */
  datatype Call = Call(query: Query, id: nat, cacheFresh: bool, budgetLeft: bool)

  function CacheAfter(cache: Cache, calls: seq<Call>): Cache
    decreases |calls|
  {
    if calls == [] then cache
    else
      var c := calls[0];
      var r := RunPreflight(cache, c.query, c.id, c.cacheFresh, c.budgetLeft);
      CacheAfter(if r.Some? then r.value.0 else cache, calls[1..])
  }

  lemma LookupHasNoProviderFlag(l: Lookup, id: nat)
    requires l.Found?
    ensures ProviderUnavailable !in FromLookup(l, id).flags
  {}

  lemma {:induction false} CacheStaysCoherent(cache: Cache, calls: seq<Call>)
    requires forall k | k in cache :: Coherent(cache[k])
    ensures forall k | k in CacheAfter(cache, calls) :: Coherent(CacheAfter(cache, calls)[k])
    decreases |calls|
  {
    if calls != [] {
      var c := calls[0];
      if c.query.lookup.Found? { LookupHasNoProviderFlag(c.query.lookup, c.id); }
      var r := RunPreflight(cache, c.query, c.id, c.cacheFresh, c.budgetLeft);
      CacheStaysCoherent(if r.Some? then r.value.0 else cache, calls[1..]);
    }
  }

  /** Every snapshot a preflight can return, also out of a cache that earlier preflights filled, gives
      the same follow-up kind on both sides. */
  lemma FollowUpsAgree(earlier: seq<Call>, c: Call)
    ensures var r := RunPreflight(CacheAfter(map[], earlier), c.query, c.id, c.cacheFresh, c.budgetLeft);
            r.Some? ==> Coherent(r.value.1) && SubmitFollowUp(r.value.1) == ProjectionFollowUp(r.value.1)
  {
    CacheStaysCoherent(map[], earlier);
    if c.query.lookup.Found? { LookupHasNoProviderFlag(c.query.lookup, c.id); }
  }

  /** What one preflight answers after any history of earlier ones. */
  function Outcome(earlier: seq<Call>, c: Call): Option<Snapshot> {
    var r := RunPreflight(CacheAfter(map[], earlier), c.query, c.id, c.cacheFresh, c.budgetLeft);
    if r.Some? then Some(r.value.1) else None
  }

  ghost predicate Producible(s: Snapshot) { exists earlier, c :: Outcome(earlier, c) == Some(s) }

  lemma ProducibleIsCoherent(s: Snapshot)
    requires Producible(s)
    ensures Coherent(s)
  {
    var earlier, c :| Outcome(earlier, c) == Some(s);
    FollowUpsAgree(earlier, c);
  }

  // ----- what a snapshot says -----

  /** The registry has to be asked. */
  predicate NeedsRegistry(q: Query) { q.identifierGiven && q.checksumValid && q.provider.Authoritative? }

  /** The registry was asked and has answered. */
  predicate IsHeard(q: Query) { NeedsRegistry(q) && q.lookup.Found? }

  /** Every flag of the snapshot has its cause in the query, and every cause its flag. */
  ghost predicate FlagsExplained(q: Query, s: Snapshot) {
    && (IdentifierNotProvided in s.flags <==> !q.identifierGiven)
    && (InvalidChecksum in s.flags <==> q.identifierGiven && !q.checksumValid)
    && (NonAuthoritativeProvider in s.flags <==> q.identifierGiven && q.checksumValid && q.provider.NotAuthoritative?)
    && (ProviderUnavailable in s.flags <==>
          q.identifierGiven && q.checksumValid
          && (q.provider.NoProvider? || (q.provider.Authoritative? && q.lookup.Unavailable?)))
    && (LegalNameMismatch in s.flags <==> IsHeard(q) && q.lookup.nameSupplied && !q.lookup.nameMatches)
    && (EntityStatusBlocking in s.flags <==> IsHeard(q) && q.lookup.status == Blocking)
    && (ReorganizationSignal in s.flags <==> IsHeard(q) && q.lookup.status == Reorganizing)
    && (InvalidProviderTimestamp in s.flags <==> IsHeard(q) && !q.lookup.timestampValid)
  }

  /** The flags determine the decision. */
  ghost predicate DecisionExplained(s: Snapshot) {
    && (s.decision == BlockingFact <==> InvalidChecksum in s.flags || EntityStatusBlocking in s.flags)
    && (s.decision == Attention <==> ReorganizationSignal in s.flags)
    && (s.decision == Unknown <==>
          IdentifierNotProvided in s.flags || ProviderUnavailable in s.flags || NonAuthoritativeProvider in s.flags)
    && (s.decision == Conflicting <==>
          LegalNameMismatch in s.flags && EntityStatusBlocking !in s.flags && ReorganizationSignal !in s.flags)
  }

  ghost predicate IdentityExplained(q: Query, s: Snapshot) {
    s.identity == if !IsHeard(q) || !q.lookup.nameSupplied then NotChecked
                  else if q.lookup.nameMatches then Match else NameMismatch
  }

  ghost predicate Explained(c: Call, s: Snapshot) {
    s.id == c.id && FlagsExplained(c.query, s) && DecisionExplained(s) && IdentityExplained(c.query, s)
  }

  lemma LookupIsExplained(c: Call)
    requires IsHeard(c.query)
    ensures Explained(c, FromLookup(c.query.lookup, c.id))
  {}

  /** What is cached under a key is the answer of an earlier call with that key which was heard. */
  ghost predicate CacheOk(cache: Cache, earlier: seq<Call>) {
    forall k | k in cache ::
      exists c :: c in earlier && c.query.cacheKey == k && IsHeard(c.query) && Explained(c, cache[k])
  }

  /** The snapshot is explained by the call itself, or by an earlier one with its cache key while the cache is
      fresh. */
  ghost predicate IsAnswer(earlier: seq<Call>, c: Call, s: Snapshot) {
    || Explained(c, s)
    || (c.cacheFresh && NeedsRegistry(c.query)
        && exists d :: d in earlier && Explained(d, s) && IsHeard(d.query) && d.query.cacheKey == c.query.cacheKey)
  }

  lemma OneMoreCall(cache: Cache, earlier: seq<Call>, c: Call)
    requires CacheOk(cache, earlier)
    ensures var r := RunPreflight(cache, c.query, c.id, c.cacheFresh, c.budgetLeft);
            && (r.Some? ==> CacheOk(r.value.0, earlier + [c])) && CacheOk(cache, earlier + [c])
            && (r.Some? ==> IsAnswer(earlier, c, r.value.1))
            && (r.None? <==> NeedsRegistry(c.query) && !(c.query.cacheKey in cache && c.cacheFresh) && !c.budgetLeft)
  {
    var r := RunPreflight(cache, c.query, c.id, c.cacheFresh, c.budgetLeft);
    if IsHeard(c.query) { LookupIsExplained(c); }
    hide FromLookup;
  }

  lemma {:induction false} CacheIsExplained(cache: Cache, before: seq<Call>, calls: seq<Call>)
    requires CacheOk(cache, before)
    ensures CacheOk(CacheAfter(cache, calls), before + calls)
    decreases |calls|
  {
    if calls == [] {
      assert before + calls == before;
    } else {
      var c := calls[0];
      OneMoreCall(cache, before, c);
      var r := RunPreflight(cache, c.query, c.id, c.cacheFresh, c.budgetLeft);
      assert before + calls == (before + [c]) + calls[1..];
      hide RunPreflight, CacheOk;
      CacheIsExplained(if r.Some? then r.value.0 else cache, before + [c], calls[1..]);
    }
  }

  /** Whatever was asked before, a preflight answers what its own query explains, or a fresh answer to an earlier
      query with its cache key that the registry had answered; it gives up only without such an answer, when
      the registry is needed and the lookup budget is spent. */
  lemma PreflightIsExplained(earlier: seq<Call>, c: Call)
    ensures var answer := Outcome(earlier, c);
            && (answer.Some? ==> IsAnswer(earlier, c, answer.value))
            && (answer.None? ==> NeedsRegistry(c.query) && !c.budgetLeft)
  {
    assert [] + earlier == earlier;
    CacheIsExplained(map[], [], earlier);
    OneMoreCall(CacheAfter(map[], earlier), earlier, c);
    hide RunPreflight, CacheAfter, CacheOk, IsAnswer;
  }
}
