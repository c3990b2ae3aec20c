/**
 * The decision logic of the Sleeper API helpers (lib/sleeper.ts): the
 * five-minute response caches of `getLeagueDrafts` and `getDraftPicks`,
 * the normalisation of identifiers, the mapping of "not found" answers to
 * an empty list, and the choice of a league's primary draft.
 *
 * The network is not modelled: each lookup receives, as a parameter, what
 * the upstream request would answer if it were made, and two clock
 * readings (when the call starts and when the answer arrives).
 */
module Sleeper {
  import opened Wrappers
  import opened JsText

  /** The fields of a pick's `metadata` that the core reads. */
  datatype PickMetadata = PickMetadata(firstName: Option<string>, lastName: Option<string>)

  /**
   * A draft pick as the core reads it: the overall pick number, the draft
   * slot (column 1..teams) and the metadata. `None` is an absent field.
   */
  datatype DraftPick = DraftPick(pickNo: Option<nat>, draftSlot: Option<nat>, metadata: Option<PickMetadata>)

  /** A league's draft; only `status` takes part in any decision. */
  datatype LeagueDraft = LeagueDraft(draftId: string, leagueId: string, status: Option<string>)

  /** A cached response and the time (ms) at which it was stored. */
  datatype CacheEntry<T> = CacheEntry(ts: int, data: T)

  /** A response cache keyed by trimmed identifier. */
  type Cache<T> = map<string, CacheEntry<seq<T>>>

  /** Five minutes, in milliseconds. */
  const CacheTtlMs: int := 5 * 60 * 1000

  /** A cached entry stored at `ts` may be served at time `now`. */
  predicate IsFresh(ts: int, now: int) {
    now - ts < CacheTtlMs
  }

  /** Why an upstream request failed: an HTTP status, or anything else (timeout, network, bad JSON). */
  datatype FetchError = HttpError(status: int) | TransportError

  /** What the upstream request answers, were it made. */
  datatype Upstream<T> = Fetched(data: T) | FetchFailed(error: FetchError)

  /** What a helper returns to its caller: a value, or the error it rethrows. */
  datatype Result<T> = Ok(value: T) | Err(error: FetchError)

  /** The outcome of one cached lookup: the result and the cache afterwards. */
  datatype Step<T> = Step(result: Result<seq<T>>, cache: Cache<T>)

  /** Statuses that `getLeagueDrafts` turns into an empty list. */
  const LeagueDraftsEmptyOn: set<int> := {404}

  /** Statuses that `getDraftPicks` turns into an empty list. */
  const DraftPicksEmptyOn: set<int> := {404, 400}

  predicate MeansEmpty(e: FetchError, emptyOn: set<int>) {
    e.HttpError? && e.status in emptyOn
  }

  /**
   * One call of `getLeagueDrafts` / `getDraftPicks` (they differ only in
   * `emptyOn`): trim the identifier; an empty one answers `[]`; a fresh cached
   * entry is served; otherwise the upstream answer is stored and returned,
   * an error in `emptyOn` is stored and returned as `[]`, and any other error
   * is passed on with the cache untouched.
   */
  function Lookup<T>(cache: Cache<T>, rawId: string, now: int, fetchedAt: int,
                     upstream: Upstream<seq<T>>, emptyOn: set<int>): Step<T>
  {
    var id := Trim(rawId);
    if id == [] then Step(Ok([]), cache)
    else if id in cache && IsFresh(cache[id].ts, now) then Step(Ok(cache[id].data), cache)
    else match upstream
      case Fetched(data) => Step(Ok(data), cache[id := CacheEntry(fetchedAt, data)])
      case FetchFailed(e) =>
        if MeansEmpty(e, emptyOn) then Step(Ok([]), cache[id := CacheEntry(fetchedAt, [])])
        else Step(Err(e), cache)
  }

  /** Every key is a non-empty identifier with no white space at either end. */
  predicate KeysTrimmed<T>(cache: Cache<T>) {
    forall k :: k in cache ==> IsTrimmed(k)
  }

  /** A lookup only ever stores under a trimmed, non-empty key. */
  lemma LookupKeepsKeysTrimmed<T>(cache: Cache<T>, rawId: string, now: int, fetchedAt: int,
                                  upstream: Upstream<seq<T>>, emptyOn: set<int>)
    requires KeysTrimmed(cache)
    ensures KeysTrimmed(Lookup(cache, rawId, now, fetchedAt, upstream, emptyOn).cache)
  {
    TrimIsTrimmed(rawId);
  }

  /** An identifier that is empty after trimming answers `[]` and neither reads nor writes the cache. */
  lemma LookupEmptyId<T>(cache: Cache<T>, rawId: string, now: int, fetchedAt: int,
                         upstream: Upstream<seq<T>>, emptyOn: set<int>)
    requires AllWhitespace(rawId)
    ensures Lookup(cache, rawId, now, fetchedAt, upstream, emptyOn) == Step(Ok([]), cache)
  {
    TrimEmptyIff(rawId);
  }

  /** A lookup changes no entry except the one under the trimmed identifier. */
  lemma LookupFrame<T>(cache: Cache<T>, rawId: string, now: int, fetchedAt: int,
                       upstream: Upstream<seq<T>>, emptyOn: set<int>, other: string)
    requires other != Trim(rawId)
    ensures var c' := Lookup(cache, rawId, now, fetchedAt, upstream, emptyOn).cache;
            (other in c' <==> other in cache) && (other in cache ==> c'[other] == cache[other])
  {
  }

  /** While an entry is fresh it is served whatever upstream would say, and the cache is left alone. */
  lemma LookupServesFresh<T>(cache: Cache<T>, rawId: string, now: int, fetchedAt: int,
                             upstream: Upstream<seq<T>>, emptyOn: set<int>)
    requires !AllWhitespace(rawId)
    requires Trim(rawId) in cache && now - cache[Trim(rawId)].ts < CacheTtlMs
    ensures Lookup(cache, rawId, now, fetchedAt, upstream, emptyOn) == Step(Ok(cache[Trim(rawId)].data), cache)
  {
    TrimEmptyIff(rawId);
  }

  /**
   * An entry is stale from exactly five minutes on: the answer then comes
   * from upstream and replaces the entry.
   */
  lemma LookupRefetchesWhenStale<T>(cache: Cache<T>, rawId: string, now: int, fetchedAt: int,
                                    data: seq<T>, emptyOn: set<int>)
    requires !AllWhitespace(rawId)
    requires Trim(rawId) in cache && now - cache[Trim(rawId)].ts >= CacheTtlMs
    ensures Lookup(cache, rawId, now, fetchedAt, Fetched(data), emptyOn)
            == Step(Ok(data), cache[Trim(rawId) := CacheEntry(fetchedAt, data)])
  {
    TrimEmptyIff(rawId);
  }

  /** A successful fetch is returned and stored, stamped with the time it arrived. */
  lemma LookupStoresFetched<T>(cache: Cache<T>, rawId: string, now: int, fetchedAt: int,
                               data: seq<T>, emptyOn: set<int>)
    requires !AllWhitespace(rawId)
    requires !(Trim(rawId) in cache && IsFresh(cache[Trim(rawId)].ts, now))
    ensures Lookup(cache, rawId, now, fetchedAt, Fetched(data), emptyOn)
            == Step(Ok(data), cache[Trim(rawId) := CacheEntry(fetchedAt, data)])
  {
    TrimEmptyIff(rawId);
  }

  /** A failure whose status is in `emptyOn` becomes `[]`, and `[]` is cached. */
  lemma LookupEmptyOnStatus<T>(cache: Cache<T>, rawId: string, now: int, fetchedAt: int,
                               status: int, emptyOn: set<int>)
    requires !AllWhitespace(rawId) && status in emptyOn
    requires !(Trim(rawId) in cache && IsFresh(cache[Trim(rawId)].ts, now))
    ensures Lookup(cache, rawId, now, fetchedAt, FetchFailed(HttpError(status)), emptyOn)
            == Step(Ok([]), cache[Trim(rawId) := CacheEntry(fetchedAt, [])])
  {
    TrimEmptyIff(rawId);
  }

  /** Any other failure is passed on and the cache is unchanged. */
  lemma LookupPropagatesError<T>(cache: Cache<T>, rawId: string, now: int, fetchedAt: int,
                                 e: FetchError, emptyOn: set<int>)
    requires !AllWhitespace(rawId) && !MeansEmpty(e, emptyOn)
    requires !(Trim(rawId) in cache && IsFresh(cache[Trim(rawId)].ts, now))
    ensures Lookup(cache, rawId, now, fetchedAt, FetchFailed(e), emptyOn) == Step(Err(e), cache)
  {
    TrimEmptyIff(rawId);
  }

  /**
   * Two calls in a row: after a fetch stored at `fetchedAt`, a second call
   * for the same identifier (even spelt with other surrounding white space)
   * made less than five minutes later answers the fetched data without
   * consulting upstream.
   */
  lemma FetchedThenServed<T>(cache: Cache<T>, rawId: string, rawId2: string, now: int, fetchedAt: int,
                             data: seq<T>, emptyOn: set<int>,
                             now2: int, fetchedAt2: int, upstream2: Upstream<seq<T>>)
    requires Trim(rawId2) == Trim(rawId) && !AllWhitespace(rawId)
    requires !(Trim(rawId) in cache && IsFresh(cache[Trim(rawId)].ts, now))
    requires now2 - fetchedAt < CacheTtlMs
    ensures var first := Lookup(cache, rawId, now, fetchedAt, Fetched(data), emptyOn);
            Lookup(first.cache, rawId2, now2, fetchedAt2, upstream2, emptyOn) == Step(Ok(data), first.cache)
  {
    LookupStoresFetched(cache, rawId, now, fetchedAt, data, emptyOn);
  }

  /** A draft whose status, lower-cased, is "complete". */
  predicate IsComplete(d: LeagueDraft) {
    EqualsIgnoringCase(d.status.GetOr(""), "complete")
  }

  /** `drafts.find(isComplete)`, as an index: the first complete draft, if any. */
  function FindComplete(drafts: seq<LeagueDraft>): (r: Option<nat>)
    ensures r.Some? ==> r.value < |drafts| && IsComplete(drafts[r.value])
    ensures r.Some? ==> forall k :: 0 <= k < r.value ==> !IsComplete(drafts[k])
    ensures r.None? ==> forall k :: 0 <= k < |drafts| ==> !IsComplete(drafts[k])
  {
    if drafts == [] then None
    else if IsComplete(drafts[0]) then Some(0)
    else match FindComplete(drafts[1..])
      case None => None
      case Some(i) => Some(i + 1)
  }

  /**
   * The primary draft of a league with drafts `drafts`: none for no drafts,
   * else the first complete draft, else the first draft.
   */
  function PrimaryDraft(drafts: seq<LeagueDraft>): (r: Option<LeagueDraft>)
    ensures r.None? <==> drafts == []
    ensures r.Some? ==> r.value in drafts
    ensures forall i :: (0 <= i < |drafts| && IsComplete(drafts[i])
                         && (forall k :: 0 <= k < i ==> !IsComplete(drafts[k]))) ==> r == Some(drafts[i])
    ensures (forall k :: 0 <= k < |drafts| ==> !IsComplete(drafts[k])) && drafts != [] ==> r == Some(drafts[0])
  {
    if drafts == [] then None
    else match FindComplete(drafts)
      case Some(i) => Some(drafts[i])
      case None => Some(drafts[0])
  }

  /**
   * The module-level state of lib/sleeper.ts: the league-drafts cache and
   * the draft-picks cache.
   */
  class SleeperClient {
    var leagueDraftsCache: Cache<LeagueDraft>
    var draftPicksCache: Cache<DraftPick>

    ghost predicate Valid()
      reads this
    {
      KeysTrimmed(leagueDraftsCache) && KeysTrimmed(draftPicksCache)
    }

    constructor ()
      ensures Valid()
      ensures leagueDraftsCache == map[] && draftPicksCache == map[]
    {
      leagueDraftsCache := map[];
      draftPicksCache := map[];
    }

    /** `getLeagueDrafts(leagueId)`. */
    method GetLeagueDrafts(leagueId: string, now: int, fetchedAt: int, upstream: Upstream<seq<LeagueDraft>>)
      returns (r: Result<seq<LeagueDraft>>)
      requires Valid()
      modifies this
      ensures Valid()
      ensures Step(r, leagueDraftsCache)
              == Lookup(old(leagueDraftsCache), leagueId, now, fetchedAt, upstream, LeagueDraftsEmptyOn)
      ensures draftPicksCache == old(draftPicksCache)
    {
      LookupKeepsKeysTrimmed(leagueDraftsCache, leagueId, now, fetchedAt, upstream, LeagueDraftsEmptyOn);
      var id := Trim(leagueId);
      if id == [] {
        return Ok([]);
      }
      if id in leagueDraftsCache && IsFresh(leagueDraftsCache[id].ts, now) {
        return Ok(leagueDraftsCache[id].data);
      }
      match upstream {
        case Fetched(data) =>
          leagueDraftsCache := leagueDraftsCache[id := CacheEntry(fetchedAt, data)];
          r := Ok(data);
        case FetchFailed(e) =>
          if MeansEmpty(e, LeagueDraftsEmptyOn) {
            leagueDraftsCache := leagueDraftsCache[id := CacheEntry(fetchedAt, [])];
            r := Ok([]);
          } else {
            r := Err(e);
          }
      }
    }

    /** `getLeaguePrimaryDraft(leagueId)`: the league's drafts, then the primary one. */
    method GetLeaguePrimaryDraft(leagueId: string, now: int, fetchedAt: int, upstream: Upstream<seq<LeagueDraft>>)
      returns (r: Result<Option<LeagueDraft>>)
      requires Valid()
      modifies this
      ensures Valid()
      ensures var s := Lookup(old(leagueDraftsCache), leagueId, now, fetchedAt, upstream, LeagueDraftsEmptyOn);
              && leagueDraftsCache == s.cache
              && r == (match s.result
                       case Ok(drafts) => Ok(PrimaryDraft(drafts))
                       case Err(e) => Err(e))
      ensures draftPicksCache == old(draftPicksCache)
    {
      var drafts := GetLeagueDrafts(leagueId, now, fetchedAt, upstream);
      match drafts {
        case Ok(ds) => r := Ok(PrimaryDraft(ds));
        case Err(e) => r := Err(e);
      }
    }

    /** `getDraftPicks(draftId)`. */
    method GetDraftPicks(draftId: string, now: int, fetchedAt: int, upstream: Upstream<seq<DraftPick>>)
      returns (r: Result<seq<DraftPick>>)
      requires Valid()
      modifies this
      ensures Valid()
      ensures Step(r, draftPicksCache)
              == Lookup(old(draftPicksCache), draftId, now, fetchedAt, upstream, DraftPicksEmptyOn)
      ensures leagueDraftsCache == old(leagueDraftsCache)
    {
      LookupKeepsKeysTrimmed(draftPicksCache, draftId, now, fetchedAt, upstream, DraftPicksEmptyOn);
      var id := Trim(draftId);
      if id == [] {
        return Ok([]);
      }
      if id in draftPicksCache && IsFresh(draftPicksCache[id].ts, now) {
        return Ok(draftPicksCache[id].data);
      }
      match upstream {
        case Fetched(data) =>
          draftPicksCache := draftPicksCache[id := CacheEntry(fetchedAt, data)];
          r := Ok(data);
        case FetchFailed(e) =>
          if MeansEmpty(e, DraftPicksEmptyOn) {
            draftPicksCache := draftPicksCache[id := CacheEntry(fetchedAt, [])];
            r := Ok([]);
          } else {
            r := Err(e);
          }
      }
    }
  }
}
