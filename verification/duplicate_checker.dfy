/**
 * DuplicateChecker (services/duplicate_checker.py): answers whether a
 * combination was drawn before, from a cached copy of the winning
 * combinations that lives for one hour.
 *
 * The clock is an integer parameter in microseconds (`datetime.now()` is not
 * modelled), and each consultation of the data service yields a `Fetch`: the
 * set of sorted winning tuples it returned, or the fact that it raised.
 */
module DuplicateCheck {
  import opened Errors
  import opened Combos

  /** The cache lifetime, one hour, in microseconds. */
  const CacheTtl: int := 3_600_000_000

  /** One call of `get_existing_combinations`: its result, or an exception. */
  datatype Fetch = Snapshot(combos: set<seq<int>>) | ProviderFailed

  /** The fields `_winning_cache` and `_cache_timestamp`. */
  datatype CacheState = CacheState(cache: Option<set<seq<int>>>, timestamp: Option<int>)

  const EmptyCache: CacheState := CacheState(None, None)

  /** The cache is reloaded when either field is unset or it is older than the TTL. */
  predicate NeedsRefresh(st: CacheState, now: int)
  {
    st.cache.None? || st.timestamp.None? || now - st.timestamp.value > CacheTtl
  }

  /**
   * `_get_winning_combinations` at time `now`: the set it returns (`None` when
   * the data service raised, which leaves both fields as they were) and the
   * cache fields afterwards.
   */
  function Winning(st: CacheState, now: int, fetch: Fetch): (Option<set<seq<int>>>, CacheState)
  {
    if NeedsRefresh(st, now) then
      match fetch
      case Snapshot(combos) => (Some(combos), CacheState(Some(combos), Some(now)))
      case ProviderFailed => (None, st)
    else (Some(st.cache.value), st)
  }

  /**
   * `is_duplicate(combination)`: the verdict and the cache afterwards. Input
   * that is not six numbers long is a duplicate without consulting the cache;
   * an exception while loading the winning set is a duplicate too.
   */
  function Query(st: CacheState, combination: seq<int>, now: int, fetch: Fetch): (bool, CacheState)
  {
    if |combination| != ComboSize then (true, st)
    else
      var (winning, after) := Winning(st, now, fetch);
      match winning
      case None => (true, after)
      case Some(combos) => (SortAsc(combination) in combos, after)
  }

  /** Malformed input, the empty list included, is a duplicate and leaves the cache alone. */
  lemma MalformedIsDuplicate(st: CacheState, combination: seq<int>, now: int, fetch: Fetch)
    requires |combination| != 6
    ensures Query(st, combination, now, fetch) == (true, st)
  {
  }

  /**
   * For six numbers the verdict is membership of the sorted tuple in the set
   * `_get_winning_combinations` returned, or `true` when it raised.
   */
  lemma QueryIsSortedMembership(st: CacheState, combination: seq<int>, now: int, fetch: Fetch)
    requires |combination| == 6
    ensures var (winning, after) := Winning(st, now, fetch);
      && Query(st, combination, now, fetch).1 == after
      && Query(st, combination, now, fetch).0 == (winning.None? || SortAsc(combination) in winning.value)
  {
  }

  /** Every ordering of the same numbers gets the same verdict and the same cache. */
  lemma QueryOrderIndependent(st: CacheState, a: seq<int>, b: seq<int>, now: int, fetch: Fetch)
    requires multiset(a) == multiset(b)
    ensures Query(st, a, now, fetch) == Query(st, b, now, fetch)
  {
    SameLength(a, b);
    SortAscOfPermutation(a, b);
  }

  /** A fresh cache is used as it is: the data service is not consulted and neither field changes. */
  lemma FreshCacheIsUsed(st: CacheState, now: int, f1: Fetch, f2: Fetch)
    requires !NeedsRefresh(st, now)
    ensures Winning(st, now, f1) == Winning(st, now, f2) == (st.cache, st)
  {
  }

  /** A refresh stores the snapshot and stamps it with the current time. */
  lemma RefreshStoresSnapshot(st: CacheState, now: int, combos: set<seq<int>>)
    requires NeedsRefresh(st, now)
    ensures Winning(st, now, Snapshot(combos)) == (Some(combos), CacheState(Some(combos), Some(now)))
  {
  }

  /** The TTL comparison is strict: exactly one hour old is still fresh, a microsecond more is stale. */
  lemma StalenessIsStrict(combos: set<seq<int>>, stamp: int)
    ensures !NeedsRefresh(CacheState(Some(combos), Some(stamp)), stamp + CacheTtl)
    ensures NeedsRefresh(CacheState(Some(combos), Some(stamp)), stamp + CacheTtl + 1)
  {
  }

  /** A failure of the data service while refreshing makes the answer "duplicate". */
  lemma ProviderFailureIsDuplicate(st: CacheState, combination: seq<int>, now: int)
    requires NeedsRefresh(st, now)
    ensures Query(st, combination, now, ProviderFailed) == (true, st)
  {
  }

  /** "Not a duplicate" means six numbers whose sorted tuple is absent from the winning set in use. */
  lemma NotDuplicateMeansAbsent(st: CacheState, combination: seq<int>, now: int, fetch: Fetch)
    requires !Query(st, combination, now, fetch).0
    ensures |combination| == 6
    ensures Winning(st, now, fetch).0.Some? && SortAsc(combination) !in Winning(st, now, fetch).0.value
  {
  }

  /** After the cache is cleared, the next valid query loads the winning set again. */
  lemma ClearedCacheRefreshes(combination: seq<int>, now: int, combos: set<seq<int>>)
    requires |combination| == 6
    ensures Query(EmptyCache, combination, now, Snapshot(combos))
         == (SortAsc(combination) in combos, CacheState(Some(combos), Some(now)))
  {
  }

  class DuplicateChecker {
    var winningCache: Option<set<seq<int>>>
    var cacheTimestamp: Option<int>
    const cacheTtl: int := CacheTtl

    /** Both cache fields, as one value. */
    function State(): CacheState
      reads this
    {
      CacheState(winningCache, cacheTimestamp)
    }

    constructor ()
      ensures State() == EmptyCache
    {
      winningCache := None;
      cacheTimestamp := None;
    }

    /** `_get_winning_combinations`; `None` stands for the exception of the data service. */
    method GetWinningCombinations(now: int, fetch: Fetch) returns (r: Option<set<seq<int>>>)
      modifies this
      ensures (r, State()) == Winning(old(State()), now, fetch)
    {
      if winningCache.None? || cacheTimestamp.None? || now - cacheTimestamp.value > cacheTtl {
        match fetch {
          case ProviderFailed =>
            return None;
          case Snapshot(combinations) =>
            winningCache := Some(combinations);
            cacheTimestamp := Some(now);
        }
      }
      return winningCache;
    }

    /** `is_duplicate`. */
    method IsDuplicate(combination: seq<int>, now: int, fetch: Fetch) returns (dup: bool)
      modifies this
      ensures (dup, State()) == Query(old(State()), combination, now, fetch)
    {
      if |combination| != ComboSize {
        return true;
      }
      var comboTuple := SortAsc(combination);
      var winningCombinations := GetWinningCombinations(now, fetch);
      match winningCombinations {
        case None =>
          return true;
        case Some(combos) =>
          dup := comboTuple in combos;
      }
    }

    /** `is_new_combination`: the negation of `is_duplicate` on the same input and state. */
    method IsNewCombination(combination: seq<int>, now: int, fetch: Fetch) returns (isNew: bool)
      modifies this
      ensures (!isNew, State()) == Query(old(State()), combination, now, fetch)
    {
      var dup := IsDuplicate(combination, now, fetch);
      isNew := !dup;
    }

    /** `clear_cache`: both fields back to unset. */
    method ClearCache()
      modifies this
      ensures State() == EmptyCache
    {
      winningCache := None;
      cacheTimestamp := None;
    }
  }
}
