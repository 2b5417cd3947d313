/** The parts of the shared query cache that the application drives: entries
    keyed by array query keys, marked stale by invalidation, written directly
    by `setQueryData`, and dropped all at once by `clear`. Fetching, timers and
    retries are the library's business and are not part of this model. */
module QueryClient {
  import opened AuthTypes
  import opened Wrappers

  /** One element of an array query key: a string or the `{ showUsed }` object. */
  datatype KeyPart = Str(s: string) | ShowUsed(flag: bool)

  type QueryKey = seq<KeyPart>

  /** What an entry holds: the `{ admin }` object written by a login, or a
      server answer whose content the cache model does not look at. */
  datatype CacheData = MeData(admin: Admin) | Fetched

  datatype Entry = Entry(stale: bool, data: CacheData)

  type Cache = map<QueryKey, Entry>

  /** A filter key matches every key it is an element-wise prefix of. */
  predicate Matches(filter: QueryKey, key: QueryKey) {
    filter <= key
  }

  /** `invalidateQueries({ queryKey: filter })` on the entries. */
  function Invalidate(m: Cache, filter: QueryKey): (r: Cache)
    ensures r.Keys == m.Keys
    ensures forall k :: k in m ==> r[k].data == m[k].data
    ensures forall k :: k in m ==> (r[k].stale <==> m[k].stale || Matches(filter, k))
  {
    map k | k in m :: if Matches(filter, k) then m[k].(stale := true) else m[k]
  }

  /** Several `invalidateQueries` calls, in order. */
  function InvalidateAll(m: Cache, filters: seq<QueryKey>): (r: Cache)
    ensures r.Keys == m.Keys
    decreases |filters|
  {
    if filters == [] then m else InvalidateAll(Invalidate(m, filters[0]), filters[1..])
  }

  predicate MatchesAny(filters: seq<QueryKey>, key: QueryKey) {
    exists i :: 0 <= i < |filters| && Matches(filters[i], key)
  }

  /** The effect of a sequence of invalidations: an entry is stale afterwards
      exactly when it was stale before or some filter matches it; no entry
      is added, dropped or has its data changed. */
  lemma {:induction false} InvalidateAllEffect(m: Cache, filters: seq<QueryKey>, k: QueryKey)
    ensures k in m ==> InvalidateAll(m, filters)[k].data == m[k].data
    ensures k in m ==> (InvalidateAll(m, filters)[k].stale <==> m[k].stale || MatchesAny(filters, k))
    decreases |filters|
  {
    if filters != [] {
      var m' := Invalidate(m, filters[0]);
      InvalidateAllEffect(m', filters[1..], k);
      if k in m && MatchesAny(filters[1..], k) {
        var i :| 0 <= i < |filters[1..]| && Matches(filters[1..][i], k);
        assert Matches(filters[i + 1], k);
      }
      if k in m && MatchesAny(filters, k) && !Matches(filters[0], k) {
        var i :| 0 <= i < |filters| && Matches(filters[i], k);
        assert Matches(filters[1..][i - 1], k);
      }
    }
  }

  /** An entry no filter matches is left exactly as it was. */
  lemma UnmatchedUntouched(m: Cache, filters: seq<QueryKey>, k: QueryKey)
    requires k in m && !MatchesAny(filters, k)
    ensures k in InvalidateAll(m, filters) && InvalidateAll(m, filters)[k] == m[k]
  {
    InvalidateAllEffect(m, filters, k);
  }

  /** The query client shared by every component of a session. */
  class QueryCache {
    var entries: Cache

    constructor ()
      ensures entries == map[]
    {
      entries := map[];
    }

    method InvalidateQueries(filter: QueryKey)
      modifies this
      ensures entries == Invalidate(old(entries), filter)
    {
      entries := Invalidate(entries, filter);
    }

    /** `setQueryData`: the entry now holds `data` and is fresh. */
    method SetQueryData(key: QueryKey, data: CacheData)
      modifies this
      ensures entries == old(entries)[key := Entry(false, data)]
    {
      entries := entries[key := Entry(false, data)];
    }

    /** `clear`: every entry is dropped. */
    method Clear()
      modifies this
      ensures entries == map[]
    {
      entries := map[];
    }
  }

  /** The options a `useQuery` call passes; `retry` and `staleTimeMs` already
      have the client-wide defaults applied where the call gives none. */
  datatype QueryOptions = QueryOptions(
    key: QueryKey,
    enabled: bool,
    retry: nat,
    staleTimeMs: nat,
    refetchIntervalMs: Option<nat>)

  /** The client-wide defaults: one retry, data stale as soon as fetched. */
  const DefaultRetry: nat := 1
  const DefaultStaleTimeMs: nat := 0

  /** The state a `useMutation` result exposes (`isPending`, `error`). */
  datatype MutationState = Idle | Pending | Succeeded | Errored(message: string) {
    predicate IsPending() { Pending? }
  }

  /** A dialog's error line, `error && (error.message || fallback)`: shown
      only for a failed mutation, with the fallback when its message is empty. */
  function ErrorLine(state: MutationState, fallback: string): (r: Option<string>)
    ensures r.Some? <==> state.Errored?
    ensures state.Errored? && state.message != "" ==> r == Some(state.message)
    ensures state.Errored? && state.message == "" ==> r == Some(fallback)
  {
    if !state.Errored? then None
    else if state.message != "" then Some(state.message)
    else Some(fallback)
  }

  /** How a mutation request ended. */
  datatype Settlement = Ok | Rejected(message: string)

  /** The state a mutation reaches once its request settles. */
  function Settle(s: Settlement): (r: MutationState)
    ensures r.Succeeded? <==> s.Ok?
    ensures s.Rejected? ==> r == Errored(s.message)
    ensures !r.IsPending()
  {
    match s
    case Ok => Succeeded
    case Rejected(msg) => Errored(msg)
  }
}
