/**
 * The react-query cache as the client uses it. Every query key is an array
 * whose first element names the data; `invalidateQueries({ queryKey:
 * [root] })` marks stale every cached query whose key starts with `root`.
 * Toasts are recorded as events with their text and kind.
 */
module Queries {
  import opened Wrappers
  import opened Text

  const UserRoot: string := "user"
  const DashboardRoot: string := "dashboard"
  const WeightChartRoot: string := "weight-chart"
  const WeightDataRoot: string := "weight-data"
  const WeightHistoryRoot: string := "weight-history"
  const CalorieChartRoot: string := "calorie-chart"
  const CalorieHistoryRoot: string := "calorie-history"
  const ScanSessionRoot: string := "scan-session"
  const ScanAnalysisRoot: string := "scan-analisis"
  const MenusRoot: string := "menus"

  /** A query with key `key` is marked stale by invalidating the roots `roots`. */
  predicate Invalidates(roots: set<string>, key: seq<string>)
    ensures Invalidates(roots, key) <==> exists r :: r in roots && [r] <= key
  {
    |key| > 0 && key[0] in roots
  }

  datatype ToastKind = SuccessToast | ErrorToast | LoadingToast

  datatype Toast = Toast(message: string, kind: ToastKind)

  /** A request a mutation sends: the path it posts to and the body. */
  datatype Post<T> = Post(url: string, body: T)

  /** A `useQuery` as a component configures it: its cache key and the path its `queryFn` fetches. */
  datatype Query = Query(key: seq<string>, url: string)

  /**
   * The single-id queries: `enabled: !!id`, cached under `[root, id]` and
   * fetching `head + id + tail`. A missing or empty id runs no query.
   */
  function IdQuery(root: string, head: string, tail: string, id: Option<string>): (q: Option<Query>)
    ensures q.Some? <==> id.Some? && id.value != ""
    ensures q.Some? ==> q.value.key == [root, id.value] && q.value.url == head + id.value + tail
  {
    if id.Some? && id.value != "" then Some(Query([root, id.value], head + id.value + tail)) else None
  }

  /**
   * Two running queries of one kind share a cache entry exactly when they
   * share a request, and exactly when their ids agree; invalidating the
   * root marks every one of them stale, and no other root does.
   */
  lemma IdQueriesIdentify(root: string, head: string, tail: string, a: string, b: string, roots: set<string>)
    requires a != "" && b != ""
    ensures var qa, qb := IdQuery(root, head, tail, Some(a)), IdQuery(root, head, tail, Some(b));
      (qa.value.key == qb.value.key <==> a == b) &&
      (qa.value.url == qb.value.url <==> a == b) &&
      (Invalidates(roots, qa.value.key) <==> root in roots)
  {
    var qa, qb := IdQuery(root, head, tail, Some(a)), IdQuery(root, head, tail, Some(b));
    AffixInjective(head, a, b, tail);
    if qa.value.key == qb.value.key {
      assert qa.value.key[1] == a && qb.value.key[1] == b;
    }
  }
}
