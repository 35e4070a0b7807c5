/**
 * The MongoDB query `allLinks` sends to the Links collection, and the
 * `id` field resolvers of the four object types.
 */
module Queries {
  import opened Wrappers
  import opened JsValues
  import opened Filters

  /** A `find` selector: `{}` matches every document; `{$or: cs}` a document matching some condition of `cs`. */
  datatype Query = MatchAll | AnyOf(conditions: seq<Condition>)

  /**
   * MongoDB's rule for a selector: `$or` must be given a non-empty array,
   * otherwise the server rejects the query ("$and/$or/$nor must be a nonempty array").
   */
  predicate AcceptedByStore(q: Query) {
    q.MatchAll? || |q.conditions| > 0
  }

  /**
   * The selector as the resolver builds it (line 59): every document when
   * no filter is given, otherwise the disjunction of the compiled conditions.
   */
  function AllLinksQuery(filter: Option<FilterSpec>): (q: Query)
    ensures filter.None? <==> q == MatchAll
  {
    if filter.Some? then AnyOf(BuildFilters(filter.value)) else MatchAll
  }

  /**
   * As written, a filter argument that is present but has no truthy
   * predicate anywhere in its tree (for instance `filter: {}`) produces
   * `{$or: []}`, which the store rejects; every other argument is accepted.
   */
  lemma AllLinksQueryRejected(f: FilterSpec)
    ensures AllLinksQuery(Some(f)) == AnyOf(BuildFilters(f))
    ensures !AcceptedByStore(AllLinksQuery(Some(f))) <==>
      forall n :: n in Nodes(f) ==> !HasPredicate(n)
    ensures AllLinksQuery(None) == MatchAll && AcceptedByStore(AllLinksQuery(None))
  {
    BuildFiltersEmptyIff(f);
  }

  /** The concrete input: `allLinks(filter: {})` sends `{$or: []}`. */
  lemma EmptyFilterArgumentRejected()
    ensures AllLinksQuery(Some(FilterSpec([], None, None))) == AnyOf([])
    ensures !AcceptedByStore(AllLinksQuery(Some(FilterSpec([], None, None))))
  {
  }

  /**
   * The evidently intended query: no filter, or a filter that compiles to
   * no condition, matches every link.
   */
  function AllLinksQueryFixed(filter: Option<FilterSpec>): (q: Query)
    ensures AcceptedByStore(q)
    ensures AcceptedByStore(AllLinksQuery(filter)) ==> q == AllLinksQuery(filter)
    ensures q.MatchAll? <==> filter.None? || forall n :: n in Nodes(filter.value) ==> !HasPredicate(n)
    ensures q.AnyOf? ==> filter.Some? && q.conditions == BuildFilters(filter.value)
  {
    match filter
    case None => MatchAll
    case Some(f) =>
      BuildFiltersEmptyIff(f);
      if BuildFilters(f) == [] then MatchAll else AnyOf(BuildFilters(f))
  }

  // ---------------------------------------------------------------------
  // The `id` field of Link, User, Vote and Test: `root._id || root.id`.
  // ---------------------------------------------------------------------

  /** A document read from the store carries `_id`; a record built by a mutation carries `id`. */
  function ResolveId(root: Record): (r: JsValue)
    ensures r == Get(root, "_id") || r == Get(root, "id")
    ensures Truthy(r) <==> Truthy(Get(root, "_id")) || Truthy(Get(root, "id"))
    ensures Truthy(Get(root, "_id")) ==> r == Get(root, "_id")
  {
    var stored := Get(root, "_id");
    if Truthy(stored) then stored else Get(root, "id")
  }

  /** The `||` picks `_id` whenever it is truthy, whatever `id` holds. */
  lemma ResolveIdPrefersStoredId(root: Record, v: JsValue)
    requires Truthy(Get(root, "_id"))
    ensures ResolveId(root["id" := v]) == root["_id"]
  {
  }

  /** With a falsy `_id` the result is `id` even when that is falsy too (`undefined`, `null`, ...). */
  lemma ResolveIdFallsBack(root: Record)
    requires !Truthy(Get(root, "_id"))
    ensures ResolveId(root) == Get(root, "id")
    ensures "id" !in root ==> ResolveId(root) == Undefined
  {
  }
}
