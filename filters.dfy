/**
 * The filter compiler of `allLinks`: a nested search specification with an
 * OR list of child specifications is flattened into an ordered list of
 * MongoDB conditions, one per node that carries a predicate.
 */
module Filters {
  import opened Wrappers

  /**
   * A `LinkFilter` search argument.  An absent `OR` is the empty sequence
   * (the destructuring default `OR = []`); an absent predicate is `None`.
   */
  datatype FilterSpec = FilterSpec(
    OR: seq<FilterSpec>,
    descriptionContains: Option<string>,
    urlContains: Option<string>)

  /**
   * One compiled condition: each present field holds the `$regex` pattern
   * its field must match.  The fields of one condition are AND-ed.
   */
  datatype Condition = Condition(description: Option<string>, url: Option<string>)

  /** JavaScript truthiness of an optional string: absent and "" are both falsy. */
  predicate Present(o: Option<string>) {
    o.Some? && |o.value| > 0
  }

  /** A node carries a predicate when one of its two fields is truthy. */
  predicate HasPredicate(f: FilterSpec) {
    Present(f.descriptionContains) || Present(f.urlContains)
  }

  /** The template literal `.*${s}.*`: a regex matching any string that contains `s`. */
  function Pattern(s: string): (p: string)
    ensures |p| == |s| + 4
    ensures p[..2] == ".*" && p[|p| - 2..] == ".*"
    ensures p[2..|p| - 2] == s
  {
    ".*" + s + ".*"
  }

  /** A condition is non-empty: it constrains at least one field. */
  predicate NonEmpty(c: Condition) {
    c.description.Some? || c.url.Some?
  }

  function FieldPattern(o: Option<string>): Option<string> {
    if Present(o) then Some(Pattern(o.value)) else None
  }

  /** The condition a node contributes by itself, if any. */
  function OwnCondition(f: FilterSpec): (r: Option<Condition>)
    ensures r.Some? <==> HasPredicate(f)
    ensures r.Some? ==> NonEmpty(r.value)
    ensures r.Some? ==> (r.value.description.Some? <==> Present(f.descriptionContains))
    ensures r.Some? ==> (r.value.url.Some? <==> Present(f.urlContains))
    ensures r.Some? && Present(f.descriptionContains) ==>
      r.value.description == Some(Pattern(f.descriptionContains.value))
    ensures r.Some? && Present(f.urlContains) ==>
      r.value.url == Some(Pattern(f.urlContains.value))
  {
    if HasPredicate(f) then
      Some(Condition(FieldPattern(f.descriptionContains), FieldPattern(f.urlContains)))
    else
      None
  }

  /** The node's own condition as a list of zero or one element (resolvers.js line 32). */
  function OwnList(f: FilterSpec): seq<Condition> {
    if HasPredicate(f) then [OwnCondition(f).value] else []
  }

  /** The compiled conditions of a node: its own condition, then those of its children in order. */
  function BuildFilters(f: FilterSpec): seq<Condition>
    decreases f, 1
  {
    OwnList(f) + Flatten(f.OR)
  }

  /** The concatenation of the compiled conditions of each spec, in order. */
  function Flatten(fs: seq<FilterSpec>): seq<Condition>
    decreases fs, 0
  {
    if fs == [] then [] else BuildFilters(fs[0]) + Flatten(fs[1..])
  }

  // ---------------------------------------------------------------------
  // An independent description of the result: the nodes of the tree in
  // preorder, and the conditions of those that carry a predicate.
  // ---------------------------------------------------------------------

  /** Every node of the tree in preorder: the node itself first, then each child's subtree in order. */
  function Nodes(f: FilterSpec): seq<FilterSpec>
    decreases f, 1
  {
    [f] + NodesOf(f.OR)
  }

  function NodesOf(fs: seq<FilterSpec>): seq<FilterSpec>
    decreases fs, 0
  {
    if fs == [] then [] else Nodes(fs[0]) + NodesOf(fs[1..])
  }

  /** The nodes of `ns` that carry a predicate, in their original order. */
  function WithPredicate(ns: seq<FilterSpec>): (r: seq<FilterSpec>)
    ensures |r| <= |ns|
    ensures forall n :: n in r ==> n in ns && HasPredicate(n)
    ensures forall n :: n in ns && HasPredicate(n) ==> n in r
  {
    if ns == [] then []
    else (if HasPredicate(ns[0]) then [ns[0]] else []) + WithPredicate(ns[1..])
  }

  /** The own conditions of a sequence of nodes, in order. */
  function Conditions(ns: seq<FilterSpec>): (r: seq<Condition>)
    requires forall n :: n in ns ==> HasPredicate(n)
    ensures |r| == |ns|
    ensures forall k :: 0 <= k < |r| ==> Some(r[k]) == OwnCondition(ns[k])
  {
    if ns == [] then [] else [OwnCondition(ns[0]).value] + Conditions(ns[1..])
  }

  /** The number of nodes of the tree that carry a predicate. */
  function CountPredicateNodes(f: FilterSpec): nat
    decreases f, 1
  {
    (if HasPredicate(f) then 1 else 0) + CountPredicateNodesOf(f.OR)
  }

  function CountPredicateNodesOf(fs: seq<FilterSpec>): nat
    decreases fs, 0
  {
    if fs == [] then 0 else CountPredicateNodes(fs[0]) + CountPredicateNodesOf(fs[1..])
  }

  // ---------------------------------------------------------------------
  // Lemmas
  // ---------------------------------------------------------------------

  lemma {:induction false} FlattenAppend(a: seq<FilterSpec>, b: seq<FilterSpec>)
    ensures Flatten(a + b) == Flatten(a) + Flatten(b)
  {
    if a == [] {
      assert a + b == b;
    } else {
      assert (a + b)[0] == a[0];
      assert (a + b)[1..] == a[1..] + b;
      FlattenAppend(a[1..], b);
    }
  }

  /** One more child in the prefix adds that child's conditions at the end. */
  lemma FlattenPrefixStep(fs: seq<FilterSpec>, i: nat)
    requires i < |fs|
    ensures Flatten(fs[..i + 1]) == Flatten(fs[..i]) + BuildFilters(fs[i])
  {
    assert fs[..i + 1] == fs[..i] + [fs[i]];
    FlattenAppend(fs[..i], [fs[i]]);
    assert [fs[i]][1..] == [];
  }

  lemma {:induction false} WithPredicateAppend(a: seq<FilterSpec>, b: seq<FilterSpec>)
    ensures WithPredicate(a + b) == WithPredicate(a) + WithPredicate(b)
  {
    if a == [] {
      assert a + b == b;
    } else {
      assert (a + b)[0] == a[0];
      assert (a + b)[1..] == a[1..] + b;
      WithPredicateAppend(a[1..], b);
    }
  }

  lemma ConditionsAppend(a: seq<FilterSpec>, b: seq<FilterSpec>)
    requires forall n :: n in a ==> HasPredicate(n)
    requires forall n :: n in b ==> HasPredicate(n)
    ensures Conditions(a + b) == Conditions(a) + Conditions(b)
  {
  }

  /**
   * The main characterisation: the compiled list is exactly the own
   * conditions of the predicate-carrying nodes, taken in preorder.
   */
  lemma {:induction false} BuildFiltersIsPreorder(f: FilterSpec)
    ensures BuildFilters(f) == Conditions(WithPredicate(Nodes(f)))
    decreases f, 1
  {
    FlattenIsPreorder(f.OR);
    WithPredicateAppend([f], NodesOf(f.OR));
    ConditionsAppend(WithPredicate([f]), WithPredicate(NodesOf(f.OR)));
    assert WithPredicate([f]) == (if HasPredicate(f) then [f] else []) by {
      assert [f][1..] == [];
    }
  }

  lemma {:induction false} FlattenIsPreorder(fs: seq<FilterSpec>)
    ensures Flatten(fs) == Conditions(WithPredicate(NodesOf(fs)))
    decreases fs, 0
  {
    if fs != [] {
      BuildFiltersIsPreorder(fs[0]);
      FlattenIsPreorder(fs[1..]);
      WithPredicateAppend(Nodes(fs[0]), NodesOf(fs[1..]));
      ConditionsAppend(WithPredicate(Nodes(fs[0])), WithPredicate(NodesOf(fs[1..])));
    }
  }

  /**
   * One condition per predicate-carrying node, in preorder: the k-th
   * condition is the own condition of the k-th such node.
   */
  lemma BuildFiltersPerNode(f: FilterSpec)
    ensures |BuildFilters(f)| == |WithPredicate(Nodes(f))|
    ensures forall k :: 0 <= k < |BuildFilters(f)| ==>
      Some(BuildFilters(f)[k]) == OwnCondition(WithPredicate(Nodes(f))[k])
  {
    BuildFiltersIsPreorder(f);
  }

  /** The number of compiled conditions equals the number of nodes, root included, that carry a predicate. */
  lemma {:induction false} BuildFiltersCount(f: FilterSpec)
    ensures |BuildFilters(f)| == CountPredicateNodes(f)
    decreases f, 1
  {
    FlattenCount(f.OR);
  }

  lemma {:induction false} FlattenCount(fs: seq<FilterSpec>)
    ensures |Flatten(fs)| == CountPredicateNodesOf(fs)
    decreases fs, 0
  {
    if fs != [] {
      BuildFiltersCount(fs[0]);
      FlattenCount(fs[1..]);
    }
  }

  /** Every compiled condition is non-empty and its patterns are those of some predicate-carrying node. */
  lemma BuildFiltersWellFormed(f: FilterSpec)
    ensures forall c :: c in BuildFilters(f) ==> NonEmpty(c)
    ensures forall c :: c in BuildFilters(f) ==>
      exists n :: n in Nodes(f) && HasPredicate(n) && OwnCondition(n) == Some(c)
  {
    BuildFiltersPerNode(f);
    var ns := WithPredicate(Nodes(f));
    forall c | c in BuildFilters(f)
      ensures exists n :: n in Nodes(f) && HasPredicate(n) && OwnCondition(n) == Some(c)
    {
      var k :| 0 <= k < |BuildFilters(f)| && BuildFilters(f)[k] == c;
      assert ns[k] in ns;
    }
  }

  /**
   * No conditions at all exactly when no node carries a predicate; in
   * particular a node with no predicate and no children compiles to the
   * empty list, never to an always-true `{}` condition.
   */
  lemma BuildFiltersEmptyIff(f: FilterSpec)
    ensures BuildFilters(f) == [] <==> forall n :: n in Nodes(f) ==> !HasPredicate(n)
    ensures !HasPredicate(f) && f.OR == [] ==> BuildFilters(f) == []
  {
    BuildFiltersPerNode(f);
    var ns := WithPredicate(Nodes(f));
    if ns != [] {
      assert ns[0] in ns;
    }
  }

  /** A node's own condition, if any, comes first. */
  lemma OwnConditionFirst(f: FilterSpec)
    ensures HasPredicate(f) ==> |BuildFilters(f)| > 0 && Some(BuildFilters(f)[0]) == OwnCondition(f)
    ensures !HasPredicate(f) ==> BuildFilters(f) == Flatten(f.OR)
  {
  }

  /**
   * Child `i`'s conditions sit, as one contiguous block, after the node's
   * own condition and the conditions of the children before it, and
   * before those of the children after it.
   */
  lemma ChildOrder(f: FilterSpec, i: nat)
    requires i < |f.OR|
    ensures BuildFilters(f) ==
      OwnList(f) + Flatten(f.OR[..i]) + BuildFilters(f.OR[i]) + Flatten(f.OR[i + 1..])
  {
    var fs := f.OR;
    assert fs == fs[..i] + fs[i..];
    FlattenAppend(fs[..i], fs[i..]);
    assert fs[i..] == [fs[i]] + fs[i + 1..];
    FlattenAppend([fs[i]], fs[i + 1..]);
    assert [fs[i]][1..] == [];
  }

  /** The worked example `{description_contains:"abc", OR:[{url_contains:"xyz"}]}`. */
  lemma ExampleAbcXyz()
    ensures BuildFilters(FilterSpec([FilterSpec([], None, Some("xyz"))], Some("abc"), None))
      == [Condition(Some(".*abc.*"), None), Condition(None, Some(".*xyz.*"))]
  {
    var child := FilterSpec([], None, Some("xyz"));
    assert Pattern("xyz") == ".*xyz.*";
    assert OwnCondition(child) == Some(Condition(None, Some(".*xyz.*")));
    assert BuildFilters(child) == [Condition(None, Some(".*xyz.*"))] + Flatten([]);
    assert Pattern("abc") == ".*abc.*";
    assert Flatten([child]) == BuildFilters(child) + Flatten([]);
  }

  /** Equal predicates at two nodes compile to two equal conditions: duplicates are not removed. */
  lemma DuplicatesKept()
    ensures BuildFilters(FilterSpec([FilterSpec([], Some("a"), None)], Some("a"), None))
      == [Condition(Some(".*a.*"), None), Condition(Some(".*a.*"), None)]
  {
    var child := FilterSpec([], Some("a"), None);
    assert Pattern("a") == ".*a.*";
    assert OwnCondition(child) == Some(Condition(Some(".*a.*"), None));
    assert BuildFilters(child) == [Condition(Some(".*a.*"), None)] + Flatten([]);
    assert Flatten([child]) == BuildFilters(child) + Flatten([]);
  }

  /** An empty-string predicate is falsy and contributes nothing. */
  lemma EmptyStringIsAbsent()
    ensures BuildFilters(FilterSpec([], Some(""), Some(""))) == []
  {
  }

  // ---------------------------------------------------------------------
  // The compiler as the source writes it: a local condition built field by
  // field, then a `for` loop that concatenates each child's result.
  // ---------------------------------------------------------------------

  /** The local `filter` object: `{}` when some predicate is truthy, then filled in field by field. */
  method BuildOwnFilter(f: FilterSpec) returns (filter: Option<Condition>)
    ensures filter == OwnCondition(f)
  {
    filter := if HasPredicate(f) then Some(Condition(None, None)) else None;
    if Present(f.descriptionContains) {
      filter := Some(filter.value.(description := Some(Pattern(f.descriptionContains.value))));
    }
    if Present(f.urlContains) {
      filter := Some(filter.value.(url := Some(Pattern(f.urlContains.value))));
    }
  }

  method BuildFiltersLoop(f: FilterSpec) returns (filters: seq<Condition>)
    ensures filters == BuildFilters(f)
    decreases f
  {
    var filter := BuildOwnFilter(f);
    filters := if filter.Some? then [filter.value] else [];
    assert f.OR[..0] == [];
    for i := 0 to |f.OR|
      invariant filters == OwnList(f) + Flatten(f.OR[..i])
    {
      var sub := BuildFiltersLoop(f.OR[i]);
      FlattenPrefixStep(f.OR, i);
      filters := filters + sub;
    }
    assert f.OR[..|f.OR|] == f.OR;
  }
}
