# Resolvers of a links-and-votes API, modelled in Dafny

This project models the logic of the resolver map behind a query/mutation API for posting links and voting on them. The API stores links, votes and tests in MongoDB and announces every creation on a publish/subscribe bus. The model covers:

- **The filter compiler `buildFilters`** (`filters.dfy`). A `LinkFilter` argument is a tree: each node has optional `description_contains` and `url_contains` strings and an `OR` list of child filters. The compiler flattens the tree into an ordered list of MongoDB conditions. A node with a truthy predicate contributes one condition. That condition holds a `.*X.*` regex for each truthy field. Each child's conditions follow the node's own condition, in `OR` order. The recursive function `BuildFilters` is the specification. `BuildFiltersLoop` takes the source's own shape: a local object filled in field by field, then a `for` loop that concatenates each child's result. It is proved equal to `BuildFilters`. `BuildFilters` is in turn proved equal to an independent description: the own conditions of the predicate-carrying nodes, listed in preorder.
- **The `allLinks` query** and **the `id` field resolvers** (`queries.dfy`). The query is `{}` without a filter and `{$or: …}` with one. Each `id` resolver returns `root._id || root.id`.
- **`assertValidLink`** (`validation.dfy`). It enforces the 2083-unit length bound, counting UTF-16 code units as JavaScript's `length` does. The URL regular expression is a parameter. The branches for a non-string and for an `undefined`/`null` `url` are modelled too.
- **The mutations `createLink`, `createVote` and `createTest`** (`mutations.dfy`). They are methods of a `Backend` class. The class holds the three collections as sequences of documents and the pub/sub bus as an append-only event log. Each mutation runs in the order: validate (`createLink` only), build the record, insert, stamp the generated id, publish a CREATED event, return.

JavaScript values are a small datatype with JavaScript truthiness (`js_values.dfy`). Objects are maps from property names to values, so `Object.assign` is map union with the right operand winning.

The collaborators the code calls but does not contain are parameters:
- the URL regular expression's `test`, the constant `Backend.urlTest`;
- `new ObjectID(x)`, the constant `Backend.toObjectId`;
- whether the store accepts a write, the `writeOk` argument of each mutation;
- the signed-in user, the `user` argument.

ObjectIDs that the store generates are numbered by a counter in `Backend`. The invariant `Backend.Valid` keeps every stored `_id` below that counter and all stored `_id`s distinct.

Two behaviours of the code are worth knowing:
- The code does not remove duplicate conditions: two nodes with the same predicate give two equal conditions (`Filters.DuplicatesKept`).
- A filter with no truthy predicate is sent as `{$or: []}` (see Findings).

## Model

| member | source | states |
|---|---|---|
| `Filters.Pattern` | src/schema/resolvers.js:25 | the pattern is `.*`, then the searched text, then `.*`; the text is recovered from its middle |
| `Filters.OwnCondition` | src/schema/resolvers.js:22-29 | a node yields a condition iff one of its predicates is truthy (a missing or `""` predicate is falsy); the condition is non-empty; `description` is present iff `description_contains` is truthy, with pattern `.*d.*`; likewise for `url` |
| `Filters.BuildOwnFilter` | src/schema/resolvers.js:22-30 | building the local object field by field gives exactly the node's own condition |
| `Filters.BuildFiltersLoop` | src/schema/resolvers.js:20-39 | the loop version returns the recursive specification's result; loop invariant: conditions so far = own condition ++ flattened children `OR[..i]` |
| `Filters.FlattenPrefixStep` | src/schema/resolvers.js:34-36 | each loop iteration appends exactly the next child's compiled conditions |
| `Filters.BuildFiltersIsPreorder` | src/schema/resolvers.js:20-39 | the output equals the own conditions of the predicate-carrying nodes of the tree, in preorder (node first, then each child subtree in `OR` order) |
| `Filters.BuildFiltersPerNode` | src/schema/resolvers.js:22-36 | one output entry per predicate-carrying node; the k-th entry is the own condition of the k-th such node in preorder |
| `Filters.BuildFiltersCount` | src/schema/resolvers.js:22-36 | the output length equals the number of nodes, root included, with a truthy predicate |
| `Filters.BuildFiltersWellFormed` | src/schema/resolvers.js:22-32 | every output condition is non-empty and is the own condition of some predicate-carrying node of the tree |
| `Filters.BuildFiltersEmptyIff` | src/schema/resolvers.js:20-32 | the output is empty iff no node carries a predicate; a node with no predicate and an empty or absent `OR` yields `[]`, not an always-true `{}` |
| `Filters.OwnConditionFirst` | src/schema/resolvers.js:32-36 | a node's own condition comes first; a node without one contributes only its children's conditions |
| `Filters.ChildOrder` | src/schema/resolvers.js:34-36 | child i's conditions form one block after the own condition and after the blocks of children before i, and before those of children after i |
| `Filters.ExampleAbcXyz` | src/schema/resolvers.js:20-39 | `{description_contains:"abc", OR:[{url_contains:"xyz"}]}` compiles to `[{description: ".*abc.*"}, {url: ".*xyz.*"}]` |
| `Filters.DuplicatesKept` | src/schema/resolvers.js:32-36 | two nodes with the same predicate produce two equal conditions |
| `Filters.EmptyStringIsAbsent` | src/schema/resolvers.js:22-29 | empty-string predicates are falsy and contribute no condition |
| `Queries.AllLinksQueryRejected` | src/schema/resolvers.js:59 | with a filter the query is `{$or: buildFilters(filter)}`; MongoDB rejects it iff no node of the filter carries a predicate; without a filter it is `{}` (`MatchAll`), which is accepted |
| `Queries.EmptyFilterArgumentRejected` | src/schema/resolvers.js:59 | `filter: {}` yields `{$or: []}`, which the store rejects |
| `Queries.AllLinksQueryFixed` | src/schema/resolvers.js:59 | the corrected query is always accepted; wherever the original query is accepted, the two are the same query; it matches all links iff there is no filter or no predicate anywhere in it |
| `Queries.ResolveId` | src/schema/resolvers.js:163 | (`Link.id`, and the same expression at lines 173, 179 and 190) the result is `_id` or `id`; truthy iff either is truthy; `_id` wins whenever it is truthy |
| `Queries.ResolveIdPrefersStoredId` | src/schema/resolvers.js:163 | a truthy `_id` is returned whatever `id` holds |
| `Queries.ResolveIdFallsBack` | src/schema/resolvers.js:173 | with a falsy `_id` the result is `id`, and `undefined` when `id` is missing |
| `Validation.Utf16Length` | src/schema/resolvers.js:15 | `url.length` counts UTF-16 code units: between the number of characters and twice it, and equal to it for BMP-only text |
| `Validation.AssertValidLink` | src/schema/resolvers.js:12-18 | passes iff `url` is a string shorter than 2083 code units that the regex accepts; a non-string `url` gives the ValidationError on field `url`; an `undefined`/`null` `url` gives a TypeError; 2083 or more characters always fail |
| `Validation.LongUrlRefused` | src/schema/resolvers.js:15-16 | whatever the regex, a URL of at least 2083 characters raises `ValidationError(…, "url")` |
| `Validation.AstralCharactersCountTwice` | src/schema/resolvers.js:15 | 1042 characters outside the BMP already measure 2084 code units |
| `Mutations.LinkRecord` | src/schema/resolvers.js:99 | the new link has the keys of `data` plus `postedById`; `data`'s values win; `postedById` is the user's `_id`, or the falsy context user itself (`undefined` or `null`), unless `data` has one |
| `Mutations.VoteRecord` | src/schema/resolvers.js:134-137 | the new vote has exactly the keys `userId` (the user's `_id`, or `undefined`/`null` for an absent or `null` context user) and `linkId` (the converted `data.linkId`) |
| `Mutations.TestRecord` | src/schema/resolvers.js:83-86 | the new test has exactly the keys `test` (`data.test`) and `linkId` (the converted `data.linkId`) |
| `Mutations.Backend.Insert` | src/schema/resolvers.js:100 | on a rejected write nothing changes; otherwise the document is appended to its collection under an `_id` no stored document has, and nothing else changes |
| `Mutations.Backend.Publish` | src/schema/resolvers.js:104 | appends one event to the log and leaves the store alone |
| `Mutations.Backend.CreateLink` | src/schema/resolvers.js:97-109 | a failed URL check returns its error with no insert and no event; a rejected write returns WriteError with no event; on success: returns the merged record with `id` set to a fresh ObjectID, stores it (without `id`, under that `_id`), and appends exactly one `Link` CREATED event carrying the returned record |
| `Mutations.Backend.CreateVote` | src/schema/resolvers.js:133-146 | the same shape as `createLink` without validation, on the `Vote` topic |
| `Mutations.Backend.CreateTest` | src/schema/resolvers.js:81-95 | the same shape, but the published and returned node is the stored document (with `_id`, without `id`) |
| `Mutations.CreatedIdsResolve` | src/schema/resolvers.js:102 | the `id` resolver of a created link, vote or test gives the generated ObjectID, the `_id` of the stored document (for links, when `data` has no truthy `_id`) |

## Findings

| source | as written | input that shows it | evidently intended | confidence | as-written member | corrected member |
|---|---|---|---|---|---|---|
| src/schema/resolvers.js:59 | any present filter becomes an `$or` over its compiled conditions, even when there are none | `allLinks(filter: {})`, or a filter whose only predicates are `""`, sends `{$or: []}`, which MongoDB refuses because `$or` needs a non-empty array | a filter with no truthy predicate matches every link, as no filter does | not executed; depends on MongoDB refusing an empty `$or` | `Queries.AllLinksQueryRejected` | `Queries.AllLinksQueryFixed` |

## Left out

- Explicit `OR: null` in a filter: the `OR = []` default applies only to `undefined`, so `OR.length` would throw a TypeError; the model treats an absent list as empty and has no null list.
- The `first`/`skip` cursor settings of `allLinks` (lines 61-66), `find`, `findOne`, `toArray` and `remove` chains (`allVotes`, `allTests`, `removeAll`, `removeAllLinks`, `removeAllTests`, the `votes`/`link` relationship resolvers): MongoDB driver calls with no logic of their own.
- The signed-in user's lookup from the token is outside this model; the context user is an argument that is absent, `null` or a document.
- The semantics of the URL regular expression (line 13) and of `$regex` matching: regex matching is a library; the URL test is the parameter `Backend.urlTest`, and patterns are plain strings.
- `new ObjectID(x)` (lines 85, 136): the parameter `Backend.toObjectId`; its failure on a malformed id string is not modelled.
- The driver's handling of a caller-supplied `_id` and its in-place addition of `_id` to the inserted object: `Insert` always generates the id and leaves the caller's record as it was.
- `Mutations.CreatedIdsResolve`: for links it assumes `data` has no truthy `_id`; the arguments of `createLink` never include one.
- `pubsub.publish` delivery, `asyncIterator` subscriptions (lines 45-55) and asynchronous fan-out: the pub/sub module is not part of this model; the bus is the append-only `events` log.
- The ordering of publish after insert within one promise chain: the methods run sequentially; the model shows that a failed write publishes nothing.
- `userLoader.load` (lines 165, 182) and the batched loader: its implementation is not part of this model.
- `createUser` (lines 111-123) and `signinUser` (lines 125-131): field copying around an insert, and a plaintext credential comparison on a lookup.
- `console.log` (lines 89, 103, 141): logging only.
- Numbers are integers: NaN and fractional values fall outside `JsValue`.
