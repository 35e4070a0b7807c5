/**
 * The `createLink`, `createVote` and `createTest` mutations: validate,
 * build the record, insert it, stamp the generated id, publish a CREATED
 * event, return the record.  The store and the pub/sub bus are fields of
 * one `Backend` object.
 */
module Mutations {
  import opened Wrappers
  import opened JsValues
  import opened Validation
  import opened Queries

  datatype CollectionName = Links | Votes | Tests

  /** The mutation taxonomy of an event; the three mutations only ever publish CREATED. */
  datatype MutationKind = CREATED | UPDATED | DELETED

  /** `pubsub.publish(topic, {<topic>: {mutation, node}})`: the payload is keyed by the topic name. */
  datatype Event = Event(topic: string, mutation: MutationKind, node: Record)

  type Store = map<CollectionName, seq<Record>>

  /**
   * The new link (line 99): the properties of `data` copied over a record
   * whose `postedById` is the user's id; where both have a key, `data` wins.
   */
  function LinkRecord(user: ContextUser, data: Record): (r: Record)
    ensures r.Keys == data.Keys + {"postedById"}
    ensures forall k :: k in data ==> r[k] == data[k]
    ensures "postedById" !in data ==> r["postedById"] == UserId(user)
  {
    map["postedById" := UserId(user)] + data
  }

  /** The new vote (lines 134-137): the user's id and the argument's link id converted to an ObjectID. */
  function VoteRecord(user: ContextUser, data: Record, toObjectId: JsValue -> JsValue): (r: Record)
    ensures r.Keys == {"userId", "linkId"}
    ensures r["userId"] == UserId(user) && r["linkId"] == toObjectId(Get(data, "linkId"))
    ensures "_id" !in r && "id" !in r
  {
    map["userId" := UserId(user), "linkId" := toObjectId(Get(data, "linkId"))]
  }

  /** The new test (lines 83-86): the argument's `test` and its link id converted to an ObjectID. */
  function TestRecord(data: Record, toObjectId: JsValue -> JsValue): (r: Record)
    ensures r.Keys == {"test", "linkId"}
    ensures r["test"] == Get(data, "test") && r["linkId"] == toObjectId(Get(data, "linkId"))
    ensures "_id" !in r && "id" !in r
  {
    map["test" := Get(data, "test"), "linkId" := toObjectId(Get(data, "linkId"))]
  }

  /** No stored document, in any collection, has the ObjectID numbered `id`. */
  predicate IsFresh(store: Store, id: nat) {
    forall c, i :: c in store && 0 <= i < |store[c]| ==> Get(store[c][i], "_id") != ObjectId(id)
  }

  ghost predicate HasIdBelow(d: Record, bound: nat) {
    "_id" in d && d["_id"].ObjectId? && d["_id"].oid < bound
  }

  /** Distinct stored documents have distinct `_id`s. */
  ghost predicate UniqueIds(store: Store) {
    forall c1, i1, c2, i2 ::
      (c1 in store && c2 in store && 0 <= i1 < |store[c1]| && 0 <= i2 < |store[c2]| &&
       (c1 != c2 || i1 != i2)) ==> Get(store[c1][i1], "_id") != Get(store[c2][i2], "_id")
  }

  class Backend {
    /** The Links, Votes and Tests collections, each its documents in insertion order. */
    var store: Store
    /** Every event published on the bus, oldest first. */
    var events: seq<Event>
    /** The number of the next ObjectID the store generates. */
    var nextId: nat
    /** The `test` method of the URL regular expression. */
    const urlTest: string -> bool
    /** `new ObjectID(x)`. */
    const toObjectId: JsValue -> JsValue

    ghost predicate Valid()
      reads this
    {
      && Links in store && Votes in store && Tests in store
      && (forall c, i :: c in store && 0 <= i < |store[c]| ==> HasIdBelow(store[c][i], nextId))
      && UniqueIds(store)
    }

    constructor (urlTest: string -> bool, toObjectId: JsValue -> JsValue)
      ensures Valid()
      ensures store == map[Links := [], Votes := [], Tests := []] && events == []
      ensures this.urlTest == urlTest && this.toObjectId == toObjectId
    {
      store := map[Links := [], Votes := [], Tests := []];
      events := [];
      nextId := 0;
      this.urlTest := urlTest;
      this.toObjectId := toObjectId;
    }

    /**
     * `collection.insert(doc)`.  `writeOk` is the store's answer: when it
     * accepts the write, `doc` is stored under a fresh `_id`, which is returned.
     */
    method Insert(c: CollectionName, doc: Record, writeOk: bool) returns (r: Result<nat, Error>)
      requires Valid()
      modifies this
      ensures Valid()
      ensures events == old(events)
      ensures !writeOk ==> r == Failure(WriteError) && unchanged(this)
      ensures writeOk ==> r.Success? && IsFresh(old(store), r.value)
      ensures writeOk ==> store == old(store)[c := old(store)[c] + [doc["_id" := ObjectId(r.value)]]]
    {
      if !writeOk {
        return Failure(WriteError);
      }
      var id := nextId;
      var stored := doc["_id" := ObjectId(id)];
      assert IsFresh(store, id) by {
        forall c', i | c' in store && 0 <= i < |store[c']|
          ensures Get(store[c'][i], "_id") != ObjectId(id)
        {
          assert HasIdBelow(store[c'][i], nextId);
        }
      }
      ghost var before := store;
      store := store[c := store[c] + [stored]];
      nextId := nextId + 1;
      InsertKeepsIds(before, c, stored, id);
      r := Success(id);
    }

    /** `pubsub.publish(...)`: appends to the event log and touches nothing else. */
    method Publish(e: Event)
      requires Valid()
      modifies this
      ensures Valid()
      ensures events == old(events) + [e]
      ensures store == old(store) && nextId == old(nextId)
    {
      events := events + [e];
    }

    method CreateLink(user: ContextUser, data: Record, writeOk: bool) returns (r: Result<Record, Error>)
      requires Valid()
      modifies this
      ensures Valid()
      ensures AssertValidLink(data, urlTest).Fail? ==>
        r == Failure(AssertValidLink(data, urlTest).error) && unchanged(this)
      ensures AssertValidLink(data, urlTest).Pass? && !writeOk ==>
        r == Failure(WriteError) && unchanged(this)
      ensures AssertValidLink(data, urlTest).Pass? && writeOk ==> r.Success?
      ensures r.Success? ==>
        && "id" in r.value && r.value["id"].ObjectId?
        && IsFresh(old(store), r.value["id"].oid)
        && r.value == LinkRecord(user, data)["id" := r.value["id"]]
        && store == old(store)[Links := old(store)[Links] + [LinkRecord(user, data)["_id" := r.value["id"]]]]
        && events == old(events) + [Event("Link", CREATED, r.value)]
    {
      var check := AssertValidLink(data, urlTest);
      if check.Fail? {
        return Failure(check.error);
      }
      var newLink := LinkRecord(user, data);
      var response := Insert(Links, newLink, writeOk);
      if response.Failure? {
        return Failure(response.error);
      }
      newLink := newLink["id" := ObjectId(response.value)];
      Publish(Event("Link", CREATED, newLink));
      r := Success(newLink);
    }

    method CreateVote(user: ContextUser, data: Record, writeOk: bool) returns (r: Result<Record, Error>)
      requires Valid()
      modifies this
      ensures Valid()
      ensures !writeOk ==> r == Failure(WriteError) && unchanged(this)
      ensures writeOk ==> r.Success?
      ensures r.Success? ==>
        && "id" in r.value && r.value["id"].ObjectId?
        && IsFresh(old(store), r.value["id"].oid)
        && r.value == VoteRecord(user, data, toObjectId)["id" := r.value["id"]]
        && store == old(store)[Votes := old(store)[Votes] + [VoteRecord(user, data, toObjectId)["_id" := r.value["id"]]]]
        && events == old(events) + [Event("Vote", CREATED, r.value)]
    {
      var newVote := VoteRecord(user, data, toObjectId);
      var response := Insert(Votes, newVote, writeOk);
      if response.Failure? {
        return Failure(response.error);
      }
      newVote := newVote["id" := ObjectId(response.value)];
      Publish(Event("Vote", CREATED, newVote));
      r := Success(newVote);
    }

    /** Unlike the other two, publishes and returns the stored document (`response.ops[0]`), which carries `_id`. */
    method CreateTest(data: Record, writeOk: bool) returns (r: Result<Record, Error>)
      requires Valid()
      modifies this
      ensures Valid()
      ensures !writeOk ==> r == Failure(WriteError) && unchanged(this)
      ensures writeOk ==> r.Success?
      ensures r.Success? ==>
        && "_id" in r.value && r.value["_id"].ObjectId?
        && IsFresh(old(store), r.value["_id"].oid)
        && r.value == TestRecord(data, toObjectId)["_id" := r.value["_id"]]
        && store == old(store)[Tests := old(store)[Tests] + [r.value]]
        && events == old(events) + [Event("Test", CREATED, r.value)]
    {
      var newTest := TestRecord(data, toObjectId);
      var response := Insert(Tests, newTest, writeOk);
      if response.Failure? {
        return Failure(response.error);
      }
      var stored := newTest["_id" := ObjectId(response.value)];
      Publish(Event("Test", CREATED, stored));
      r := Success(stored);
    }
  }

  /** Appending a document under an id below every stored one keeps the store's id invariants. */
  lemma InsertKeepsIds(before: Store, c: CollectionName, stored: Record, id: nat)
    requires c in before
    requires forall c', i :: c' in before && 0 <= i < |before[c']| ==> HasIdBelow(before[c'][i], id)
    requires UniqueIds(before)
    requires Get(stored, "_id") == ObjectId(id) && "_id" in stored
    ensures var after := before[c := before[c] + [stored]];
      && (forall c', i :: c' in after && 0 <= i < |after[c']| ==> HasIdBelow(after[c'][i], id + 1))
      && UniqueIds(after)
  {
  }

  /**
   * The id a client reads back through the `id` resolver is the generated
   * ObjectID, and it equals the `_id` of the stored document.
   */
  lemma CreatedIdsResolve(user: ContextUser, data: Record, toObjectId: JsValue -> JsValue, id: nat)
    ensures !Truthy(Get(data, "_id")) ==>
      ResolveId(LinkRecord(user, data)["id" := ObjectId(id)]) == ObjectId(id) &&
      ResolveId(LinkRecord(user, data)["_id" := ObjectId(id)]) == ObjectId(id)
    ensures ResolveId(VoteRecord(user, data, toObjectId)["id" := ObjectId(id)]) == ObjectId(id)
    ensures ResolveId(TestRecord(data, toObjectId)["_id" := ObjectId(id)]) == ObjectId(id)
  {
  }

  /** `createLink` with an invalid URL: a ValidationError on `url`, no write and no event. */
  method InvalidUrlScenario(urlTest: string -> bool, toObjectId: JsValue -> JsValue, user: ContextUser)
    requires !urlTest("not-a-url")
  {
    var backend := new Backend(urlTest, toObjectId);
    var r := backend.CreateLink(user, map["url" := Str("not-a-url")], true);
    assert r == Failure(ValidationError("Link validation error: invalid url.", "url"));
    assert backend.events == [] && backend.store[Links] == [];
  }

  /** Two successful `createLink`s publish two events, in order, carrying distinct ids. */
  method TwoLinksScenario(urlTest: string -> bool, toObjectId: JsValue -> JsValue, data1: Record, data2: Record)
    requires AssertValidLink(data1, urlTest).Pass? && AssertValidLink(data2, urlTest).Pass?
  {
    var backend := new Backend(urlTest, toObjectId);
    var r1 := backend.CreateLink(UndefinedUser, data1, true);
    var r2 := backend.CreateLink(UndefinedUser, data2, true);
    assert backend.events == [Event("Link", CREATED, r1.value), Event("Link", CREATED, r2.value)];
    assert |backend.store[Links]| == 2;
    assert Get(backend.store[Links][0], "_id") == r1.value["id"];
    assert r1.value["id"] != r2.value["id"];
  }
}
