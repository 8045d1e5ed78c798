/**
 * The repository of src/vellum/repository.py, over an in-memory collection:
 * create, get, update with its optimistic-concurrency rule, delete, find and
 * aggregate, with the lifecycle hooks they run recorded in a trace.
 */
module Repositories {
  import opened Results
  import opened Bson
  import opened Errors
  import opened Query
  import opened Models
  import opened Hooks
  import opened Aggregation

  /** What the collection holds under an `_id`. */
  datatype Stored = Stored(version: int, fields: Fields)

  /** The collection: documents keyed by `_id`. */
  type Store = map<ObjectId, Stored>

  /* Identifiers */

  /**
   * The id normalisation at the head of get, update and delete: an ObjectId
   * passes, a string must be an ObjectId's text (ValueError otherwise), a
   * UUID goes through `ObjectId(str(uuid))` (whose InvalidId is not caught),
   * and anything else is a TypeError.
   */
  function NormaliseId(id: PyValue): (r: Result<ObjectId, Error>)
    ensures id.PyObjectId? ==> r == Ok(id.oid)
    ensures id.PyStr? ==> (r.Ok? <==> |id.s| == 24 && AllHex(id.s))
    ensures id.PyStr? && r.Ok? ==> ObjectIdText(r.value) == CanonicalHex(id.s)
    ensures id.PyStr? && r.Err? ==> r.error == ValueError(id.s)
    ensures id.PyUuid? ==> r == Err(InvalidId(UuidText(id.u)))
    ensures !(id.PyObjectId? || id.PyStr? || id.PyUuid?) ==> r == Err(TypeError(UnsupportedIdType))
  {
    match id
    case PyUuid(u) =>
      (match ParseObjectId(UuidText(u))
       case Some(o) => Ok(o)
       case None => Err(InvalidId(UuidText(u))))
    case PyStr(s) =>
      (match ParseObjectId(s)
       case Some(o) => Ok(o)
       case None => Err(ValueError(s)))
    case PyObjectId(o) => Ok(o)
    case _ => Err(TypeError(UnsupportedIdType))
  }

  /** The text of an ObjectId normalises back to that ObjectId. */
  lemma NormaliseIdText(o: ObjectId)
    ensures NormaliseId(PyStr(ObjectIdText(o))) == Ok(o)
  {
    ParseObjectIdText(o);
  }

  /* The store's operations, one step each */

  /** `get`'s lookup: normalise, then find the document by `_id` and rehydrate it. */
  function Fetch(s: Store, id: PyValue): (r: Result<Document, Error>)
    ensures NormaliseId(id).Err? ==> r == Err(NormaliseId(id).error)
    ensures NormaliseId(id).Ok? ==> (r.Ok? <==> NormaliseId(id).value in s)
    ensures NormaliseId(id).Ok? && r.Err? ==> r.error == DocumentNotFound(id)
    ensures r.Ok? ==> r.value.id == NormaliseId(id).value && r.value.id in s
                      && s[r.value.id] == Stored(r.value.version, r.value.fields)
  {
    match NormaliseId(id)
    case Err(e) => Err(e)
    case Ok(key) =>
      if key in s then Ok(Document(key, s[key].version, s[key].fields)) else Err(DocumentNotFound(id))
  }

  /** `to_mongo`'s `exclude_none`: the fields whose value is not None. */
  function WithoutNone(fields: Fields): (r: Fields)
    ensures forall k :: k in r <==> k in fields && fields[k] != PyNone
    ensures forall k :: k in r ==> r[k] == fields[k]
  {
    map k | k in fields && fields[k] != PyNone :: fields[k]
  }

  /** `insert_one`: the store refuses a second document with the same `_id`. */
  function Insert(s: Store, key: ObjectId, doc: Stored): (r: Result<Store, Error>)
    ensures r.Ok? <==> key !in s
    ensures r.Err? ==> r.error == DuplicateKey(key)
    ensures r.Ok? ==> r.value.Keys == s.Keys + {key} && r.value[key] == doc
                      && forall k :: k in s ==> r.value[k] == s[k]
  {
    if key in s then Err(DuplicateKey(key)) else Ok(s[key := doc])
  }

  /** `UpdateResult`: the collection after the write and `modified_count`. */
  datatype WriteResult = WriteResult(store: Store, modified: nat)

  /**
   * `update_one({"_id": key, "version": expected}, {"$set": {"_id": id, ...fields}, "$inc": {"version": 1}})`:
   * one atomic step that matches both `_id` and `version`, sets the fields
   * and increments the version; it changes nothing when nothing matches.
   */
  function ConditionalWrite(s: Store, key: ObjectId, expected: int, id: ObjectId, fields: Fields): (r: Result<WriteResult, Error>)
    ensures r.Err? <==> key in s && s[key].version == expected && id != key
    ensures r.Err? ==> r.error == ImmutableId(key)
    ensures r.Ok? ==> (r.value.modified == 1 <==> key in s && s[key].version == expected)
    ensures r.Ok? && r.value.modified != 1 ==> r.value.modified == 0 && r.value.store == s
    ensures r.Ok? && r.value.modified == 1 ==>
      r.value.store.Keys == s.Keys && r.value.store[key].version == expected + 1
      && (forall f :: f in fields ==> f in r.value.store[key].fields && r.value.store[key].fields[f] == fields[f])
      && (forall f :: f in s[key].fields && f !in fields ==> f in r.value.store[key].fields && r.value.store[key].fields[f] == s[key].fields[f])
      && (forall k :: k in s && k != key ==> r.value.store[k] == s[k])
  {
    if key in s && s[key].version == expected then
      if id != key then Err(ImmutableId(key))
      else Ok(WriteResult(s[key := Stored(expected + 1, s[key].fields + fields)], 1))
    else Ok(WriteResult(s, 0))
  }

  /** What `update` does to the store, and the item's new version on success. */
  datatype Outcome = Outcome(result: Result<int, Error>, store: Store)

  /**
   * The store side of `update`: normalise the id, issue the conditional
   * write, and when it modified nothing choose by existence between
   * DocumentNotFoundError and OptimisticLockError.
   */
  function UpdateStore(s: Store, id: PyValue, itemId: ObjectId, version: int, fields: Fields): (o: Outcome)
    ensures o.result.Err? ==> o.store == s
    ensures o.result.Ok? ==> o.result.value == version + 1 && NormaliseId(id).Ok?
                             && NormaliseId(id).value in o.store && o.store[NormaliseId(id).value].version == version + 1
  {
    match NormaliseId(id)
    case Err(e) => Outcome(Err(e), s)
    case Ok(key) =>
      match ConditionalWrite(s, key, version, itemId, fields)
      case Err(e) => Outcome(Err(e), s)
      case Ok(w) =>
        if w.modified == 0 then
          Outcome(Err(if key in w.store then OptimisticLock(id, version) else DocumentNotFound(id)), w.store)
        else Outcome(Ok(version + 1), w.store)
  }

  /**
   * `update` succeeds exactly when the id names a stored document whose
   * version is the item's; it then sets the fields and makes the stored
   * version one more. Otherwise nothing changes: an absent id is
   * DocumentNotFoundError, a present one with another version is
   * OptimisticLockError carrying the caller's stale version.
   */
  lemma UpdateRule(s: Store, id: PyValue, itemId: ObjectId, version: int, fields: Fields)
    ensures var o := UpdateStore(s, id, itemId, version, fields);
      && (o.result.Ok? <==> NormaliseId(id).Ok? && NormaliseId(id).value in s
                            && s[NormaliseId(id).value].version == version && itemId == NormaliseId(id).value)
      && (o.result.Err? ==> o.store == s)
      && (o.result.Ok? ==> var key := NormaliseId(id).value;
            o.result.value == version + 1 && key in o.store && o.store[key].version == version + 1
            && o.store == s[key := Stored(version + 1, s[key].fields + fields)])
      && (NormaliseId(id).Ok? && NormaliseId(id).value !in s ==> o.result == Err(DocumentNotFound(id)))
      && (NormaliseId(id).Ok? && NormaliseId(id).value in s && s[NormaliseId(id).value].version != version ==>
            o.result == Err(OptimisticLock(id, version)))
  {
  }

  /**
   * After a successful update, an update that reuses the old version fails
   * with OptimisticLockError and changes nothing, and one with the new
   * version succeeds.
   */
  lemma StaleVersionConflicts(s: Store, id: PyValue, itemId: ObjectId, version: int, fields: Fields, fields': Fields)
    requires UpdateStore(s, id, itemId, version, fields).result.Ok?
    ensures var s' := UpdateStore(s, id, itemId, version, fields).store;
      && UpdateStore(s', id, itemId, version, fields') == Outcome(Err(OptimisticLock(id, version)), s')
      && UpdateStore(s', id, itemId, version + 1, fields').result == Ok(version + 2)
  {
    UpdateRule(s, id, itemId, version, fields);
    var s' := UpdateStore(s, id, itemId, version, fields).store;
    UpdateRule(s', id, itemId, version, fields');
    UpdateRule(s', id, itemId, version + 1, fields');
  }

  /**
   * Create with version 0, update with version 0 (now 1), update again
   * with version 0 (lock conflict), update with version 1 (now 2).
   */
  lemma VersionScenario(s: Store, key: ObjectId, fields: Fields, f1: Fields, f2: Fields, f3: Fields)
    requires key !in s
    ensures Insert(s, key, Stored(0, fields)).Ok?
    ensures var s0 := Insert(s, key, Stored(0, fields)).value;
      var u1 := UpdateStore(s0, PyObjectId(key), key, 0, f1);
      var u2 := UpdateStore(u1.store, PyObjectId(key), key, 0, f2);
      var u3 := UpdateStore(u2.store, PyObjectId(key), key, 1, f3);
      && u1.result == Ok(1)
      && u2.result == Err(OptimisticLock(PyObjectId(key), 0)) && u2.store == u1.store
      && u3.result == Ok(2) && u3.store[key].version == 2
  {
    var s0 := Insert(s, key, Stored(0, fields)).value;
    UpdateRule(s0, PyObjectId(key), key, 0, f1);
    StaleVersionConflicts(s0, PyObjectId(key), key, 0, f1, f2);
    var u1 := UpdateStore(s0, PyObjectId(key), key, 0, f1);
    UpdateRule(u1.store, PyObjectId(key), key, 1, f3);
  }

  /** No update ever lowers a stored version, removes a document or touches another one. */
  lemma UpdateKeepsVersionsMonotone(s: Store, id: PyValue, itemId: ObjectId, version: int, fields: Fields)
    ensures var s' := UpdateStore(s, id, itemId, version, fields).store;
      s'.Keys == s.Keys
      && (forall k :: k in s ==> s'[k].version >= s[k].version)
      && (forall k :: k in s && (NormaliseId(id).Err? || k != NormaliseId(id).value) ==> s'[k] == s[k])
  {
    UpdateRule(s, id, itemId, version, fields);
  }

  /**
   * A created document is found under its `_id`, given as an ObjectId or
   * as its text, with the item's version and its fields minus those that
   * are None.
   */
  lemma CreateThenFetch(s: Store, key: ObjectId, version: int, fields: Fields)
    requires key !in s
    ensures Insert(s, key, Stored(version, WithoutNone(fields))).Ok?
    ensures var s' := Insert(s, key, Stored(version, WithoutNone(fields))).value;
      && Fetch(s', PyObjectId(key)) == Ok(Document(key, version, WithoutNone(fields)))
      && Fetch(s', PyStr(ObjectIdText(key))) == Ok(Document(key, version, WithoutNone(fields)))
  {
    NormaliseIdText(key);
  }

  /** Once a document is removed, get (and so a second delete) finds nothing. */
  lemma RemovedIsNotFound(s: Store, id: PyValue)
    requires NormaliseId(id).Ok?
    ensures Fetch(s - {NormaliseId(id).value}, id) == Err(DocumentNotFound(id))
  {
  }

  /* find */

  /** `find`'s query argument: a query expression or a raw filter dict. */
  datatype FindQuery = ByExpression(e: Expr) | ByFilter(filter: Doc)

  /** A query expression is lowered before use; a raw filter is used as it is. */
  function FindFilter(q: FindQuery): (r: Result<Doc, Error>)
    ensures q.ByFilter? ==> r == Ok(q.filter)
    ensures q.ByExpression? && r.Ok? ==> Unlower(r.value) == Some(AsList(q.e))
  {
    match q
    case ByExpression(e) =>
      UnlowerLower(e);
      Lower(e)
    case ByFilter(d) => Ok(d)
  }

  /** Negative skip or limit counts as 0. */
  function Clamp(n: int): (r: nat)
    ensures r == n || (n < 0 && r == 0)
  {
    if n < 0 then 0 else n
  }

  /**
   * `.skip(skip).limit(limit)` on the matching documents: the documents
   * from position `skip` on, at most `limit` of them when `limit > 0`, all
   * of them when `limit == 0`.
   */
  function Window(docs: seq<Document>, skip: int, limit: int): (r: seq<Document>)
    ensures var remaining := if Clamp(skip) < |docs| then |docs| - Clamp(skip) else 0;
      && (Clamp(limit) == 0 || remaining <= Clamp(limit) ==> |r| == remaining)
      && (0 < Clamp(limit) < remaining ==> |r| == Clamp(limit))
    ensures forall i :: 0 <= i < |r| ==> Clamp(skip) + i < |docs| && r[i] == docs[Clamp(skip) + i]
  {
    var from := if Clamp(skip) < |docs| then Clamp(skip) else |docs|;
    var rest := docs[from..];
    if 0 < Clamp(limit) < |rest| then rest[..Clamp(limit)] else rest
  }

  /** skip 2, limit 3 over ten matching documents: the third to fifth of them. */
  lemma WindowExample(docs: seq<Document>)
    requires |docs| == 10
    ensures Window(docs, 2, 3) == docs[2..5]
  {
  }

  /* Running hooks */

  /** The position of the first hook that raises, or the number of hooks when none does. */
  function FirstRaising(hooks: seq<HookFunction>): (k: nat)
    ensures k <= |hooks|
    ensures forall j :: 0 <= j < k ==> !hooks[j].raises
    ensures k < |hooks| ==> hooks[k].raises
  {
    if hooks == [] then 0
    else if hooks[0].raises then 0
    else 1 + FirstRaising(hooks[1..])
  }

  /** Some hook raises, aborting the operation. */
  predicate Aborts(hooks: seq<HookFunction>) {
    FirstRaising(hooks) < |hooks|
  }

  /** The hooks that are called: all of them, or up to and including the one that raises. */
  function Ran(hooks: seq<HookFunction>): seq<HookFunction> {
    if Aborts(hooks) then hooks[..FirstRaising(hooks) + 1] else hooks
  }

  /** The error of the hook that raised. */
  function HookError(hooks: seq<HookFunction>): Error
    requires Aborts(hooks)
  {
    HookFailed(hooks[FirstRaising(hooks)].name)
  }

  /** What the repository does, in order: hook calls and writes to the store. */
  datatype Event =
    | HookCalled(event: HookEvent, hook: HookFunction)
    | Inserted(key: ObjectId)
    | Written(key: ObjectId, version: int)
    | Removed(key: ObjectId)

  /** The trace entries of calling `hooks` for `ev`, one per hook in order. */
  function Calls(ev: HookEvent, hooks: seq<HookFunction>): seq<Event> {
    seq(|hooks|, i requires 0 <= i < |hooks| => HookCalled(ev, hooks[i]))
  }

  /** `VellumRepository`, bound to one model class and one collection. */
  class Repository {
    const modelCls: ModelClass
    const registry: Registry
    var store: Store
    /** Every hook call and write so far, in order. */
    ghost var trace: seq<Event>

    constructor (modelCls: ModelClass, registry: Registry, collection: Store)
      ensures this.modelCls == modelCls && this.registry == registry && store == collection && trace == []
    {
      this.modelCls := modelCls;
      this.registry := registry;
      store := collection;
      trace := [];
    }

    /** `for hook in hooks: await hook(...)`: in list order, each completing before the next; the first to raise ends the loop. */
    method RunHooks(ev: HookEvent, hooks: seq<HookFunction>) returns (failure: Option<Error>)
      modifies this`trace
      ensures failure == (if Aborts(hooks) then Some(HookError(hooks)) else None)
      ensures trace == old(trace) + Calls(ev, Ran(hooks))
    {
      failure := None;
      var i := 0;
      while i < |hooks| && failure == None
        invariant 0 <= i <= |hooks|
        invariant failure == None ==> i <= FirstRaising(hooks)
        invariant failure != None ==> 0 < i && i - 1 == FirstRaising(hooks) && failure == Some(HookError(hooks))
        invariant trace == old(trace) + Calls(ev, hooks[..i])
      {
        assert Calls(ev, hooks[..i + 1]) == Calls(ev, hooks[..i]) + [HookCalled(ev, hooks[i])];
        trace := trace + [HookCalled(ev, hooks[i])];
        if hooks[i].raises {
          failure := Some(HookFailed(hooks[i].name));
        }
        i := i + 1;
      }
      assert hooks[..|hooks|] == hooks;
    }

    /**
     * `create`: an item of another model class is a TypeError before any
     * hook runs; then the before_insert hooks run in order, the document
     * is inserted and the same item is returned. No after_insert hook runs.
     */
    method Create(item: Item) returns (r: Result<Item, Error>)
      modifies this
      ensures r.Ok? ==> r.value == item
      ensures !IsSubclass(item.cls, modelCls) ==>
        r == Err(TypeError(WrongModelClass)) && store == old(store) && trace == old(trace)
      ensures IsSubclass(item.cls, modelCls) ==>
        var hooks := registry.HooksFor(modelCls, BeforeInsert);
        var ins := Insert(old(store), item.id, Stored(item.version, WithoutNone(item.fields)));
        if Aborts(hooks) then
          r == Err(HookError(hooks)) && store == old(store) && trace == old(trace) + Calls(BeforeInsert, Ran(hooks))
        else if ins.Err? then
          r == Err(ins.error) && store == old(store) && trace == old(trace) + Calls(BeforeInsert, hooks)
        else
          r == Ok(item) && store == ins.value && trace == old(trace) + Calls(BeforeInsert, hooks) + [Inserted(item.id)]
    {
      if !IsSubclass(item.cls, modelCls) {
        return Err(TypeError(WrongModelClass));
      }
      var failure := RunHooks(BeforeInsert, registry.HooksFor(modelCls, BeforeInsert));
      if failure.Some? {
        return Err(failure.value);
      }
      var ins := Insert(store, item.id, Stored(item.version, WithoutNone(item.fields)));
      if ins.Err? {
        return Err(ins.error);
      }
      store := ins.value;
      trace := trace + [Inserted(item.id)];
      r := Ok(item);
    }

    /** `get`: the stored document under the normalised id, or the error. */
    method Get(id: PyValue) returns (r: Result<Document, Error>)
      ensures r == Fetch(store, id)
      ensures r.Ok? ==> (NormaliseId(id).Ok? && r.value.id == NormaliseId(id).value && r.value.id in store
                         && store[r.value.id] == Stored(r.value.version, r.value.fields))
      ensures NormaliseId(id).Ok? && NormaliseId(id).value !in store ==> r == Err(DocumentNotFound(id))
    {
      var key := NormaliseId(id);
      if key.Err? {
        return Err(key.error);
      }
      if key.value !in store {
        return Err(DocumentNotFound(id));
      }
      var doc := store[key.value];
      r := Ok(Document(key.value, doc.version, doc.fields));
    }

    /**
     * `update`: type check; before_update hooks (before the id is even
     * normalised); the conditional write; on success the item's version
     * goes up by one, to the stored version, and only then do the
     * after_update hooks run.
     */
    method Update(id: PyValue, item: Item) returns (r: Result<Item, Error>)
      modifies this, item`version
      ensures r.Ok? ==> r.value == item
      ensures !IsSubclass(item.cls, modelCls) ==>
        r == Err(TypeError(WrongModelClass)) && store == old(store) && trace == old(trace)
        && item.version == old(item.version)
      ensures IsSubclass(item.cls, modelCls) ==>
        var before := registry.HooksFor(modelCls, BeforeUpdate);
        var after := registry.HooksFor(modelCls, AfterUpdate);
        var o := UpdateStore(old(store), id, item.id, old(item.version), item.fields);
        if Aborts(before) then
          r == Err(HookError(before)) && store == old(store) && item.version == old(item.version)
          && trace == old(trace) + Calls(BeforeUpdate, Ran(before))
        else if o.result.Err? then
          r == Err(o.result.error) && store == o.store && item.version == old(item.version)
          && trace == old(trace) + Calls(BeforeUpdate, before)
        else
          store == o.store && item.version == o.result.value && item.version == old(item.version) + 1
          && NormaliseId(id).Ok? && store[NormaliseId(id).value].version == item.version
          && trace == old(trace) + Calls(BeforeUpdate, before) + [Written(NormaliseId(id).value, item.version)]
                      + Calls(AfterUpdate, Ran(after))
          && r == (if Aborts(after) then Err(HookError(after)) else Ok(item))
    {
      if !IsSubclass(item.cls, modelCls) {
        return Err(TypeError(WrongModelClass));
      }
      var failure := RunHooks(BeforeUpdate, registry.HooksFor(modelCls, BeforeUpdate));
      if failure.Some? {
        return Err(failure.value);
      }
      var key := NormaliseId(id);
      if key.Err? {
        return Err(key.error);
      }
      var write := ConditionalWrite(store, key.value, item.version, item.id, item.fields);
      if write.Err? {
        return Err(write.error);
      }
      store := write.value.store;
      if write.value.modified == 0 {
        var docExists := key.value in store;
        if !docExists {
          return Err(DocumentNotFound(id));
        } else {
          return Err(OptimisticLock(id, item.version));
        }
      }
      UpdateRule(old(store), id, item.id, item.version, item.fields);
      item.version := item.version + 1;
      trace := trace + [Written(key.value, item.version)];
      failure := RunHooks(AfterUpdate, registry.HooksFor(modelCls, AfterUpdate));
      if failure.Some? {
        return Err(failure.value);
      }
      r := Ok(item);
    }

    /**
     * `delete`: normalise; fetch through get (so not-found comes from
     * there); before_delete hooks on the fetched document; remove it;
     * after_delete hooks; True. Afterwards get finds nothing under the id.
     */
    method Delete(id: PyValue) returns (r: Result<bool, Error>)
      modifies this
      ensures var doc := Fetch(old(store), id);
        var before := registry.HooksFor(modelCls, BeforeDelete);
        var after := registry.HooksFor(modelCls, AfterDelete);
        if doc.Err? then
          r == Err(doc.error) && store == old(store) && trace == old(trace)
        else if Aborts(before) then
          r == Err(HookError(before)) && store == old(store) && trace == old(trace) + Calls(BeforeDelete, Ran(before))
        else
          store == old(store) - {doc.value.id}
          && trace == old(trace) + Calls(BeforeDelete, before) + [Removed(doc.value.id)] + Calls(AfterDelete, Ran(after))
          && r == (if Aborts(after) then Err(HookError(after)) else Ok(true))
      ensures r.Ok? ==> r.value && Fetch(store, id) == Err(DocumentNotFound(id))
    {
      var key := NormaliseId(id);
      if key.Err? {
        return Err(key.error);
      }
      var doc := Get(id);
      if doc.Err? {
        return Err(doc.error);
      }
      var failure := RunHooks(BeforeDelete, registry.HooksFor(modelCls, BeforeDelete));
      if failure.Some? {
        return Err(failure.value);
      }
      store := store - {key.value};
      trace := trace + [Removed(key.value)];
      RemovedIsNotFound(old(store), id);
      failure := RunHooks(AfterDelete, registry.HooksFor(modelCls, AfterDelete));
      if failure.Some? {
        return Err(failure.value);
      }
      r := Ok(true);
    }

    /**
     * `find`: lowers a query expression (its TypeError propagates), clamps
     * skip and limit at 0, and returns that window of the documents the
     * store reports as matching (`matching`, in the store's order).
     */
    method Find(query: FindQuery, skip: int, limit: int, matching: (Doc, Store) -> seq<Document>)
      returns (r: Result<seq<Document>, Error>)
      ensures FindFilter(query).Err? ==> r == Err(FindFilter(query).error)
      ensures FindFilter(query).Ok? ==> r == Ok(Window(matching(FindFilter(query).value, store), skip, limit))
      ensures r.Ok? && limit > 0 ==> |r.value| <= limit
    {
      var filter := FindFilter(query);
      if filter.Err? {
        return Err(filter.error);
      }
      r := Ok(Window(matching(filter.value, store), skip, limit));
    }

    /** `aggregate`: a fresh, empty pipeline for this model class. */
    method Aggregate() returns (p: Pipeline)
      ensures fresh(p) && p.Valid() && p.stages == [] && p.calls == [] && p.modelCls == modelCls
    {
      p := new Pipeline(modelCls);
    }
  }
}
