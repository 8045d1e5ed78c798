# Vellum in Dafny

A model of the core of Vellum, a small MongoDB access layer for typed models, and proofs about it:

- **Query-expression algebra** (`query.dfy`, module `Query`). Leaves `(field, operator, value)` for Eq, Ne, Gt, Gte, Lt, Lte, In and NotIn. Logical nodes And, Or and Nor over a sequence of operands. Lowering (`to_mongo_query`) into a filter document `Doc` (`Map` with ordered entries, `List`, `Val`).
- **Repository** (`repository.dfy`, module `Repositories`). A class over an in-memory collection (`map<ObjectId, Stored>`), with `create`, `get`, `update`, `delete`, `find` and `aggregate`. The id normalisation and the store's steps (lookup, insert, conditional write) are pure functions; `delete` removes the key from the map in place. The optimistic-concurrency rule of `update` is proved on them. Hook calls and store writes are recorded, in order, in a ghost `trace`.
- **Aggregation pipeline builder** (`aggregation.dfy`, module `Aggregation`). A class whose `stages` list grows by one stage per chained call. A ghost record of the calls shows that the request is the calls in call order.
- **Hook registry** (`hooks.dfy`, module `Hooks`). The class → event → ordered list table, its registration and lookup, and the six tagging decorators.
- Supporting modules: `Results` (Option, Result), `Bson` (hex text, ObjectId, UUID, Python values, filter documents), `Errors` (the exceptions), `Models` (model class, item, document).

Behaviours of the code worth noting:

- Logical nodes accept an empty operand list (`Query.EmptyLogicalAccepted`).
- In and NotIn check their operand when lowered, not when built (`Query.LowerMembership`).
- A string id is tried only as an ObjectId; there is no fallback to UUID text (`Repositories.NormaliseId`).
- A UUID is converted with `ObjectId(str(uuid))`. The text of a UUID has 36 characters, and an ObjectId's text needs 24 hex digits. So this conversion always raises bson's InvalidId, in the query value conversion and in id normalisation (`Bson.UuidTextIsNoObjectId`, `Query.ConvertValue`, `Repositories.NormaliseId`).
- `execute` returns raw documents; no result-shape coercion exists.
- `QueryExpression`, `FieldQueryExpression` and `LogicalQueryExpression` can be instantiated and combined, but lowering such a node raises NotImplementedError (`Query.AbstractOperandFails`).
- `group` takes its accumulators as keyword arguments, so an accumulator named `group_id` or `self` is a TypeError at the call (`Aggregation.Pipeline.Group`).

## Model

| member | source | states |
|---|---|---|
| `Bson.ParseObjectId` | src/vellum/repository.py:38-42 | `ObjectId(s)` accepts exactly the strings of 24 hex digits, and the accepted ObjectId prints as the same text in lower case |
| `Bson.ParseObjectIdText` | src/vellum/repository.py:38-42 | the text of any ObjectId parses back to that ObjectId |
| `Bson.UuidTextIsNoObjectId` | src/vellum/query.py:22-24 | `ObjectId(str(uuid))` fails for every UUID |
| `Query.ConvertValue` | src/vellum/query.py:20-26 | a UUID becomes an InvalidId error; every other value is returned unchanged |
| `Query.ConvertAll` | src/vellum/query.py:55 | converting a list succeeds iff every element converts; the result has the same length and order, with element i the converted element i; on failure the error is that of the first failing element |
| `Query.ConvertAllIdentity` | src/vellum/query.py:55-56 | a list converts iff it holds no UUID, and then comes back unchanged |
| `Query.LowerEq` | src/vellum/query.py:27-29 | Eq lowers to `{field: v}`, or fails for a UUID value |
| `Query.LowerComparison` | src/vellum/query.py:31-49 | Ne, Gt, Gte, Lt and Lte lower to the single-key `{field: {"$ne"/"$gt"/"$gte"/"$lt"/"$lte": v}}` |
| `Query.LowerMembership` | src/vellum/query.py:51-63 | In/NotIn fail with TypeError at lowering for a value that is not a list, tuple or set; otherwise they lower to `{field: {"$in"/"$nin": L}}` with L the elements in order, iff no element is a UUID |
| `Query.LowerAll` | src/vellum/query.py:70-82 | the operands' lowering succeeds iff every operand lowers; then it has one entry per operand, entry i the lowering of operand i; otherwise it fails with the first failing operand's error |
| `Query.LowerLogical` | src/vellum/query.py:70-82 | And/Or/Nor lower to `{"$and"/"$or"/"$nor": L}` with `|L|` the number of operands and `L[i]` the lowering of operand i |
| `Query.UnlowerLower` | src/vellum/query.py:27-82 | lowering is structure-preserving at any depth: reading the model's `Doc` back gives the original expression, with a tuple or set operand of In/NotIn read back as a list |
| `Query.NestedExample` | src/vellum/query.py:70-82 | `AND(a, OR(b, c))` lowers to a filter that mirrors the nesting |
| `Query.MakeLogical` | src/vellum/query.py:64-68 | a logical node is built iff every operand is a query expression; the operands keep their order; otherwise TypeError |
| `Query.AndOp` | src/vellum/query.py:9-10 | `a & b` is the binary node `And(a, b)`, never flattened; a right operand that is not a query expression is a TypeError |
| `Query.OrOp` | src/vellum/query.py:11-12 | `a \| b` is the binary node `Or(a, b)`, never flattened; a right operand that is not a query expression is a TypeError |
| `Query.InvertOp` | src/vellum/query.py:13-14 | `~a` is the node that `Nor(a)` builds, with `a` its only operand |
| `Query.LowerField` | src/vellum/query.py:27-63 | a leaf lowers to a document whose one key is its field; In and NotIn with a value that is not a list, tuple or set give a TypeError; any other failure is a UUID's InvalidId |
| `Query.Lower` | src/vellum/query.py:6-82 | every filter is a single-key document, keyed by the leaf's field or by `$and`/`$or`/`$nor`; a node of a base class (one that keeps `QueryExpression.to_mongo_query`) fails with NotImplementedError; lowering fails only with that, a membership TypeError or an InvalidId from some node |
| `Query.AbstractOperandFails` | src/vellum/query.py:6-8 | a base-class instance is accepted as an operand of `And`, and lowering the conjunction then fails with its NotImplementedError |
| `Query.EmptyLogicalAccepted` | src/vellum/query.py:64-82 | a node with no operands is accepted and lowers to `{"$and": []}` (or `$or`, `$nor`) |
| `Hooks.Decorate` | src/vellum/hooks.py:16-38 | a decorator tags the function with its event and returns the same function object |
| `Hooks.EmptyEventLists` | src/vellum/hooks.py:9-13 | a new class entry has all six events, each with an empty list |
| `Hooks.Registered` | src/vellum/hooks.py:7-14 | registration keeps every registered class holding a list for each of the six events |
| `Hooks.FirstRegistration` | src/vellum/hooks.py:8-14 | the first registration for a class creates all six events empty, then appends; other classes are unchanged |
| `Hooks.LookupRegistered` | src/vellum/hooks.py:14 | registration appends the function at the end of that class's list for that event; every other list is unchanged |
| `Hooks.RegisteredTwice` | src/vellum/hooks.py:14 | registering the same function twice yields two entries |
| `Hooks.Lookup` | src/vellum/hooks.py:40-41 | a class never registered has no hooks for any event, rather than a KeyError; in a well-formed table a registered class answers with its list for the event |
| `Hooks.Registry.HooksFor` | src/vellum/hooks.py:40-41 | the same lookup on the process-wide table, whose registered classes always have a list for every event |
| `Hooks.LookupRegisterAll` | src/vellum/hooks.py:7-41 | after any sequence of registrations, the lookup gives that class's hooks for that event in registration order |
| `Hooks.Registry.constructor` | src/vellum/hooks.py:5 | the registry starts empty |
| `Hooks.Registry.Register` | src/vellum/hooks.py:7-14 | the table becomes the registration of the function into the old table, and the registry stays well formed |
| `Aggregation.Put` | src/vellum/aggregation.py:23 | setting a key on an ordered dict: a new key goes last; an existing key keeps its position and takes the new value, every other entry is unchanged, and distinct keys stay distinct |
| `Aggregation.Update` | src/vellum/aggregation.py:23 | `dict.update`: the keys are those of both dicts, the old keys stay in front in their order, an entry the update does not mention is kept, and distinct keys stay distinct; with distinct keys on both sides, each entry of the update takes the place of an existing key with its value, and the entries with new keys follow in the update's order |
| `Aggregation.GroupBody` | src/vellum/aggregation.py:22-23 | the group body has `_id` as its first key, exactly `_id` and the accumulators' keys, each once |
| `Aggregation.GroupBodyPlain` | src/vellum/aggregation.py:21-25 | with accumulators that do not name `_id`, the group body is `_id` first, then the accumulators in order |
| `Aggregation.GroupIdOverwritten` | src/vellum/aggregation.py:21-25 | an accumulator named `_id` overwrites the group key in place: the body is `_id` with the accumulator's value, then the other accumulators in order, and the caller's group id is lost |
| `Aggregation.StageOf` | src/vellum/aggregation.py:13-37 | each stage is `{"$op": arg}` holding the argument verbatim (negative skip and limit included), so the call can be read back from it unless a group accumulator shadows `_id` |
| `Aggregation.CallsOfStagesOf` | src/vellum/aggregation.py:13-37 | for any interleaving of stage calls, the stage list read back is the calls in call order |
| `Aggregation.Pipeline.constructor` | src/vellum/aggregation.py:8-11 | a new pipeline has no stages |
| `Aggregation.Pipeline.Push` | src/vellum/aggregation.py:14 | appends exactly the call's stage to the old stages and records the call |
| `Aggregation.Pipeline.Match` | src/vellum/aggregation.py:13-15 | appends exactly `{"$match": query}`, earlier stages unchanged, and returns the same builder |
| `Aggregation.Pipeline.Project` | src/vellum/aggregation.py:17-19 | appends exactly `{"$project": projection}` and returns the same builder |
| `Aggregation.ClashingKeyword` | src/vellum/aggregation.py:21 | a call of `group` fails to bind iff some accumulator is named `group_id` or `self`; the error names the first such accumulator in call order |
| `Aggregation.Pipeline.Group` | src/vellum/aggregation.py:21-25 | fails with TypeError, appending nothing, iff an accumulator is named `group_id` or `self`; otherwise appends exactly `{"$group": {"_id": group_id} updated with the accumulators}` and returns the same builder |
| `Aggregation.Pipeline.Sort` | src/vellum/aggregation.py:27-29 | appends exactly `{"$sort": sort_fields}` and returns the same builder |
| `Aggregation.Pipeline.Skip` | src/vellum/aggregation.py:31-33 | appends `{"$skip": n}` with `n` unchecked and returns the same builder |
| `Aggregation.Pipeline.Limit` | src/vellum/aggregation.py:35-37 | appends `{"$limit": n}` with `n` unchecked and returns the same builder |
| `Aggregation.Pipeline.Execute` | src/vellum/aggregation.py:39-41 | sends the stage list unchanged and keeps it; returns the store's raw documents; the list sent records the calls in order |
| `Repositories.NormaliseId` | src/vellum/repository.py:36-46 | an ObjectId passes unchanged; a string gives an ObjectId iff it is 24 hex digits, else ValueError; a UUID is always InvalidId; any other type is a TypeError |
| `Repositories.NormaliseIdText` | src/vellum/repository.py:38-42 | the text of an ObjectId normalises to that ObjectId |
| `Repositories.Fetch` | src/vellum/repository.py:35-52 | the document stored under the normalised id, with its version and fields; DocumentNotFoundError with the caller's id when there is none; or the normalisation error |
| `Repositories.Insert` | src/vellum/repository.py:30-31 | `insert_one` adds exactly the new key and keeps every other document; a key already present is a duplicate-key error |
| `Repositories.ConditionalWrite` | src/vellum/repository.py:75-82 | `update_one` modifies one document iff both `_id` and `version` match; then its version is one more, the given fields are set, its other fields and every other document are kept; otherwise nothing changes; a `$set` that would change `_id` is refused |
| `Repositories.UpdateStore` | src/vellum/repository.py:61-89 | a failed update leaves the store unchanged; a successful one returns the caller's version plus one, which is the stored version |
| `Repositories.FindFilter` | src/vellum/repository.py:128-133 | a raw filter is used verbatim; a query expression is lowered, and its filter reads back as the expression |
| `Repositories.WithoutNone` | src/vellum/model.py:43-44 | the inserted document holds exactly the fields whose value is not None |
| `Repositories.UpdateRule` | src/vellum/repository.py:75-89 | the write matches both `_id` and `version`; on success the stored version is exactly one more and the fields are set; otherwise the store is unchanged, with DocumentNotFoundError for an absent id and OptimisticLockError with the caller's version for a present one |
| `Repositories.StaleVersionConflicts` | src/vellum/repository.py:75-91 | after a successful update, reusing the old version fails with OptimisticLockError and changes nothing, while the new version succeeds |
| `Repositories.VersionScenario` | src/vellum/repository.py:25-95 | create at version 0, update with 0 gives 1, update again with 0 conflicts, update with 1 gives 2 |
| `Repositories.UpdateKeepsVersionsMonotone` | src/vellum/repository.py:75-82 | an update never removes a document, never lowers a version, and touches no other document |
| `Repositories.CreateThenFetch` | src/vellum/repository.py:25-52 | a created document is found by its ObjectId or its text, with the item's version and non-None fields |
| `Repositories.RemovedIsNotFound` | src/vellum/repository.py:108-115 | once removed, get, and therefore a second delete, fails with DocumentNotFoundError |
| `Repositories.Clamp` | src/vellum/repository.py:135-138 | a negative skip or limit counts as 0; others are kept |
| `Repositories.Window` | src/vellum/repository.py:140-143 | the result is the matching documents from position `skip` on: exactly `limit` of them when `limit > 0` and that many remain, else all that remain |
| `Repositories.WindowExample` | src/vellum/repository.py:140-143 | skip 2, limit 3 over ten matches gives the third to fifth |
| `Repositories.FirstRaising` | src/vellum/repository.py:28-29 | the position of the first hook that raises: no hook before it raises |
| `Models.IsSubclass` | src/vellum/repository.py:26 | `isinstance` holds for the class itself, and a class without bases is an instance only of itself |
| `Models.EveryBase` | src/vellum/repository.py:26 | every direct base passes the check, whatever its position among the bases |
| `Models.SubclassTransitive` | src/vellum/repository.py:26 | a subclass of a subclass passes the `isinstance` check |
| `Repositories.Repository.constructor` | src/vellum/repository.py:17-23 | the repository is bound to its model class and collection |
| `Repositories.Repository.RunHooks` | src/vellum/repository.py:28-29 | the hooks are called in list order, each before the next, up to and including the first that raises, whose error is returned |
| `Repositories.Repository.Create` | src/vellum/repository.py:25-34 | TypeError for an item of another class, before any hook or write; otherwise the before_insert hooks, then the insert, then the same item; no after_insert hook |
| `Repositories.Repository.Get` | src/vellum/repository.py:35-52 | the stored document under the normalised id, DocumentNotFoundError when there is none, or the normalisation error |
| `Repositories.Repository.Update` | src/vellum/repository.py:54-95 | before_update hooks run before id normalisation; the conditional write follows the update rule; on success `item.version` goes up by one to the stored version, and only then do the after_update hooks run |
| `Repositories.Repository.Delete` | src/vellum/repository.py:96-118 | fetch via get (not-found propagates), before_delete hooks, removal, after_delete hooks, True; afterwards get fails with DocumentNotFoundError |
| `Repositories.Repository.Find` | src/vellum/repository.py:120-144 | a query expression is lowered first and its error propagates; the result is the clamped window of the matching documents, at most `limit` of them when `limit > 0` |
| `Repositories.Repository.Aggregate` | src/vellum/repository.py:145-146 | a fresh, empty pipeline for the repository's model class |

## Left out

- Aggregation.Update: where each entry ends up is stated only when both sides have distinct keys. That always holds for `group`, because `{"_id": group_id}` has one key and `**accumulators` cannot repeat a keyword.
- Models.IsSubclass: classes are compared by value (name and bases), not by identity as in Python. Two distinct classes with the same name and the same bases are one class here: they share one hook-table entry (src/vellum/hooks.py:8-14) and pass each other's `isinstance` check in `create` and `update` (src/vellum/repository.py:26, 55). Classes outside the model hierarchy, metaclass `__instancecheck__` hooks and virtual subclasses are not modelled either.
- Motor and pymongo I/O, and async/await. The collection is a map held by the repository. `update_one` is one atomic step, as the store guarantees.
- Concurrent clients and hook effects on the store. So `delete`'s zero-deleted branch (src/vellum/repository.py:114-115) is not modelled: it is reached only when something removes the document between get and delete_one, either another client or a before_delete hook. The `if not doc_to_delete` branch (src/vellum/repository.py:109-110) is not modelled either: get has already raised.
- The store's filter matching, its natural order and `find`'s `sort` (src/vellum/repository.py:141-142). `Find` takes the store's answer for a filter as the parameter `matching`. `Execute` takes the store's aggregation as the parameter `run`. The pipeline therefore holds no collection reference.
- bson ObjectId internals. Only the rule "24 hex digits, either case" is modelled, not `bytes.fromhex`'s whitespace handling or the 12-byte constructor.
- Python `set` iteration order for In and NotIn: a set operand is a sequence in the model.
- src/vellum/model.py: pydantic validation and dumping, timestamps, `uuid4`, and the class scan of `__init_subclass__` that registers tagged hooks. A document is an id, an explicit `version` and a field map. `version` is not declared on the base model, yet `update` reads and increments it. The item's identity is taken as an ObjectId. The declared UUID id would make `to_mongo` raise, as `Bson.UuidTextIsNoObjectId` shows.
- Hook effects. A hook does not change the item or the collection in the model. Whether a hook raises is fixed per hook (`HookFunction.raises`). The trace records the event and the hook, not the argument passed to it.
- The helper constructors `eq`, `ne`, `gt`, `gte`, `lt`, `lte`, `In_` and `NotIn_` are the datatype constructor `Field` with the same arguments. `And_`, `Or_` and `Nor_` are `MakeLogical` with `And`, `Or`, `Nor`. So their lowering is the class's by construction.
- Registering under an event name outside the six (a KeyError in Python): events are a datatype.
- Encoding of filter values. A leaf's value is an opaque `Val` in the model's `Doc`: a list given to Eq stays `Val(PyList ..)` rather than becoming `List`, and Python dicts as values are not modelled. So `Query.UnlowerLower` holds for the model's `Doc`, not for the Python dicts: `Eq("$and", [])` and `And()` both give `{"$and": []}` in Python but different `Doc`s here, and so do `Eq("a", {"$gt": 1})` and `Gt("a", 1)`.
- Aliasing of caller objects. Python keeps the caller's dict in each stage (src/vellum/aggregation.py:14,18,24,28) and the caller's value in a leaf (src/vellum/query.py:18), so mutating them afterwards changes earlier stages and later lowerings. The model passes `Doc` and `PyValue` by value: "earlier stages unchanged" in `Aggregation.Pipeline.Match` through `Aggregation.Pipeline.Limit`, and the immutability of query trees, hold only with respect to the builder's own calls.
- Exception messages (src/vellum/exceptions.py). Errors keep their kind, the caller's id and, for a lock conflict, the stale version. `get` passes a formatted message as the `doc_id`; the model keeps the caller's id instead.
