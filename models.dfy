/**
 * The document model as the repository sees it: a model class, the mutable
 * item a caller hands to create/update, and the document get/find return.
 */
module Models {
  import opened Results
  import opened Bson

  /** A model class and its direct base classes that are model classes, in declaration order. */
  datatype ModelClass = ModelClass(name: string, bases: seq<ModelClass>)

  /**
   * `issubclass(c, d)`: `d` is `c` or a subclass check succeeds through one
   * of `c`'s bases, whichever position it has; `isinstance(item, d)` asks
   * it of the item's class.
   */
  predicate IsSubclass(c: ModelClass, d: ModelClass)
    decreases c
    ensures c == d ==> IsSubclass(c, d)
    ensures IsSubclass(c, d) && c.bases == [] ==> c == d
  {
    c == d || exists i :: 0 <= i < |c.bases| && IsSubclass(c.bases[i], d)
  }

  /** Every direct base counts, not just the first: `class Post(Tagged, Audited)` is a subclass of `Audited`. */
  lemma EveryBase(c: ModelClass, i: nat)
    requires i < |c.bases|
    ensures IsSubclass(c, c.bases[i])
  {
    assert IsSubclass(c.bases[i], c.bases[i]);
  }

  /** A subclass of a subclass is a subclass: `isinstance` holds through every base, at any depth. */
  lemma {:induction false} SubclassTransitive(c: ModelClass, d: ModelClass, e: ModelClass)
    requires IsSubclass(c, d) && IsSubclass(d, e)
    ensures IsSubclass(c, e)
    decreases c
  {
    if c != d {
      var i :| 0 <= i < |c.bases| && IsSubclass(c.bases[i], d);
      SubclassTransitive(c.bases[i], d, e);
    }
  }

  /** The fields of a document other than `_id` and `version`. */
  type Fields = map<string, PyValue>

  /** A document as the store holds it and as get/find rehydrate it. */
  datatype Document = Document(id: ObjectId, version: int, fields: Fields)

  /** A model instance: its identity and class are fixed, update changes its version in place. */
  class Item {
    const cls: ModelClass
    const id: ObjectId
    var version: int
    var fields: Fields

    constructor (cls: ModelClass, id: ObjectId, version: int, fields: Fields)
      ensures this.cls == cls && this.id == id && this.version == version && this.fields == fields
    {
      this.cls := cls;
      this.id := id;
      this.version := version;
      this.fields := fields;
    }
  }
}
