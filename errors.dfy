/** The exceptions the access layer raises or lets through. */
module Errors {
  import opened Bson

  datatype TypeErrorReason =
    | NotACollection(operator: string)  // `$in`/`$nin` given a value that is not a list, tuple or set
    | NotAnExpression                   // a logical node given an operand that is not a query expression
    | WrongModelClass                   // create/update given an item of another model class
    | UnsupportedIdType                 // an id that is neither UUID, str nor ObjectId
    | MultipleValues(argument: string)  // a keyword argument that repeats a parameter already given

  datatype Error =
    | TypeError(reason: TypeErrorReason)
    | ValueError(text: string)          // an id string that is not an ObjectId
    | NotImplemented(cls: string)       // NotImplementedError from the base `to_mongo_query`
    | InvalidId(text: string)           // bson's own error, raised by ObjectId(str(uuid))
    | DocumentNotFound(id: PyValue)     // DocumentNotFoundError, with the id the caller gave
    | OptimisticLock(id: PyValue, version: int)  // OptimisticLockError, with the caller's stale version
    | DuplicateKey(key: ObjectId)       // the store refuses a second document with the same _id
    | ImmutableId(key: ObjectId)        // the store refuses a $set that changes _id
    | HookFailed(hook: string)          // a hook raised; its exception propagates unchanged
}
