/**
 * The query-expression algebra of src/vellum/query.py: an immutable tree of
 * field comparisons under $and/$or/$nor, and its lowering to a MongoDB
 * filter document.
 */
module Query {
  import opened Results
  import opened Bson
  import opened Errors

  /** The leaf classes Eq, Ne, Gt, Gte, Lt, Lte, In and NotIn. */
  datatype FieldOp = Eq | Ne | Gt | Gte | Lt | Lte | In | NotIn

  /** The logical classes And, Or and Nor. */
  datatype Connective = And | Or | Nor

  datatype Expr =
    | Field(op: FieldOp, field: string, value: PyValue)
    | Logical(conn: Connective, operands: seq<Expr>)
      /** An instance of `QueryExpression`, `FieldQueryExpression` or `LogicalQueryExpression` itself, or of a subclass that keeps their `to_mongo_query`. */
    | Abstract(cls: string)

  /** An argument handed to a logical constructor: Python does not type-check it. */
  datatype Operand = Expression(e: Expr) | NotExpression(v: PyValue)

  /** The operator key a non-Eq leaf lowers under. */
  function OperatorKey(op: FieldOp): string
    requires op != Eq
  {
    match op
    case Ne => "$ne"
    case Gt => "$gt"
    case Gte => "$gte"
    case Lt => "$lt"
    case Lte => "$lte"
    case In => "$in"
    case NotIn => "$nin"
  }

  function ConnectiveKey(c: Connective): string {
    match c
    case And => "$and"
    case Or => "$or"
    case Nor => "$nor"
  }

  /**
   * `_convert_value_to_mongo`: a UUID becomes `ObjectId(str(uuid))`, any
   * other value is returned as it is. The text of a UUID is never an
   * ObjectId, so the UUID branch always raises bson's InvalidId.
   */
  function ConvertValue(v: PyValue): (r: Result<PyValue, Error>)
    ensures !v.PyUuid? ==> r == Ok(v)
    ensures v.PyUuid? ==> r == Err(InvalidId(UuidText(v.u)))
  {
    match v
    case PyUuid(u) =>
      (match ParseObjectId(UuidText(u))
       case Some(o) => Ok(PyObjectId(o))
       case None => Err(InvalidId(UuidText(u))))
    case _ => Ok(v)
  }

  /** The list comprehension over `self.value`: converts in order, the first failure wins. */
  function ConvertAll(vs: seq<PyValue>): (r: Result<seq<PyValue>, Error>)
    ensures r.Ok? <==> forall i :: 0 <= i < |vs| ==> ConvertValue(vs[i]).Ok?
    ensures r.Ok? ==> |r.value| == |vs| && forall i :: 0 <= i < |vs| ==> r.value[i] == ConvertValue(vs[i]).value
    ensures r.Err? ==> exists i :: 0 <= i < |vs| && ConvertValue(vs[i]) == Err(r.error)
                                 && forall j :: 0 <= j < i ==> ConvertValue(vs[j]).Ok?
  {
    if vs == [] then Ok([])
    else
      match ConvertValue(vs[0])
      case Err(e) => Err(e)
      case Ok(c) =>
        match ConvertAll(vs[1..])
        case Err(e) =>
          assert forall j :: 1 <= j < |vs| ==> vs[j] == vs[1..][j - 1];
          Err(e)
        case Ok(cs) => Ok([c] + cs)
  }

  /** Each value as a leaf of a filter document. */
  function Vals(vs: seq<PyValue>): seq<Doc> {
    seq(|vs|, i requires 0 <= i < |vs| => Val(vs[i]))
  }

  /**
   * `to_mongo_query` of a leaf: a document with the field as its one key;
   * In and NotIn refuse a value that is not a collection, and otherwise the
   * only failure is a UUID's conversion.
   */
  function LowerField(op: FieldOp, field: string, value: PyValue): (r: Result<Doc, Error>)
    ensures r.Ok? ==> r.value.Map? && |r.value.entries| == 1 && r.value.entries[0].0 == field
    ensures (op == In || op == NotIn) && !IsCollection(value) ==> r == Err(TypeError(NotACollection(OperatorKey(op))))
    ensures r.Err? ==> r.error.InvalidId? || ((op == In || op == NotIn) && !IsCollection(value))
  {
    if op == Eq then
      match ConvertValue(value)
      case Err(e) => Err(e)
      case Ok(c) => Ok(Single(field, Val(c)))
    else if op == In || op == NotIn then
      if !IsCollection(value) then Err(TypeError(NotACollection(OperatorKey(op))))
      else
        match ConvertAll(value.items)
        case Err(e) => Err(e)
        case Ok(cs) => Ok(Single(field, Single(OperatorKey(op), List(Vals(cs)))))
    else
      match ConvertValue(value)
      case Err(e) => Err(e)
      case Ok(c) => Ok(Single(field, Single(OperatorKey(op), Val(c))))
  }

  /**
   * `to_mongo_query`: the filter document an expression stands for, always
   * a single-key document (the field of a leaf, the operator of a logical
   * node); it fails only with a leaf's TypeError, a UUID's InvalidId, or
   * the NotImplementedError of a node whose class does not lower.
   */
  function Lower(e: Expr): (r: Result<Doc, Error>)
    decreases e, 1
    ensures r.Ok? ==> r.value.Map? && |r.value.entries| == 1
    ensures r.Ok? && e.Field? ==> r.value.entries[0].0 == e.field
    ensures r.Ok? && e.Logical? ==> r.value.entries[0].0 == ConnectiveKey(e.conn)
    ensures e.Abstract? ==> r == Err(NotImplemented(e.cls))
    ensures r.Err? ==> r.error.InvalidId? || r.error.NotImplemented? || r.error == TypeError(NotACollection("$in"))
                       || r.error == TypeError(NotACollection("$nin"))
  {
    match e
    case Field(op, f, v) => LowerField(op, f, v)
    case Abstract(cls) => Err(NotImplemented(cls))
    case Logical(c, es) =>
      match LowerAll(es)
      case Err(err) => Err(err)
      case Ok(ds) => Ok(Single(ConnectiveKey(c), List(ds)))
  }

  /** `[exp.to_mongo_query() for exp in self.expressions]`. */
  function LowerAll(es: seq<Expr>): (r: Result<seq<Doc>, Error>)
    decreases es, 0
    ensures r.Ok? <==> forall i :: 0 <= i < |es| ==> Lower(es[i]).Ok?
    ensures r.Ok? ==> |r.value| == |es| && forall i :: 0 <= i < |es| ==> r.value[i] == Lower(es[i]).value
    ensures r.Err? ==> exists i :: 0 <= i < |es| && Lower(es[i]) == Err(r.error)
                                 && forall j :: 0 <= j < i ==> Lower(es[j]).Ok?
  {
    if es == [] then Ok([])
    else
      match Lower(es[0])
      case Err(err) => Err(err)
      case Ok(d) =>
        match LowerAll(es[1..])
        case Err(err) =>
          assert forall j :: 1 <= j < |es| ==> es[j] == es[1..][j - 1];
          Err(err)
        case Ok(ds) => Ok([d] + ds)
  }

  /* Leaves */

  /** Eq lowers to `{field: v}`, with `v` passed through value conversion. */
  lemma LowerEq(field: string, v: PyValue)
    ensures Lower(Field(Eq, field, v)) ==
      if v.PyUuid? then Err(InvalidId(UuidText(v.u))) else Ok(Single(field, Val(v)))
  {
  }

  /** Ne, Gt, Gte, Lt and Lte lower to `{field: {"$op": v}}`. */
  lemma LowerComparison(op: FieldOp, field: string, v: PyValue)
    requires op in {Ne, Gt, Gte, Lt, Lte}
    ensures Lower(Field(op, field, v)) ==
      if v.PyUuid? then Err(InvalidId(UuidText(v.u))) else Ok(Single(field, Single(OperatorKey(op), Val(v))))
  {
  }

  /**
   * In and NotIn fail with TypeError when the value is not a list, tuple or
   * set (when lowered, not when built); otherwise they lower to
   * `{field: {"$in"|"$nin": L}}` with L the elements in their order.
   */
  lemma LowerMembership(op: FieldOp, field: string, v: PyValue)
    requires op == In || op == NotIn
    ensures !IsCollection(v) ==> Lower(Field(op, field, v)) == Err(TypeError(NotACollection(OperatorKey(op))))
    ensures IsCollection(v) ==>
      (Lower(Field(op, field, v)).Ok? <==> forall i :: 0 <= i < |v.items| ==> !v.items[i].PyUuid?)
    ensures IsCollection(v) && Lower(Field(op, field, v)).Ok? ==>
      Lower(Field(op, field, v)).value == Single(field, Single(OperatorKey(op), List(Vals(v.items))))
  {
    if IsCollection(v) {
      ConvertAllIdentity(v.items);
    }
  }

  /** A successful conversion changes nothing: only a UUID would be changed, and it fails. */
  lemma ConvertAllIdentity(vs: seq<PyValue>)
    ensures ConvertAll(vs).Ok? <==> forall i :: 0 <= i < |vs| ==> !vs[i].PyUuid?
    ensures ConvertAll(vs).Ok? ==> ConvertAll(vs).value == vs
  {
    if ConvertAll(vs).Ok? {
      assert forall i :: 0 <= i < |vs| ==> ConvertAll(vs).value[i] == vs[i];
    }
  }

  /* Logical nodes and the operators */

  /**
   * `LogicalQueryExpression.__init__`: rejects any operand that is not a
   * query expression, keeps the operands in order, and accepts none at all.
   */
  function MakeLogical(c: Connective, args: seq<Operand>): (r: Result<Expr, Error>)
    ensures r.Ok? <==> forall i :: 0 <= i < |args| ==> args[i].Expression?
    ensures r.Err? ==> r.error == TypeError(NotAnExpression)
    ensures r.Ok? ==> (r.value.Logical? && r.value.conn == c && |r.value.operands| == |args|
                       && forall i :: 0 <= i < |args| ==> r.value.operands[i] == args[i].e)
  {
    if forall i :: 0 <= i < |args| ==> args[i].Expression? then
      Ok(Logical(c, seq(|args|, i requires 0 <= i < |args| => args[i].e)))
    else
      Err(TypeError(NotAnExpression))
  }

  /** `a & b`: the binary node And(a, b), not flattened; a non-expression `b` is a TypeError. */
  function AndOp(a: Expr, b: Operand): (r: Result<Expr, Error>)
    ensures b.Expression? ==> r == Ok(Logical(And, [a, b.e]))
    ensures !b.Expression? ==> r == Err(TypeError(NotAnExpression))
  {
    var args := [Expression(a), b];
    assert !b.Expression? ==> !args[1].Expression?;
    assert b.Expression? ==> MakeLogical(And, args).value.operands == [a, b.e];
    MakeLogical(And, args)
  }

  /** `a | b`: the binary node Or(a, b), not flattened; a non-expression `b` is a TypeError. */
  function OrOp(a: Expr, b: Operand): (r: Result<Expr, Error>)
    ensures b.Expression? ==> r == Ok(Logical(Or, [a, b.e]))
    ensures !b.Expression? ==> r == Err(TypeError(NotAnExpression))
  {
    var args := [Expression(a), b];
    assert !b.Expression? ==> !args[1].Expression?;
    assert b.Expression? ==> MakeLogical(Or, args).value.operands == [a, b.e];
    MakeLogical(Or, args)
  }

  /** `~a`: the node `Nor(a)` would build, with `a` its only operand. */
  function InvertOp(a: Expr): (r: Expr)
    ensures MakeLogical(Nor, [Expression(a)]) == Ok(r)
  {
    assert MakeLogical(Nor, [Expression(a)]).value.operands == [a];
    Logical(Nor, [a])
  }

  /** A node with no operands is accepted and lowers to `{"$and": []}` (or `$or`, `$nor`). */
  lemma EmptyLogicalAccepted(c: Connective)
    ensures MakeLogical(c, []) == Ok(Logical(c, []))
    ensures Lower(Logical(c, [])) == Ok(Single(ConnectiveKey(c), List([])))
  {
  }

  /**
   * And, Or and Nor lower to `{"$and"|"$or"|"$nor": L}` where L holds the
   * lowering of each operand at the same position; the first failing
   * operand's error is the node's error.
   */
  lemma LowerLogical(c: Connective, es: seq<Expr>)
    ensures Lower(Logical(c, es)).Ok? <==> forall i :: 0 <= i < |es| ==> Lower(es[i]).Ok?
    ensures Lower(Logical(c, es)).Ok? ==>
      exists ds :: Lower(Logical(c, es)).value == Single(ConnectiveKey(c), List(ds))
                && |ds| == |es| && forall i :: 0 <= i < |es| ==> ds[i] == Lower(es[i]).value
  {
    if Lower(Logical(c, es)).Ok? {
      var ds := LowerAll(es).value;
      assert Lower(Logical(c, es)).value == Single(ConnectiveKey(c), List(ds));
    }
  }

  /* Reading a filter back */

  function FieldOpOf(key: string): (r: Option<FieldOp>)
    ensures r.Some? ==> r.value != Eq && OperatorKey(r.value) == key
  {
    if key == "$ne" then Some(Ne)
    else if key == "$gt" then Some(Gt)
    else if key == "$gte" then Some(Gte)
    else if key == "$lt" then Some(Lt)
    else if key == "$lte" then Some(Lte)
    else if key == "$in" then Some(In)
    else if key == "$nin" then Some(NotIn)
    else None
  }

  function ConnectiveOf(key: string): (r: Option<Connective>)
    ensures r.Some? ==> ConnectiveKey(r.value) == key
  {
    if key == "$and" then Some(And)
    else if key == "$or" then Some(Or)
    else if key == "$nor" then Some(Nor)
    else None
  }

  lemma KeysRecognised(op: FieldOp, c: Connective)
    ensures op != Eq ==> FieldOpOf(OperatorKey(op)) == Some(op)
    ensures ConnectiveOf(ConnectiveKey(c)) == Some(c)
  {
  }

  /**
   * The expression a filter document stands for, read back: an independent
   * account of what each operator's filter looks like. A collection operand
   * of In or NotIn comes back as a list.
   */
  function Unlower(d: Doc): Option<Expr>
    decreases d, 1
  {
    match d
    case Map(entries) => (
      if |entries| != 1 then None
      else
        var key := entries[0].0;
        match entries[0].1
        case Val(v) => Some(Field(Eq, key, v))
        case List(ds) =>
          (match ConnectiveOf(key)
           case None => None
           case Some(c) =>
             match UnlowerAll(ds)
             case None => None
             case Some(es) => Some(Logical(c, es)))
        case Map(ops) =>
          if |ops| != 1 then None
          else
            match FieldOpOf(ops[0].0)
            case None => None
            case Some(op) =>
              var arg := ops[0].1;
              if op == In || op == NotIn then
                if arg.List? && forall i :: 0 <= i < |arg.elems| ==> arg.elems[i].Val? then
                  Some(Field(op, key, PyList(seq(|arg.elems|, i requires 0 <= i < |arg.elems| => arg.elems[i].v))))
                else None
              else if arg.Val? then Some(Field(op, key, arg.v))
              else None)
    case _ => None
  }

  function UnlowerAll(ds: seq<Doc>): (r: Option<seq<Expr>>)
    decreases ds, 0
    ensures (forall i :: 0 <= i < |ds| ==> Unlower(ds[i]).Some?) ==>
      r.Some? && |r.value| == |ds| && forall i :: 0 <= i < |ds| ==> r.value[i] == Unlower(ds[i]).value
  {
    if ds == [] then Some([])
    else
      match Unlower(ds[0])
      case None => None
      case Some(e) =>
        match UnlowerAll(ds[1..])
        case None => None
        case Some(es) => Some([e] + es)
  }

  /** The expression with every In/NotIn collection operand written as a list. */
  function AsList(e: Expr): Expr
    decreases e
  {
    match e
    case Field(op, f, v) =>
      if (op == In || op == NotIn) && IsCollection(v) then Field(op, f, PyList(v.items)) else e
    case Logical(c, es) => Logical(c, seq(|es|, i requires 0 <= i < |es| => AsList(es[i])))
    case Abstract(_) => e
  }

  /**
   * Lowering is structure-preserving for any nesting: reading the filter
   * back gives the expression it came from, every node, operator, field and
   * operand in place (a tuple or set operand of In/NotIn comes back as a list).
   */
  lemma {:induction false} UnlowerLower(e: Expr)
    ensures Lower(e).Ok? ==> Unlower(Lower(e).value) == Some(AsList(e))
  {
    if Lower(e).Ok? {
      match e
      case Field(op, f, v) =>
        if op == In || op == NotIn {
          LowerMembership(op, f, v);
          var ds := Vals(v.items);
          assert seq(|ds|, i requires 0 <= i < |ds| => ds[i].v) == v.items;
        } else if op != Eq {
          KeysRecognised(op, And);
        }
      case Logical(c, es) =>
        KeysRecognised(Eq, c);
        var ds := LowerAll(es).value;
        forall i | 0 <= i < |es|
          ensures Unlower(ds[i]) == Some(AsList(es[i]))
        {
          UnlowerLower(es[i]);
        }
        assert UnlowerAll(ds).value == seq(|es|, i requires 0 <= i < |es| => AsList(es[i]));
      case Abstract(_) =>
    }
  }

  /**
   * A base-class instance is accepted as an operand, and lowering the node
   * then raises its NotImplementedError: `And(Eq("a", 1),
   * FieldQueryExpression("b", 2))` is built, but does not lower.
   */
  lemma AbstractOperandFails()
    ensures MakeLogical(And, [Expression(Field(Eq, "a", PyInt(1))), Expression(Abstract("FieldQueryExpression"))]).Ok?
    ensures Lower(Logical(And, [Field(Eq, "a", PyInt(1)), Abstract("FieldQueryExpression")]))
         == Err(NotImplemented("FieldQueryExpression"))
  {
    var es := [Field(Eq, "a", PyInt(1)), Abstract("FieldQueryExpression")];
    assert Lower(es[0]).Ok?;
    assert LowerAll(es[1..]) == Err(NotImplemented("FieldQueryExpression"));
  }

  /** `and_(eq("a", 1), or_(gt("b", 2), in_("c", [3, 4])))` lowers to the filter that mirrors its nesting. */
  lemma NestedExample()
    ensures Lower(Logical(And, [Field(Eq, "a", PyInt(1)),
                                Logical(Or, [Field(Gt, "b", PyInt(2)), Field(In, "c", PyList([PyInt(3), PyInt(4)]))])]))
         == Ok(Single("$and", List([
              Single("a", Val(PyInt(1))),
              Single("$or", List([
                Single("b", Single("$gt", Val(PyInt(2)))),
                Single("c", Single("$in", List([Val(PyInt(3)), Val(PyInt(4))])))]))])))
  {
    var leafB, leafC := Field(Gt, "b", PyInt(2)), Field(In, "c", PyList([PyInt(3), PyInt(4)]));
    var docB := Single("b", Single("$gt", Val(PyInt(2))));
    var docC := Single("c", Single("$in", List([Val(PyInt(3)), Val(PyInt(4))])));
    LowerComparison(Gt, "b", PyInt(2));
    LowerMembership(In, "c", PyList([PyInt(3), PyInt(4)]));
    assert Vals([PyInt(3), PyInt(4)]) == [Val(PyInt(3)), Val(PyInt(4))];
    assert Lower(leafC) == Ok(docC);
    var inner := [leafB, leafC];
    assert LowerAll(inner).value == [docB, docC];
    var outer := [Field(Eq, "a", PyInt(1)), Logical(Or, inner)];
    assert LowerAll(outer).value == [Single("a", Val(PyInt(1))), Single("$or", List([docB, docC]))];
  }
}
