/**
 * The aggregation pipeline builder of src/vellum/aggregation.py: an
 * append-only list of stage documents, built by chained calls and sent to
 * the store as one request.
 */
module Aggregation {
  import opened Results
  import opened Bson
  import opened Models
  import opened Errors

  type Entries = seq<(string, Doc)>

  predicate HasKey(es: Entries, k: string) {
    exists i :: 0 <= i < |es| && es[i].0 == k
  }

  predicate DistinctKeys(es: Entries) {
    forall i, j :: 0 <= i < j < |es| ==> es[i].0 != es[j].0
  }

  /** The keys of an entry list with one entry in front. */
  lemma {:induction false} ConsKeys(x: (string, Doc), es: Entries)
    ensures forall k :: HasKey([x] + es, k) <==> x.0 == k || HasKey(es, k)
  {
    forall k ensures HasKey([x] + es, k) <==> x.0 == k || HasKey(es, k) {
      if HasKey(es, k) {
        var i :| 0 <= i < |es| && es[i].0 == k;
        assert ([x] + es)[i + 1].0 == k;
      }
      if x.0 == k {
        assert ([x] + es)[0].0 == k;
      }
    }
  }

  /** An entry list with one entry in front has distinct keys iff its tail does and misses that key. */
  lemma {:induction false} DistinctCons(x: (string, Doc), es: Entries)
    ensures DistinctKeys([x] + es) <==> !HasKey(es, x.0) && DistinctKeys(es)
  {
    var xs := [x] + es;
    if DistinctKeys(xs) {
      forall i, j | 0 <= i < j < |es| ensures es[i].0 != es[j].0 {
        assert xs[i + 1] == es[i] && xs[j + 1] == es[j];
      }
      forall i | 0 <= i < |es| ensures es[i].0 != x.0 {
        assert xs[0] == x && xs[i + 1] == es[i];
      }
    }
  }

  /** `d[k] = v` on an insertion-ordered dict: an existing key keeps its place, a new one goes last. */
  function Put(es: Entries, k: string, v: Doc): (r: Entries)
    ensures HasKey(es, k) ==> |r| == |es|
    ensures !HasKey(es, k) ==> r == es + [(k, v)]
    ensures |es| <= |r| && forall i :: 0 <= i < |es| ==> r[i].0 == es[i].0 && (es[i].0 != k ==> r[i] == es[i])
    ensures forall k' :: HasKey(r, k') <==> HasKey(es, k') || k' == k
    ensures DistinctKeys(es) && HasKey(es, k) ==>
      forall i :: 0 <= i < |es| ==> r[i] == (if es[i].0 == k then (k, v) else es[i])
    ensures DistinctKeys(es) ==> DistinctKeys(r)
  {
    if es == [] then
      ConsKeys((k, v), []);
      [(k, v)]
    else
      var tail := es[1..];
      assert es == [es[0]] + tail;
      ConsKeys(es[0], tail);
      DistinctCons(es[0], tail);
      if es[0].0 == k then
        ConsKeys((k, v), tail);
        DistinctCons((k, v), tail);
        [(k, v)] + tail
      else
        var rest := Put(tail, k, v);
        ConsKeys(es[0], rest);
        DistinctCons(es[0], rest);
        [es[0]] + rest
  }

  /** The entries of `us` whose key `es` lacks, in their order: what `d.update(us)` appends. */
  function Fresh(es: Entries, us: Entries): Entries {
    if us == [] then []
    else (if HasKey(es, us[0].0) then [] else [us[0]]) + Fresh(es, us[1..])
  }

  /** Two entry lists that agree on which keys of `us` they hold leave the same entries of `us` fresh. */
  lemma {:induction false} FreshAgree(es: Entries, es': Entries, us: Entries)
    requires forall j :: 0 <= j < |us| ==> (HasKey(es, us[j].0) <==> HasKey(es', us[j].0))
    ensures Fresh(es, us) == Fresh(es', us)
  {
    if us != [] {
      assert forall j :: 0 <= j < |us[1..]| ==> us[1..][j] == us[j + 1];
      FreshAgree(es, es', us[1..]);
    }
  }

  /** One step of `d.update(us)`: the fresh entries after the first entry of `us` is put. */
  lemma {:induction false} UpdateStepFresh(es: Entries, u: (string, Doc), tail: Entries, es': Entries, r: Entries)
    requires forall j :: 0 <= j < |tail| ==> tail[j].0 != u.0
    requires HasKey(es, u.0) ==> |es'| == |es|
    requires !HasKey(es, u.0) ==> es' == es + [u]
    requires forall k :: HasKey(es', k) <==> HasKey(es, k) || k == u.0
    requires |es'| <= |r| && r[|es'|..] == Fresh(es', tail)
    requires !HasKey(es, u.0) ==> r[|es|] == es'[|es|]
    ensures |es| <= |r| && r[|es|..] == Fresh(es, [u] + tail)
  {
    var us := [u] + tail;
    assert us[0] == u && us[1..] == tail;
    assert Fresh(es, us) == (if HasKey(es, u.0) then [] else [u]) + Fresh(es, tail);
    FreshAgree(es, es', tail);
    if !HasKey(es, u.0) {
      assert r[|es|..] == [r[|es|]] + r[|es'|..];
    }
  }

  /** One step of `d.update(us)` for distinct keys: each entry of `us` takes its key's place. */
  lemma {:induction false} UpdateStepValues(es: Entries, u: (string, Doc), tail: Entries, es': Entries, r: Entries)
    requires !HasKey(tail, u.0)
    requires |es| <= |es'| <= |r|
    requires forall i :: 0 <= i < |es| ==> es'[i] == (if es[i].0 == u.0 then u else es[i])
    requires forall i :: 0 <= i < |es'| && !HasKey(tail, es'[i].0) ==> r[i] == es'[i]
    requires forall i, j :: 0 <= i < |es'| && 0 <= j < |tail| && tail[j].0 == es'[i].0 ==> r[i] == tail[j]
    ensures forall i, j :: 0 <= i < |es| && 0 <= j < |[u] + tail| && ([u] + tail)[j].0 == es[i].0 ==> r[i] == ([u] + tail)[j]
  {
    var us := [u] + tail;
    forall i, j | 0 <= i < |es| && 0 <= j < |us| && us[j].0 == es[i].0 ensures r[i] == us[j] {
      if j == 0 {
        assert us[0] == u;
        assert es'[i] == u;
        assert !HasKey(tail, es'[i].0);
      } else {
        assert us[j] == tail[j - 1];
        assert es'[i].0 == es[i].0;
      }
    }
  }

  /** With distinct keys, `d[k] = v` changes only the entry under `k`, whether or not it was there. */
  lemma {:induction false} PutPositions(es: Entries, k: string, v: Doc)
    requires DistinctKeys(es)
    ensures forall i :: 0 <= i < |es| ==> Put(es, k, v)[i] == (if es[i].0 == k then (k, v) else es[i])
  {
    if !HasKey(es, k) {
      assert forall i :: 0 <= i < |es| ==> es[i].0 != k;
    }
  }

  /**
   * One step of `d.update(us)` for distinct keys: if putting the first entry
   * of `us` and then updating with the rest gives `r`, then every entry of
   * `us` takes its key's place in `es` and the fresh ones follow in order.
   */
  lemma {:induction false} UpdateStep(es: Entries, us: Entries, es': Entries, r: Entries)
    requires DistinctKeys(es) && DistinctKeys(us) && us != []
    requires es' == Put(es, us[0].0, us[0].1)
    requires |es'| <= |r| && r[|es'|..] == Fresh(es', us[1..])
    requires forall i :: 0 <= i < |es'| && !HasKey(us[1..], es'[i].0) ==> r[i] == es'[i]
    requires forall i, j :: 0 <= i < |es'| && 0 <= j < |us[1..]| && us[1..][j].0 == es'[i].0 ==> r[i] == us[1..][j]
    ensures |es| <= |r| && r[|es|..] == Fresh(es, us)
    ensures forall i, j :: 0 <= i < |es| && 0 <= j < |us| && us[j].0 == es[i].0 ==> r[i] == us[j]
  {
    var u, tail := us[0], us[1..];
    assert us == [u] + tail;
    DistinctCons(u, tail);
    if !HasKey(es, u.0) {
      assert es' == es + [u];
      assert !HasKey(tail, es'[|es|].0);
    }
    UpdateStepFresh(es, u, tail, es', r);
    PutPositions(es, u.0, u.1);
    UpdateStepValues(es, u, tail, es', r);
  }

  /**
   * `d.update(us)`: each entry of `us` put in turn. The keys are those of
   * both, the keys already present keep their order in front, an entry
   * whose key `us` does not mention is kept, and keys stay distinct. With
   * distinct keys on both sides, an entry of `us` whose key is present
   * takes that key's place, and the others follow in their order.
   */
  function Update(es: Entries, us: Entries): (r: Entries)
    ensures forall k :: HasKey(r, k) <==> HasKey(es, k) || HasKey(us, k)
    ensures |es| <= |r| && forall i :: 0 <= i < |es| ==> r[i].0 == es[i].0
    ensures forall i :: 0 <= i < |es| && !HasKey(us, es[i].0) ==> r[i] == es[i]
    ensures DistinctKeys(es) ==> DistinctKeys(r)
    ensures DistinctKeys(es) && DistinctKeys(us) ==>
      forall i, j :: 0 <= i < |es| && 0 <= j < |us| && us[j].0 == es[i].0 ==> r[i] == us[j]
    ensures DistinctKeys(es) && DistinctKeys(us) ==> r[|es|..] == Fresh(es, us)
    decreases us
  {
    if us == [] then es
    else
      var es' := Put(es, us[0].0, us[0].1);
      var r := Update(es', us[1..]);
      assert us == [us[0]] + us[1..];
      ConsKeys(us[0], us[1..]);
      DistinctCons(us[0], us[1..]);
      assert DistinctKeys(es) && DistinctKeys(us) ==>
        && (forall i, j :: 0 <= i < |es| && 0 <= j < |us| && us[j].0 == es[i].0 ==> r[i] == us[j])
        && r[|es|..] == Fresh(es, us)
      by {
        if DistinctKeys(es) && DistinctKeys(us) {
          UpdateStep(es, us, es', r);
        }
      }
      r
  }

  /** No entry of `us` has a key of `es`: all of `us` is fresh. */
  lemma {:induction false} FreshNone(es: Entries, us: Entries)
    requires forall i :: 0 <= i < |us| ==> !HasKey(es, us[i].0)
    ensures Fresh(es, us) == us
  {
    if us != [] {
      assert forall i :: 0 <= i < |us[1..]| ==> us[1..][i] == us[i + 1];
      FreshNone(es, us[1..]);
    }
  }

  /** Only entry `j` of `us` has a key of `es`: every other entry is fresh. */
  lemma {:induction false} FreshAllBut(es: Entries, us: Entries, j: nat)
    requires j < |us| && HasKey(es, us[j].0)
    requires forall i :: 0 <= i < |us| && i != j ==> !HasKey(es, us[i].0)
    ensures Fresh(es, us) == us[..j] + us[j + 1..]
  {
    assert forall i :: 0 <= i < |us[1..]| ==> us[1..][i] == us[i + 1];
    if j == 0 {
      FreshNone(es, us[1..]);
    } else {
      FreshAllBut(es, us[1..], j - 1);
      assert us[..j] == [us[0]] + us[1..][..j - 1];
      assert us[j + 1..] == us[1..][j..];
    }
  }

  /** The `$group` body: `{"_id": group_id}` updated with the accumulators. */
  function GroupBody(groupId: Doc, accumulators: Entries): (r: Entries)
    ensures |r| > 0 && r[0].0 == "_id"
    ensures forall k :: HasKey(r, k) <==> k == "_id" || HasKey(accumulators, k)
    ensures DistinctKeys(r)
  {
    var init := [("_id", groupId)];
    assert forall k :: HasKey(init, k) <==> k == "_id" by {
      assert init[0].0 == "_id";
    }
    Update(init, accumulators)
  }

  /** Accumulators without an `_id` key follow `_id` in their own order. */
  lemma GroupBodyPlain(groupId: Doc, accumulators: Entries)
    requires DistinctKeys(accumulators) && !HasKey(accumulators, "_id")
    ensures GroupBody(groupId, accumulators) == [("_id", groupId)] + accumulators
  {
    var init := [("_id", groupId)];
    var r := GroupBody(groupId, accumulators);
    ConsKeys(("_id", groupId), []);
    assert init == [("_id", groupId)] + [];
    FreshNone(init, accumulators);
    assert r[..1] == init by {
      assert r[0] == init[0];
    }
    assert r == r[..1] + r[1..];
  }

  /**
   * An accumulator named `_id` overwrites the group key in place: the stage
   * keeps `_id` first, with the accumulator's value, followed by the other
   * accumulators in their order; the group key given by the caller is gone.
   */
  lemma GroupIdOverwritten(groupId: Doc, accumulators: Entries, j: nat)
    requires DistinctKeys(accumulators) && j < |accumulators| && accumulators[j].0 == "_id"
    ensures GroupBody(groupId, accumulators)
            == [("_id", accumulators[j].1)] + accumulators[..j] + accumulators[j + 1..]
  {
    var init := [("_id", groupId)];
    var r := GroupBody(groupId, accumulators);
    ConsKeys(("_id", groupId), []);
    assert init == [("_id", groupId)] + [];
    forall i | 0 <= i < |accumulators| && i != j ensures !HasKey(init, accumulators[i].0) {
      assert accumulators[i].0 != accumulators[j].0;
    }
    FreshAllBut(init, accumulators, j);
    assert r[0] == accumulators[j];
    assert r == [r[0]] + r[1..];
  }

  /** A name the signature `group(self, group_id, **accumulators)` has already bound when the keywords are matched. */
  predicate BoundParameter(k: string) {
    k == "self" || k == "group_id"
  }

  /**
   * Binding a call of `group`: the first accumulator, in call order, whose
   * keyword repeats a bound parameter, which Python rejects with "got
   * multiple values for argument"; `None` when the call binds.
   */
  function ClashingKeyword(accumulators: Entries): (r: Option<string>)
    ensures r.None? <==> !HasKey(accumulators, "self") && !HasKey(accumulators, "group_id")
    ensures r.Some? ==> BoundParameter(r.value)
    ensures r.Some? ==> exists i :: 0 <= i < |accumulators| && accumulators[i].0 == r.value
                                    && forall j :: 0 <= j < i ==> !BoundParameter(accumulators[j].0)
  {
    if |accumulators| == 0 then None
    else if BoundParameter(accumulators[0].0) then Some(accumulators[0].0)
    else
      var tail := accumulators[1..];
      ConsKeys(accumulators[0], tail);
      assert accumulators == [accumulators[0]] + tail;
      var t := ClashingKeyword(tail);
      if t.Some? then
        var i :| 0 <= i < |tail| && tail[i].0 == t.value && forall j :: 0 <= j < i ==> !BoundParameter(tail[j].0);
        assert accumulators[i + 1].0 == t.value;
        assert forall j :: 0 <= j < i + 1 ==> !BoundParameter(accumulators[j].0) by {
          forall j | 0 <= j < i + 1 ensures !BoundParameter(accumulators[j].0) {
            if j > 0 { assert accumulators[j] == tail[j - 1]; }
          }
        }
        t
      else t
  }

  /** One call of a stage method, with its arguments. */
  datatype StageCall =
    | MatchCall(query: Doc)
    | ProjectCall(projection: Doc)
    | GroupCall(groupId: Doc, accumulators: Entries)
    | SortCall(sortFields: Doc)
    | SkipCall(n: int)
    | LimitCall(n: int)

  /**
   * The stage document a call appends: `{"$op": arg}` with the argument
   * kept verbatim (skip and limit included, negative or not), so that the
   * call can be read back from it unless a group accumulator shadows `_id`.
   */
  function StageOf(c: StageCall): (r: Doc)
    ensures Recoverable(c) ==> CallOf(r) == Some(c)
  {
    match c
    case MatchCall(q) => Single("$match", q)
    case ProjectCall(p) => Single("$project", p)
    case GroupCall(g, accs) =>
      assert Recoverable(c) ==> GroupBody(g, accs)[1..] == accs by {
        if Recoverable(c) {
          GroupBodyPlain(g, accs);
        }
      }
      Single("$group", Map(GroupBody(g, accs)))
    case SortCall(s) => Single("$sort", s)
    case SkipCall(n) => Single("$skip", Val(PyInt(n)))
    case LimitCall(n) => Single("$limit", Val(PyInt(n)))
  }

  function StagesOf(cs: seq<StageCall>): seq<Doc> {
    seq(|cs|, i requires 0 <= i < |cs| => StageOf(cs[i]))
  }

  /** The call a stage document records, read back from the request. */
  function CallOf(stage: Doc): Option<StageCall> {
    if !stage.Map? || |stage.entries| != 1 then None
    else
      var (op, arg) := stage.entries[0];
      if op == "$match" then Some(MatchCall(arg))
      else if op == "$project" then Some(ProjectCall(arg))
      else if op == "$sort" then Some(SortCall(arg))
      else if op == "$group" then
        if arg.Map? && |arg.entries| > 0 && arg.entries[0].0 == "_id"
        then Some(GroupCall(arg.entries[0].1, arg.entries[1..])) else None
      else if op == "$skip" then
        if arg.Val? && arg.v.PyInt? then Some(SkipCall(arg.v.i)) else None
      else if op == "$limit" then
        if arg.Val? && arg.v.PyInt? then Some(LimitCall(arg.v.i)) else None
      else None
  }

  function CallsOf(stages: seq<Doc>): Option<seq<StageCall>> {
    if stages == [] then Some([])
    else
      match CallOf(stages[0])
      case None => None
      case Some(c) =>
        match CallsOf(stages[1..])
        case None => None
        case Some(cs) => Some([c] + cs)
  }

  /** A call whose stage loses nothing: a group whose accumulators do not shadow `_id`. */
  predicate Recoverable(c: StageCall) {
    c.GroupCall? ==> DistinctKeys(c.accumulators) && !HasKey(c.accumulators, "_id")
  }

  /**
   * For any interleaving of stage calls, the request is the calls in call
   * order: reading the stage list back gives the calls, none reordered,
   * replaced or merged.
   */
  lemma {:induction false} CallsOfStagesOf(cs: seq<StageCall>)
    requires forall i :: 0 <= i < |cs| ==> Recoverable(cs[i])
    ensures CallsOf(StagesOf(cs)) == Some(cs)
  {
    if cs != [] {
      assert StagesOf(cs)[1..] == StagesOf(cs[1..]);
      CallsOfStagesOf(cs[1..]);
      assert [cs[0]] + cs[1..] == cs;
    }
  }

  /** `VellumAggregationPipeline`. */
  class Pipeline {
    const modelCls: ModelClass
    var stages: seq<Doc>
    /** The stage-method calls made so far, in order. */
    ghost var calls: seq<StageCall>

    ghost predicate Valid()
      reads this
    {
      stages == StagesOf(calls)
    }

    /** A new pipeline has no stages. */
    constructor (modelCls: ModelClass)
      ensures Valid() && stages == [] && calls == [] && this.modelCls == modelCls
    {
      this.modelCls := modelCls;
      stages := [];
      calls := [];
    }

    method Push(c: StageCall)
      requires Valid()
      modifies this
      ensures Valid() && calls == old(calls) + [c] && stages == old(stages) + [StageOf(c)]
    {
      stages := stages + [StageOf(c)];
      calls := calls + [c];
    }

    /** `match`: appends `{"$match": query}` and returns the same builder. */
    method Match(query: Doc) returns (self: Pipeline)
      requires Valid()
      modifies this
      ensures Valid() && self == this && calls == old(calls) + [MatchCall(query)]
      ensures stages == old(stages) + [Single("$match", query)]
    {
      Push(MatchCall(query));
      self := this;
    }

    /** `project`: appends `{"$project": projection}`. */
    method Project(projection: Doc) returns (self: Pipeline)
      requires Valid()
      modifies this
      ensures Valid() && self == this && calls == old(calls) + [ProjectCall(projection)]
      ensures stages == old(stages) + [Single("$project", projection)]
    {
      Push(ProjectCall(projection));
      self := this;
    }

    /**
     * `group`: appends `{"$group": {"_id": group_id} updated with the
     * accumulators}` and returns the same builder; an accumulator named
     * `group_id` or `self` fails the call's binding with a TypeError before
     * anything is appended.
     */
    method Group(groupId: Doc, accumulators: Entries) returns (r: Result<Pipeline, Error>)
      requires Valid()
      modifies this
      ensures Valid()
      ensures r.Err? <==> HasKey(accumulators, "group_id") || HasKey(accumulators, "self")
      ensures r.Err? ==> r == Err(TypeError(MultipleValues(ClashingKeyword(accumulators).value)))
                         && calls == old(calls) && stages == old(stages)
      ensures r.Ok? ==> r.value == this && calls == old(calls) + [GroupCall(groupId, accumulators)]
                        && stages == old(stages) + [Single("$group", Map(Update([("_id", groupId)], accumulators)))]
    {
      var clash := ClashingKeyword(accumulators);
      if clash.Some? {
        return Err(TypeError(MultipleValues(clash.value)));
      }
      Push(GroupCall(groupId, accumulators));
      r := Ok(this);
    }

    /** `sort`: appends `{"$sort": sort_fields}`. */
    method Sort(sortFields: Doc) returns (self: Pipeline)
      requires Valid()
      modifies this
      ensures Valid() && self == this && calls == old(calls) + [SortCall(sortFields)]
      ensures stages == old(stages) + [Single("$sort", sortFields)]
    {
      Push(SortCall(sortFields));
      self := this;
    }

    /** `skip`: appends `{"$skip": n}`, `n` unchecked. */
    method Skip(n: int) returns (self: Pipeline)
      requires Valid()
      modifies this
      ensures Valid() && self == this && calls == old(calls) + [SkipCall(n)]
      ensures stages == old(stages) + [Single("$skip", Val(PyInt(n)))]
    {
      Push(SkipCall(n));
      self := this;
    }

    /** `limit`: appends `{"$limit": n}`, `n` unchecked. */
    method Limit(n: int) returns (self: Pipeline)
      requires Valid()
      modifies this
      ensures Valid() && self == this && calls == old(calls) + [LimitCall(n)]
      ensures stages == old(stages) + [Single("$limit", Val(PyInt(n)))]
    {
      Push(LimitCall(n));
      self := this;
    }

    /**
     * `execute`: sends the stage list as it is to the store's aggregate
     * (`run`) and returns its raw documents; the stage list is kept.
     */
    method Execute(run: seq<Doc> -> seq<Doc>) returns (docs: seq<Doc>)
      requires Valid()
      ensures docs == run(stages)
      ensures CallsOf(stages) == Some(calls) || exists i :: 0 <= i < |calls| && !Recoverable(calls[i])
    {
      if forall i :: 0 <= i < |calls| ==> Recoverable(calls[i]) {
        CallsOfStagesOf(calls);
      }
      docs := run(stages);
    }
  }
}
