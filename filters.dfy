/**
 * What a Mongo-style filter object means for one stored document: every
 * top-level entry must hold; `$and` and `$or` take lists of sub-filters; a
 * field's condition is a plain value (equality) or an operator object.
 * `$in`, `$nin`, `$eq` and `$ne` are spelled out; every other operator
 * (`$gt`, `$regex`, ... with the schema's casts) is decided by an oracle.
 */
module Filters {
  import opened Wrappers
  import opened Json

  /** The database's verdict on operator `op` of operator object `cond` for the stored field value. */
  type OpOracle = (string, Option<Value>, Value) -> bool

  predicate StartsWithDollar(k: string) {
    |k| > 0 && k[0] == '$'
  }

  /** `{ $gte: 5, $lt: 9 }`: a non-empty object whose keys are all operators. */
  predicate IsOperatorObject(c: Value) {
    c.Obj? && |c.fields| > 0 && forall i :: 0 <= i < |c.fields| ==> StartsWithDollar(c.fields[i].0)
  }

  predicate OpHolds(op: string, v: Option<Value>, arg: Value, cond: Value, ext: OpOracle) {
    if op == "$eq" then v == Some(arg)
    else if op == "$ne" then v != Some(arg)
    else if op == "$in" then arg.Arr? && v.Some? && v.value in arg.items
    else if op == "$nin" then arg.Arr? && !(v.Some? && v.value in arg.items)
    else ext(op, v, cond)
  }

  /** The condition `cond` on a field whose stored value is `v` (`None`: the field is absent). */
  predicate FieldHolds(v: Option<Value>, cond: Value, ext: OpOracle) {
    if IsOperatorObject(cond) then
      forall i :: 0 <= i < |cond.fields| ==> OpHolds(cond.fields[i].0, v, cond.fields[i].1, cond, ext)
    else v == Some(cond)
  }

  /** The document satisfies the filter object `f`. */
  predicate MatchesObj(doc: Fields, f: Value, ext: OpOracle)
    decreases f, 1
  {
    f.Obj? && forall i :: 0 <= i < |f.fields| ==> ClauseHolds(doc, f, i, ext)
  }

  /** Entry `i` of filter object `f` holds of the document. */
  predicate ClauseHolds(doc: Fields, f: Value, i: nat, ext: OpOracle)
    requires f.Obj? && i < |f.fields|
    decreases f, 0
  {
    var (k, c) := f.fields[i];
    if k == "$and" then
      c.Arr? && |c.items| > 0 && forall j :: 0 <= j < |c.items| ==> MatchesObj(doc, c.items[j], ext)
    else if k == "$or" then
      c.Arr? && exists j :: 0 <= j < |c.items| && MatchesObj(doc, c.items[j], ext)
    else FieldHolds(Get(doc, k), c, ext)
  }

  predicate Matches(doc: Fields, filter: Fields, ext: OpOracle) {
    MatchesObj(doc, Obj(filter), ext)
  }

  /** The documents of `docs` that satisfy the filter, in store order. */
  function Select(docs: seq<Fields>, filter: Fields, ext: OpOracle): (r: seq<Fields>)
    ensures |r| <= |docs|
    ensures forall d :: d in r <==> d in docs && Matches(d, filter, ext)
  {
    if docs == [] then []
    else (if Matches(docs[0], filter, ext) then [docs[0]] else []) + Select(docs[1..], filter, ext)
  }

  /** The first document satisfying the filter (`findOne`). */
  function FindFirst(docs: seq<Fields>, filter: Fields, ext: OpOracle): (r: Option<nat>)
    ensures r.None? <==> forall i :: 0 <= i < |docs| ==> !Matches(docs[i], filter, ext)
    ensures r.Some? ==> (r.value < |docs| && Matches(docs[r.value], filter, ext)
                         && forall i :: 0 <= i < r.value ==> !Matches(docs[i], filter, ext))
  {
    if docs == [] then None
    else if Matches(docs[0], filter, ext) then Some(0)
    else match FindFirst(docs[1..], filter, ext)
      case None => None
      case Some(i) => Some(i + 1)
  }

  /** The empty filter `{}` matches every document. */
  lemma EmptyMatchesAll(doc: Fields, ext: OpOracle)
    ensures Matches(doc, [], ext)
  {
  }

  /** Putting two filter objects side by side asks for both. */
  lemma {:induction false} MatchesConcat(doc: Fields, a: Fields, b: Fields, ext: OpOracle)
    ensures Matches(doc, a + b, ext) <==> Matches(doc, a, ext) && Matches(doc, b, ext)
  {
    var ab := a + b;
    forall i | 0 <= i < |a| ensures ClauseHolds(doc, Obj(ab), i, ext) == ClauseHolds(doc, Obj(a), i, ext) {
      assert ab[i] == a[i];
    }
    forall i | 0 <= i < |b| ensures ClauseHolds(doc, Obj(ab), |a| + i, ext) == ClauseHolds(doc, Obj(b), i, ext) {
      assert ab[|a| + i] == b[i];
    }
    if Matches(doc, ab, ext) {
      forall i | 0 <= i < |a| ensures ClauseHolds(doc, Obj(a), i, ext) {
        assert ClauseHolds(doc, Obj(ab), i, ext);
      }
      forall i | 0 <= i < |b| ensures ClauseHolds(doc, Obj(b), i, ext) {
        assert ClauseHolds(doc, Obj(ab), |a| + i, ext);
      }
      assert MatchesObj(doc, Obj(a), ext) && MatchesObj(doc, Obj(b), ext);
    }
    if Matches(doc, a, ext) && Matches(doc, b, ext) {
      forall i | 0 <= i < |ab| ensures ClauseHolds(doc, Obj(ab), i, ext) {
        if i >= |a| {
          assert ClauseHolds(doc, Obj(b), i - |a|, ext);
        } else {
          assert ClauseHolds(doc, Obj(a), i, ext);
        }
      }
      assert MatchesObj(doc, Obj(ab), ext);
    }
  }

  /** `{ $and: groups }` holds exactly when the list is non-empty and every group holds. */
  lemma MatchesAnd(doc: Fields, groups: seq<Value>, ext: OpOracle)
    ensures Matches(doc, [("$and", Arr(groups))], ext)
        <==> |groups| > 0 && forall j :: 0 <= j < |groups| ==> MatchesObj(doc, groups[j], ext)
  {
    assert ClauseHolds(doc, Obj([("$and", Arr(groups))]), 0, ext)
        <==> |groups| > 0 && forall j :: 0 <= j < |groups| ==> MatchesObj(doc, groups[j], ext);
  }

  /** `{ $or: groups }` holds exactly when some group holds. */
  lemma MatchesOr(doc: Fields, groups: seq<Value>, ext: OpOracle)
    ensures Matches(doc, [("$or", Arr(groups))], ext)
        <==> exists j :: 0 <= j < |groups| && MatchesObj(doc, groups[j], ext)
  {
    assert ClauseHolds(doc, Obj([("$or", Arr(groups))]), 0, ext)
        <==> exists j :: 0 <= j < |groups| && MatchesObj(doc, groups[j], ext);
  }

  /** A one-entry filter on an ordinary key with a plain value is an equality test. */
  lemma MatchesEquality(doc: Fields, k: string, c: Value, ext: OpOracle)
    requires k != "$and" && k != "$or" && !IsOperatorObject(c)
    ensures Matches(doc, [(k, c)], ext) <==> Get(doc, k) == Some(c)
  {
    assert ClauseHolds(doc, Obj([(k, c)]), 0, ext) <==> Get(doc, k) == Some(c);
  }
}
