/**
 * `ApiController`: the generic create/list/get/update/delete handlers every
 * resource controller inherits. Middleware stores a route-nesting filter, an
 * ownership restriction and a role restriction on the controller; the
 * handlers spread them into the conditions of their database calls.
 *
 * The collection behind `_Model` is the sequence `docs`. Running a list query
 * (sorting, paging, populating) is left to the `run` parameter; `findOne`,
 * `findOneAndDelete` and `countDocuments` are evaluated on `docs` with the
 * filter semantics of module `Filters`. The schema's casting, defaults and
 * validators are the `create` and `save` parameters.
 */
module ApiControllers {
  import opened Wrappers
  import opened Json
  import opened AppErrors
  import opened Filters
  import opened ApiFeatures
  import opened Http
  import opened ApiTranslation

  /** `{...a, ...o}` where `o` may be `undefined`. */
  function SpreadOpt(a: Fields, o: Option<Fields>): (r: Fields)
    ensures o.None? ==> r == a
    ensures o.Some? ==> r == Spread(a, o.value)
  {
    if o.None? then a else Spread(a, o.value)
  }

  lemma {:induction false} SetNewKey(fs: Fields, k: string, v: Value)
    requires k !in Keys(fs)
    ensures Set(fs, k, v) == fs + [(k, v)]
  {
    if fs != [] {
      SetNewKey(fs[1..], k, v);
      assert fs == [fs[0]] + fs[1..];
    }
  }

  /** No key of `b` occurs in `a`, and `b` has no key twice. */
  predicate FreshKeys(a: Fields, b: Fields) {
    forall i :: 0 <= i < |b| ==> b[i].0 !in Keys(a) && b[i].0 !in Keys(b[i + 1..])
  }

  /** Spreading an object none of whose keys is already present just appends its entries. */
  lemma {:induction false} SpreadDisjoint(a: Fields, b: Fields)
    requires FreshKeys(a, b)
    ensures Spread(a, b) == a + b
    decreases |b|
  {
    if b != [] {
      SpreadFirst(a, b);
      FreshKeysTail(a, b);
      SpreadDisjoint(a + [b[0]], b[1..]);
      AppendHead(a, b);
    }
  }

  lemma AppendHead(a: Fields, b: Fields)
    requires b != []
    ensures (a + [b[0]]) + b[1..] == a + b
  {
    assert b == [b[0]] + b[1..];
  }

  lemma SpreadFirst(a: Fields, b: Fields)
    requires b != [] && b[0].0 !in Keys(a)
    ensures Spread(a, b) == Spread(a + [b[0]], b[1..])
  {
    SetNewKey(a, b[0].0, b[0].1);
  }

  lemma FreshKeysTail(a: Fields, b: Fields)
    requires b != [] && FreshKeys(a, b)
    ensures FreshKeys(a + [b[0]], b[1..])
  {
    KeysConcat(a, [b[0]]);
    var t := b[1..];
    forall i | 0 <= i < |t| ensures t[i].0 !in Keys(a + [b[0]]) && t[i].0 !in Keys(t[i + 1..]) {
      assert t[i] == b[i + 1];
      assert t[i + 1..] == b[i + 2..];
      KeyAt(t, i);
    }
  }

  lemma {:induction false} KeyAt(fs: Fields, i: nat)
    requires i < |fs|
    ensures fs[i].0 in Keys(fs)
  {
    if i > 0 {
      KeyAt(fs[1..], i - 1);
      assert fs[1..][i - 1] == fs[i];
    }
  }

  // ------------------------------------------------------------- guards

  /** `restrictedTo(...roles)`: pass on exactly when the caller's role is listed, else 403 unAuthorized. */
  function RestrictedTo(tr: ApiTranslation, roles: seq<Value>, user: Fields, lang: Option<Value>): (r: Reply)
    ensures r == Next <==> Get(user, "role").Some? && Get(user, "role").value in roles
    ensures r != Next ==> r == Refuse(tr, lang, "unAuthorized", 403)
  {
    var role := Get(user, "role");
    if !(role.Some? && role.value in roles) then Refuse(tr, lang, "unAuthorized", 403) else Next
  }

  predicate IsAdmin(user: Fields) {
    Get(user, "role") == Some(Str("admin")) || Get(user, "role") == Some(Str("superAdmin"))
  }

  /** The ownership restriction `setUserRestriction` stores for a caller. */
  function OwnershipFor(user: Fields): (r: Option<Fields>)
    requires Get(user, "_id").Some?
    ensures r.None? <==> IsAdmin(user)
    ensures r.Some? ==> r.value == [("_id", Get(user, "_id").value)]
  {
    if IsAdmin(user) then None else Some([("_id", Get(user, "_id").value)])
  }

  /** `{ [resourceName]: req.params[param] }` when that parameter is truthy, else `{}`. */
  function NestedFilter(resourceName: string, param: string, params: Fields): (r: Fields)
    ensures |r| <= 1 && UniqueKeys(r)
  {
    var v := Get(params, param);
    if TruthyOpt(v) then [(resourceName, v.value)] else []
  }

  /** The nested-route filter keeps exactly the documents under the parent named in the route. */
  lemma NestedFilterMeaning(resourceName: string, param: string, params: Fields, doc: Fields, ext: OpOracle)
    requires resourceName != "$and" && resourceName != "$or"
    requires Get(params, param).Some? && Get(params, param).value.Str?
    ensures Matches(doc, NestedFilter(resourceName, param, params), ext)
        <==> (Get(params, param).value.s != "" ==> Get(doc, resourceName) == Get(params, param))
  {
    var v := Get(params, param).value;
    if v.s != "" {
      MatchesEquality(doc, resourceName, v, ext);
    }
  }

  /** `{ ...obj, ...nested }` for one element of a create body; a non-object element contributes no keys. */
  function CreateFields(obj: Value, nested: Option<Fields>): Fields {
    SpreadOpt(if obj.Obj? then obj.fields else [], nested)
  }

  /** The nested-route keys override the client's keys of the same name; every other client key is kept. */
  lemma NestedOverridesClient(obj: Fields, nested: Fields, k: string)
    requires UniqueKeys(nested)
    ensures Get(CreateFields(Obj(obj), Some(nested)), k) == if k in Keys(nested) then Get(nested, k) else Get(obj, k)
  {
    SpreadGet(obj, nested, k);
  }

  /** The documents `Model.create` receives: one per element of an array body, or the single object. */
  function CreateBodies(body: Value, nested: Option<Fields>): (r: seq<Fields>)
    ensures body.Arr? ==> (|r| == |body.items|
      && forall i :: 0 <= i < |body.items| ==> r[i] == CreateFields(body.items[i], nested))
    ensures !body.Arr? ==> r == [CreateFields(body, nested)]
  {
    if body.Arr? then seq(|body.items|, i requires 0 <= i < |body.items| => CreateFields(body.items[i], nested))
    else [CreateFields(body, nested)]
  }

  /** `Model.create` of every document, in order; the first failure is the result. */
  function CreateAll(bodies: seq<Fields>, create: Fields -> Outcome<Fields>): (r: Outcome<seq<Fields>>)
    ensures r.Ok? <==> forall i :: 0 <= i < |bodies| ==> create(bodies[i]).Ok?
    ensures r.Ok? ==> |r.value| == |bodies| && forall i :: 0 <= i < |bodies| ==> r.value[i] == create(bodies[i]).value
    ensures r.Fail? ==> exists i :: 0 <= i < |bodies| && create(bodies[i]) == Fail(r.err)
  {
    if bodies == [] then Ok([])
    else match create(bodies[0])
      case Fail(e) => Fail(e)
      case Ok(d) =>
        match CreateAll(bodies[1..], create)
        case Fail(e) => Fail(e)
        case Ok(ds) => Ok([d] + ds)
  }

  /** The body of a list response. */
  function ListBody(count: nat, page: seq<Fields>): (v: Value)
    ensures v.Obj? && Get(v.fields, "allDocsNumber") == Some(Num(count))
    ensures Get(v.fields, "results") == Some(Num(|page|))
    ensures Get(v.fields, "status") == Some(Str("succes"))
    ensures Get(v.fields, "data") == Some(Obj([("docs", Records(page))]))
    ensures |v.fields| == 4
  {
    var data := ("data", Obj([("docs", Records(page))]));
    var fs := [("status", Str("succes")), ("allDocsNumber", Num(count)), ("results", Num(|page|)), data];
    assert fs[1..][1..][1..] == [data];
    assert Get(fs, "data") == Get(fs[1..], "data") == Get(fs[1..][1..], "data") == Get([data], "data");
    assert Get(fs, "results") == Get(fs[1..], "results") == Get(fs[1..][1..], "results");
    Obj(fs)
  }

  /** The query `getAllDocuments` builds and the filter `filterQuery` holds, or the first builder error. */
  function ListPlan(base: Fields, qs: Fields, defaultSortBy: Option<string>, allowed: Option<Whitelist>,
                    parse: string -> Option<Value>): (r: Outcome<(Query, Fields)>)
    ensures r.Ok? <==> PopulateList(qs, allowed).Ok? && FilterOutcome(qs, parse).Ok?
                       && SortOrder(qs, defaultSortBy).Ok? && Projection(qs).Ok?
    ensures PopulateList(qs, allowed).Fail? ==> r == Fail(PopulateList(qs, allowed).err)
    ensures PopulateList(qs, allowed).Ok? && FilterOutcome(qs, parse).Fail? ==> r == Fail(FilterOutcome(qs, parse).err)
    ensures r.Ok? ==> r.value.1 == FilterOutcome(qs, parse).value
  {
    match PopulateList(qs, allowed)
    case Fail(e) => Fail(e)
    case Ok(ds) =>
      match FilterOutcome(qs, parse)
      case Fail(e) => Fail(e)
      case Ok(f) =>
        match SortOrder(qs, defaultSortBy)
        case Fail(e) => Fail(e)
        case Ok(order) =>
          match Projection(qs)
          case Fail(e) => Fail(e)
          case Ok(p) => Ok((ListQuery(base, ds, f, order, p, Window(qs)), f))
  }

  /** The reply of `getAllDocuments`: a builder error, a database error, or the page and the count of the combined filter. */
  function ListReply(plan: Outcome<(Query, Fields)>, base: Fields, run: Query -> Outcome<seq<Fields>>,
                     docs: seq<Fields>, ext: OpOracle): (r: Reply)
    ensures plan.Fail? ==> r == NextError(plan.err)
    ensures plan.Ok? && run(plan.value.0).Fail? ==> r == NextError(run(plan.value.0).err)
    ensures plan.Ok? && run(plan.value.0).Ok? ==>
      r.Respond? && r.status == 200 && r.body.Obj?
      && Get(r.body.fields, "allDocsNumber") == Some(Num(|Select(docs, Spread(base, plan.value.1), ext)|))
      && Get(r.body.fields, "results") == Some(Num(|run(plan.value.0).value|))
  {
    match plan
    case Fail(e) => NextError(e)
    case Ok((q, f)) =>
      match run(q)
      case Fail(e) => NextError(e)
      case Ok(page) => Respond(200, ListBody(|Select(docs, Spread(base, f), ext)|, page))
  }

  /** The tail `.sort().limitFields().paginate()` of the chain: the sort, the projection and the page window. */
  method ShapeList(features: APIFeatures) returns (err: Option<Err>)
    modifies features`query
    ensures match SortOrder(features.queryString, features.defaultSortBy)
      case Fail(e) => err == Some(e)
      case Ok(order) =>
        match Projection(features.queryString)
        case Fail(e) => err == Some(e)
        case Ok(p) =>
          var w := Window(features.queryString);
          err.None? && features.query.steps == old(features.query.steps) + [SortBy(order), Project(p), Skip(w.0), Limit(w.1)]
  {
    err := features.Sort();
    if err.Some? {
      return;
    }
    err := features.LimitFields();
    if err.Some? {
      return;
    }
    features.Paginate();
  }

  /** The head `new APIFeatures(find(base), qs, ...).populateFields().filter()` of the chain. */
  method StartList(base: Fields, qs: Fields, defaultSortBy: Option<string>, allowed: Option<Whitelist>,
                   parse: string -> Option<Value>) returns (features: APIFeatures, err: Option<Err>)
    ensures fresh(features)
    ensures features.queryString == qs && features.defaultSortBy == defaultSortBy
    ensures match PopulateList(qs, allowed)
      case Fail(e) => err == Some(e)
      case Ok(ds) =>
        match FilterOutcome(qs, parse)
        case Fail(e) => err == Some(e)
        case Ok(f) => err.None? && features.filterQuery == Some(f)
                      && features.query.steps == [Find(base)] + PopulateSteps(ds) + [Find(f)]
  {
    features := new APIFeatures(Query([Find(base)]), qs, defaultSortBy, allowed);
    err := features.PopulateFields();
    if err.Some? {
      return;
    }
    err := features.Filter(parse);
  }

  /** `new APIFeatures(find(base), qs, ...).populateFields().filter().sort().limitFields().paginate()`. */
  method BuildListQuery(base: Fields, qs: Fields, defaultSortBy: Option<string>, allowed: Option<Whitelist>,
                        parse: string -> Option<Value>) returns (plan: Outcome<(Query, Fields)>)
    ensures plan == ListPlan(base, qs, defaultSortBy, allowed, parse)
  {
    var features, err := StartList(base, qs, defaultSortBy, allowed, parse);
    if err.Some? {
      return Fail(err.value);
    }
    err := ShapeList(features);
    if err.Some? {
      return Fail(err.value);
    }
    ghost var ds := PopulateList(qs, allowed).value;
    ghost var f := FilterOutcome(qs, parse).value;
    ghost var order := SortOrder(qs, defaultSortBy).value;
    ghost var p := Projection(qs).value;
    ListQueryParts(base, ds, f, order, p, Window(qs));
    plan := Ok((features.query, features.filterQuery.value));
  }

  lemma ListQueryParts(base: Fields, ds: seq<PopulateDirective>, f: Fields, order: Option<string>, p: string,
                       w: (int, int))
    ensures ListQuery(base, ds, f, order, p, w).steps
         == [Find(base)] + PopulateSteps(ds) + [Find(f)] + [SortBy(order), Project(p), Skip(w.0), Limit(w.1)]
  {
    var tail := [SortBy(order), Project(p), Skip(w.0), Limit(w.1)];
    assert [Find(f), SortBy(order), Project(p), Skip(w.0), Limit(w.1)] == [Find(f)] + tail;
    var head := [Find(base)] + PopulateSteps(ds);
    assert head + ([Find(f)] + tail) == head + [Find(f)] + tail;
  }

  /** The calls `getAllDocuments` makes on the query: find, populate, find, sort, select, skip, limit. */
  function ListQuery(base: Fields, ds: seq<PopulateDirective>, f: Fields, order: Option<string>, p: string,
                     w: (int, int)): (q: Query)
    ensures |q.steps| == |ds| + 6
    ensures q.steps[0] == Find(base) && q.steps[1..|ds| + 1] == PopulateSteps(ds)
    ensures q.steps[|ds| + 1..] == [Find(f), SortBy(order), Project(p), Skip(w.0), Limit(w.1)]
  {
    Query([Find(base)] + PopulateSteps(ds) + [Find(f), SortBy(order), Project(p), Skip(w.0), Limit(w.1)])
  }

  /**
   * Without a `filter` parameter the count covers exactly the documents that
   * satisfy the restrictions and every entry of the query object: the
   * grammar's filter has only the key `$and`, so spreading it onto the
   * restrictions adds a clause and overrides none.
   */
  lemma CountMeansConjunction(base: Fields, qs: Fields, parse: string -> Option<Value>, doc: Fields, ext: OpOracle)
    requires !TruthyOpt(Get(qs, "filter"))
    requires "$and" !in Keys(base)
    ensures FilterOutcome(qs, parse).Ok?
    ensures var es := FilterEntries(qs);
      Matches(doc, Spread(base, FilterOutcome(qs, parse).value), ext) <==>
        (Matches(doc, base, ext) && forall i :: 0 <= i < |es| ==> EntryHolds(doc, es[i].0, es[i].1, ext))
  {
    var f := FilterOutcome(qs, parse).value;
    GrammarFilterKeys(qs, parse);
    AndKeysFresh(base, f);
    SpreadDisjoint(base, f);
    assert Spread(base, f) == base + f;
    MatchesConcat(doc, base, f, ext);
    GrammarFilterMeaning(qs, parse, doc, ext);
  }

  /** Without a verbatim `filter`, the parsed filter is empty or holds `$and` alone. */
  lemma GrammarFilterKeys(qs: Fields, parse: string -> Option<Value>)
    requires !TruthyOpt(Get(qs, "filter"))
    ensures FilterOutcome(qs, parse).Ok?
    ensures Keys(FilterOutcome(qs, parse).value) == [] || Keys(FilterOutcome(qs, parse).value) == ["$and"]
  {
    var f := FilterOutcome(qs, parse).value;
    assert f == [] || (|f| == 1 && f[0].0 == "$and");
  }

  /** An object whose only key is `$and`, or that is empty, brings no key of `a` along. */
  lemma AndKeysFresh(a: Fields, f: Fields)
    requires "$and" !in Keys(a) && (Keys(f) == [] || Keys(f) == ["$and"])
    ensures FreshKeys(a, f)
  {
    if f != [] {
      assert Keys(f)[0] == f[0].0;
      assert Keys(f[1..]) == [];
    }
  }

  /** With a verbatim `filter`, a key it shares with the restrictions replaces the restriction in the count. */
  lemma VerbatimFilterOverridesInCount(base: Fields, f: Fields, k: string)
    requires UniqueKeys(f) && k in Keys(f)
    ensures Get(Spread(base, f), k) == Get(f, k)
  {
    SpreadGet(base, f, k);
  }

  /** `findOne(filter)` / `findOneAndDelete(filter)` on the collection. */
  function FindIn(docs: seq<Fields>, filter: Fields, ext: OpOracle): Option<nat> {
    FindFirst(docs, filter, ext)
  }

  /** `{ _id: id, ...ownership }`: an ownership restriction replaces the requested id by the caller's. */
  lemma OwnershipReplacesRequestedId(id: Value, ownId: Value)
    ensures SpreadOpt([("_id", id)], Some([("_id", ownId)])) == [("_id", ownId)]
  {
    var b := [("_id", ownId)];
    assert Set([("_id", id)], "_id", ownId) == b;
    assert Spread([("_id", id)], b) == Spread(b, []);
  }

  class ApiController {
    /** The collection behind `_Model`. */
    var docs: seq<Fields>
    var nestedRouteFilter: Option<Fields>
    var userRestriction: Option<Fields>
    var rolesRestriction: Option<Fields>
    const defaultSortBy: Option<string>
    const allowedPopulatePaths: Option<Whitelist>
    /** The `apiTranslation` instance the messages come from. */
    const translation: ApiTranslation

    constructor(docs: seq<Fields>, defaultSortBy: Option<string>, allowedPopulatePaths: Option<Whitelist>,
                translation: ApiTranslation)
      ensures this.docs == docs && this.defaultSortBy == defaultSortBy
      ensures this.allowedPopulatePaths == allowedPopulatePaths && this.translation == translation
      ensures nestedRouteFilter.None? && userRestriction.None? && rolesRestriction.None?
    {
      this.docs := docs;
      this.defaultSortBy := defaultSortBy;
      this.allowedPopulatePaths := allowedPopulatePaths;
      this.translation := translation;
      nestedRouteFilter := None;
      userRestriction := None;
      rolesRestriction := None;
    }

    /** `{ ...nested, ...ownership, ...roles }`. */
    function Restrictions(): Fields
      reads this
    {
      SpreadOpt(SpreadOpt(SpreadOpt([], nestedRouteFilter), userRestriction), rolesRestriction)
    }

    /** `setUserRestriction`: no restriction for admins, the caller's own id otherwise; it never calls next. */
    method SetUserRestriction(user: Fields) returns (reply: Reply)
      requires Get(user, "_id").Some?
      modifies this`userRestriction
      ensures userRestriction == OwnershipFor(user)
      ensures reply == Silent
    {
      if Get(user, "role") == Some(Str("admin")) || Get(user, "role") == Some(Str("superAdmin")) {
        userRestriction := None;
      } else {
        userRestriction := Some([("_id", Get(user, "_id").value)]);
      }
      reply := Silent;
    }

    /** `setNestedRouteFilter(resourceName, param)` applied to a request. */
    method SetNestedRouteFilter(resourceName: string, param: string, params: Fields) returns (reply: Reply)
      modifies this`nestedRouteFilter
      ensures nestedRouteFilter == Some(NestedFilter(resourceName, param, params))
      ensures TruthyOpt(Get(params, param)) ==> Get(nestedRouteFilter.value, resourceName) == Get(params, param)
      ensures !TruthyOpt(Get(params, param)) ==> nestedRouteFilter == Some([])
      ensures reply == Next
    {
      var v := Get(params, param);
      if TruthyOpt(v) {
        nestedRouteFilter := Some([(resourceName, v.value)]);
      } else {
        nestedRouteFilter := Some([]);
      }
      reply := Next;
    }

    /** `_restrictedFieldsForUpdate(obj, ...restrictedFields)`. */
    method RestrictedFieldsForUpdate(obj: Fields, restrictedFields: seq<string>) returns (error: bool)
      ensures error <==> exists k :: k in Keys(obj) && k in restrictedFields
    {
      error := false;
      var keys := Keys(obj);
      var i := 0;
      while i < |keys|
        invariant 0 <= i <= |keys|
        invariant error <==> exists j :: 0 <= j < i && keys[j] in restrictedFields
      {
        if keys[i] in restrictedFields {
          error := true;
        }
        i := i + 1;
      }
    }

    /** `createOne`: the nested-route filter is merged into the body (or each element), then created; 201. */
    method CreateOne(body: Value, create: Fields -> Outcome<Fields>) returns (reply: Reply)
      modifies this`docs
      ensures match CreateAll(CreateBodies(body, nestedRouteFilter), create)
        case Fail(e) => reply == NextError(e) && docs == old(docs)
        case Ok(made) =>
          docs == old(docs) + made
          && reply == Respond(201, Envelope("succes", Obj([("newDocument", if body.Arr? then Records(made) else Obj(made[0]))])))
    {
      var bodies := CreateBodies(body, nestedRouteFilter);
      var made: seq<Fields> := [];
      var i := 0;
      while i < |bodies|
        invariant 0 <= i <= |bodies|
        invariant CreateAll(bodies[..i], create) == Ok(made)
        invariant docs == old(docs)
      {
        var r := create(bodies[i]);
        if r.Fail? {
          CreateAllPrefixFail(bodies, i, create);
          return NextError(r.err);
        }
        CreateAllStep(bodies, i, create, made);
        made := made + [r.value];
        i := i + 1;
      }
      assert bodies[..i] == bodies;
      docs := docs + made;
      reply := Respond(201, Envelope("succes", Obj([("newDocument", if body.Arr? then Records(made) else Obj(made[0]))])));
    }

    /** `getAllDocuments`. */
    method GetAllDocuments(req: Request, parse: string -> Option<Value>, run: Query -> Outcome<seq<Fields>>, ext: OpOracle)
      returns (reply: Reply)
      ensures reply == ListReply(ListPlan(Restrictions(), req.QueryObject(), defaultSortBy, allowedPopulatePaths, parse),
                                 Restrictions(), run, docs, ext)
    {
      var base := Restrictions();
      var plan := BuildListQuery(base, req.QueryObject(), defaultSortBy, allowedPopulatePaths, parse);
      if plan.Fail? {
        return NextError(plan.err);
      }
      var (q, f) := plan.value;
      var page := run(q);
      if page.Fail? {
        return NextError(page.err);
      }
      var combined := Spread(base, f);
      reply := Respond(200, ListBody(|Select(docs, combined, ext)|, page.value));
    }

    /**
     * `getOne`: `_id` and the ownership restriction only; a 400 CastError
     * when the `_id` that takes effect is no ObjectId, 404 noDocument when
     * nothing matches.
     */
    method GetOne(req: Request, ext: OpOracle, isObjectId: string -> bool) returns (reply: Reply)
      requires Get(req.params, "id").Some?
      ensures PopulateList(req.QueryObject(), allowedPopulatePaths).Fail? ==>
        reply == NextError(PopulateList(req.QueryObject(), allowedPopulatePaths).err)
      ensures var cast := IdCastError(SpreadOpt([("_id", Get(req.params, "id").value)], userRestriction), isObjectId);
        PopulateList(req.QueryObject(), allowedPopulatePaths).Ok? && cast.Some? ==> reply == NextError(cast.value)
      ensures var filter := SpreadOpt([("_id", Get(req.params, "id").value)], userRestriction);
        var found := FindIn(docs, filter, ext);
        PopulateList(req.QueryObject(), allowedPopulatePaths).Ok? && IdCastError(filter, isObjectId).None? ==>
          (found.None? ==> reply == Refuse(translation, req.Lang(), "noDocument", 404))
          && (found.Some? ==>
                found.value < |docs| && reply == RespondThenNext(200, Envelope("success", Obj([("doc", Obj(docs[found.value]))]))))
    {
      var filter := SpreadOpt([("_id", Get(req.params, "id").value)], userRestriction);
      var features := new APIFeatures(Query([FindOne(filter)]), req.QueryObject(), None, allowedPopulatePaths);
      var err := features.PopulateFields();
      if err.Some? {
        return NextError(err.value);
      }
      var cast := IdCastError(filter, isObjectId);
      if cast.Some? {
        return NextError(cast.value);
      }
      var found := FindIn(docs, filter, ext);
      if found.None? {
        return Refuse(translation, req.Lang(), "noDocument", 404);
      }
      reply := RespondThenNext(200, Envelope("success", Obj([("doc", Obj(docs[found.value]))])));
    }

    /** The conditions of `updateOne` and `deleteOne`: `_id`, ownership and role restriction. */
    function TargetFilter(id: Value): Fields
      reads this
    {
      SpreadOpt(SpreadOpt([("_id", id)], userRestriction), rolesRestriction)
    }

    /**
     * `updateOne`: find, shallow-assign every body key, save; a 400
     * CastError for an `_id` that is no ObjectId, 404 noDocument when
     * nothing matches.
     */
    method UpdateOne(req: Request, body: Fields, save: Fields -> Outcome<Fields>, ext: OpOracle, isObjectId: string -> bool)
      returns (reply: Reply)
      requires Get(req.params, "id").Some?
      modifies this`docs
      ensures var cast := IdCastError(TargetFilter(Get(req.params, "id").value), isObjectId);
        cast.Some? ==> reply == NextError(cast.value) && docs == old(docs)
      ensures IdCastError(TargetFilter(Get(req.params, "id").value), isObjectId).None? ==>
        match FindIn(old(docs), TargetFilter(Get(req.params, "id").value), ext)
        case None => reply == Refuse(translation, req.Lang(), "noDocument", 404) && docs == old(docs)
        case Some(i) =>
          i < |old(docs)| &&
          match save(Spread(old(docs)[i], body))
          case Fail(e) => reply == NextError(e) && docs == old(docs)
          case Ok(d) => docs == old(docs)[i := d] && reply == Respond(200, Envelope("success", Obj([("doc", Obj(d))])))
    {
      var cast := IdCastError(TargetFilter(Get(req.params, "id").value), isObjectId);
      if cast.Some? {
        return NextError(cast.value);
      }
      var found := FindIn(docs, TargetFilter(Get(req.params, "id").value), ext);
      if found.None? {
        return Refuse(translation, req.Lang(), "noDocument", 404);
      }
      var i := found.value;
      var merged := Spread(docs[i], body);
      var saved := save(merged);
      if saved.Fail? {
        return NextError(saved.err);
      }
      docs := docs[i := saved.value];
      reply := Respond(200, Envelope("success", Obj([("doc", Obj(saved.value))])));
    }

    /**
     * `deleteOne`: remove the first document matching `_id`, ownership and
     * role; a 400 CastError for an `_id` that is no ObjectId, 404
     * noDocument when nothing matches.
     */
    method DeleteOne(req: Request, ext: OpOracle, isObjectId: string -> bool) returns (reply: Reply)
      requires Get(req.params, "id").Some?
      modifies this`docs
      ensures var cast := IdCastError(TargetFilter(Get(req.params, "id").value), isObjectId);
        cast.Some? ==> reply == NextError(cast.value) && docs == old(docs)
      ensures IdCastError(TargetFilter(Get(req.params, "id").value), isObjectId).None? ==>
        match FindIn(old(docs), TargetFilter(Get(req.params, "id").value), ext)
        case None => reply == Refuse(translation, req.Lang(), "noDocument", 404) && docs == old(docs)
        case Some(i) => i < |old(docs)| && docs == old(docs)[..i] + old(docs)[i + 1..] && reply == Respond(204, NoContent)
    {
      var cast := IdCastError(TargetFilter(Get(req.params, "id").value), isObjectId);
      if cast.Some? {
        return NextError(cast.value);
      }
      var found := FindIn(docs, TargetFilter(Get(req.params, "id").value), ext);
      if found.None? {
        return Refuse(translation, req.Lang(), "noDocument", 404);
      }
      docs := docs[..found.value] + docs[found.value + 1..];
      reply := Respond(204, NoContent);
    }

    /** `deleteAll`: every document goes, whatever the restrictions. */
    method DeleteAll() returns (reply: Reply)
      modifies this`docs
      ensures docs == [] && reply == Respond(204, NoContent)
    {
      docs := [];
      reply := Respond(204, NoContent);
    }
  }

  /**
   * The CastError Mongoose raises when it runs a query whose `_id`
   * condition is a string that is no ObjectId (`isObjectId` being its test);
   * the error handler answers it 400 "Invalid _id: <value>.".
   */
  function IdCastError(filter: Fields, isObjectId: string -> bool): (r: Option<Err>)
    ensures r.Some? <==> Get(filter, "_id").Some? && Get(filter, "_id").value.Str? && !isObjectId(Get(filter, "_id").value.s)
    ensures r.Some? ==> r.value == CastError("_id", Get(filter, "_id").value.s)
  {
    match Get(filter, "_id")
    case Some(Str(s)) => if isObjectId(s) then None else Some(CastError("_id", s))
    case _ => None
  }

  /** An administrator asking for an id that is no ObjectId gets the CastError, not 404. */
  lemma AdminInvalidIdIsCastError(id: string, isObjectId: string -> bool)
    requires !isObjectId(id)
    ensures IdCastError(SpreadOpt([("_id", Str(id))], None), isObjectId) == Some(CastError("_id", id))
  {
  }

  /** For anyone else the ownership restriction's `_id` replaces the requested one, so only the caller's own id is cast. */
  lemma OwnIdIsCast(id: Value, user: Fields, isObjectId: string -> bool)
    requires Get(user, "_id").Some? && !IsAdmin(user)
    ensures IdCastError(SpreadOpt([("_id", id)], OwnershipFor(user)), isObjectId)
         == IdCastError([("_id", Get(user, "_id").value)], isObjectId)
  {
    OwnershipReplacesRequestedId(id, Get(user, "_id").value);
  }

  lemma CreateAllPrefixFail(bodies: seq<Fields>, i: nat, create: Fields -> Outcome<Fields>)
    requires i < |bodies| && create(bodies[i]).Fail?
    requires CreateAll(bodies[..i], create).Ok?
    ensures CreateAll(bodies, create) == Fail(create(bodies[i]).err)
  {
    if i > 0 {
      assert bodies[..i][1..] == bodies[1..][..i - 1];
      CreateAllPrefixFail(bodies[1..], i - 1, create);
    }
  }

  lemma CreateAllStep(bodies: seq<Fields>, i: nat, create: Fields -> Outcome<Fields>, made: seq<Fields>)
    requires i < |bodies| && create(bodies[i]).Ok?
    requires CreateAll(bodies[..i], create) == Ok(made)
    ensures CreateAll(bodies[..i + 1], create) == Ok(made + [create(bodies[i]).value])
  {
    if i > 0 {
      var pre, pre' := bodies[..i], bodies[..i + 1];
      assert pre[0] == bodies[0] && pre'[0] == bodies[0];
      assert pre[1..] == bodies[1..][..i - 1];
      assert pre'[1..] == bodies[1..][..i];
      var d0 := create(bodies[0]).value;
      var rest := CreateAll(pre[1..], create).value;
      assert made == [d0] + rest;
      CreateAllStep(bodies[1..], i - 1, create, rest);
      assert bodies[1..][i - 1] == bodies[i];
      assert CreateAll(pre', create) == Ok([d0] + (rest + [create(bodies[i]).value]));
      assert [d0] + (rest + [create(bodies[i]).value]) == made + [create(bodies[i]).value];
    } else {
      assert bodies[..0] == [];
      var one := bodies[..1];
      assert one == [bodies[0]] && one[1..] == [];
      assert CreateAll(one[1..], create) == Ok([]);
      var d := create(bodies[0]).value;
      assert create(one[0]) == Ok(d);
      assert [d] + [] == [d];
      assert CreateAll(one, create) == Ok([d]);
      assert CreateAll(bodies[..0], create) == Ok([]);
      assert made == [] && made + [d] == [d];
    }
  }

  /** A deletion removes exactly one document, one that satisfies the filter, and keeps the order of the rest. */
  lemma DeleteRemovesOneMatch(docs: seq<Fields>, filter: Fields, ext: OpOracle)
    requires FindIn(docs, filter, ext).Some?
    ensures var i := FindIn(docs, filter, ext).value;
      var rest := docs[..i] + docs[i + 1..];
      |rest| == |docs| - 1 && Matches(docs[i], filter, ext)
      && multiset(rest) + multiset{docs[i]} == multiset(docs)
  {
    var i := FindIn(docs, filter, ext).value;
    assert docs == docs[..i] + [docs[i]] + docs[i + 1..];
  }
}
