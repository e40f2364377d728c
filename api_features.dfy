/**
 * `APIFeatures`: turns the parsed query string of a list request into the
 * directives of a database query — the filter, the sort order, the
 * projection, the page window and the populate directives.
 *
 * The query being built is recorded as the list of builder calls made on it,
 * in order. The JavaScript coercions the class relies on (`String(x)`, `+x`)
 * are spelled out for the values a query string can hold.
 */
module ApiFeatures {
  import opened Wrappers
  import opened Strings
  import opened Json
  import opened AppErrors
  import opened Filters
  import opened Coercions

  // ---------------------------------------------------------------- queries

  /** One builder call on a database query. */
  datatype QueryStep =
    | Find(conditions: Fields)
    | FindOne(conditions: Fields)
    | Populate(path: string, select: string)
    | SortBy(order: Option<string>)
    | Project(fields: string)
    | Skip(n: int)
    | Limit(n: int)

  /** A query under construction: the calls made on it so far. */
  datatype Query = Query(steps: seq<QueryStep>) {
    function Then(s: QueryStep): Query {
      Query(steps + [s])
    }
  }

  /** `+v || fallback`: `NaN` and 0 give the fallback. */
  function NumberOr(v: Option<Value>, fallback: int): (r: int)
    ensures r == fallback || r != 0
    ensures ToNumber(v).NaN? ==> r == fallback
    ensures ToNumber(v) == Int(0) ==> r == fallback
    ensures ToNumber(v).Int? && ToNumber(v).i != 0 ==> r == ToNumber(v).i
  {
    match ToNumber(v)
    case NaN => fallback
    case Int(i) => if i == 0 then fallback else i
  }

  // --------------------------------------------- operator words get a `$`

  predicate IsWordChar(c: char) {
    ('a' <= c <= 'z') || ('A' <= c <= 'Z') || ('0' <= c <= '9') || c == '_'
  }

  /** The length of the run of word characters `s` starts with. */
  function WordRun(s: string): (n: nat)
    ensures n <= |s|
    ensures forall i :: 0 <= i < n ==> IsWordChar(s[i])
    ensures n < |s| ==> !IsWordChar(s[n])
  {
    if s == [] || !IsWordChar(s[0]) then 0 else 1 + WordRun(s[1..])
  }

  const OperatorWords: seq<string> := ["gt", "gte", "lt", "lte", "eq", "regex"]

  /**
   * `.replace(/\b(gt|gte|lt|lte|eq|regex)\b/g, m => "$" + m)` on one string:
   * every maximal run of word characters that spells an operator word gets a
   * `$` in front of it.
   */
  function PrefixOperators(s: string): (r: string)
    ensures |s| <= |r|
    ensures r == [] <==> s == []
    decreases |s|
  {
    if s == [] then []
    else if IsWordChar(s[0]) then
      var n := WordRun(s);
      var w := s[..n];
      (if w in OperatorWords then "$" + w else w) + PrefixOperators(s[n..])
    else [s[0]] + PrefixOperators(s[1..])
  }

  /** `s` with every `$` removed. */
  function WithoutDollars(s: string): (r: string) {
    if s == [] then [] else (if s[0] == '$' then [] else [s[0]]) + WithoutDollars(s[1..])
  }

  lemma {:induction false} WithoutDollarsConcat(a: string, b: string)
    ensures WithoutDollars(a + b) == WithoutDollars(a) + WithoutDollars(b)
    decreases |a|
  {
    if a == [] {
      assert a + b == b;
    } else {
      WithoutDollarsConcat(a[1..], b);
      var h := if a[0] == '$' then [] else [a[0]];
      assert (a + b)[0] == a[0];
      assert (a + b)[1..] == a[1..] + b;
      assert WithoutDollars(a + b) == h + WithoutDollars(a[1..] + b);
      assert WithoutDollars(a) == h + WithoutDollars(a[1..]);
    }
  }

  /** Gluing pieces that agree once their `$` are erased gives strings that agree. */
  lemma DollarFreeConcat(t: string, w: string, u: string, v: string)
    requires WithoutDollars(t) == WithoutDollars(w) && WithoutDollars(u) == WithoutDollars(v)
    ensures WithoutDollars(t + u) == WithoutDollars(w + v)
  {
    WithoutDollarsConcat(t, u);
    WithoutDollarsConcat(w, v);
  }

  /** Tagging a word with `$` changes nothing once `$` are erased. */
  lemma TaggedWord(w: string)
    requires forall i :: 0 <= i < |w| ==> IsWordChar(w[i])
    ensures WithoutDollars(if w in OperatorWords then "$" + w else w) == WithoutDollars(w)
  {
    WithoutDollarsConcat("$", w);
  }

  /** The rewriting only ever inserts `$` characters: erase them and the input is back. */
  lemma {:induction false} PrefixOnlyInsertsDollars(s: string)
    ensures WithoutDollars(PrefixOperators(s)) == WithoutDollars(s)
    decreases |s|
  {
    if s != [] {
      if IsWordChar(s[0]) {
        var n := WordRun(s);
        var w := s[..n];
        PrefixOnlyInsertsDollars(s[n..]);
        TaggedWord(w);
        DollarFreeConcat(if w in OperatorWords then "$" + w else w, w, PrefixOperators(s[n..]), s[n..]);
        assert s == w + s[n..];
      } else {
        PrefixOnlyInsertsDollars(s[1..]);
        DollarFreeConcat([s[0]], [s[0]], PrefixOperators(s[1..]), s[1..]);
        assert s == [s[0]] + s[1..];
      }
    }
  }

  predicate IsWord(w: string) {
    w != [] && forall i :: 0 <= i < |w| ==> IsWordChar(w[i])
  }

  lemma {:induction false} WordRunOfWord(w: string, rest: string)
    requires IsWord(w) && (rest == [] || !IsWordChar(rest[0]))
    ensures WordRun(w + rest) == |w|
    decreases |w|
  {
    assert (w + rest)[0] == w[0];
    assert (w + rest)[1..] == w[1..] + rest;
    if |w| > 1 {
      WordRunOfWord(w[1..], rest);
    } else {
      assert w[1..] + rest == rest;
    }
  }

  /** A whole word followed by a non-word character (or the end) is rewritten on its own. */
  lemma PrefixWord(w: string, rest: string)
    requires IsWord(w) && (rest == [] || !IsWordChar(rest[0]))
    ensures PrefixOperators(w + rest) == (if w in OperatorWords then "$" + w else w) + PrefixOperators(rest)
  {
    WordRunOfWord(w, rest);
    assert (w + rest)[0] == w[0];
    assert (w + rest)[..|w|] == w;
    assert (w + rest)[|w|..] == rest;
  }

  /** An operator word on its own gets the `$`: `gte` becomes `$gte`. */
  lemma PrefixOperatorWord()
    ensures PrefixOperators("gte") == "$gte"
  {
    PrefixWord("gte", []);
    assert "gte" + [] == "gte";
  }

  /** Whole words only: `gtex` stays as it is. */
  lemma LongerWordUntouched()
    ensures PrefixOperators("gtex") == "gtex"
  {
    PrefixWord("gtex", []);
    assert "gtex" + [] == "gtex";
  }

  /** `_` is a word character, so `price_gte` stays as it is. */
  lemma UnderscoreJoinsWords()
    ensures PrefixOperators("price_gte") == "price_gte"
  {
    var w := "price_gte";
    assert |w| == 9 && "price_gte" !in OperatorWords;
    assert IsWord(w) by {
      forall i | 0 <= i < |w| ensures IsWordChar(w[i]) {
        assert w[i] in "price_gte";
      }
    }
    PrefixWord(w, []);
    assert w + [] == w;
  }

  /** A word boundary need not be white space: `a-lt` becomes `a-$lt`. */
  lemma PrefixAfterPunctuation()
    ensures PrefixOperators("a-lt") == "a-$lt"
  {
    assert "a" + "-lt" == "a-lt";
    PrefixWord("a", "-lt");
    assert "-lt"[1..] == "lt" && !IsWordChar('-');
    assert PrefixOperators("-lt") == "-" + PrefixOperators("lt");
    assert "lt" + [] == "lt";
    PrefixWord("lt", []);
  }

  /**
   * `JSON.parse(JSON.stringify(q).replace(...))`: the rewriting reaches keys
   * and string values at every depth; keys that become equal merge as
   * `JSON.parse` merges them (first position, last value).
   */
  function PrefixValue(v: Value): (r: Value)
    ensures r.Str? <==> v.Str?
    ensures r.Arr? <==> v.Arr?
    ensures r.Obj? <==> v.Obj?
    ensures v.Str? ==> r == Str(PrefixOperators(v.s))
    ensures v.Arr? ==> |r.items| == |v.items| && forall i :: 0 <= i < |v.items| ==> r.items[i] == PrefixValue(v.items[i])
    ensures !v.Str? && !v.Arr? && !v.Obj? ==> r == v
    decreases v, 1
  {
    match v
    case Str(s) => Str(PrefixOperators(s))
    case Arr(items) => Arr(seq(|items|, i requires 0 <= i < |items| => PrefixValue(items[i])))
    case Obj(fs) => Obj(PrefixFields(fs, 0, []))
    case _ => v
  }

  /** The entries of `fs` from index `i` on, rewritten and added to `acc`. */
  function PrefixFields(fs: Fields, i: nat, acc: Fields): Fields
    decreases Obj(fs), 0, |fs| - i
  {
    if i >= |fs| then acc
    else PrefixFields(fs, i + 1, Set(acc, PrefixOperators(fs[i].0), PrefixValue(fs[i].1)))
  }

  /** A one-entry object has its key and its value rewritten. */
  lemma PrefixSingleEntry(k: string, v: Value)
    ensures PrefixValue(Obj([(k, v)])) == Obj([(PrefixOperators(k), PrefixValue(v))])
  {
    assert PrefixFields([(k, v)], 0, []) == PrefixFields([(k, v)], 1, [(PrefixOperators(k), PrefixValue(v))]);
  }

  lemma DigitsUntouched()
    ensures PrefixOperators("100") == "100"
  {
    PrefixWord("100", []);
    assert "100" + [] == "100";
  }

  lemma PriceUntouched()
    ensures PrefixOperators("price") == "price"
  {
    PrefixWord("price", []);
    assert "price" + [] == "price";
  }

  /** `price[gte]=100` arrives as `{price: {gte: "100"}}` and leaves as `{price: {$gte: "100"}}`. */
  lemma BracketOperatorPrefixed()
    ensures PrefixValue(Obj([("price", Obj([("gte", Str("100"))]))]))
        == Obj([("price", Obj([("$gte", Str("100"))]))])
  {
    PrefixOperatorWord();
    DigitsUntouched();
    PriceUntouched();
    PrefixSingleEntry("gte", Str("100"));
    PrefixSingleEntry("price", Obj([("gte", Str("100"))]));
  }

  // ------------------------------------------------- directive keys removed

  const DirectiveKeys: seq<string> := ["page", "sort", "limit", "fields", "lang", "populate"]

  /** `excluedeFields.forEach(el => delete queryObj[el])`. */
  function WithoutDirectives(fs: Fields): (r: Fields)
    ensures forall k :: k in DirectiveKeys ==> Get(r, k).None?
    ensures forall k :: k !in DirectiveKeys ==> Get(r, k) == Get(fs, k)
    ensures forall e :: e in r ==> e in fs && e.0 !in DirectiveKeys
  {
    DeleteAll(fs, DirectiveKeys)
  }

  // -------------------------------------------------------- clause grouping

  /** What one entry of the query object contributes: an `$or` group or an `$and` clause. */
  datatype Clause = OrGroup(group: Value) | AndClause(clause: Value)

  /** `{ [key]: value }`. */
  function Single(key: string, value: Value): Value {
    Obj([(key, value)])
  }

  function Alternatives(key: string, pieces: seq<string>): (r: seq<Value>)
    ensures |r| == |pieces|
    ensures forall j :: 0 <= j < |pieces| ==> r[j] == Single(key, Str(pieces[j]))
  {
    seq(|pieces|, j requires 0 <= j < |pieces| => Single(key, Str(pieces[j])))
  }

  /** The loop body of `filter()` for the entry `[key, value]`. */
  function ClauseFor(key: string, value: Value): (r: Clause)
    ensures r.OrGroup? <==> value.Str? && '|' in value.s
    ensures r.AndClause? ==> r.clause.Obj? && Keys(r.clause.fields) == [key]
    ensures r.AndClause? && !(value.Obj? && "$regex" in Keys(value.fields)) ==> r.clause == Single(key, value)
  {
    if value.Str? && '|' in value.s then
      OrGroup(Obj([("$or", Arr(Alternatives(key, Split(value.s, '|'))))]))
    else if value.Obj? && "$regex" in Keys(value.fields) then
      AndClause(Single(key, Obj(Set(value.fields, "$options", Str("i")))))
    else AndClause(Single(key, value))
  }

  /** A value with `|` becomes one alternative per piece, and the pieces joined with `|` give the value back. */
  lemma OrGroupPieces(key: string, s: string)
    requires '|' in s
    ensures ClauseFor(key, Str(s)).OrGroup?
    ensures var alts := ClauseFor(key, Str(s)).group.fields[0].1.items;
      |alts| == |Split(s, '|')| >= 2
      && (forall j :: 0 <= j < |alts| ==> alts[j] == Single(key, Str(Split(s, '|')[j])))
      && Join(Split(s, '|'), "|") == s
  {
    JoinSplit(s, '|');
  }

  /** A `$regex` condition becomes case-insensitive and keeps its other operators. */
  lemma RegexCaseInsensitive(key: string, cond: Fields, op: string)
    requires "$regex" in Keys(cond)
    ensures ClauseFor(key, Obj(cond)) == AndClause(Single(key, Obj(Set(cond, "$options", Str("i")))))
    ensures Get(Set(cond, "$options", Str("i")), "$options") == Some(Str("i"))
    ensures op != "$options" ==> Get(Set(cond, "$options", Str("i")), op) == Get(cond, op)
  {
  }

  /** Any other value is an equality clause on its key, unchanged. */
  lemma PlainValueUnchanged(key: string, value: Value)
    requires !(value.Str? && '|' in value.s)
    requires !(value.Obj? && "$regex" in Keys(value.fields))
    ensures ClauseFor(key, value) == AndClause(Single(key, value))
  {
  }

  /** The or-groups and the and-clauses of the entries, each in entry order. */
  function Groups(entries: Fields): (r: (seq<Value>, seq<Value>))
    ensures |r.0| + |r.1| == |entries|
  {
    if entries == [] then ([], [])
    else
      var (ors, ands) := Groups(entries[..|entries| - 1]);
      var last := entries[|entries| - 1];
      match ClauseFor(last.0, last.1)
      case OrGroup(g) => (ors + [g], ands)
      case AndClause(c) => (ors, ands + [c])
  }

  /** `{ $and: [...orGroups, ...andGroups] }`, or `{}` when there are no clauses. */
  function FinalFilter(ors: seq<Value>, ands: seq<Value>): (f: Fields)
    ensures |ors + ands| == 0 ==> f == []
    ensures |ors + ands| > 0 ==> f == [("$and", Arr(ors + ands))]
  {
    if |ors + ands| > 0 then [("$and", Arr(ors + ands))] else []
  }

  /** What one entry of the query object demands of a document. */
  predicate EntryHolds(doc: Fields, key: string, value: Value, ext: OpOracle) {
    match ClauseFor(key, value)
    case OrGroup(g) => MatchesObj(doc, g, ext)
    case AndClause(c) => MatchesObj(doc, c, ext)
  }

  predicate AllMatch(doc: Fields, gs: seq<Value>, ext: OpOracle) {
    forall j :: 0 <= j < |gs| ==> MatchesObj(doc, gs[j], ext)
  }

  /** Inserting one group adds exactly its own demand. */
  lemma AllMatchInsert(doc: Fields, a: seq<Value>, g: Value, b: seq<Value>, ext: OpOracle)
    ensures AllMatch(doc, a + [g] + b, ext) <==> AllMatch(doc, a + b, ext) && MatchesObj(doc, g, ext)
  {
    var l, m := a + [g] + b, a + b;
    assert l[|a|] == g;
    assert forall j :: 0 <= j < |a| ==> m[j] == l[j];
    assert forall j :: |a| <= j < |m| ==> m[j] == l[j + 1];
    if AllMatch(doc, m, ext) && MatchesObj(doc, g, ext) {
      forall j | 0 <= j < |l| ensures MatchesObj(doc, l[j], ext) {
        if j < |a| {
          assert l[j] == m[j];
        } else if j > |a| {
          assert l[j] == m[j - 1];
        }
      }
    }
  }

  lemma {:induction false} GroupsMeaning(doc: Fields, entries: Fields, ext: OpOracle)
    ensures AllMatch(doc, Groups(entries).0 + Groups(entries).1, ext)
        <==> forall i :: 0 <= i < |entries| ==> EntryHolds(doc, entries[i].0, entries[i].1, ext)
  {
    if entries != [] {
      var init := entries[..|entries| - 1];
      var last := entries[|entries| - 1];
      GroupsMeaning(doc, init, ext);
      var ors, ands := Groups(init).0, Groups(init).1;
      var ors', ands' := Groups(entries).0, Groups(entries).1;
      match ClauseFor(last.0, last.1) {
        case OrGroup(g) =>
          assert ors' + ands' == ors + [g] + ands;
          AllMatchInsert(doc, ors, g, ands, ext);
        case AndClause(c) =>
          assert ors' + ands' == (ors + ands) + [c] + [];
          AllMatchInsert(doc, ors + ands, c, [], ext);
          assert ors + ands + [] == ors + ands;
      }
      assert (forall i :: 0 <= i < |entries| ==> EntryHolds(doc, entries[i].0, entries[i].1, ext))
        <==> (forall i :: 0 <= i < |init| ==> EntryHolds(doc, init[i].0, init[i].1, ext))
             && EntryHolds(doc, last.0, last.1, ext)
      by {
        assert forall i :: 0 <= i < |init| ==> init[i] == entries[i];
      }
    }
  }

  /**
   * The final filter holds of a document exactly when every entry of the
   * query object holds: each `|` value through one of its alternatives, each
   * other value as its clause.
   */
  lemma FinalFilterMeaning(doc: Fields, entries: Fields, ext: OpOracle)
    ensures Matches(doc, FinalFilter(Groups(entries).0, Groups(entries).1), ext)
        <==> forall i :: 0 <= i < |entries| ==> EntryHolds(doc, entries[i].0, entries[i].1, ext)
  {
    FinalFilterAll(doc, Groups(entries).0, Groups(entries).1, ext);
    GroupsMeaning(doc, entries, ext);
  }

  /** The final filter asks for every group, and `{}` for none. */
  lemma FinalFilterAll(doc: Fields, ors: seq<Value>, ands: seq<Value>, ext: OpOracle)
    ensures Matches(doc, FinalFilter(ors, ands), ext) <==> AllMatch(doc, ors + ands, ext)
  {
    if |ors + ands| > 0 {
      MatchesAnd(doc, ors + ands, ext);
    } else {
      EmptyMatchesAll(doc, ext);
    }
  }

  /** The query object of `filter()`: operators rewritten, directive keys removed. */
  function FilterEntries(queryString: Fields): (r: Fields)
    ensures forall k :: k in DirectiveKeys ==> k !in Keys(r)
  {
    WithoutDirectives(PrefixFields(queryString, 0, []))
  }

  // --------------------------------------------------- sort, fields, pages

  /** The order: `sort` with commas turned into spaces, or the model's default when `sort` is falsy. */
  function SortOrder(queryString: Fields, defaultSortBy: Option<string>): (r: Outcome<Option<string>>)
    ensures !TruthyOpt(Get(queryString, "sort")) ==> r == Ok(defaultSortBy)
    ensures TruthyOpt(Get(queryString, "sort")) && Get(queryString, "sort").value.Str? ==>
      var s := Get(queryString, "sort").value.s;
      r.Ok? && r.value.Some? && |r.value.value| == |s|
      && forall i :: 0 <= i < |s| ==> r.value.value[i] == (if s[i] == ',' then ' ' else s[i])
    ensures TruthyOpt(Get(queryString, "sort")) && !Get(queryString, "sort").value.Str? ==>
      r == Fail(TypeError("this.queryString.sort.replaceAll is not a function"))
  {
    var v := Get(queryString, "sort");
    if !TruthyOpt(v) then Ok(defaultSortBy)
    else if v.value.Str? then Ok(Some(ReplaceChar(v.value.s, ',', ' ')))
    else Fail(TypeError("this.queryString.sort.replaceAll is not a function"))
  }

  /** The projection: `fields` with commas turned into spaces, or `-__v` when `fields` is falsy. */
  function Projection(queryString: Fields): (r: Outcome<string>)
    ensures !TruthyOpt(Get(queryString, "fields")) ==> r == Ok("-__v")
    ensures TruthyOpt(Get(queryString, "fields")) && Get(queryString, "fields").value.Str? ==>
      var s := Get(queryString, "fields").value.s;
      r.Ok? && |r.value| == |s| && forall i :: 0 <= i < |s| ==> r.value[i] == (if s[i] == ',' then ' ' else s[i])
    ensures TruthyOpt(Get(queryString, "fields")) && !Get(queryString, "fields").value.Str? ==>
      r == Fail(TypeError("this.queryString.fields.replaceAll is not a function"))
  {
    var v := Get(queryString, "fields");
    if !TruthyOpt(v) then Ok("-__v")
    else if v.value.Str? then Ok(ReplaceChar(v.value.s, ',', ' '))
    else Fail(TypeError("this.queryString.fields.replaceAll is not a function"))
  }

  /** `(skip, limit)` of `paginate()`: page `+page || 1`, limit `+limit || 100`, skip `(page - 1) * limit`. */
  function Window(queryString: Fields): (r: (int, int))
    ensures r.1 != 0
    ensures r.1 == NumberOr(Get(queryString, "limit"), 100)
    ensures r.0 == (NumberOr(Get(queryString, "page"), 1) - 1) * r.1
  {
    var page := NumberOr(Get(queryString, "page"), 1);
    var limit := NumberOr(Get(queryString, "limit"), 100);
    ((page - 1) * limit, limit)
  }

  /** No page and no limit: the first hundred; `limit=0` falls back to 100 as well. */
  lemma DefaultWindow()
    ensures Window([]) == (0, 100)
    ensures Window([("limit", Str("0"))]) == (0, 100)
  {
    assert AllDigits("0");
    assert DigitsValue("0") == 0 by { assert "0"[..0] == ""; }
  }

  /** `page=2&limit=10`: skip 10, take 10. */
  lemma SecondPageOfTen()
    ensures Window([("page", Str("2")), ("limit", Str("10"))]) == (10, 10)
  {
    assert AllDigits("2") && AllDigits("10");
    assert DigitsValue("2") == 2 by { assert "2"[..0] == ""; }
    assert DigitsValue("10") == 10 by { assert "10"[..1] == "1"; assert "1"[..0] == ""; }
  }

  // --------------------------------------------------------------- populate

  /** The populate whitelist: each allowed path with the subfields that may be selected. */
  type Whitelist = seq<(string, seq<string>)>

  function WhitelistKeys(w: Whitelist): set<string> {
    set i | 0 <= i < |w| :: w[i].0
  }

  /** `allowed[path]` (first entry). */
  function Allowed(w: Whitelist, path: string): (r: seq<string>)
    requires path in WhitelistKeys(w)
    ensures exists i :: 0 <= i < |w| && w[i] == (path, r)
  {
    if w[0].0 == path then w[0].1
    else
      assert path in WhitelistKeys(w[1..]) by {
        var i :| 0 <= i < |w| && w[i].0 == path;
        assert w[1..][i - 1] == w[i];
      }
      Allowed(w[1..], path)
  }

  /** `requested.filter(f => allowed.includes(f))`. */
  function Keep(requested: seq<string>, allowed: seq<string>): (r: seq<string>)
    ensures forall f :: f in r <==> f in requested && f in allowed
    ensures |r| <= |requested|
  {
    if requested == [] then []
    else (if requested[0] in allowed then [requested[0]] else []) + Keep(requested[1..], allowed)
  }

  /** One `{ path, select }` handed to `query.populate`. */
  datatype PopulateDirective = PopulateDirective(path: string, select: string)

  /**
   * The keys a plain object inherits from `Object.prototype`: `path in
   * allowedPopulatePaths` holds for them too, and their value has neither
   * `includes` nor `join`.
   */
  predicate Inherited(path: string) {
    path in ObjectPrototypeKeys
  }

  const ObjectPrototypeKeys: set<string> :=
    {"constructor", "__proto__", "hasOwnProperty", "isPrototypeOf", "propertyIsEnumerable",
     "toLocaleString", "toString", "valueOf",
     "__defineGetter__", "__defineSetter__", "__lookupGetter__", "__lookupSetter__"}

  /**
   * The directive for one `;`-entry `path[:fields]`: `None` when the path is
   * not on the whitelist, a TypeError when it is found there only as an
   * inherited key.
   */
  function EntryDirective(entry: string, w: Whitelist): (r: Outcome<Option<PopulateDirective>>)
    ensures var pieces := Split(entry, ':');
      (r == Ok(None) <==> pieces[0] !in WhitelistKeys(w) && !Inherited(pieces[0]))
      && (r.Fail? <==> pieces[0] !in WhitelistKeys(w) && Inherited(pieces[0]))
      && (r.Fail? ==> r.err.name == "TypeError" && r.err.statusCode.None?)
      && (r.Ok? && r.value.Some? ==> r.value.value.path == Trim(pieces[0]))
  {
    var pieces := Split(entry, ':');
    var path := pieces[0];
    var fields := if |pieces| > 1 then pieces[1] else "";
    if path !in WhitelistKeys(w) then
      if !Inherited(path) then Ok(None)
      else if fields != "" then Fail(TypeError("this.allowedPopulatePaths[path].includes is not a function"))
      else Fail(TypeError("this.allowedPopulatePaths[path].join is not a function"))
    else
      var allowed := Allowed(w, path);
      var safe := if fields != "" then Join(Keep(Split(fields, ','), allowed), " ") else Join(allowed, " ");
      Ok(Some(PopulateDirective(Trim(path), Trim(safe))))
  }

  lemma EntryDirectiveFields(entry: string, w: Whitelist)
    requires Split(entry, ':')[0] in WhitelistKeys(w)
    ensures var pieces := Split(entry, ':');
      var allowed := Allowed(w, pieces[0]);
      var fields := if |pieces| > 1 then pieces[1] else "";
      EntryDirective(entry, w).Ok? && EntryDirective(entry, w).value.Some?
      && (fields == "" ==> EntryDirective(entry, w).value.value.select == Trim(Join(allowed, " ")))
      && (fields != "" ==> EntryDirective(entry, w).value.value.select == Trim(Join(Keep(Split(fields, ','), allowed), " ")))
  {
  }

  /** `populate.split(";").map(...)`: the outcome of each entry, in order. */
  function EntryOutcomes(entries: seq<string>, w: Whitelist): (r: seq<Outcome<Option<PopulateDirective>>>)
    ensures |r| == |entries|
    ensures forall i :: 0 <= i < |entries| ==> r[i] == EntryDirective(entries[i], w)
  {
    seq(|entries|, i requires 0 <= i < |entries| => EntryDirective(entries[i], w))
  }

  /**
   * `.filter(Boolean)` of the mapped entries: the directives in order, or the
   * error of the first entry whose lookup threw, which ends the map.
   */
  function Collect(outs: seq<Outcome<Option<PopulateDirective>>>): (r: Outcome<seq<PopulateDirective>>)
    ensures r.Ok? <==> forall i :: 0 <= i < |outs| ==> outs[i].Ok?
    ensures r.Fail? ==> exists i :: 0 <= i < |outs| && outs[i] == Fail(r.err) && forall j :: 0 <= j < i ==> outs[j].Ok?
    ensures r.Ok? ==> |r.value| <= |outs|
    ensures r.Ok? ==> forall d :: d in r.value <==> Ok(Some(d)) in outs
  {
    if outs == [] then Ok([])
    else
      var rest := Collect(outs[1..]);
      if outs[0].Fail? then Fail(outs[0].err)
      else if rest.Fail? then
        var i :| 0 <= i < |outs[1..]| && outs[1..][i] == Fail(rest.err) && forall j :: 0 <= j < i ==> outs[1..][j].Ok?;
        assert outs[i + 1] == Fail(rest.err);
        rest
      else if outs[0].value.None? then rest
      else Ok([outs[0].value.value] + rest.value)
  }

  /** The directives of `populate.split(";")`, or the error thrown on the way. */
  function Directives(entries: seq<string>, w: Whitelist): (r: Outcome<seq<PopulateDirective>>)
    ensures r.Ok? <==> forall i :: 0 <= i < |entries| ==> EntryDirective(entries[i], w).Ok?
    ensures r.Fail? ==> exists i :: 0 <= i < |entries| && EntryDirective(entries[i], w) == Fail(r.err)
                                  && forall j :: 0 <= j < i ==> EntryDirective(entries[j], w).Ok?
    ensures r.Ok? ==> forall d :: d in r.value <==> exists i :: 0 <= i < |entries| && EntryDirective(entries[i], w) == Ok(Some(d))
  {
    CollectedMembers(entries, w);
    Collect(EntryOutcomes(entries, w))
  }

  lemma CollectedMembers(entries: seq<string>, w: Whitelist)
    ensures var r := Collect(EntryOutcomes(entries, w));
      r.Ok? ==> forall d :: d in r.value <==> exists i :: 0 <= i < |entries| && EntryDirective(entries[i], w) == Ok(Some(d))
  {
    var outs := EntryOutcomes(entries, w);
    var r := Collect(outs);
    if r.Ok? {
      forall d | d in r.value
        ensures exists i :: 0 <= i < |entries| && EntryDirective(entries[i], w) == Ok(Some(d))
      {
        var i :| 0 <= i < |outs| && outs[i] == Ok(Some(d));
      }
    }
  }

  /** The message of the TypeError that `path in undefined` throws. */
  function InUndefined(path: string): string {
    "Cannot use 'in' operator to search for '" + path + "' in undefined"
  }

  /**
   * What `populateFields()` hands to the query, or the error it raises. With
   * no whitelist the first entry's `in` test throws, naming that entry's path.
   */
  function PopulateList(queryString: Fields, allowed: Option<Whitelist>): (r: Outcome<seq<PopulateDirective>>)
    ensures !TruthyOpt(Get(queryString, "populate")) ==> r == Ok([])
    ensures TruthyOpt(Get(queryString, "populate")) && !Get(queryString, "populate").value.Str? ==>
      r == Fail(TypeError("this.queryString.populate.split is not a function"))
    ensures TruthyOpt(Get(queryString, "populate")) && Get(queryString, "populate").value.Str? && allowed.None? ==>
      r == Fail(TypeError(InUndefined(Split(Split(Get(queryString, "populate").value.s, ';')[0], ':')[0])))
    ensures TruthyOpt(Get(queryString, "populate")) && Get(queryString, "populate").value.Str? && allowed.Some? ==>
      r == Directives(Split(Get(queryString, "populate").value.s, ';'), allowed.value)
  {
    var v := Get(queryString, "populate");
    if !TruthyOpt(v) then Ok([])
    else if !v.value.Str? then Fail(TypeError("this.queryString.populate.split is not a function"))
    else if allowed.None? then Fail(TypeError(InUndefined(Split(Split(v.value.s, ';')[0], ':')[0])))
    else Directives(Split(v.value.s, ';'), allowed.value)
  }

  /**
   * Without a whitelist, a `populate` such as `guides:name;tour` fails with
   * a message naming `guides`: the path of the first entry, before its `:`.
   */
  lemma PopulateWithoutWhitelist(queryString: Fields, path: string, fields: string, rest: string)
    requires Get(queryString, "populate") == Some(Str(path + ":" + fields + ";" + rest))
    requires ':' !in path && ';' !in path && ';' !in fields
    ensures PopulateList(queryString, None) == Fail(TypeError(InUndefined(path)))
  {
    var e := path + ":" + fields;
    var q := e + ";" + rest;
    assert q[|e|] == ';' && q[..|e|] == e;
    assert ';' !in e by {
      assert forall i :: 0 <= i < |e| ==> e[i] == if i < |path| then path[i] else if i == |path| then ':' else fields[i - |path| - 1];
    }
    SplitHead(q, ';', |e|);
    assert e[|path|] == ':' && e[..|path|] == path;
    SplitHead(e, ':', |path|);
  }

  /** Every populated path is a whitelisted path, and every selected subfield is one the whitelist allows for it. */
  lemma PopulateOnlyWhitelisted(queryString: Fields, w: Whitelist, d: PopulateDirective)
    requires PopulateList(queryString, Some(w)).Ok? && d in PopulateList(queryString, Some(w)).value
    ensures exists e :: Split(e, ':')[0] in WhitelistKeys(w) && d.path == Trim(Split(e, ':')[0])
  {
    var v := Get(queryString, "populate");
    var es := Split(v.value.s, ';');
    var i :| 0 <= i < |es| && EntryDirective(es[i], w) == Ok(Some(d));
    assert Split(es[i], ':')[0] in WhitelistKeys(w);
  }

  /**
   * An entry naming an inherited key such as `constructor` that the
   * whitelist does not hold passes the `in` test, and the lookup throws a
   * TypeError instead of the entry being dropped.
   */
  lemma InheritedPathThrows(queryString: Fields, w: Whitelist, s: string, e: string)
    requires Get(queryString, "populate") == Some(Str(s))
    requires e in Split(s, ';') && Inherited(Split(e, ':')[0]) && Split(e, ':')[0] !in WhitelistKeys(w)
    ensures PopulateList(queryString, Some(w)).Fail?
    ensures PopulateList(queryString, Some(w)).err.name == "TypeError"
  {
    NoInheritedPathInEmpty(s, e);
    PopulateOfString(queryString, w, s);
    var es := Split(s, ';');
    var i :| 0 <= i < |es| && es[i] == e;
    EntryThrows(es[i], w);
    DirectivesFailWith(es, w, i);
  }

  /** The empty `populate` string has one empty entry, whose path is no inherited key. */
  lemma NoInheritedPathInEmpty(s: string, e: string)
    requires e in Split(s, ';') && Inherited(Split(e, ':')[0])
    ensures s != ""
  {
    if s == "" {
      SplitWithoutSeparator(s, ';');
      SplitWithoutSeparator(e, ':');
      EmptyNotInherited();
    }
  }

  /** The empty path is no key of `Object.prototype`. */
  lemma EmptyNotInherited()
    ensures !Inherited("")
  {
    assert forall k :: k in ObjectPrototypeKeys ==> |k| > 0;
  }

  /** A non-empty string `populate` with a whitelist: the directives of its entries. */
  lemma PopulateOfString(queryString: Fields, w: Whitelist, s: string)
    requires Get(queryString, "populate") == Some(Str(s)) && s != ""
    ensures PopulateList(queryString, Some(w)) == Directives(Split(s, ';'), w)
  {
    var v := Get(queryString, "populate");
    assert TruthyOpt(v) && v.value.Str? && v.value.s == s;
  }

  /** One throwing entry makes the whole map throw, with the error of an entry that threw. */
  lemma DirectivesFailWith(entries: seq<string>, w: Whitelist, i: nat)
    requires i < |entries| && EntryDirective(entries[i], w).Fail?
    ensures Directives(entries, w).Fail?
    ensures Directives(entries, w).err.name == "TypeError"
  {
    var r := Directives(entries, w);
    var k :| 0 <= k < |entries| && EntryDirective(entries[k], w) == Fail(r.err);
    EntryThrows(entries[k], w);
  }

  lemma EntryThrows(e: string, w: Whitelist)
    ensures EntryDirective(e, w).Fail? <==> Split(e, ':')[0] !in WhitelistKeys(w) && Inherited(Split(e, ':')[0])
    ensures EntryDirective(e, w).Fail? ==> EntryDirective(e, w).err.name == "TypeError"
  {
  }

  /** The filter `filter()` applies, or the error it throws. */
  function FilterOutcome(queryString: Fields, parse: string -> Option<Value>): (r: Outcome<Fields>)
    ensures !TruthyOpt(Get(queryString, "filter")) ==>
      r == Ok(FinalFilter(Groups(FilterEntries(queryString)).0, Groups(FilterEntries(queryString)).1))
    ensures TruthyOpt(Get(queryString, "filter")) ==>
      var p := parse(Stringify(Get(queryString, "filter").value));
      (p.Some? && p.value.Obj? ==> r == Ok(p.value.fields))
      && (r.Ok? ==> p == Some(Obj(r.value)))
    ensures TruthyOpt(Get(queryString, "filter")) && r.Fail? ==>
      r.err == PlainError("Invalid filter parameter format")
  {
    var f := Get(queryString, "filter");
    if TruthyOpt(f) then
      match parse(Stringify(f.value))
      case Some(Obj(fs)) => Ok(fs)
      case _ => Fail(PlainError("Invalid filter parameter format"))
    else Ok(FinalFilter(Groups(FilterEntries(queryString)).0, Groups(FilterEntries(queryString)).1))
  }

  /**
   * Without a `filter` parameter the filter applied holds of a document
   * exactly when every entry of the rewritten query object holds.
   */
  lemma GrammarFilterMeaning(queryString: Fields, parse: string -> Option<Value>, doc: Fields, ext: OpOracle)
    requires !TruthyOpt(Get(queryString, "filter"))
    ensures FilterOutcome(queryString, parse).Ok?
    ensures var es := FilterEntries(queryString);
      Matches(doc, FilterOutcome(queryString, parse).value, ext) <==>
        (forall i :: 0 <= i < |es| ==> EntryHolds(doc, es[i].0, es[i].1, ext))
  {
    FinalFilterMeaning(doc, FilterEntries(queryString), ext);
  }

  // ------------------------------------------------------------ the builder

  /** The loop of `filter()` over the entries of the query object, and the final filter. */
  method BuildFilter(entries: Fields) returns (final: Fields)
    ensures final == FinalFilter(Groups(entries).0, Groups(entries).1)
  {
    var ors: seq<Value> := [];
    var ands: seq<Value> := [];
    var i := 0;
    while i < |entries|
      invariant 0 <= i <= |entries|
      invariant ors == Groups(entries[..i]).0 && ands == Groups(entries[..i]).1
    {
      var (key, value) := entries[i];
      assert entries[..i + 1][..i] == entries[..i];
      match ClauseFor(key, value) {
        case OrGroup(g) => ors := ors + [g];
        case AndClause(c) => ands := ands + [c];
      }
      i := i + 1;
    }
    assert entries[..i] == entries;
    final := if |ors + ands| > 0 then [("$and", Arr(ors + ands))] else [];
  }

  class APIFeatures {
    var query: Query
    const queryString: Fields
    const defaultSortBy: Option<string>
    const allowedPopulatePaths: Option<Whitelist>
    /** The filter `filter()` applied; `None` until it runs. */
    var filterQuery: Option<Fields>

    constructor(query: Query, queryString: Fields, defaultSortBy: Option<string>, allowedPopulatePaths: Option<Whitelist>)
      ensures this.query == query && this.queryString == queryString
      ensures this.defaultSortBy == defaultSortBy && this.allowedPopulatePaths == allowedPopulatePaths
      ensures filterQuery.None?
    {
      this.query := query;
      this.queryString := queryString;
      this.defaultSortBy := defaultSortBy;
      this.allowedPopulatePaths := allowedPopulatePaths;
      filterQuery := None;
    }

    /**
     * `filter()`. A truthy `filter` parameter is parsed as JSON (`parse`) and
     * applied verbatim; otherwise the query object is rewritten, stripped of
     * the directive keys and turned into `$or` groups and `$and` clauses.
     */
    method Filter(parse: string -> Option<Value>) returns (err: Option<Err>)
      modifies this`query, this`filterQuery
      ensures match FilterOutcome(queryString, parse)
        case Ok(f) => err.None? && filterQuery == Some(f) && query == old(query).Then(Find(f))
        case Fail(e) => err == Some(e) && query == old(query) && filterQuery == old(filterQuery)
    {
      var f := Get(queryString, "filter");
      if TruthyOpt(f) {
        var parsed := parse(Stringify(f.value));
        if parsed.Some? && parsed.value.Obj? {
          assert FilterOutcome(queryString, parse) == Ok(parsed.value.fields);
          query := query.Then(Find(parsed.value.fields));
          filterQuery := Some(parsed.value.fields);
          err := None;
        } else {
          assert FilterOutcome(queryString, parse) == Fail(PlainError("Invalid filter parameter format"));
          err := Some(PlainError("Invalid filter parameter format"));
        }
        return;
      }
      assert FilterOutcome(queryString, parse)
          == Ok(FinalFilter(Groups(FilterEntries(queryString)).0, Groups(FilterEntries(queryString)).1));
      var final := BuildFilter(FilterEntries(queryString));
      query := query.Then(Find(final));
      filterQuery := Some(final);
      err := None;
    }

    /** `sort()`. */
    method Sort() returns (err: Option<Err>)
      modifies this`query
      ensures match SortOrder(queryString, defaultSortBy)
        case Ok(order) => err.None? && query == old(query).Then(SortBy(order))
        case Fail(e) => err == Some(e) && query == old(query)
    {
      var v := Get(queryString, "sort");
      if TruthyOpt(v) {
        if v.value.Str? {
          query := query.Then(SortBy(Some(ReplaceChar(v.value.s, ',', ' '))));
          err := None;
        } else {
          err := Some(TypeError("this.queryString.sort.replaceAll is not a function"));
        }
      } else {
        query := query.Then(SortBy(defaultSortBy));
        err := None;
      }
    }

    /** `limitFields()`. */
    method LimitFields() returns (err: Option<Err>)
      modifies this`query
      ensures match Projection(queryString)
        case Ok(p) => err.None? && query == old(query).Then(Project(p))
        case Fail(e) => err == Some(e) && query == old(query)
    {
      var v := Get(queryString, "fields");
      if TruthyOpt(v) {
        if v.value.Str? {
          query := query.Then(Project(ReplaceChar(v.value.s, ',', ' ')));
          err := None;
        } else {
          err := Some(TypeError("this.queryString.fields.replaceAll is not a function"));
        }
      } else {
        query := query.Then(Project("-__v"));
        err := None;
      }
    }

    /** `paginate()`. */
    method Paginate()
      modifies this`query
      ensures query == old(query).Then(Skip(Window(queryString).0)).Then(Limit(Window(queryString).1))
    {
      var page := NumberOr(Get(queryString, "page"), 1);
      var limit := NumberOr(Get(queryString, "limit"), 100);
      var skip := (page - 1) * limit;
      query := query.Then(Skip(skip)).Then(Limit(limit));
    }

    /** `populateFields()`: one `populate` call per surviving directive, in order. */
    method PopulateFields() returns (err: Option<Err>)
      modifies this`query
      ensures match PopulateList(queryString, allowedPopulatePaths)
        case Ok(ds) => err.None? && query.steps == old(query.steps) + PopulateSteps(ds)
        case Fail(e) => err == Some(e) && query == old(query)
    {
      var r := PopulateList(queryString, allowedPopulatePaths);
      if r.Fail? {
        err := Some(r.err);
        return;
      }
      var ds := r.value;
      var before := query.steps;
      var q := query;
      var i := 0;
      while i < |ds|
        invariant 0 <= i <= |ds|
        invariant q.steps == before + PopulateSteps(ds[..i])
      {
        var step := Populate(ds[i].path, ds[i].select);
        PopulateStepsSnoc(ds, i);
        assert before + PopulateSteps(ds[..i + 1]) == (before + PopulateSteps(ds[..i])) + [step];
        q := q.Then(step);
        i := i + 1;
      }
      assert ds[..i] == ds;
      query := q;
      err := None;
    }
  }

  /** One more directive adds its `populate` call at the end. */
  lemma PopulateStepsSnoc(ds: seq<PopulateDirective>, i: nat)
    requires i < |ds|
    ensures PopulateSteps(ds[..i + 1]) == PopulateSteps(ds[..i]) + [Populate(ds[i].path, ds[i].select)]
  {
    assert ds[..i + 1][..i] == ds[..i];
  }

  function PopulateSteps(ds: seq<PopulateDirective>): (r: seq<QueryStep>)
    ensures |r| == |ds|
    ensures forall i :: 0 <= i < |ds| ==> r[i] == Populate(ds[i].path, ds[i].select)
  {
    seq(|ds|, i requires 0 <= i < |ds| => Populate(ds[i].path, ds[i].select))
  }
}
