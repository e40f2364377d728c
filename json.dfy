/**
 * JSON-like values as the services see them after body and query-string
 * parsing. An object is the list of its entries in insertion order, which is
 * the order `Object.keys` and `Object.entries` report for string keys.
 * A key missing from an object is JavaScript's `undefined`.
 */
module Json {
  import opened Wrappers

  datatype Value =
    | Null
    | Bool(b: bool)
    | Num(n: int)
    | Str(s: string)
    | Arr(items: seq<Value>)
    | Obj(fields: seq<(string, Value)>)

  type Fields = seq<(string, Value)>

  /** `Object.keys(o)`. */
  function Keys(fs: Fields): (ks: seq<string>)
    ensures |ks| == |fs|
  {
    if fs == [] then [] else [fs[0].0] + Keys(fs[1..])
  }

  /** No key occurs twice: true of every JavaScript object. */
  predicate UniqueKeys(fs: Fields) {
    fs == [] || (fs[0].0 !in Keys(fs[1..]) && UniqueKeys(fs[1..]))
  }

  /** `o[k]`, `None` standing for `undefined`. */
  function Get(fs: Fields, k: string): (r: Option<Value>)
    ensures r.None? <==> k !in Keys(fs)
    ensures r.Some? ==> (k, r.value) in fs
  {
    if fs == [] then None
    else if fs[0].0 == k then Some(fs[0].1)
    else Get(fs[1..], k)
  }

  /** The key of every entry is among the object's keys. */
  lemma EntryKey(fs: Fields, e: (string, Value))
    requires e in fs
    ensures e.0 in Keys(fs)
  {
    if fs[0] != e {
      EntryKey(fs[1..], e);
    }
  }

  /** With unique keys, an entry is what reading its key gives. */
  lemma {:induction false} UniqueEntry(fs: Fields, e: (string, Value))
    requires UniqueKeys(fs) && e in fs
    ensures Get(fs, e.0) == Some(e.1)
  {
    if fs[0] != e {
      UniqueEntry(fs[1..], e);
      EntryKey(fs[1..], e);
    }
  }

  /** The keys of a concatenation are the keys of its parts, in order. */
  lemma {:induction false} KeysConcat(a: Fields, b: Fields)
    ensures Keys(a + b) == Keys(a) + Keys(b)
  {
    if a == [] {
      assert a + b == b;
    } else {
      var h := [a[0].0];
      KeysConcat(a[1..], b);
      assert (a + b)[1..] == a[1..] + b;
      assert h + (Keys(a[1..]) + Keys(b)) == (h + Keys(a[1..])) + Keys(b);
    }
  }

  /** No name occurs twice in the list. */
  ghost predicate Distinct(names: seq<string>) {
    forall a, b :: 0 <= a < b < |names| ==> names[a] != names[b]
  }

  /** `o[k] = v`: an existing key keeps its position and takes the new value, a new key goes last. */
  function Set(fs: Fields, k: string, v: Value): (r: Fields)
    ensures Get(r, k) == Some(v)
    ensures forall j :: j != k ==> Get(r, j) == Get(fs, j)
  {
    if fs == [] then [(k, v)]
    else if fs[0].0 == k then [(k, v)] + fs[1..]
    else [fs[0]] + Set(fs[1..], k, v)
  }

  /** Assigning to an existing key keeps the key order; a new key is appended. */
  lemma {:induction false} SetKeys(fs: Fields, k: string, v: Value)
    ensures Keys(Set(fs, k, v)) == if k in Keys(fs) then Keys(fs) else Keys(fs) + [k]
  {
    if fs != [] && fs[0].0 != k {
      SetKeys(fs[1..], k, v);
      assert Keys(Set(fs, k, v)) == [fs[0].0] + Keys(Set(fs[1..], k, v));
    }
  }

  lemma SetUnique(fs: Fields, k: string, v: Value)
    requires UniqueKeys(fs)
    ensures UniqueKeys(Set(fs, k, v))
  {
    if fs != [] && fs[0].0 != k {
      SetUnique(fs[1..], k, v);
      SetKeys(fs[1..], k, v);
    }
  }

  /** Every entry of `Set(fs, k, v)` is an old entry or the new one. */
  lemma SetEntries(fs: Fields, k: string, v: Value, e: (string, Value))
    requires e in Set(fs, k, v)
    ensures e in fs || e == (k, v)
  {
    if fs != [] && fs[0].0 != k && e != fs[0] {
      SetEntries(fs[1..], k, v, e);
    }
  }

  /** Writing back the value a key already has changes nothing. */
  lemma SetSame(fs: Fields, k: string, v: Value)
    requires Get(fs, k) == Some(v)
    ensures Set(fs, k, v) == fs
  {
  }

  /** `delete o[k]`. */
  function Delete(fs: Fields, k: string): (r: Fields)
    ensures Get(r, k) == None
    ensures forall j :: j != k ==> Get(r, j) == Get(fs, j)
    ensures forall e :: e in r ==> e in fs && e.0 != k
  {
    if fs == [] then []
    else if fs[0].0 == k then Delete(fs[1..], k)
    else [fs[0]] + Delete(fs[1..], k)
  }

  /** `keys.forEach(k => delete o[k])`. */
  function DeleteAll(fs: Fields, keys: seq<string>): (r: Fields)
    ensures forall k :: k in keys ==> Get(r, k).None?
    ensures forall k :: k !in keys ==> Get(r, k) == Get(fs, k)
    ensures forall e :: e in r ==> e in fs && e.0 !in keys
    decreases |keys|
  {
    if keys == [] then fs else DeleteAll(Delete(fs, keys[0]), keys[1..])
  }

  lemma DeleteKeys(fs: Fields, k: string, j: string)
    ensures j in Keys(Delete(fs, k)) <==> j in Keys(fs) && j != k
  {
    if fs != [] {
      DeleteKeys(fs[1..], k, j);
      if fs[0].0 != k {
        assert Keys(Delete(fs, k)) == [fs[0].0] + Keys(Delete(fs[1..], k));
      }
    }
  }

  lemma DeleteUnique(fs: Fields, k: string)
    requires UniqueKeys(fs)
    ensures UniqueKeys(Delete(fs, k))
  {
    if fs != [] {
      DeleteUnique(fs[1..], k);
      if fs[0].0 != k {
        DeleteKeys(fs[1..], k, fs[0].0);
      }
    }
  }

  /** `{...a, ...b}`: the entries of `b` are assigned onto a copy of `a`, in order. */
  function Spread(a: Fields, b: Fields): (r: Fields)
    decreases |b|
  {
    if b == [] then a else Spread(Set(a, b[0].0, b[0].1), b[1..])
  }

  /** In a spread the later object wins: a key of `b` takes `b`'s value, every other key keeps `a`'s. */
  lemma {:induction false} SpreadGet(a: Fields, b: Fields, k: string)
    requires UniqueKeys(b)
    ensures Get(Spread(a, b), k) == if k in Keys(b) then Get(b, k) else Get(a, k)
    decreases |b|
  {
    if b != [] {
      var a' := Set(a, b[0].0, b[0].1);
      SpreadGet(a', b[1..], k);
      assert Keys(b) == [b[0].0] + Keys(b[1..]);
    }
  }

  /** A spread keeps every key of `a` and adds the keys of `b`. */
  lemma {:induction false} SpreadKeys(a: Fields, b: Fields, k: string)
    ensures k in Keys(Spread(a, b)) <==> k in Keys(a) || k in Keys(b)
    decreases |b|
  {
    if b != [] {
      var a' := Set(a, b[0].0, b[0].1);
      SpreadKeys(a', b[1..], k);
      SetKeys(a, b[0].0, b[0].1);
      assert Keys(b) == [b[0].0] + Keys(b[1..]);
    }
  }

  lemma {:induction false} SpreadUnique(a: Fields, b: Fields)
    requires UniqueKeys(a)
    ensures UniqueKeys(Spread(a, b))
    decreases |b|
  {
    if b != [] {
      SetUnique(a, b[0].0, b[0].1);
      SpreadUnique(Set(a, b[0].0, b[0].1), b[1..]);
    }
  }

  /** JavaScript truthiness (`undefined` is the missing key, not a value). */
  predicate Truthy(v: Value)
    ensures !Truthy(v) <==> v == Null || v == Bool(false) || v == Num(0) || v == Str("")
  {
    match v
    case Null => false
    case Bool(b) => b
    case Num(n) => n != 0
    case Str(s) => s != ""
    case Arr(_) => true
    case Obj(_) => true
  }

  /** Truthiness of a possibly missing value: `undefined` is falsy too. */
  predicate TruthyOpt(o: Option<Value>)
    ensures !TruthyOpt(o) <==> o.None? || o == Some(Null) || o == Some(Bool(false)) || o == Some(Num(0)) || o == Some(Str(""))
  {
    o.Some? && Truthy(o.value)
  }

  /** Every object at every depth has unique keys. */
  predicate WellFormed(v: Value) {
    match v
    case Arr(items) => forall i :: 0 <= i < |items| ==> WellFormed(items[i])
    case Obj(fs) => UniqueKeys(fs) && forall i :: 0 <= i < |fs| ==> WellFormed(fs[i].1)
    case _ => true
  }
}
