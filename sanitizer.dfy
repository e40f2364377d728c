/**
 * `customMongoSanitize`: the middleware that re-keys every object key that
 * starts with `$` or contains `.`, at every depth of the request body and
 * route parameters, so that client data cannot smuggle Mongo operators or
 * dotted paths into a query. Values are never rewritten.
 *
 * `sanitize` mutates the objects in place while iterating over a snapshot of
 * their keys. Here an object is a value; `Fold` replays that iteration, each
 * `Step` reading the object as the earlier steps left it.
 */
module Sanitizer {
  import opened Wrappers
  import opened Strings
  import opened Json

  /** A key Mongo would read as an operator or a dotted path. */
  predicate Dangerous(k: string) {
    (|k| > 0 && k[0] == '$') || '.' in k
  }

  /** `key.replace(/\$/g, "_").replace(/\./g, "_")`. */
  function Renamed(k: string): (r: string)
    ensures |r| == |k|
    ensures !Dangerous(r)
    ensures forall i :: 0 <= i < |k| ==> r[i] == (if k[i] == '$' || k[i] == '.' then '_' else k[i])
  {
    var a := ReplaceChar(k, '$', '_');
    var r := ReplaceChar(a, '.', '_');
    assert |r| > 0 ==> r[0] != '$' by {
      if |r| > 0 {
        assert a[0] in a;
      }
    }
    r
  }

  /** The key a step stores its value under. */
  function NewKey(k: string): (r: string)
    ensures !Dangerous(r)
    ensures r == k <==> !Dangerous(k)
  {
    if Dangerous(k) then
      var r := Renamed(k);
      assert r != k by {
        if |k| > 0 && k[0] == '$' {
          assert r[0] == '_';
        } else {
          var i :| 0 <= i < |k| && k[i] == '.';
          assert r[i] == '_';
        }
      }
      r
    else k
  }

  /** The new key of every key, in order. */
  function NewKeys(keys: seq<string>): (r: seq<string>)
    ensures |r| == |keys|
    ensures forall i :: 0 <= i < |keys| ==> r[i] == NewKey(keys[i])
  {
    if keys == [] then [] else [NewKey(keys[0])] + NewKeys(keys[1..])
  }

  /** Nesting depth: 0 for a scalar, one more than the deepest child for a container. */
  function Depth(v: Value): nat
    decreases v, 1
  {
    match v
    case Arr(items) => 1 + ItemsDepth(items)
    case Obj(fs) => 1 + FieldsDepth(fs, 0)
    case _ => 0
  }

  function ItemsDepth(items: seq<Value>): (d: nat)
    ensures forall i :: 0 <= i < |items| ==> Depth(items[i]) <= d
    decreases items, 0
  {
    if items == [] then 0
    else
      var here, rest := Depth(items[0]), ItemsDepth(items[1..]);
      if here < rest then rest else here
  }

  /** The deepest value stored at index `i` or later. */
  function FieldsDepth(fs: Fields, i: nat): (d: nat)
    ensures forall j :: i <= j < |fs| ==> Depth(fs[j].1) <= d
    decreases Obj(fs), 0, |fs| - i
  {
    if i >= |fs| then 0
    else
      var here, rest := Depth(fs[i].1), FieldsDepth(fs, i + 1);
      if here < rest then rest else here
  }

  /** The depth of the items is the least bound of the depths of the items. */
  lemma {:induction false} ItemsDepthLeast(items: seq<Value>, b: nat)
    requires forall i :: 0 <= i < |items| ==> Depth(items[i]) <= b
    ensures ItemsDepth(items) <= b
  {
    if items != [] {
      ItemsDepthLeast(items[1..], b);
    }
  }

  /** The depth of the entries from `i` on is the least bound of their depths. */
  lemma {:induction false} FieldsDepthLeast(fs: Fields, i: nat, b: nat)
    requires forall j :: i <= j < |fs| ==> Depth(fs[j].1) <= b
    ensures FieldsDepth(fs, i) <= b
    decreases |fs| - i
  {
    if i < |fs| {
      FieldsDepthLeast(fs, i + 1, b);
    }
  }

  /** Every value stored in the object is shallower than `bound`. */
  predicate Below(fs: Fields, bound: nat) {
    forall e :: e in fs ==> Depth(e.1) < bound
  }

  /** `sanitize(obj)`: the value `obj` is left as once the call returns. */
  function Sanitized(v: Value): (r: Value)
    ensures Depth(r) <= Depth(v)
    decreases Depth(v), 1, 0
  {
    match v
    case Arr(items) =>
      var rs := seq(|items|, i requires 0 <= i < |items| => Sanitized(items[i]));
      assert ItemsDepth(rs) <= ItemsDepth(items) by {
        ItemsDepthLeast(rs, ItemsDepth(items));
      }
      Arr(rs)
    case Obj(fs) =>
      var r := Fold(fs, Keys(fs), Depth(v), true);
      assert FieldsDepth(r, 0) < Depth(v) by {
        forall j | 0 <= j < |r| ensures Depth(r[j].1) <= Depth(v) - 1 {
          assert r[j] in r;
        }
        FieldsDepthLeast(r, 0, Depth(v) - 1);
      }
      Obj(r)
    case _ => v
  }

  /**
   * The `forEach` over the snapshot `keys`, applied to the object as the
   * earlier steps left it. `open` says whether an assignment to `__proto__`
   * that finds no own `__proto__` still reaches the setter of
   * `Object.prototype`, as it does on every object `JSON.parse` makes.
   */
  function Fold(cur: Fields, keys: seq<string>, bound: nat, open: bool): (r: Fields)
    requires Below(cur, bound)
    ensures Below(r, bound)
    decreases bound, 0, |keys|
  {
    if keys == [] then cur
    else Fold(Step(cur, keys[0], bound, open), keys[1..], bound, StepOpen(cur, keys[0], bound, open))
  }

  /** Whether the setter is still reached once the pass over `keys` is done: once it is not, it never is again. */
  function FoldOpen(cur: Fields, keys: seq<string>, bound: nat, open: bool): (r: bool)
    requires Below(cur, bound)
    ensures r ==> open
    decreases bound, 0, |keys|
  {
    if keys == [] then open
    else FoldOpen(Step(cur, keys[0], bound, open), keys[1..], bound, StepOpen(cur, keys[0], bound, open))
  }

  /** The key `Object.prototype` serves through an accessor. */
  const ProtoKey: string := "__proto__"

  /** A key the step renames to `__proto__`, as `$_proto__`, `._proto__` or `$$proto__`. */
  predicate ToProto(key: string) {
    Dangerous(key) && NewKey(key) == ProtoKey
  }

  /**
   * The assignment `obj[newKey] = value` of a renamed key reaches the
   * `__proto__` setter instead of creating a key: the key is renamed to
   * `__proto__`, the object has no own `__proto__`, and its prototype chain
   * still ends at `Object.prototype` with no `__proto__` of its own on the
   * way. The setter makes an object or `null` the prototype and ignores
   * anything else; either way the object gains no key. Otherwise the
   * assignment creates an own `__proto__` like any other key.
   */
  predicate ProtoSetter(cur: Fields, key: string, open: bool) {
    open && ToProto(key) && ProtoKey !in Keys(cur)
  }

  /**
   * Whether, once the setter has been given `v`, a later assignment to
   * `__proto__` still reaches it. A scalar is ignored and an array's chain
   * ends at `Object.prototype` as before; `null` leaves no chain at all. An
   * object that owns `__proto__` stops the lookup there. Any other object is
   * sanitised in place, being what `obj[newKey]` then reads, and the lookup
   * goes through its own `__proto__`, if sanitising gave it one, or on along
   * its own prototype chain.
   */
  function KeepsSetter(v: Value): bool
    decreases Depth(v), 1, 0
  {
    match v
    case Null => false
    case Obj(fs) =>
      ProtoKey !in Keys(fs)
      && ProtoKey !in Keys(Fold(fs, Keys(fs), Depth(v), true))
      && FoldOpen(fs, Keys(fs), Depth(v), true)
    case _ => true
  }

  /** Whether the setter is still reached after the step for `key`: only the setter itself can change that. */
  function StepOpen(cur: Fields, key: string, bound: nat, open: bool): (r: bool)
    requires Below(cur, bound)
    ensures r ==> open
    decreases bound, 0, 0
  {
    match Get(cur, key)
    case None => open
    case Some(x) => if ProtoSetter(cur, key, open) then KeepsSetter(x) else open
  }

  /** The object after the re-keying part of the step for `key`, whose value is `x`. */
  function Moved(cur: Fields, key: string, x: Value, open: bool): Fields {
    if !Dangerous(key) then cur
    else if ProtoSetter(cur, key, open) then Delete(cur, key)
    else Delete(Set(cur, NewKey(key), x), key)
  }

  /**
   * One iteration for `key`: a dangerous key has its value copied to the
   * renamed key and is deleted; then an object or array stored under the new
   * key is sanitised in turn. When the copy reaches the prototype setter the
   * key is only deleted, and what `sanitize` then does to the prototype
   * leaves the object's own keys alone.
   */
  function Step(cur: Fields, key: string, bound: nat, open: bool): (r: Fields)
    requires Below(cur, bound)
    ensures Below(r, bound)
    decreases bound, 0, 0
  {
    match Get(cur, key)
    case None => cur
    case Some(x) =>
      var k := NewKey(key);
      var moved := Moved(cur, key, x, open);
      assert Below(moved, bound) by {
        SetBelow(cur, k, x, bound);
      }
      if ProtoSetter(cur, key, open) then moved
      else if x.Arr? || x.Obj? then
        var s := Sanitized(x);
        SetBelow(moved, k, s, bound);
        Set(moved, k, s)
      else moved
  }

  lemma SetBelow(fs: Fields, k: string, v: Value, bound: nat)
    requires Below(fs, bound) && Depth(v) < bound
    ensures Below(Set(fs, k, v), bound)
  {
    forall e | e in Set(fs, k, v) ensures Depth(e.1) < bound {
      SetEntries(fs, k, v, e);
    }
  }

  /**
   * `sanitize(obj)` as it runs: the arrays' elements and the
   * objects' values are visited in order, an object through a `forEach` over
   * the snapshot of its keys that reads and writes the object as it goes.
   */
  method Sanitize(v: Value) returns (r: Value)
    ensures r == Sanitized(v)
    decreases Depth(v), 2
  {
    match v {
      case Arr(items) =>
        var out: seq<Value> := [];
        var i := 0;
        while i < |items|
          invariant 0 <= i <= |items|
          invariant |out| == i
          invariant forall j :: 0 <= j < i ==> out[j] == Sanitized(items[j])
        {
          var x := Sanitize(items[i]);
          out := out + [x];
          i := i + 1;
        }
        r := Arr(out);
      case Obj(fs) =>
        BelowDepth(fs);
        var cur, _ := SanitizeFields(fs, Depth(v));
        r := Obj(cur);
      case _ =>
        r := v;
    }
  }

  /**
   * The `forEach` over the snapshot of the keys of an object `JSON.parse`
   * made; `open` tells whether the `__proto__` setter is still reached
   * afterwards.
   */
  method SanitizeFields(fs: Fields, bound: nat) returns (cur: Fields, open: bool)
    requires Below(fs, bound)
    ensures cur == Fold(fs, Keys(fs), bound, true)
    ensures open == FoldOpen(fs, Keys(fs), bound, true)
    decreases bound, 1
  {
    var keys := Keys(fs);
    cur, open := fs, true;
    var i := 0;
    while i < |keys|
      invariant 0 <= i <= |keys|
      invariant Below(cur, bound)
      invariant Fold(cur, keys[i..], bound, open) == Fold(fs, keys, bound, true)
      invariant FoldOpen(cur, keys[i..], bound, open) == FoldOpen(fs, keys, bound, true)
    {
      cur, open := SanitizeStep(cur, keys[i], bound, open);
      assert keys[i..][1..] == keys[i + 1..];
      i := i + 1;
    }
  }

  /**
   * One iteration of the `forEach`, for `key`. When the copy reaches the
   * setter, an object given to it that owns no `__proto__` is what
   * `obj[newKey]` reads next, and is sanitised in place as the prototype.
   */
  method SanitizeStep(cur: Fields, key: string, bound: nat, open: bool) returns (next: Fields, nextOpen: bool)
    requires Below(cur, bound)
    ensures next == Step(cur, key, bound, open) && Below(next, bound)
    ensures nextOpen == StepOpen(cur, key, bound, open)
    decreases bound, 0
  {
    next, nextOpen := cur, open;
    match Get(cur, key) {
      case None =>
      case Some(x) =>
        var k := NewKey(key);
        var toPrototype := ProtoSetter(cur, key, open);
        if Dangerous(key) {
          if !toPrototype {
            SetBelow(next, k, x, bound);
            next := Set(next, k, x);
          }
          next := Delete(next, key);
        }
        if toPrototype {
          match x {
            case Null =>
              nextOpen := false;
            case Obj(fs) =>
              if ProtoKey in Keys(fs) {
                nextOpen := false;
              } else {
                BelowDepth(fs);
                var proto, protoOpen := SanitizeFields(fs, Depth(x));
                nextOpen := ProtoKey !in Keys(proto) && protoOpen;
              }
            case _ =>
          }
        } else if x.Arr? || x.Obj? {
          var s := Sanitize(x);
          SetBelow(next, k, s, bound);
          next := Set(next, k, s);
        }
    }
  }

  /** No key at any depth starts with `$` or contains `.`. */
  predicate Clean(v: Value) {
    match v
    case Arr(items) => forall i :: 0 <= i < |items| ==> Clean(items[i])
    case Obj(fs) => forall i :: 0 <= i < |fs| ==> !Dangerous(fs[i].0) && Clean(fs[i].1)
    case _ => true
  }

  predicate AllWellFormed(fs: Fields) {
    forall e :: e in fs ==> WellFormed(e.1)
  }

  /** The entries whose keys the iteration will not visit again are safe and clean. */
  predicate DoneClean(fs: Fields, pending: seq<string>) {
    forall e :: e in fs && e.0 !in pending ==> !Dangerous(e.0) && Clean(e.1)
  }

  lemma BelowDepth(fs: Fields)
    ensures Below(fs, Depth(Obj(fs)))
  {
    forall e | e in fs ensures Depth(e.1) < Depth(Obj(fs)) {
      var i :| 0 <= i < |fs| && fs[i] == e;
    }
  }

  /** Sanitising a well-formed value leaves no dangerous key at any depth and keeps keys unique. */
  lemma {:induction false} SanitizedClean(v: Value)
    requires WellFormed(v)
    ensures Clean(Sanitized(v)) && WellFormed(Sanitized(v))
    decreases Depth(v), 1, 0
  {
    match v
    case Arr(items) =>
      forall i | 0 <= i < |items| ensures Clean(Sanitized(items[i])) && WellFormed(Sanitized(items[i])) {
        SanitizedClean(items[i]);
      }
    case Obj(fs) =>
      var bound := Depth(v);
      BelowDepth(fs);
      forall e | e in fs ensures e.0 in Keys(fs) && WellFormed(e.1) {
        EntryKey(fs, e);
        var i :| 0 <= i < |fs| && fs[i] == e;
      }
      FoldClean(fs, Keys(fs), bound, true);
      var r := Fold(fs, Keys(fs), bound, true);
      forall i | 0 <= i < |r| ensures !Dangerous(r[i].0) && Clean(r[i].1) && WellFormed(r[i].1) {
        assert r[i] in r;
      }
    case _ =>
  }

  lemma {:induction false} FoldClean(cur: Fields, keys: seq<string>, bound: nat, open: bool)
    requires Below(cur, bound) && UniqueKeys(cur) && AllWellFormed(cur) && DoneClean(cur, keys)
    ensures UniqueKeys(Fold(cur, keys, bound, open)) && AllWellFormed(Fold(cur, keys, bound, open))
    ensures DoneClean(Fold(cur, keys, bound, open), [])
    decreases bound, 0, |keys|, 2
  {
    if keys != [] {
      StepClean(cur, keys[0], keys[1..], bound, open);
      FoldClean(Step(cur, keys[0], bound, open), keys[1..], bound, StepOpen(cur, keys[0], bound, open));
    }
  }

  /**
   * What the renaming part of a step does to the object, before any
   * recursion: the value sits under the new key, unless the prototype setter
   * took it, and every other entry is an old one.
   */
  lemma MovedFacts(cur: Fields, key: string, x: Value, rest: seq<string>, open: bool)
    requires Get(cur, key) == Some(x)
    requires UniqueKeys(cur) && AllWellFormed(cur) && DoneClean(cur, [key] + rest)
    ensures var moved := Moved(cur, key, x, open);
      UniqueKeys(moved) && AllWellFormed(moved)
      && Get(moved, NewKey(key)) == (if ProtoSetter(cur, key, open) then None else Some(x))
      && forall e :: e in moved && e.0 != NewKey(key) ==> e in cur && e.0 != key
  {
    var k := NewKey(key);
    if ProtoSetter(cur, key, open) {
      DeleteUnique(cur, key);
    } else if Dangerous(key) {
      var set1 := Set(cur, k, x);
      var moved := Delete(set1, key);
      SetUnique(cur, k, x);
      DeleteUnique(set1, key);
      forall e | e in set1 ensures WellFormed(e.1) && (e.0 != k ==> e in cur) {
        SetEntries(cur, k, x, e);
      }
      forall e | e in moved ensures e.0 != key {
        EntryKey(moved, e);
      }
    } else {
      forall e | e in cur && e.0 != k ensures e.0 != key {
      }
    }
  }

  lemma {:induction false} StepClean(cur: Fields, key: string, rest: seq<string>, bound: nat, open: bool)
    requires Below(cur, bound) && UniqueKeys(cur) && AllWellFormed(cur) && DoneClean(cur, [key] + rest)
    ensures UniqueKeys(Step(cur, key, bound, open)) && AllWellFormed(Step(cur, key, bound, open))
    ensures DoneClean(Step(cur, key, bound, open), rest)
    decreases bound, 0, 0, 1
  {
    match Get(cur, key)
    case None =>
      forall e | e in cur && e.0 !in rest ensures !Dangerous(e.0) && Clean(e.1) {
        EntryKey(cur, e);
      }
    case Some(x) =>
      MovedFacts(cur, key, x, rest, open);
      if x.Arr? || x.Obj? {
        StepCleanNested(cur, key, x, rest, bound, open);
      } else {
        StepCleanScalar(cur, key, x, rest, bound, open);
      }
  }

  /**
   * A step on a container value: it is moved if need be, then replaced by its
   * sanitised form; when the prototype setter takes it, the object only loses
   * the old key.
   */
  lemma StepCleanNested(cur: Fields, key: string, x: Value, rest: seq<string>, bound: nat, open: bool)
    requires Below(cur, bound) && Get(cur, key) == Some(x) && (x.Arr? || x.Obj?)
    requires var moved := Moved(cur, key, x, open);
      UniqueKeys(moved) && AllWellFormed(moved)
      && forall e :: e in moved && e.0 != NewKey(key) ==> e in cur && e.0 != key
    requires DoneClean(cur, [key] + rest)
    ensures UniqueKeys(Step(cur, key, bound, open)) && AllWellFormed(Step(cur, key, bound, open))
    ensures DoneClean(Step(cur, key, bound, open), rest)
    ensures Get(Step(cur, key, bound, open), NewKey(key)) == (if ProtoSetter(cur, key, open) then None else Some(Sanitized(x)))
    decreases bound, 0, 0, 0
  {
    if ProtoSetter(cur, key, open) {
      ProtoSetterStep(cur, key, x, rest, bound, open);
      return;
    }
    var k := NewKey(key);
    var moved := Moved(cur, key, x, open);
    var r := Step(cur, key, bound, open);
    var s := Sanitized(x);
    SanitizedClean(x);
    assert r == Set(moved, k, s);
    SetUnique(moved, k, s);
    forall e | e in r ensures WellFormed(e.1) && (e.0 != k ==> e in moved) {
      SetEntries(moved, k, s, e);
    }
    forall e | e in r && e.0 !in rest ensures !Dangerous(e.0) && Clean(e.1) {
      if e.0 == k {
        UniqueEntry(r, e);
      } else {
        assert e in cur;
      }
    }
  }

  /**
   * A step on a scalar value: it is only moved if need be, and stored as it
   * was; the prototype setter discards it.
   */
  lemma StepCleanScalar(cur: Fields, key: string, x: Value, rest: seq<string>, bound: nat, open: bool)
    requires Below(cur, bound) && Get(cur, key) == Some(x) && !(x.Arr? || x.Obj?)
    requires var moved := Moved(cur, key, x, open);
      UniqueKeys(moved) && AllWellFormed(moved)
      && Get(moved, NewKey(key)) == (if ProtoSetter(cur, key, open) then None else Some(x))
      && forall e :: e in moved && e.0 != NewKey(key) ==> e in cur && e.0 != key
    requires DoneClean(cur, [key] + rest)
    ensures UniqueKeys(Step(cur, key, bound, open)) && AllWellFormed(Step(cur, key, bound, open))
    ensures DoneClean(Step(cur, key, bound, open), rest)
    ensures Get(Step(cur, key, bound, open), NewKey(key)) == (if ProtoSetter(cur, key, open) then None else Some(x))
  {
    if ProtoSetter(cur, key, open) {
      ProtoSetterStep(cur, key, x, rest, bound, open);
      return;
    }
    var k := NewKey(key);
    var r := Step(cur, key, bound, open);
    assert r == Moved(cur, key, x, open);
    forall e | e in r && e.0 !in rest ensures !Dangerous(e.0) && Clean(e.1) {
      if e.0 == k {
        UniqueEntry(r, e);
      } else {
        assert e in cur;
      }
    }
  }

  /** A step whose copy reaches the prototype setter only deletes the old key. */
  lemma ProtoSetterStep(cur: Fields, key: string, x: Value, rest: seq<string>, bound: nat, open: bool)
    requires Below(cur, bound) && Get(cur, key) == Some(x) && ProtoSetter(cur, key, open)
    requires UniqueKeys(Delete(cur, key)) && AllWellFormed(Delete(cur, key)) && DoneClean(cur, [key] + rest)
    ensures Step(cur, key, bound, open) == Delete(cur, key)
    ensures DoneClean(Step(cur, key, bound, open), rest)
    ensures Get(Step(cur, key, bound, open), NewKey(key)).None?
  {
    assert Moved(cur, key, x, open) == Delete(cur, key);
  }

  /** A value with no dangerous key comes back unchanged. */
  lemma {:induction false} CleanUnchanged(v: Value)
    requires Clean(v)
    ensures Sanitized(v) == v
    decreases Depth(v), 1, 0
  {
    match v
    case Arr(items) =>
      forall i | 0 <= i < |items| ensures Sanitized(items[i]) == items[i] {
        CleanUnchanged(items[i]);
      }
    case Obj(fs) =>
      BelowDepth(fs);
      forall e | e in fs ensures !Dangerous(e.0) && Clean(e.1) {
        var i :| 0 <= i < |fs| && fs[i] == e;
      }
      FoldUnchanged(fs, Keys(fs), Depth(v), true);
    case _ =>
  }

  lemma {:induction false} FoldUnchanged(cur: Fields, keys: seq<string>, bound: nat, open: bool)
    requires Below(cur, bound)
    requires forall e :: e in cur ==> !Dangerous(e.0) && Clean(e.1)
    ensures Fold(cur, keys, bound, open) == cur
    decreases bound, 0, |keys|
  {
    if keys != [] {
      match Get(cur, keys[0]) {
        case None =>
        case Some(x) =>
          if x.Arr? || x.Obj? {
            CleanUnchanged(x);
            SetSame(cur, keys[0], x);
          }
      }
      assert Step(cur, keys[0], bound, open) == cur;
      assert StepOpen(cur, keys[0], bound, open) == open;
      FoldUnchanged(cur, keys[1..], bound, open);
    }
  }

  /** Sanitising twice is sanitising once. */
  lemma SanitizeIdempotent(v: Value)
    requires WellFormed(v)
    ensures Sanitized(Sanitized(v)) == Sanitized(v)
  {
    SanitizedClean(v);
    CleanUnchanged(Sanitized(v));
  }

  predicate NoDup(keys: seq<string>) {
    forall i, j :: 0 <= i < j < |keys| ==> keys[i] != keys[j]
  }

  lemma {:induction false} UniqueKeysNoDup(fs: Fields)
    requires UniqueKeys(fs)
    ensures NoDup(Keys(fs))
  {
    if fs != [] {
      UniqueKeysNoDup(fs[1..]);
      var ks := Keys(fs);
      assert ks == [fs[0].0] + Keys(fs[1..]);
      forall i, j | 0 <= i < j < |ks| ensures ks[i] != ks[j] {
        if i == 0 {
          assert ks[j] in Keys(fs[1..]);
        } else {
          assert ks[i] == Keys(fs[1..])[i - 1] && ks[j] == Keys(fs[1..])[j - 1];
        }
      }
    }
  }

  /**
   * The keys after one step: a dangerous key is removed and the renamed key
   * added, unless the prototype setter took the value.
   */
  lemma StepKeys(cur: Fields, key: string, bound: nat, open: bool, j: string)
    requires Below(cur, bound) && key in Keys(cur)
    ensures j in Keys(Step(cur, key, bound, open))
        <==> (j in Keys(cur) && !(j == key && Dangerous(key))) || (j == NewKey(key) && !ProtoSetter(cur, key, open))
  {
    var x := Get(cur, key).value;
    var k := NewKey(key);
    if ProtoSetter(cur, key, open) {
      DeleteKeys(cur, key, j);
      return;
    }
    SetKeys(cur, k, x);
    var moved := Moved(cur, key, x, open);
    if Dangerous(key) {
      DeleteKeys(Set(cur, k, x), key, j);
    }
    if x.Arr? || x.Obj? {
      SetKeys(moved, k, Sanitized(x));
    }
  }

  /**
   * After the pass, every key other than `__proto__` is a safe old key or
   * the new key of a key passed.
   */
  lemma {:induction false} FoldKeys(cur: Fields, keys: seq<string>, bound: nat, open: bool, j: string)
    requires Below(cur, bound) && NoDup(keys)
    requires forall k :: k in keys ==> k in Keys(cur)
    ensures j != ProtoKey ==>
      (j in Keys(Fold(cur, keys, bound, open))
       <==> ((j in Keys(cur) && !(j in keys && Dangerous(j))) || j in NewKeys(keys)))
    decreases |keys|
  {
    if keys != [] && j != ProtoKey {
      var next := Step(cur, keys[0], bound, open);
      PassAfterStep(cur, keys, bound, open);
      FoldKeys(next, keys[1..], bound, StepOpen(cur, keys[0], bound, open), j);
      StepKeys(cur, keys[0], bound, open, j);
      KeysAfterStep(cur, next, keys, open, j);
    }
  }

  /** After the first step of a pass, the rest of the pass still meets the requirements of `FoldKeys`. */
  lemma PassAfterStep(cur: Fields, keys: seq<string>, bound: nat, open: bool)
    requires Below(cur, bound) && NoDup(keys) && keys != []
    requires forall k :: k in keys ==> k in Keys(cur)
    ensures var next := Step(cur, keys[0], bound, open);
      && NoDup(keys[1..])
      && (forall k :: k in keys[1..] ==> k in Keys(next))
  {
    var key, rest := keys[0], keys[1..];
    forall k | k in rest ensures k in Keys(Step(cur, key, bound, open)) {
      var i :| 0 <= i < |rest| && rest[i] == k;
      assert keys[0] != keys[i + 1];
      StepKeepsOther(cur, key, bound, open, k);
    }
    forall a, b | 0 <= a < b < |rest| ensures rest[a] != rest[b] {
      assert rest[a] == keys[a + 1] && rest[b] == keys[b + 1];
    }
  }

  /**
   * A step gives the object an own `__proto__` exactly when it had one, or
   * when it renames its key to `__proto__` once the setter is no longer
   * reached; it never removes one.
   */
  lemma StepProtoKey(cur: Fields, key: string, bound: nat, open: bool)
    requires Below(cur, bound) && key in Keys(cur)
    ensures ProtoKey in Keys(Step(cur, key, bound, open)) <==> ProtoKey in Keys(cur) || (ToProto(key) && !open)
  {
    assert !Dangerous(ProtoKey) by {
      assert '.' !in ProtoKey;
    }
    StepKeys(cur, key, bound, open, ProtoKey);
  }

  /** A step keeps every key other than the one it visits. */
  lemma StepKeepsOther(cur: Fields, key: string, bound: nat, open: bool, k: string)
    requires Below(cur, bound) && key in Keys(cur) && k in Keys(cur) && k != key
    ensures k in Keys(Step(cur, key, bound, open))
  {
    StepKeys(cur, key, bound, open, k);
  }

  /** The keys after the first step of a pass and those after the rest of it, put together. */
  lemma KeysAfterStep(cur: Fields, next: Fields, keys: seq<string>, open: bool, j: string)
    requires NoDup(keys) && keys != [] && keys[0] in Keys(cur) && j != ProtoKey
    requires j in Keys(next)
        <==> ((j in Keys(cur) && !(j == keys[0] && Dangerous(keys[0])))
              || (j == NewKey(keys[0]) && !ProtoSetter(cur, keys[0], open)))
    ensures ((j in Keys(next) && !(j in keys[1..] && Dangerous(j))) || j in NewKeys(keys[1..]))
        <==> ((j in Keys(cur) && !(j in keys && Dangerous(j))) || j in NewKeys(keys))
  {
    var key, rest := keys[0], keys[1..];
    assert keys == [key] + rest;
    assert NewKeys(keys) == [NewKey(key)] + NewKeys(rest);
    assert key !in rest by {
      forall i | 0 <= i < |rest| ensures rest[i] != key {
        assert rest[i] == keys[i + 1];
      }
    }
    if j == NewKey(key) && !Dangerous(key) {
      assert j == key;
    }
  }

  /**
   * The `i`-th key of the pass is renamed to `__proto__` and is reached
   * after the setter stopped being reached, so that it becomes an own key.
   */
  predicate RenamedWhileClosed(cur: Fields, keys: seq<string>, bound: nat, open: bool, i: int)
    requires Below(cur, bound)
  {
    0 <= i < |keys| && ToProto(keys[i]) && !FoldOpen(cur, keys[..i], bound, open)
  }

  /** The pass over `keys[..i + 1]` is the first step followed by the pass over `keys[1..][..i]`. */
  lemma FoldOpenPrefix(cur: Fields, keys: seq<string>, bound: nat, open: bool, i: nat)
    requires Below(cur, bound) && i < |keys|
    ensures FoldOpen(cur, keys[..i + 1], bound, open)
         == FoldOpen(Step(cur, keys[0], bound, open), keys[1..][..i], bound, StepOpen(cur, keys[0], bound, open))
  {
    assert keys[..i + 1][0] == keys[0];
    assert keys[..i + 1][1..] == keys[1..][..i];
  }

  /**
   * After the pass the object owns `__proto__` exactly when it owned it
   * before, or some key renamed to `__proto__` came after the setter
   * stopped being reached.
   */
  lemma {:induction false} FoldProtoKey(cur: Fields, keys: seq<string>, bound: nat, open: bool)
    requires Below(cur, bound) && NoDup(keys)
    requires forall k :: k in keys ==> k in Keys(cur)
    ensures ProtoKey in Keys(Fold(cur, keys, bound, open))
        <==> ProtoKey in Keys(cur) || exists i :: RenamedWhileClosed(cur, keys, bound, open, i)
    decreases |keys|
  {
    if keys == [] {
      return;
    }
    PassAfterStep(cur, keys, bound, open);
    FoldProtoKey(Step(cur, keys[0], bound, open), keys[1..], bound, StepOpen(cur, keys[0], bound, open));
    StepProtoKey(cur, keys[0], bound, open);
    ClosedAfterStep(cur, keys, bound, open);
    assert Fold(cur, keys, bound, open) == Fold(Step(cur, keys[0], bound, open), keys[1..], bound, StepOpen(cur, keys[0], bound, open));
  }

  /** A key renamed while the setter is not reached is the first key, or one such key of the rest of the pass. */
  lemma ClosedAfterStep(cur: Fields, keys: seq<string>, bound: nat, open: bool)
    requires Below(cur, bound) && keys != []
    ensures (exists i :: RenamedWhileClosed(cur, keys, bound, open, i))
        <==> ((ToProto(keys[0]) && !open)
              || exists i :: RenamedWhileClosed(Step(cur, keys[0], bound, open), keys[1..], bound,
                                                StepOpen(cur, keys[0], bound, open), i))
  {
    var rest := keys[1..];
    var next, open1 := Step(cur, keys[0], bound, open), StepOpen(cur, keys[0], bound, open);
    assert keys[..0] == [];
    assert FoldOpen(cur, keys[..0], bound, open) == open;
    if ToProto(keys[0]) && !open {
      assert RenamedWhileClosed(cur, keys, bound, open, 0);
    }
    if exists i :: RenamedWhileClosed(next, rest, bound, open1, i) {
      var i :| RenamedWhileClosed(next, rest, bound, open1, i);
      FoldOpenPrefix(cur, keys, bound, open, i);
      assert keys[i + 1] == rest[i];
      assert RenamedWhileClosed(cur, keys, bound, open, i + 1);
    }
    if exists i :: RenamedWhileClosed(cur, keys, bound, open, i) {
      var i :| RenamedWhileClosed(cur, keys, bound, open, i);
      if i > 0 {
        FoldOpenPrefix(cur, keys, bound, open, i - 1);
        assert rest[i - 1] == keys[i];
        assert RenamedWhileClosed(next, rest, bound, open1, i - 1);
      }
    }
  }

  /**
   * The keys of a sanitised object: every key other than `__proto__` is
   * there exactly when it is the new key of an original key, and
   * `__proto__` exactly when the object owned it or a key renamed to it came
   * after the setter stopped being reached.
   */
  lemma SanitizedKeys(fs: Fields, j: string)
    requires UniqueKeys(fs)
    ensures Sanitized(Obj(fs)).Obj?
    ensures j != ProtoKey ==> (j in Keys(Sanitized(Obj(fs)).fields) <==> j in NewKeys(Keys(fs)))
    ensures ProtoKey in Keys(Sanitized(Obj(fs)).fields)
        <==> ProtoKey in Keys(fs) || exists i :: RenamedWhileClosed(fs, Keys(fs), Depth(Obj(fs)), true, i)
  {
    BelowDepth(fs);
    UniqueKeysNoDup(fs);
    assert Sanitized(Obj(fs)) == Obj(Fold(fs, Keys(fs), Depth(Obj(fs)), true));
    FoldProtoKey(fs, Keys(fs), Depth(Obj(fs)), true);
    if j != ProtoKey {
      FoldKeys(fs, Keys(fs), Depth(Obj(fs)), true, j);
      if j in Keys(fs) && !Dangerous(j) {
        OldKeyIsNewKey(Keys(fs), j);
      }
    }
  }

  /** A safe key of the pass is its own new key. */
  lemma OldKeyIsNewKey(keys: seq<string>, j: string)
    requires j in keys && !Dangerous(j)
    ensures j in NewKeys(keys)
  {
    var i :| 0 <= i < |keys| && keys[i] == j;
    assert NewKeys(keys)[i] == j;
  }

  /** A key renamed to `__proto__` on an object without an own `__proto__` is lost, value and all. */
  lemma ProtoRenameLost()
    ensures Sanitized(Obj([("$_proto__", Num(1))])) == Obj([])
  {
    var o := [("$_proto__", Num(1))];
    assert Dangerous("$_proto__");
    assert NewKey("$_proto__") == ProtoKey;
    BelowDepth(o);
    assert Keys(o) == ["$_proto__"];
    assert ProtoSetter(o, "$_proto__", true);
    assert Step(o, "$_proto__", Depth(Obj(o)), true) == [];
  }

  /** With an own `__proto__` key, as `JSON.parse` creates, the renamed key overwrites it like any other. */
  lemma OwnProtoOverwritten()
    ensures Sanitized(Obj([(ProtoKey, Num(1)), ("$_proto__", Num(2))])) == Obj([(ProtoKey, Num(2))])
  {
    var o := [(ProtoKey, Num(1)), ("$_proto__", Num(2))];
    var d := Depth(Obj(o));
    assert !Dangerous(ProtoKey) && Dangerous("$_proto__");
    assert NewKey("$_proto__") == ProtoKey;
    BelowDepth(o);
    assert Keys(o) == [ProtoKey, "$_proto__"];
    var s1 := Step(o, ProtoKey, d, true);
    assert s1 == o;
    assert !ProtoSetter(s1, "$_proto__", true);
    assert Set(o, ProtoKey, Num(2)) == [(ProtoKey, Num(2)), ("$_proto__", Num(2))];
    assert Delete([(ProtoKey, Num(2)), ("$_proto__", Num(2))], "$_proto__") == [(ProtoKey, Num(2))];
    assert Step(s1, "$_proto__", d, true) == [(ProtoKey, Num(2))];
    assert Fold(o, Keys(o), d, true) == Fold(s1, ["$_proto__"], d, true);
  }

  /** `$_proto__` and `$$proto__` are both renamed to `__proto__`. */
  lemma ProtoRenames()
    ensures ToProto("$_proto__") && ToProto("$$proto__")
  {
    assert Dangerous("$_proto__") && Dangerous("$$proto__");
    assert Renamed("$_proto__") == ProtoKey;
    assert Renamed("$$proto__") == ProtoKey;
  }

  /** Once the setter is no longer reached, `{"$$proto__": 1}` becomes `{"__proto__": 1}`. */
  lemma RenamedOwnOnceClosed(d: nat)
    requires d > 0
    ensures Fold([("$$proto__", Num(1))], ["$$proto__"], d, false) == [(ProtoKey, Num(1))]
  {
    var s1 := [("$$proto__", Num(1))];
    ProtoRenames();
    assert Get(s1, "$$proto__") == Some(Num(1)) && !ProtoSetter(s1, "$$proto__", false);
    assert Set(s1, ProtoKey, Num(1)) == [("$$proto__", Num(1)), (ProtoKey, Num(1))];
    assert Delete([("$$proto__", Num(1)), (ProtoKey, Num(1))], "$$proto__") == [(ProtoKey, Num(1))];
    assert Step(s1, "$$proto__", d, false) == [(ProtoKey, Num(1))];
  }

  /**
   * Once `null` has gone through the setter the object has no prototype, so
   * the next key renamed to `__proto__` becomes an own key.
   */
  lemma NullPrototypeFreesKey()
    ensures Sanitized(Obj([("$_proto__", Null), ("$$proto__", Num(1))])) == Obj([(ProtoKey, Num(1))])
  {
    var o := [("$_proto__", Null), ("$$proto__", Num(1))];
    var d := Depth(Obj(o));
    ProtoRenames();
    BelowDepth(o);
    assert Keys(o) == ["$_proto__", "$$proto__"];
    assert ProtoSetter(o, "$_proto__", true);
    assert Step(o, "$_proto__", d, true) == [("$$proto__", Num(1))];
    assert !StepOpen(o, "$_proto__", d, true);
    RenamedOwnOnceClosed(d);
  }

  /** A scalar given to the setter is ignored, so the next key renamed to `__proto__` reaches it again. */
  lemma ScalarKeepsSetter()
    ensures Sanitized(Obj([("$_proto__", Num(1)), ("$$proto__", Num(2))])) == Obj([])
  {
    var o := [("$_proto__", Num(1)), ("$$proto__", Num(2))];
    var d := Depth(Obj(o));
    ProtoRenames();
    BelowDepth(o);
    assert Keys(o) == ["$_proto__", "$$proto__"];
    assert ProtoSetter(o, "$_proto__", true);
    var s1 := Step(o, "$_proto__", d, true);
    assert s1 == [("$$proto__", Num(2))];
    assert StepOpen(o, "$_proto__", d, true);
    assert ProtoSetter(s1, "$$proto__", true);
    assert Step(s1, "$$proto__", d, true) == [];
    assert Fold(o, Keys(o), d, true) == Fold(s1, ["$$proto__"], d, true);
  }

  /**
   * An object owning `__proto__` that becomes the prototype stops the lookup
   * there, so the next key renamed to `__proto__` becomes an own key.
   */
  lemma OwnedPrototypeFreesKey()
    ensures Sanitized(Obj([("$_proto__", Obj([(ProtoKey, Null)])), ("$$proto__", Num(1))]))
         == Obj([(ProtoKey, Num(1))])
  {
    var p := Obj([(ProtoKey, Null)]);
    var o := [("$_proto__", p), ("$$proto__", Num(1))];
    var d := Depth(Obj(o));
    ProtoRenames();
    BelowDepth(o);
    assert Keys(o) == ["$_proto__", "$$proto__"];
    assert Get(o, "$_proto__") == Some(p) && ProtoSetter(o, "$_proto__", true);
    assert Delete(o, "$_proto__") == [("$$proto__", Num(1))];
    assert Step(o, "$_proto__", d, true) == [("$$proto__", Num(1))];
    assert Keys(p.fields) == [ProtoKey];
    assert !StepOpen(o, "$_proto__", d, true);
    RenamedOwnOnceClosed(d);
  }

  /** A renamed key overwrites the key it collides with, whichever comes first. */
  lemma RenamedKeyOverwrites()
    ensures Sanitized(Obj([("_a", Num(1)), ("$a", Num(2))])) == Obj([("_a", Num(2))])
    ensures Sanitized(Obj([("$a", Num(2)), ("_a", Num(1))])) == Obj([("_a", Num(2))])
  {
    RenamedAfterKey();
    RenamedBeforeKey();
  }

  /** The dangerous key comes second: its value replaces the one already stored under the new key. */
  lemma RenamedAfterKey()
    ensures Sanitized(Obj([("_a", Num(1)), ("$a", Num(2))])) == Obj([("_a", Num(2))])
  {
    assert NewKey("$a") == "_a";
    assert NewKey("_a") == "_a";
    var o1 := [("_a", Num(1)), ("$a", Num(2))];
    var d1 := Depth(Obj(o1));
    BelowDepth(o1);
    var s1 := Step(o1, "_a", d1, true);
    assert s1 == o1;
    var set1 := Set(o1, "_a", Num(2));
    assert set1 == [("_a", Num(2)), ("$a", Num(2))];
    assert Delete(set1, "$a") == [("_a", Num(2))];
    assert Step(s1, "$a", d1, true) == [("_a", Num(2))];
    assert Keys(o1) == ["_a", "$a"];
    assert Fold(o1, Keys(o1), d1, true) == Fold(s1, ["$a"], d1, true);
  }

  /** The dangerous key comes first: the later plain key then overwrites nothing, being the same entry. */
  lemma RenamedBeforeKey()
    ensures Sanitized(Obj([("$a", Num(2)), ("_a", Num(1))])) == Obj([("_a", Num(2))])
  {
    assert NewKey("$a") == "_a";
    assert NewKey("_a") == "_a";
    var o2 := [("$a", Num(2)), ("_a", Num(1))];
    var d2 := Depth(Obj(o2));
    BelowDepth(o2);
    var set2 := Set(o2, "_a", Num(2));
    assert set2 == [("$a", Num(2)), ("_a", Num(2))];
    assert Delete(set2, "$a") == [("_a", Num(2))];
    var s2 := Step(o2, "$a", d2, true);
    assert s2 == [("_a", Num(2))];
    assert Step(s2, "_a", d2, true) == s2;
    assert Keys(o2) == ["$a", "_a"];
    assert Fold(o2, Keys(o2), d2, true) == Fold(s2, ["_a"], d2, true);
  }

  /** An operator key is renamed and its value kept. */
  lemma OperatorKeyRenamed()
    ensures Sanitized(Obj([("$gt", Str(""))])) == Obj([("_gt", Str(""))])
  {
    assert NewKey("$gt") == "_gt";
    var inner := [("$gt", Str(""))];
    BelowDepth(inner);
    assert Keys(inner) == ["$gt"];
    assert Step(inner, "$gt", Depth(Obj(inner)), true) == [("_gt", Str(""))];
  }

  /** An operator smuggled into a nested filter is defused. */
  lemma NestedOperatorDefused()
    ensures Sanitized(Obj([("email", Obj([("$gt", Str(""))]))])) == Obj([("email", Obj([("_gt", Str(""))]))])
  {
    OperatorKeyRenamed();
    var outer := [("email", Obj([("$gt", Str(""))]))];
    BelowDepth(outer);
    assert !Dangerous("email");
    assert Keys(outer) == ["email"];
    var d := Depth(Obj(outer));
    assert Get(outer, "email") == Some(Obj([("$gt", Str(""))]));
    assert Set(outer, "email", Obj([("_gt", Str(""))])) == [("email", Obj([("_gt", Str(""))]))];
    assert Step(outer, "email", d, true) == [("email", Obj([("_gt", Str(""))]))];
    assert Fold(outer, Keys(outer), d, true) == Step(outer, "email", d, true);
  }

  /** A key with a `$` that is not its first character keeps its name, and values are never rewritten. */
  lemma InnerDollarKept()
    ensures Sanitized(Obj([("a$b", Str("$x.y"))])) == Obj([("a$b", Str("$x.y"))])
  {
    assert !Dangerous("a$b");
    CleanUnchanged(Obj([("a$b", Str("$x.y"))]));
  }

  /** The parts of a request the middleware sees; an absent body is `Null`. */
  class Request {
    var body: Value
    var params: Value
    var query: Value

    constructor(body: Value, params: Value, query: Value)
      ensures this.body == body && this.params == params && this.query == query
    {
      this.body := body;
      this.params := params;
      this.query := query;
    }

    /**
     * `customMongoSanitize(req, res, next)`: sanitises `req.body` and
     * `req.params` and calls `next` once; `req.query` is left as it is.
     */
    method CustomMongoSanitize() returns (nextCalls: nat)
      modifies this
      ensures body == Sanitized(old(body)) && params == Sanitized(old(params))
      ensures query == old(query)
      ensures nextCalls == 1
    {
      body := Sanitize(body);
      params := Sanitize(params);
      nextCalls := 1;
    }
  }
}
