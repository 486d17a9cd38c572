/** `camelCaseObjectKey`: renaming every key of a JSON tree. */
module Normalise {
  import opened Values
  import opened CamelCase

  /** The recursive rewrite. Reading `.constructor` off undefined throws, and a cycle never ends. */
  function CamelCaseObjectKey(v: Js): Result<Js>
    decreases v
  {
    match v
    case Undefined => Err(TypeError)
    case Enclosing => Err(StackOverflow)
    case Arr(xs) => var ys :- NormaliseAll(xs); Ok(Arr(ys))
    case Obj(fs) => var gs :- NormaliseFields(fs, []); Ok(Obj(gs))
    case _ => Ok(v)
  }

  function NormaliseAll(xs: seq<Js>): Result<seq<Js>>
    decreases xs
  {
    if xs == [] then Ok([])
    else
      var y :- CamelCaseObjectKey(xs[0]);
      var ys :- NormaliseAll(xs[1..]);
      Ok([y] + ys)
  }

  /** The `reduce`: each renamed key is written into the result so far. */
  function NormaliseFields(fs: seq<Field>, acc: seq<Field>): Result<seq<Field>>
    decreases fs
  {
    if fs == [] then Ok(acc)
    else
      var val :- CamelCaseObjectKey(fs[0].val);
      NormaliseFields(fs[1..], Put(acc, Camel(fs[0].key), val))
  }

  /** JSON as the node sends it: kebab keys, no repeats, no undefined values, no cycles. */
  predicate KebabTree(v: Js)
    decreases v
  {
    match v
    case Arr(xs) => forall x :: x in xs ==> KebabTree(x)
    case Obj(fs) => KebabFields(fs)
    case Undefined => false
    case Enclosing => false
    case GroupFn(_) => false
    case JsonFn(_) => false
    case _ => true
  }

  predicate KebabFields(fs: seq<Field>)
    decreases fs
  {
    DistinctKeys(fs) && forall f :: f in fs ==> Kebab(f.key) && KebabTree(f.val)
  }

  /** The plain reading of the rewrite: the same tree with every key camel-cased where it stands. */
  function Renamed(v: Js): Js
    decreases v
  {
    match v
    case Arr(xs) => Arr(RenamedAll(xs))
    case Obj(fs) => Obj(RenamedFields(fs))
    case _ => v
  }

  function RenamedAll(xs: seq<Js>): (ys: seq<Js>)
    ensures |ys| == |xs|
    decreases xs
  {
    if xs == [] then [] else [Renamed(xs[0])] + RenamedAll(xs[1..])
  }

  function RenamedFields(fs: seq<Field>): (gs: seq<Field>)
    ensures |gs| == |fs|
    decreases fs
  {
    if fs == [] then []
    else [Field(Camel(fs[0].key), Renamed(fs[0].val))] + RenamedFields(fs[1..])
  }

  lemma {:induction false} PutAppends(fs: seq<Field>, key: string, val: Js)
    ensures if HasKey(fs, key) then |Put(fs, key, val)| == |fs|
      else Put(fs, key, val) == fs + [Field(key, val)]
  {
    if fs != [] && fs[0].key != key {
      PutAppends(fs[1..], key, val);
    }
  }

  lemma Reassociate(acc: seq<Field>, f: Field, rest: seq<Field>)
    ensures acc + ([f] + rest) == acc + [f] + rest
  {
  }

  predicate Disjoint(acc: seq<Field>, fs: seq<Field>) {
    forall f :: f in fs ==> !HasKey(acc, Camel(f.key))
  }

  lemma {:induction false} AppendedKeys(acc: seq<Field>, key: string, val: Js, k: string)
    ensures HasKey(acc + [Field(key, val)], k) <==> HasKey(acc, k) || k == key
  {
    if acc != [] {
      AppendedKeys(acc[1..], key, val, k);
      assert (acc + [Field(key, val)])[1..] == acc[1..] + [Field(key, val)];
    }
  }

  lemma {:induction false} MemberHasKey(fs: seq<Field>, f: Field)
    requires f in fs
    ensures HasKey(fs, f.key)
  {
    if fs[0] != f {
      MemberHasKey(fs[1..], f);
    }
  }

  /** Writing one renamed key does not get in the way of the next. */
  lemma StaysDisjoint(fs: seq<Field>, acc: seq<Field>, val: Js)
    requires KebabFields(fs) && fs != [] && Disjoint(acc, fs)
    ensures Disjoint(acc + [Field(Camel(fs[0].key), val)], fs[1..])
  {
    forall f | f in fs[1..] ensures !HasKey(acc + [Field(Camel(fs[0].key), val)], Camel(f.key)) {
      AppendedKeys(acc, Camel(fs[0].key), val, Camel(f.key));
      MemberHasKey(fs[1..], f);
      if Camel(f.key) == Camel(fs[0].key) {
        CamelIsInjective(f.key, fs[0].key);
      }
    }
  }

  /** On JSON with kebab keys no two keys collide, so the rewrite renames every key in place. */
  lemma {:induction false} RewriteRenames(v: Js)
    requires KebabTree(v)
    ensures CamelCaseObjectKey(v) == Ok(Renamed(v))
    decreases v
  {
    match v
    case Arr(xs) => RewriteRenamesAll(xs);
    case Obj(fs) =>
      RewriteRenamesFields(fs, []);
      assert [] + RenamedFields(fs) == RenamedFields(fs);
    case _ =>
  }

  lemma {:induction false} RewriteRenamesAll(xs: seq<Js>)
    requires forall x :: x in xs ==> KebabTree(x)
    ensures NormaliseAll(xs) == Ok(RenamedAll(xs))
    decreases xs
  {
    if xs != [] {
      RewriteRenames(xs[0]);
      RewriteRenamesAll(xs[1..]);
    }
  }

  lemma {:induction false} RewriteRenamesFields(fs: seq<Field>, acc: seq<Field>)
    requires KebabFields(fs) && Disjoint(acc, fs)
    ensures NormaliseFields(fs, acc) == Ok(acc + RenamedFields(fs))
    decreases fs
  {
    if fs == [] {
      assert acc + RenamedFields(fs) == acc;
    } else {
      var key, val := Camel(fs[0].key), Renamed(fs[0].val);
      RewriteRenames(fs[0].val);
      PutAppends(acc, key, val);
      StaysDisjoint(fs, acc, val);
      var acc' := acc + [Field(key, val)];
      assert NormaliseFields(fs, acc) == NormaliseFields(fs[1..], acc') by {
        assert Put(acc, key, val) == acc';
      }
      RewriteRenamesFields(fs[1..], acc');
      Reassociate(acc, Field(key, val), RenamedFields(fs[1..]));
    }
  }

  // ----- Lookup -----

  function CamelPath(path: seq<string>): seq<string> {
    if path == [] then [] else [Camel(path[0])] + CamelPath(path[1..])
  }

  lemma {:induction false} FindRenamed(fs: seq<Field>, key: string)
    requires KebabFields(fs) && Kebab(key)
    ensures Find(RenamedFields(fs), Camel(key)) == Renamed(Find(fs, key))
  {
    if fs != [] {
      if Camel(fs[0].key) == Camel(key) {
        CamelIsInjective(fs[0].key, key);
      } else {
        FindRenamed(fs[1..], key);
      }
    }
  }

  lemma {:induction false} NothingInUndefined(path: seq<string>)
    ensures Get(Undefined, path) == Undefined
  {
    if path != [] {
      NothingInUndefined(path[1..]);
    }
  }

  /** Looking up a camel-cased path after the rewrite is rewriting what the raw path leads to. */
  lemma {:induction false} RewriteCommutesWithLookup(v: Js, path: seq<string>)
    requires KebabTree(v) && forall k :: k in path ==> Kebab(k)
    ensures CamelCaseObjectKey(v).Ok?
    ensures Get(CamelCaseObjectKey(v).value, CamelPath(path)) == Renamed(Get(v, path))
    ensures Get(v, path) != Undefined ==> CamelCaseObjectKey(Get(v, path)) == Ok(Renamed(Get(v, path)))
    decreases |path|
  {
    RewriteRenames(v);
    if path != [] {
      var inner := Lookup(v, path[0]);
      if v.Obj? {
        FindRenamed(v.fields, path[0]);
      }
      assert CamelPath(path)[1..] == CamelPath(path[1..]);
      assert Lookup(Renamed(v), Camel(path[0])) == Renamed(inner);
      if inner == Undefined {
        NothingInUndefined(path[1..]);
        NothingInUndefined(CamelPath(path[1..]));
      } else {
        assert KebabTree(inner);
        RewriteCommutesWithLookup(inner, path[1..]);
        RewriteRenames(inner);
      }
    }
  }

  // ----- Rewriting twice -----

  /** No key anywhere in the tree has initials. */
  predicate NoInitials(v: Js)
    decreases v
  {
    match v
    case Arr(xs) => forall x :: x in xs ==> NoInitials(x)
    case Obj(fs) => forall f :: f in fs ==> !HasInitials(f.key) && NoInitials(f.val)
    case _ => true
  }

  /** A result with one field per input field has nothing overwritten. */
  lemma {:induction false} NothingOverwritten(fs: seq<Field>, acc: seq<Field>)
    requires NormaliseFields(fs, acc).Ok?
    ensures var r := NormaliseFields(fs, acc).value;
      && |r| <= |acc| + |fs|
      && (|r| == |acc| + |fs| ==> acc <= r)
  {
    if fs != [] {
      var key, val := Camel(fs[0].key), CamelCaseObjectKey(fs[0].val).value;
      PutAppends(acc, key, val);
      NothingOverwritten(fs[1..], Put(acc, key, val));
    }
  }

  /** Rewriting twice is rewriting once exactly when no key has initials. */
  lemma {:induction false} RewriteTwice(v: Js)
    requires KebabTree(v)
    ensures CamelCaseObjectKey(Renamed(v)) == Ok(Renamed(v)) <==> NoInitials(v)
    decreases v
  {
    match v
    case Arr(xs) => RewriteTwiceAll(xs);
    case Obj(fs) =>
      RewriteTwiceFields(fs, []);
      assert [] + RenamedFields(fs) == RenamedFields(fs);
    case _ =>
  }

  lemma {:induction false} RewriteTwiceAll(xs: seq<Js>)
    requires forall x :: x in xs ==> KebabTree(x)
    ensures NormaliseAll(RenamedAll(xs)) == Ok(RenamedAll(xs)) <==> forall x :: x in xs ==> NoInitials(x)
    decreases xs
  {
    if xs != [] {
      RewriteTwice(xs[0]);
      RewriteTwiceAll(xs[1..]);
      assert RenamedAll(xs)[1..] == RenamedAll(xs[1..]);
      assert xs == [xs[0]] + xs[1..];
    }
  }

  lemma {:induction false} RewriteTwiceFields(fs: seq<Field>, acc: seq<Field>)
    requires KebabFields(fs) && Disjoint(acc, fs)
    ensures NormaliseFields(RenamedFields(fs), acc) == Ok(acc + RenamedFields(fs))
      <==> forall f :: f in fs ==> !HasInitials(f.key) && NoInitials(f.val)
    decreases fs
  {
    if fs == [] {
      assert acc + RenamedFields(fs) == acc;
    } else {
      var key, val := Camel(fs[0].key), Renamed(fs[0].val);
      var gs := RenamedFields(fs);
      assert gs[0] == Field(key, val) && gs[1..] == RenamedFields(fs[1..]);
      CamelTwice(fs[0].key);
      RewriteTwice(fs[0].val);
      Reassociate(acc, Field(key, val), RenamedFields(fs[1..]));
      if NormaliseFields(gs, acc) == Ok(acc + gs) {
        var once := CamelCaseObjectKey(val).value;
        var acc' := Put(acc, Camel(key), once);
        PutAppends(acc, Camel(key), once);
        NothingOverwritten(gs[1..], acc');
        assert acc' == acc + [Field(Camel(key), once)];
        assert (acc + gs)[|acc|] == acc'[|acc|];
      }
      if !HasInitials(fs[0].key) && NoInitials(fs[0].val) {
        PutAppends(acc, key, val);
        StaysDisjoint(fs, acc, val);
        RewriteTwiceFields(fs[1..], acc + [Field(key, val)]);
      }
      assert fs == [fs[0]] + fs[1..];
    }
  }
}
