/** JavaScript values as the node sees them, and the few operations on them it uses. */
module Values {
  datatype Option<+T> = None | Some(value: T)

  /** What a failed call throws. */
  datatype Error =
    | TypeError                      // a property read off undefined or null
    | StackOverflow                  // a traversal that follows a cycle
    | LookupFailed                   // the indexer did not serve a block
    | HealthCheckFailed              // the indexer did not serve its status
    | NoBlockHash(round: nat)        // thrown after the wait at the chain tip
    | UnknownHandlerKind             // no base handler kind for a handler

  datatype Result<+T> = Ok(value: T) | Err(error: Error) {
    predicate IsFailure() {
      Err?
    }

    function PropagateFailure<U>(): Result<U>
      requires Err?
    {
      Err(error)
    }

    function Extract(): T
      requires Ok?
    {
      value
    }
  }

  /**
   * Objects are lists of own properties in insertion order. `GroupFn` and `JsonFn` are the two
   * function values a constructed block carries; `Enclosing` is a reference from a transaction
   * back to the block that holds it.
   */
  datatype Js =
    | Undefined
    | Null
    | Bool(b: bool)
    | Num(n: int)
    | Str(s: string)
    | Arr(elems: seq<Js>)
    | Obj(fields: seq<Field>)
    | GroupFn(captured: seq<Js>)
    | JsonFn(hidden: seq<string>)
    | Enclosing

  datatype Field = Field(key: string, val: Js)

  predicate Truthy(v: Js) {
    v != Undefined && v != Null && v != Bool(false) && v != Num(0) && v != Str("")
  }

  /** `===` between values of separate object graphs: objects and arrays are never identical. */
  predicate StrictEq(a: Js, b: Js) {
    a == b && !a.Arr? && !a.Obj? && !a.GroupFn? && !a.JsonFn? && !a.Enclosing?
  }

  predicate HasKey(fs: seq<Field>, key: string) {
    fs != [] && (fs[0].key == key || HasKey(fs[1..], key))
  }

  predicate DistinctKeys(fs: seq<Field>) {
    fs != [] ==> !HasKey(fs[1..], fs[0].key) && DistinctKeys(fs[1..])
  }

  /** Reading an own property. */
  function Find(fs: seq<Field>, key: string): (v: Js)
    ensures !HasKey(fs, key) ==> v == Undefined
    ensures HasKey(fs, key) ==> Field(key, v) in fs
  {
    if fs == [] then Undefined
    else if fs[0].key == key then fs[0].val
    else Find(fs[1..], key)
  }

  lemma OneProperty(f: Field, key: string)
    ensures HasKey([f], key) <==> f.key == key
    ensures Find([f], key) == if f.key == key then f.val else Undefined
  {
    assert [f][1..] == [];
  }

  /** Writing an own property: an existing key keeps its place, a new one goes last. */
  function Put(fs: seq<Field>, key: string, val: Js): (r: seq<Field>)
    ensures forall k {:trigger Find(r, k)} :: Find(r, k) == if k == key then val else Find(fs, k)
    ensures forall k {:trigger HasKey(r, k)} :: HasKey(r, k) <==> k == key || HasKey(fs, k)
    ensures DistinctKeys(fs) ==> DistinctKeys(r)
  {
    if fs == [] then [Field(key, val)]
    else if fs[0].key == key then [Field(key, val)] + fs[1..]
    else [fs[0]] + Put(fs[1..], key, val)
  }

  /** With distinct keys, a property is found exactly where it is written. */
  lemma {:induction false} FindMember(fs: seq<Field>, i: nat)
    requires DistinctKeys(fs) && i < |fs|
    ensures HasKey(fs, fs[i].key) && Find(fs, fs[i].key) == fs[i].val
  {
    if i > 0 {
      FindMember(fs[1..], i - 1);
    }
  }

  /** Reading a property of any value, as the node's property paths do. */
  function Lookup(v: Js, key: string): Js {
    match v
    case Obj(fs) => Find(fs, key)
    case _ => Undefined
  }

  /** lodash `get` along a path of property names. */
  function Get(v: Js, path: seq<string>): Js
    decreases |path|
  {
    if path == [] then v else Get(Lookup(v, path[0]), path[1..])
  }
}
