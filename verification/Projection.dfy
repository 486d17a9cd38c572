/** What a filter reads off a normalised transaction, in terms of the raw one. */
module Projection {
  import opened Values
  import opened CamelCase
  import opened Normalise
  import opened Filters

  /** Letters only, beginning small, with every capital between small letters. */
  predicate PlainName(name: string) {
    name != [] && forall i :: 0 <= i < |name| ==> KindOf(name[i]) == Lower || LoneCapital(name, i)
  }

  predicate LoneCapital(name: string, i: nat) {
    && 0 < i < |name| - 1 && KindOf(name[i]) == Upper
    && KindOf(name[i - 1]) == Lower && KindOf(name[i + 1]) == Lower
  }

  lemma {:induction false} UncamelledFrom(name: string, k: nat)
    requires PlainName(name) && 0 < k <= |name|
    ensures KebabFrom(Lower, Uncamel(name[k..]))
    ensures CamelFrom(Lower, true, Uncamel(name[k..])) == name[k..]
    decreases |name| - k
  {
    if k < |name| {
      UncamelledFrom(name, k + 1);
      var rest := Uncamel(name[k + 1..]);
      assert name[k..][1..] == name[k + 1..];
      if KindOf(name[k]) == Upper {
        assert Uncamel(name[k..]) == ['-', ToLower(name[k])] + rest;
        assert Uncamel(name[k..])[1..] == [ToLower(name[k])] + rest;
      }
    }
  }

  /** A plain name is the camel-cased form of a kebab key. */
  lemma PlainNameIsCamel(name: string)
    requires PlainName(name)
    ensures Kebab(Uncamel(name)) && Camel(Uncamel(name)) == name
  {
    UncamelledFrom(name, 1);
    assert Uncamel(name) == [name[0]] + Uncamel(name[1..]);
  }

  predicate PlainPath(path: seq<string>) {
    forall name :: name in path ==> PlainName(name)
  }

  /** The raw path behind a path of property names. */
  function RawPath(path: seq<string>): seq<string> {
    if path == [] then [] else [Uncamel(path[0])] + RawPath(path[1..])
  }

  lemma {:induction false} RawPathIsKebab(path: seq<string>)
    requires PlainPath(path)
    ensures forall k :: k in RawPath(path) ==> Kebab(k)
    ensures CamelPath(RawPath(path)) == path
  {
    if path != [] {
      PlainNameIsCamel(path[0]);
      RawPathIsKebab(path[1..]);
    }
  }

  // ----- The names of the mapping table -----

  lemma PaymentNames(name: string)
    requires name in {"paymentTransaction", "keyregTransaction"}
    ensures PlainName(name)
  {
  }

  lemma ConfigNames(name: string)
    requires name in {"assetConfigTransaction", "assetTransferTransaction"}
    ensures PlainName(name)
  {
  }

  lemma FreezeNames(name: string)
    requires name in {"assetFreezeTransaction", "applicationTransaction"}
    ensures PlainName(name)
  {
  }

  lemma DetailNames(name: string)
    requires name in {"sender", "receiver", "assetId", "applicationId", "applicationArgs"}
    ensures PlainName(name)
  {
  }

  lemma OtherNames(name: string)
    requires name in {"nonParticipation", "newFreezeStatus", "txType", "undefined"}
    ensures PlainName(name)
  {
  }

  /** Every path of the mapping table is a camel-cased kebab path. */
  lemma MappedPathsAreRawPaths(txType: string, key: string)
    requires PathOf(txType, key).Some?
    ensures var path := PathOf(txType, key).value;
      && (forall k :: k in RawPath(path) ==> Kebab(k))
      && CamelPath(RawPath(path)) == path
  {
    var path := PathOf(txType, key).value;
    forall name | name in path ensures PlainName(name) {
      if name in {"paymentTransaction", "keyregTransaction"} {
        PaymentNames(name);
      } else if name in {"assetConfigTransaction", "assetTransferTransaction"} {
        ConfigNames(name);
      } else if name in {"assetFreezeTransaction", "applicationTransaction"} {
        FreezeNames(name);
      } else if name in {"sender", "receiver", "assetId", "applicationId", "applicationArgs"} {
        DetailNames(name);
      } else {
        OtherNames(name);
      }
    }
    RawPathIsKebab(path);
  }

  /** A property of the raw transaction, by its name after normalisation. */
  function RawProperty(raw: Js, name: string): Js {
    Get(raw, RawPath([name]))
  }

  /** What a filter key stands for in a raw transaction. */
  function RawProject(raw: Js, key: string): Js {
    var txType := RawProperty(raw, "txType");
    match (if txType.Str? then PathOf(txType.s, key) else None)
    case Some(path) => Get(raw, RawPath(path))
    case None => RawProperty(raw, "undefined")
  }

  lemma PropertyIsRaw(raw: Js, name: string)
    requires KebabTree(raw) && PlainName(name)
    ensures Lookup(Renamed(raw), name) == Renamed(RawProperty(raw, name))
  {
    var path := [name];
    RawPathIsKebab(path);
    RewriteRenames(raw);
    RewriteCommutesWithLookup(raw, RawPath(path));
    assert path[1..] == [] && Get(Renamed(raw), path) == Get(Lookup(Renamed(raw), name), []);
  }

  /** What a filter reads off a normalised transaction is the renamed property of the raw one. */
  lemma ProjectReadsRaw(raw: Js, key: string)
    requires KebabTree(raw)
    ensures CamelCaseObjectKey(raw).Ok?
    ensures Project(CamelCaseObjectKey(raw).value, key) == Renamed(RawProject(raw, key))
  {
    RewriteRenames(raw);
    OtherNames("txType");
    OtherNames("undefined");
    PropertyIsRaw(raw, "txType");
    PropertyIsRaw(raw, "undefined");
    var txType := Lookup(Renamed(raw), "txType");
    if txType.Str? && PathOf(txType.s, key).Some? {
      MappedPathsAreRawPaths(txType.s, key);
      RewriteCommutesWithLookup(raw, RawPath(PathOf(txType.s, key).value));
    }
  }
}
