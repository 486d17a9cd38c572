/** De-duplicating query entries by a sorted key. */
module Uniq {
  import opened Values
  import opened Dictionary

  /** The order of strings by their characters. */
  predicate Le(a: string, b: string)
    decreases |a|
  {
    a == [] || (b != [] && (a[0] < b[0] || (a[0] == b[0] && Le(a[1..], b[1..]))))
  }

  lemma {:induction false} LeTotal(a: string, b: string)
    ensures Le(a, b) || Le(b, a)
    decreases |a|
  {
    if a != [] && b != [] && a[0] == b[0] {
      LeTotal(a[1..], b[1..]);
    }
  }

  lemma {:induction false} LeAntisymmetric(a: string, b: string)
    requires Le(a, b) && Le(b, a)
    ensures a == b
    decreases |a|
  {
    if a != [] && b != [] {
      LeAntisymmetric(a[1..], b[1..]);
      assert a == [a[0]] + a[1..] && b == [b[0]] + b[1..];
    }
  }

  lemma {:induction false} LeTransitive(a: string, b: string, c: string)
    requires Le(a, b) && Le(b, c)
    ensures Le(a, c)
    decreases |a|
  {
    if a != [] && a[0] == b[0] && b[0] == c[0] {
      LeTransitive(a[1..], b[1..], c[1..]);
    }
  }

  // ----- sortBy -----

  /** Puts a condition before the first one it need not follow. */
  function Insert(c: Condition, cs: seq<Condition>): seq<Condition> {
    if cs == [] || Le(c.field, cs[0].field) then [c] + cs else [cs[0]] + Insert(c, cs[1..])
  }

  /** `sortBy(conditions, c => c.field)`, a stable sort. */
  function SortBy(cs: seq<Condition>): seq<Condition> {
    if cs == [] then [] else Insert(cs[0], SortBy(cs[1..]))
  }

  predicate Sorted(cs: seq<Condition>) {
    forall i, j :: 0 <= i < j < |cs| ==> Le(cs[i].field, cs[j].field)
  }

  lemma {:induction false} InsertSorts(c: Condition, cs: seq<Condition>)
    requires Sorted(cs)
    ensures Sorted(Insert(c, cs))
    ensures multiset(Insert(c, cs)) == multiset(cs) + multiset{c}
  {
    if cs == [] {
    } else if Le(c.field, cs[0].field) {
      forall j | 0 <= j < |cs| ensures Le(c.field, cs[j].field) {
        if j > 0 {
          LeTransitive(c.field, cs[0].field, cs[j].field);
        }
      }
    } else {
      assert cs == [cs[0]] + cs[1..];
      InsertSorts(c, cs[1..]);
      LeTotal(c.field, cs[0].field);
      forall d | d in Insert(c, cs[1..]) ensures Le(cs[0].field, d.field) {
        assert d in multiset(Insert(c, cs[1..]));
      }
    }
  }

  lemma {:induction false} SortBySorts(cs: seq<Condition>)
    ensures Sorted(SortBy(cs)) && multiset(SortBy(cs)) == multiset(cs)
  {
    if cs != [] {
      SortBySorts(cs[1..]);
      InsertSorts(cs[0], SortBy(cs[1..]));
      assert cs == [cs[0]] + cs[1..];
    }
  }

  predicate DistinctFields(cs: seq<Condition>) {
    forall i, j :: 0 <= i < j < |cs| ==> cs[i].field != cs[j].field
  }

  lemma OneConditionPerField(cs: seq<Condition>, c: Condition, d: Condition)
    requires DistinctFields(cs) && c in cs && d in cs && c.field == d.field
    ensures c == d
  {
  }

  /** Equal multisets start from each other's elements. */
  lemma HeadsAreShared(xs: seq<Condition>, ys: seq<Condition>)
    requires multiset(xs) == multiset(ys) && xs != []
    ensures |xs| == |ys| && xs[0] in ys && ys[0] in xs
  {
    assert |multiset(xs)| == |xs| && |multiset(ys)| == |ys|;
    assert xs[0] in multiset(ys) && ys[0] in multiset(xs);
  }

  lemma TailMultiset(xs: seq<Condition>)
    requires xs != []
    ensures multiset(xs[1..]) == multiset(xs) - multiset{xs[0]}
  {
    assert xs == [xs[0]] + xs[1..];
  }

  /** A sorted list with distinct fields is determined by its conditions. */
  lemma {:induction false} SortedIsUnique(xs: seq<Condition>, ys: seq<Condition>)
    requires Sorted(xs) && Sorted(ys) && DistinctFields(xs) && multiset(xs) == multiset(ys)
    ensures xs == ys
  {
    if xs == [] {
      assert |multiset(ys)| == |ys|;
    } else {
      HeadsAreShared(xs, ys);
      assert Le(xs[0].field, ys[0].field) by {
        LeTotal(xs[0].field, xs[0].field);
      }
      assert Le(ys[0].field, xs[0].field) by {
        LeTotal(ys[0].field, ys[0].field);
      }
      LeAntisymmetric(xs[0].field, ys[0].field);
      OneConditionPerField(xs, xs[0], ys[0]);
      TailMultiset(xs);
      TailMultiset(ys);
      SortedIsUnique(xs[1..], ys[1..]);
      assert xs == [xs[0]] + xs[1..] && ys == [ys[0]] + ys[1..];
    }
  }

  /** Distinct fields stay distinct in any order. */
  lemma DistinctInAnyOrder(xs: seq<Condition>, ys: seq<Condition>)
    requires DistinctFields(xs) && multiset(xs) == multiset(ys)
    ensures DistinctFields(ys)
  {
    forall i, j | 0 <= i < j < |ys| ensures ys[i].field != ys[j].field {
      if ys[i].field == ys[j].field {
        assert ys[i] in multiset(xs) && ys[j] in multiset(xs);
        OneConditionPerField(xs, ys[i], ys[j]);
        CountedTwice(ys, i, j);
        OccursOnce(xs, ys[i]);
      }
    }
  }

  lemma CountedTwice(ys: seq<Condition>, i: nat, j: nat)
    requires i < j < |ys| && ys[i] == ys[j]
    ensures multiset(ys)[ys[i]] >= 2
  {
    assert ys == ys[..i] + [ys[i]] + ys[i + 1..j] + [ys[j]] + ys[j + 1..];
  }

  lemma {:induction false} OccursOnce(xs: seq<Condition>, c: Condition)
    requires DistinctFields(xs)
    ensures multiset(xs)[c] <= 1
  {
    if xs != [] {
      OccursOnce(xs[1..], c);
      assert xs == [xs[0]] + xs[1..];
      if xs[0] == c {
        assert c !in xs[1..];
      }
    }
  }

  // ----- uniqBy -----

  /** The key an entry is compared by, before it is written out as a string. */
  datatype Key = Key(entity: string, sorted: seq<Condition>)

  function KeyOf(e: Entry): Key {
    Key(e.entity, SortBy(e.conditions))
  }

  function UniqFrom(es: seq<Entry>, seen: set<Key>): seq<Entry> {
    if es == [] then []
    else if KeyOf(es[0]) in seen then UniqFrom(es[1..], seen)
    else [es[0]] + UniqFrom(es[1..], seen + {KeyOf(es[0])})
  }

  function UniqBy(es: seq<Entry>): seq<Entry> {
    UniqFrom(es, {})
  }

  lemma {:induction false} UniqFromIsPart(es: seq<Entry>, seen: set<Key>, e: Entry)
    requires e in UniqFrom(es, seen)
    ensures e in es
  {
    if es != [] && e != es[0] {
      UniqFromIsPart(es[1..], if KeyOf(es[0]) in seen then seen else seen + {KeyOf(es[0])}, e);
    }
  }

  /** Entries that ask for the same conditions, in any order. */
  predicate Permutes(a: Entry, b: Entry) {
    a.entity == b.entity && multiset(a.conditions) == multiset(b.conditions)
  }

  predicate AllDistinct(es: seq<Entry>) {
    forall e :: e in es ==> DistinctFields(e.conditions)
  }

  /** The key is canonical: it tells entries apart exactly up to the order of their conditions. */
  lemma KeyIsCanonical(a: Entry, b: Entry)
    requires DistinctFields(a.conditions)
    ensures KeyOf(a) == KeyOf(b) <==> Permutes(a, b)
  {
    SortBySorts(a.conditions);
    SortBySorts(b.conditions);
    if Permutes(a, b) {
      DistinctInAnyOrder(a.conditions, SortBy(a.conditions));
      SortedIsUnique(SortBy(a.conditions), SortBy(b.conditions));
    }
  }

  predicate SeenBefore(es: seq<Entry>, e: Entry) {
    exists d :: d in es && Permutes(d, e)
  }

  /** The plain reading: keep an entry unless an earlier one is a permutation of it. */
  function KeepFirst(es: seq<Entry>): seq<Entry> {
    if es == [] then []
    else
      var init, last := es[..|es| - 1], es[|es| - 1];
      KeepFirst(init) + if SeenBefore(init, last) then [] else [last]
  }

  lemma {:induction false} UniqAppend(es: seq<Entry>, e: Entry, seen: set<Key>)
    ensures UniqFrom(es + [e], seen)
         == UniqFrom(es, seen)
            + if KeyOf(e) in seen || (exists d :: d in es && KeyOf(d) == KeyOf(e)) then [] else [e]
  {
    if es == [] {
      assert es + [e] == [e];
    } else {
      assert (es + [e])[1..] == es[1..] + [e];
      assert es == [es[0]] + es[1..];
      if KeyOf(es[0]) in seen {
        UniqAppend(es[1..], e, seen);
      } else {
        UniqAppend(es[1..], e, seen + {KeyOf(es[0])});
      }
    }
  }

  /** Comparing sorted keys keeps exactly the first entry of each kind, in order. */
  lemma {:induction false} UniqKeepsFirst(es: seq<Entry>)
    requires AllDistinct(es)
    ensures UniqBy(es) == KeepFirst(es)
  {
    if es != [] {
      var init, last := es[..|es| - 1], es[|es| - 1];
      assert es == init + [last];
      UniqKeepsFirst(init);
      UniqAppend(init, last, {});
      forall d | d in init ensures KeyOf(d) == KeyOf(last) <==> Permutes(d, last) {
        KeyIsCanonical(d, last);
      }
    }
  }

  /** Only given entries are kept. */
  lemma {:induction false} KeptAreGiven(es: seq<Entry>, e: Entry)
    requires e in KeepFirst(es)
    ensures e in es
  {
    var init, last := es[..|es| - 1], es[|es| - 1];
    assert es == init + [last];
    if e in KeepFirst(init) {
      KeptAreGiven(init, e);
    }
  }

  /** One entry of each kind is kept. */
  lemma {:induction false} KeptCover(es: seq<Entry>, e: Entry) returns (kept: Entry)
    requires e in es
    ensures kept in KeepFirst(es) && Permutes(kept, e)
    decreases |es|
  {
    var init, last := es[..|es| - 1], es[|es| - 1];
    assert es == init + [last];
    if e in init {
      kept := KeptCover(init, e);
    } else if SeenBefore(init, last) {
      var d :| d in init && Permutes(d, last);
      kept := KeptCover(init, d);
    } else {
      kept := last;
    }
  }

  /** No two kept entries are permutations of each other. */
  lemma {:induction false} KeptAreDistinct(es: seq<Entry>, i: nat, j: nat)
    requires i < j < |KeepFirst(es)|
    ensures !Permutes(KeepFirst(es)[i], KeepFirst(es)[j])
    decreases |es|
  {
    var init := es[..|es| - 1];
    if j < |KeepFirst(init)| {
      KeptAreDistinct(init, i, j);
    } else {
      KeptAreGiven(init, KeepFirst(init)[i]);
    }
  }

  lemma PermutationsMatchAlike(txn: Js, e: Entry, d: Entry)
    requires Permutes(d, e) && EntryMatches(txn, e)
    ensures EntryMatches(txn, d)
  {
    forall c | c in d.conditions ensures c in e.conditions {
      assert c in multiset(e.conditions);
    }
  }

  /** De-duplication finds the same transactions as all the entries do. */
  lemma UniqKeepsMeaning(txn: Js, es: seq<Entry>)
    requires AllDistinct(es)
    ensures AnyMatches(txn, UniqBy(es)) <==> AnyMatches(txn, es)
  {
    UniqKeepsFirst(es);
    if AnyMatches(txn, UniqBy(es)) {
      var e :| e in UniqBy(es) && EntryMatches(txn, e);
      KeptAreGiven(es, e);
    }
    if AnyMatches(txn, es) {
      var e :| e in es && EntryMatches(txn, e);
      var d := KeptCover(es, e);
      PermutationsMatchAlike(txn, e, d);
    }
  }
}
