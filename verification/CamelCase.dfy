/**
 * lodash `camelCase` on ASCII keys. Lodash cuts a key into words and joins them with capitals;
 * on ASCII each character's fate depends only on its neighbours, which is how it is written here.
 */
module CamelCase {
  datatype Kind = Break | Digit | Lower | Upper

  function KindOf(c: char): Kind {
    if 'a' <= c <= 'z' then Lower
    else if 'A' <= c <= 'Z' then Upper
    else if '0' <= c <= '9' then Digit
    else Break
  }

  function ToUpper(c: char): char {
    if 'a' <= c <= 'z' then (c as int - 32) as char else c
  }

  function ToLower(c: char): char {
    if 'A' <= c <= 'Z' then (c as int + 32) as char else c
  }

  /** The kind of the next character. */
  function Ahead(s: string): Kind {
    if s == [] then Break else KindOf(s[0])
  }

  /** Whether a character begins a word: digits stand apart, and a run of capitals is one word
      unless its last capital is followed by a small letter. */
  predicate BeginsWord(prev: Kind, here: Kind, next: Kind) {
    match here
    case Break => false
    case Digit => prev != Digit
    case Lower => prev == Break || prev == Digit
    case Upper => prev != Upper || next == Lower
  }

  /** The rest of a key, after a character of kind `prev`; `started` once a word has begun. */
  function CamelFrom(prev: Kind, started: bool, s: string): string
    decreases |s|
  {
    if s == [] then []
    else
      var here := KindOf(s[0]);
      if here == Break then CamelFrom(Break, started, s[1..])
      else
        var c := if started && BeginsWord(prev, here, Ahead(s[1..])) then ToUpper(s[0]) else ToLower(s[0]);
        [c] + CamelFrom(here, true, s[1..])
  }

  function Camel(key: string): string {
    CamelFrom(Break, false, key)
  }

  /** Segments of small letters, each with optional digits at its end, joined by hyphens. */
  predicate KebabFrom(prev: Kind, s: string)
    decreases |s|
  {
    if s == [] then prev != Break
    else
      match KindOf(s[0])
      case Break => s[0] == '-' && prev != Break && KebabFrom(Break, s[1..])
      case Digit => prev != Break && KebabFrom(Digit, s[1..])
      case Lower => prev != Digit && KebabFrom(Lower, s[1..])
      case Upper => false
  }

  predicate Kebab(key: string) {
    KebabFrom(Break, key)
  }

  // ----- Camel-casing kebab keys can be undone -----

  function Uncamel(s: string): string {
    if s == [] then []
    else if KindOf(s[0]) == Upper then ['-', ToLower(s[0])] + Uncamel(s[1..])
    else [s[0]] + Uncamel(s[1..])
  }

  lemma {:induction false} UncamelUndoes(prev: Kind, s: string)
    requires KebabFrom(prev, s) && prev != Break && prev != Upper
    ensures Uncamel(CamelFrom(prev, true, s)) == s
    decreases |s|
  {
    if s != [] {
      if KindOf(s[0]) == Break {
        assert CamelFrom(prev, true, s) == [ToUpper(s[1])] + CamelFrom(Lower, true, s[1..][1..]);
        UncamelUndoes(Lower, s[1..][1..]);
        assert s == ['-', s[1]] + s[1..][1..];
      } else {
        UncamelUndoes(KindOf(s[0]), s[1..]);
      }
    }
  }

  /** A kebab key can be read back from its camel-cased form. */
  lemma CamelHasInverse(key: string)
    requires Kebab(key)
    ensures Uncamel(Camel(key)) == key
  {
    UncamelUndoes(Lower, key[1..]);
  }

  /** So distinct kebab keys never collide. */
  lemma CamelIsInjective(a: string, b: string)
    requires Kebab(a) && Kebab(b) && Camel(a) == Camel(b)
    ensures a == b
  {
    CamelHasInverse(a);
    CamelHasInverse(b);
  }

  // ----- Camel-casing twice -----

  /** A one-letter segment after the first, directly followed by another one-letter segment. */
  predicate HasInitials(key: string) {
    |key| >= 4 &&
      ((key[0] == '-' && key[2] == '-' && Ahead(key[4..]) != Lower) || HasInitials(key[1..]))
  }

  lemma AheadKept(s: string)
    requires KebabFrom(Lower, s)
    ensures Ahead(CamelFrom(Lower, true, s)) == Lower <==> Ahead(s) == Lower
  {
    if s != [] && KindOf(s[0]) == Break {
      assert CamelFrom(Lower, true, s) == [ToUpper(s[1])] + CamelFrom(Lower, true, s[1..][1..]);
    }
  }

  lemma {:induction false} CamelTwiceFrom(prev: Kind, shown: Kind, s: string)
    requires KebabFrom(prev, s) && (prev == Lower || prev == Digit)
    requires shown == prev || (shown == Upper && prev == Lower)
    ensures var d := CamelFrom(prev, true, s);
      CamelFrom(shown, true, d) == d <==>
        !HasInitials(s) && !(shown == Upper && |s| >= 2 && s[0] == '-' && Ahead(s[2..]) != Lower)
    decreases |s|
  {
    if s != [] {
      var d := CamelFrom(prev, true, s);
      if KindOf(s[0]) == Break {
        var rest := s[1..][1..];
        assert rest == s[2..];
        var e := CamelFrom(Lower, true, rest);
        assert d == [ToUpper(s[1])] + e;
        CamelTwiceFrom(Lower, Upper, rest);
        AheadKept(rest);
        assert d[1..] == e;
        assert HasInitials(s[1..]) <==> HasInitials(rest);
      } else {
        CamelTwiceFrom(KindOf(s[0]), KindOf(s[0]), s[1..]);
        assert d[1..] == CamelFrom(KindOf(s[0]), true, s[1..]);
      }
    }
  }

  /** Camel-casing twice is camel-casing once exactly for keys without initials. */
  lemma CamelTwice(key: string)
    requires Kebab(key)
    ensures Camel(Camel(key)) == Camel(key) <==> !HasInitials(key)
  {
    CamelTwiceFrom(Lower, Lower, key[1..]);
    assert Camel(key)[1..] == CamelFrom(Lower, true, key[1..]);
  }

  /** The shortest keys with initials: one letter, then two more, each after a hyphen. */
  lemma InitialsAreLost(a: char, b: char, c: char)
    requires KindOf(a) == KindOf(b) == KindOf(c) == Lower
    ensures var key := [a, '-', b, '-', c];
      && Kebab(key) && HasInitials(key)
      && Camel(key) == [a, ToUpper(b), ToUpper(c)]
      && Camel(Camel(key)) == [a, ToUpper(b), c] != Camel(key)
  {
    var key, once := [a, '-', b, '-', c], [a, ToUpper(b), ToUpper(c)];
    assert key[1..] == ['-', b, '-', c] && key[1..][1..] == [b, '-', c] && [b, '-', c][1..] == ['-', c];
    assert ['-', c][1..] == [c] && [c][1..] == [] && key[4..] == [c];
    assert KebabFrom(Break, [c]) && KebabFrom(Lower, ['-', c]) && KebabFrom(Break, [b, '-', c]);
    assert CamelFrom(Break, true, [c]) == [ToUpper(c)];
    assert CamelFrom(Break, true, [b, '-', c]) == [ToUpper(b)] + CamelFrom(Lower, true, ['-', c]);
    assert CamelFrom(Lower, true, ['-', b, '-', c]) == [ToUpper(b), ToUpper(c)];
    assert once[1..] == [ToUpper(b), ToUpper(c)] && once[1..][1..] == [ToUpper(c)] && [ToUpper(c)][1..] == [];
    assert CamelFrom(Upper, true, [ToUpper(c)]) == [c];
    assert CamelFrom(Lower, true, once[1..]) == [ToUpper(b)] + CamelFrom(Upper, true, [ToUpper(c)]);
  }

  lemma {:induction false} SmallLettersKept(prev: Kind, started: bool, w: string, rest: string)
    requires forall i :: 0 <= i < |w| ==> KindOf(w[i]) == Lower
    requires prev == Lower || prev == Upper || !started
    ensures w != [] ==> CamelFrom(prev, started, w + rest) == w + CamelFrom(Lower, true, rest)
    decreases |w|
  {
    if w != [] {
      assert (w + rest)[1..] == w[1..] + rest;
      if w[1..] == [] {
        assert w[1..] + rest == rest;
      } else {
        SmallLettersKept(Lower, true, w[1..], rest);
      }
    }
  }

  predicate SmallLetters(w: string) {
    w != [] && forall i :: 0 <= i < |w| ==> KindOf(w[i]) == Lower
  }

  predicate CapitalisedWord(w: string) {
    |w| >= 2 && KindOf(w[0]) == Upper && forall i :: 1 <= i < |w| ==> KindOf(w[i]) == Lower
  }

  /** A capitalised word in the middle of a key stays as it is. */
  lemma WordKept(w: string, rest: string)
    requires CapitalisedWord(w)
    ensures CamelFrom(Lower, true, w + rest) == w + CamelFrom(Lower, true, rest)
  {
    assert (w + rest)[1..] == w[1..] + rest;
    SmallLettersKept(Upper, true, w[1..], rest);
  }

  lemma FourWordsKept(a: string, b: string, c: string, d: string)
    requires SmallLetters(a) && CapitalisedWord(b) && CapitalisedWord(c) && CapitalisedWord(d)
    ensures Camel(a + b + c + d) == a + b + c + d
  {
    assert a + b + c + d == a + (b + (c + (d + [])));
    SmallLettersKept(Break, false, a, b + (c + (d + [])));
    WordKept(b, c + (d + []));
    WordKept(c, d + []);
    WordKept(d, []);
  }

  /** Four capitals at the end of a key count as one word. */
  lemma CapitalsAtEnd(w: string, j: char, s: char, o: char, n: char)
    requires SmallLetters(w)
    requires KindOf(j) == KindOf(s) == KindOf(o) == KindOf(n) == Upper
    ensures Camel(w + [j, s, o, n]) == w + [j, ToLower(s), ToLower(o), ToLower(n)]
  {
    SmallLettersKept(Break, false, w, [j, s, o, n]);
    assert [j, s, o, n][1..] == [s, o, n] && [s, o, n][1..] == [o, n] && [o, n][1..] == [n];
    assert CamelFrom(Upper, true, [n]) == [ToLower(n)];
    assert CamelFrom(Upper, true, [o, n]) == [ToLower(o)] + CamelFrom(Upper, true, [n]);
    assert CamelFrom(Upper, true, [s, o, n]) == [ToLower(s)] + CamelFrom(Upper, true, [o, n]);
  }

  /** Of the names a constructed block adds, one survives a second normalisation. */
  lemma CamelOfByGroup(name: string)
    requires name == "getTransactionsByGroup"
    ensures Camel(name) == name
  {
    var get, transactions, of, group := "get", "Transactions", "By", "Group";
    assert name == get + transactions + of + group;
    FourWordsKept(get, transactions, of, group);
  }

  /** The other does not. */
  lemma CamelOfToJson(name: string)
    requires name == "toJSON"
    ensures Camel(name) == "toJson"
  {
    var small := "to";
    assert name == small + ['J', 'S', 'O', 'N'];
    CapitalsAtEnd(small, 'J', 'S', 'O', 'N');
  }

  /** A kebab key has no capitals. */
  lemma {:induction false} NoCapitalsFrom(prev: Kind, s: string, i: nat)
    requires KebabFrom(prev, s) && i < |s|
    ensures KindOf(s[i]) != Upper
    decreases |s|
  {
    if i > 0 {
      NoCapitalsFrom(KindOf(s[0]), s[1..], i - 1);
    }
  }

  lemma NoCapitals(key: string, i: nat)
    requires i < |key| && KindOf(key[i]) == Upper
    ensures !Kebab(key)
  {
    if Kebab(key) {
      NoCapitalsFrom(Break, key, i);
    }
  }

  lemma {:induction false} KebabOfSmallLetters(prev: Kind, w: string)
    requires SmallLetters(w) && prev != Digit
    ensures KebabFrom(prev, w)
    decreases |w|
  {
    if |w| > 1 {
      KebabOfSmallLetters(Lower, w[1..]);
    }
  }

  lemma CamelOfSmallLetters(name: string)
    requires SmallLetters(name)
    ensures Kebab(name) && Camel(name) == name
  {
    KebabOfSmallLetters(Break, name);
    SmallLettersKept(Break, false, name, []);
    assert name + [] == name;
  }

  predicate Digits(w: string) {
    w != [] && forall i :: 0 <= i < |w| ==> KindOf(w[i]) == Digit
  }

  lemma {:induction false} DigitsKept(prev: Kind, w: string, rest: string)
    requires Digits(w)
    ensures CamelFrom(prev, true, w + rest) == w + CamelFrom(Digit, true, rest)
    decreases |w|
  {
    assert (w + rest)[1..] == w[1..] + rest;
    if |w| == 1 {
      assert w[1..] + rest == rest;
    } else {
      DigitsKept(Digit, w[1..], rest);
    }
  }

  /** Digits are a word of their own, so letters that follow them begin another. */
  lemma DigitsStandApart(a: string, digits: string, b: string)
    requires SmallLetters(a) && Digits(digits) && SmallLetters(b)
    ensures Camel(a + (digits + b)) == a + (digits + ([ToUpper(b[0])] + b[1..]))
  {
    SmallLettersKept(Break, false, a, digits + b);
    DigitsKept(Lower, digits, b);
    assert b[1..] + [] == b[1..];
    SmallLettersKept(Lower, true, b[1..], []);
  }
}
