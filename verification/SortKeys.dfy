/** The order of sort keys: strings by character, and tuples of strings by string. */
module SortKeys {

  ghost predicate StrictTotal<T(!new)>(less: (T, T) -> bool) {
    && (forall a :: !less(a, a))
    && (forall a, b :: a != b ==> less(a, b) || less(b, a))
    && forall a, b, c :: less(a, b) && less(b, c) ==> less(a, c)
  }

  /** Sequences compare by their first different element, and a proper prefix comes first. */
  predicate Lex<T(==)>(less: (T, T) -> bool, a: seq<T>, b: seq<T>) {
    if b == [] then false
    else if a == [] then true
    else if a[0] == b[0] then Lex(less, a[1..], b[1..])
    else less(a[0], b[0])
  }

  lemma {:induction false} LexTransitive<T(!new)>(less: (T, T) -> bool, a: seq<T>, b: seq<T>, c: seq<T>)
    requires StrictTotal(less) && Lex(less, a, b) && Lex(less, b, c)
    ensures Lex(less, a, c)
    decreases |a|
  {
    if a != [] && a[0] == b[0] == c[0] {
      LexTransitive(less, a[1..], b[1..], c[1..]);
    }
  }

  lemma {:induction false} LexConnected<T(!new)>(less: (T, T) -> bool, a: seq<T>, b: seq<T>)
    requires StrictTotal(less)
    ensures a != b ==> Lex(less, a, b) || Lex(less, b, a)
    ensures !Lex(less, a, a)
    decreases |a|
  {
    if a != [] && b != [] && a[0] == b[0] {
      LexConnected(less, a[1..], b[1..]);
      assert a == [a[0]] + a[1..] && b == [b[0]] + b[1..];
    } else if a != [] {
      LexConnected(less, a[1..], []);
    }
  }

  predicate CharLess(a: char, b: char) {
    a < b
  }

  predicate StringLess(a: string, b: string) {
    Lex(CharLess, a, b)
  }

  predicate KeyLess(a: seq<string>, b: seq<string>) {
    Lex(StringLess, a, b)
  }

  lemma StringsAreOrdered()
    ensures StrictTotal(StringLess)
  {
    assert StrictTotal(CharLess);
    forall a: string, b: string ensures a != b ==> StringLess(a, b) || StringLess(b, a) {
      LexConnected(CharLess, a, b);
    }
    forall a: string ensures !StringLess(a, a) {
      LexConnected(CharLess, a, a);
    }
    forall a: string, b: string, c: string | StringLess(a, b) && StringLess(b, c) ensures StringLess(a, c) {
      LexTransitive(CharLess, a, b, c);
    }
  }

  lemma KeysAreOrdered()
    ensures StrictTotal(KeyLess)
  {
    StringsAreOrdered();
    forall a: seq<string>, b: seq<string> ensures a != b ==> KeyLess(a, b) || KeyLess(b, a) {
      LexConnected(StringLess, a, b);
    }
    forall a: seq<string> ensures !KeyLess(a, a) {
      LexConnected(StringLess, a, a);
    }
    forall a: seq<string>, b: seq<string>, c: seq<string> | KeyLess(a, b) && KeyLess(b, c) ensures KeyLess(a, c) {
      LexTransitive(StringLess, a, b, c);
    }
  }

  /** The first `k` elements agree, and then `a` ends or has the lesser element. */
  ghost predicate ComesFirst<T(!new)>(less: (T, T) -> bool, a: seq<T>, b: seq<T>, k: nat) {
    k <= |a| && k < |b| && a[..k] == b[..k] && (k < |a| ==> less(a[k], b[k]))
  }

  /** The order of sequences, without recursion. */
  lemma {:induction false} LexMeans<T(!new)>(less: (T, T) -> bool, a: seq<T>, b: seq<T>)
    requires StrictTotal(less)
    ensures Lex(less, a, b) <==> exists k: nat :: ComesFirst(less, a, b, k)
    decreases |a|
  {
    if a == [] || b == [] || a[0] != b[0] {
      assert Lex(less, a, b) ==> ComesFirst(less, a, b, 0);
      if k: nat :| ComesFirst(less, a, b, k) {
        assert a[..k] == b[..k];
      }
    } else {
      LexMeans(less, a[1..], b[1..]);
      if k: nat :| ComesFirst(less, a[1..], b[1..], k) {
        assert a[..k + 1] == [a[0]] + a[1..][..k] && b[..k + 1] == [b[0]] + b[1..][..k];
        assert ComesFirst(less, a, b, k + 1);
      }
      if k: nat :| ComesFirst(less, a, b, k) {
        assert k > 0;
        assert a[1..][..k - 1] == a[..k][1..] && b[1..][..k - 1] == b[..k][1..];
        assert ComesFirst(less, a[1..], b[1..], k - 1);
      }
    }
  }

  /** Strings stand in the order of the first characters in which they differ. */
  lemma StringsByCharacter(a: string, b: string)
    ensures StringLess(a, b) <==>
      exists k: nat :: k <= |a| && k < |b| && a[..k] == b[..k] && (k < |a| ==> a[k] < b[k])
  {
    LexMeans(CharLess, a, b);
    if k: nat :| ComesFirst(CharLess, a, b, k) {
      assert a[..k] == b[..k];
    }
    if k: nat :| k <= |a| && k < |b| && a[..k] == b[..k] && (k < |a| ==> a[k] < b[k]) {
      assert ComesFirst(CharLess, a, b, k);
    }
  }
}
