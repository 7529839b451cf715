/** The keys of a map in sorted order, as sort.Strings leaves them. */
module SortedKeys {
  import opened Sequences

  /** The order of Go strings: lexicographic. */
  predicate Before(a: string, b: string) {
    b != "" && (a == "" || a[0] < b[0] || (a[0] == b[0] && Before(a[1..], b[1..])))
  }

  /** The texts agree up to the position, where the first one ends or has the smaller character. */
  predicate DecidedAt(a: string, b: string, i: nat) {
    i <= |a| && i < |b| && a[..i] == b[..i] && (i == |a| || a[i] < b[i])
  }

  lemma {:induction false} SharedHead(a: string, b: string, i: nat)
    ensures DecidedAt(a, b, i) && i > 0 ==> a[0] == b[0]
  {
    if DecidedAt(a, b, i) && i > 0 {
      assert a[0] == a[..i][0] && b[0] == b[..i][0];
    }
  }

  /** Texts are ordered by the first position where they differ. */
  lemma {:induction false} BeforeMeaning(a: string, b: string)
    ensures Before(a, b) <==> exists i: nat :: DecidedAt(a, b, i)
  {
    if a == "" || b == "" || a[0] != b[0] {
      assert DecidedAt(a, b, 0) <==> Before(a, b);
      forall i: nat ensures DecidedAt(a, b, i) ==> i == 0 {
        SharedHead(a, b, i);
      }
    } else {
      BeforeMeaning(a[1..], b[1..]);
      if i: nat :| DecidedAt(a[1..], b[1..], i) {
        assert a[..i + 1] == [a[0]] + a[1..][..i] && b[..i + 1] == [b[0]] + b[1..][..i];
        assert DecidedAt(a, b, i + 1);
      }
      if i: nat :| DecidedAt(a, b, i) {
        assert a[1..][..i - 1] == a[..i][1..] && b[1..][..i - 1] == b[..i][1..];
        assert DecidedAt(a[1..], b[1..], i - 1);
      }
    }
  }

  lemma {:induction false} BeforeTransitive(a: string, b: string, c: string)
    requires Before(a, b) && Before(b, c)
    ensures Before(a, c)
  {
    if a != "" && a[0] == b[0] && b[0] == c[0] {
      BeforeTransitive(a[1..], b[1..], c[1..]);
    }
  }

  /** Of two different strings exactly one comes first. */
  lemma {:induction false} BeforeTotal(a: string, b: string)
    ensures a == b <==> !Before(a, b) && !Before(b, a)
    ensures !(Before(a, b) && Before(b, a))
  {
    if a != "" && b != "" && a[0] == b[0] {
      BeforeTotal(a[1..], b[1..]);
      assert a == [a[0]] + a[1..] && b == [b[0]] + b[1..];
    }
  }

  ghost predicate Sorted(xs: seq<string>) {
    forall i, j :: 0 <= i < j < |xs| ==> Before(xs[i], xs[j])
  }

  /** The order in which a loop over sorted keys visits them. */
  ghost predicate InOrder(xs: seq<string>, keys: set<string>) {
    Enumerates(xs, keys) && Sorted(xs)
  }

  /** Inserts a new string where it belongs. */
  method InsertKey(xs: seq<string>, key: string) returns (r: seq<string>)
    requires Sorted(xs) && key !in xs
    ensures Sorted(r) && NoDup(r) && forall x :: x in r <==> x in xs || x == key
  {
    var i := 0;
    while i < |xs| && Before(xs[i], key)
      invariant i <= |xs| && forall j :: 0 <= j < i ==> Before(xs[j], key)
    {
      i := i + 1;
    }
    r := xs[..i] + [key] + xs[i..];
    forall j | i <= j < |xs| ensures Before(key, xs[j]) {
      BeforeTotal(key, xs[i]);
      if i < j {
        BeforeTransitive(key, xs[i], xs[j]);
      }
    }
    SortedInsert(xs, i, key);
  }

  lemma {:induction false} SortedInsert(xs: seq<string>, i: nat, key: string)
    requires Sorted(xs) && i <= |xs|
    requires forall j :: 0 <= j < i ==> Before(xs[j], key)
    requires forall j :: i <= j < |xs| ==> Before(key, xs[j])
    ensures var r := xs[..i] + [key] + xs[i..]; Sorted(r) && NoDup(r) && forall x :: x in r <==> x in xs || x == key
  {
    hide Before;
    var r := xs[..i] + [key] + xs[i..];
    assert xs == xs[..i] + xs[i..];
    SortedNoDup(r);
  }

  lemma {:induction false} SortedNoDup(xs: seq<string>)
    requires Sorted(xs)
    ensures NoDup(xs)
  {
    forall i, j | 0 <= i < j < |xs| ensures xs[i] != xs[j] {
      BeforeTotal(xs[i], xs[j]);
    }
  }

  /** Collects the keys in whatever order Go visits them and sorts them. */
  method SortKeys(keys: set<string>) returns (order: seq<string>)
    ensures InOrder(order, keys)
  {
    hide Before;
    order := [];
    var left := keys;
    while left != {}
      invariant left <= keys && InOrder(order, keys - left)
      decreases left
    {
      var key :| key in left;
      order := InsertKey(order, key);
      left := left - {key};
    }
  }

  lemma {:induction false} EmptyAlike(xs: seq<string>, ys: seq<string>)
    requires forall x :: x in xs <==> x in ys
    ensures xs == [] <==> ys == []
  {
    if xs != [] {
      assert xs[0] in ys;
    }
    if ys != [] {
      assert ys[0] in xs;
    }
  }

  lemma {:induction false} LastOfSorted(xs: seq<string>, ys: seq<string>)
    requires Sorted(xs) && Sorted(ys) && xs != [] && ys != []
    requires forall x :: x in xs <==> x in ys
    ensures xs[|xs| - 1] == ys[|ys| - 1]
  {
    var x, y := xs[|xs| - 1], ys[|ys| - 1];
    assert x in ys && y in xs;
    BeforeTotal(x, y);
  }

  /** There is only one sorted order, so phases that sort their keys are deterministic. */
  lemma {:induction false} SortedUnique(xs: seq<string>, ys: seq<string>)
    requires Sorted(xs) && Sorted(ys)
    requires forall x :: x in xs <==> x in ys
    ensures xs == ys
  {
    hide Before;
    EmptyAlike(xs, ys);
    if xs != [] {
      var front, last := xs[..|xs| - 1], xs[|xs| - 1];
      var front', last' := ys[..|ys| - 1], ys[|ys| - 1];
      LastOfSorted(xs, ys);
      SortedNoDup(xs);
      SortedNoDup(ys);
      assert xs == front + [last] && ys == front' + [last'];
      assert forall x :: x in front <==> x in xs && x != last;
      assert forall y :: y in front' <==> y in ys && y != last';
      SortedUnique(front, front');
    }
  }
}
