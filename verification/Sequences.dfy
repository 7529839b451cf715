/** Facts about sequences that every analysis phase shares: flattening, keeping the first element
    of each key, and enumerating the keys of a map in some order. */
module Sequences {

  ghost predicate NoDup<A>(xs: seq<A>) {
    forall i, j :: 0 <= i < j < |xs| ==> xs[i] != xs[j]
  }

  /** One order in which a loop over a Go map may visit the keys. */
  ghost predicate Enumerates<A(!new)>(xs: seq<A>, keys: set<A>) {
    NoDup(xs) && forall x :: x in xs <==> x in keys
  }

  function FlatMap<A, B>(xs: seq<A>, f: A -> seq<B>): seq<B> {
    if xs == [] then [] else FlatMap(xs[..|xs| - 1], f) + f(xs[|xs| - 1])
  }

  ghost predicate HasKey<A, K>(xs: seq<A>, key: A -> K, k: K) {
    exists x :: x in xs && key(x) == k
  }

  ghost predicate DistinctBy<A, K>(xs: seq<A>, key: A -> K) {
    forall i, j :: 0 <= i < j < |xs| ==> key(xs[i]) != key(xs[j])
  }

  lemma {:induction false} HasKeySnoc<A, K>(xs: seq<A>, x: A, key: A -> K, k: K)
    ensures HasKey(xs + [x], key, k) <==> HasKey(xs, key, k) || key(x) == k
  {
    if y :| y in xs && key(y) == k {
      assert y in xs + [x];
    }
    assert x in xs + [x];
  }

  /** Keeps an element only when no earlier element has its key. */
  ghost function FirstBy<A, K>(xs: seq<A>, key: A -> K): seq<A> {
    if xs == [] then []
    else
      var kept := FirstBy(xs[..|xs| - 1], key);
      var x := xs[|xs| - 1];
      if HasKey(kept, key, key(x)) then kept else kept + [x]
  }

  // ----- flattening

  lemma {:induction false} FlatMapNone<A, B>(f: A -> seq<B>)
    ensures FlatMap([], f) == []
  {
  }

  lemma {:induction false} FlatMapSnoc<A, B>(xs: seq<A>, x: A, f: A -> seq<B>)
    ensures FlatMap(xs + [x], f) == FlatMap(xs, f) + f(x)
  {
    assert (xs + [x])[..|xs|] == xs;
  }

  lemma {:induction false} FlatMapAppend<A, B>(xs: seq<A>, ys: seq<A>, f: A -> seq<B>)
    ensures FlatMap(xs + ys, f) == FlatMap(xs, f) + FlatMap(ys, f)
  {
    if ys == [] {
      assert xs + ys == xs;
    } else {
      var front, last := ys[..|ys| - 1], ys[|ys| - 1];
      assert xs + ys == (xs + front) + [last] && ys == front + [last];
      FlatMapSnoc(xs + front, last, f);
      FlatMapAppend(xs, front, f);
    }
  }

  lemma {:induction false} InFlatMap<A, B>(xs: seq<A>, f: A -> seq<B>, b: B)
    ensures b in FlatMap(xs, f) <==> exists x :: x in xs && b in f(x)
  {
    if xs == [] {
    } else {
      var front, last := xs[..|xs| - 1], xs[|xs| - 1];
      assert xs == front + [last];
      InFlatMap(front, f, b);
    }
  }

  lemma {:induction false} FlatMapEmpty<A, B>(xs: seq<A>, f: A -> seq<B>)
    requires forall x :: x in xs ==> f(x) == []
    ensures FlatMap(xs, f) == []
  {
    if xs == [] {
    } else {
      FlatMapEmpty(xs[..|xs| - 1], f);
    }
  }

  lemma {:induction false} FlatMapSame<A, B>(xs: seq<A>, f: A -> seq<B>, g: A -> seq<B>)
    requires forall x :: x in xs ==> f(x) == g(x)
    ensures FlatMap(xs, f) == FlatMap(xs, g)
  {
    if xs == [] {
    } else {
      FlatMapSame(xs[..|xs| - 1], f, g);
    }
  }

  lemma {:induction false} SplitOffLast<A>(xs: seq<A>, ys: seq<A>) returns (before: seq<A>, after: seq<A>)
    requires xs != [] && multiset(xs) == multiset(ys)
    ensures ys == before + [xs[|xs| - 1]] + after && multiset(xs[..|xs| - 1]) == multiset(before + after)
  {
    var front, last := xs[..|xs| - 1], xs[|xs| - 1];
    assert xs == front + [last];
    assert last in multiset(ys);
    var j :| 0 <= j < |ys| && ys[j] == last;
    before, after := ys[..j], ys[j + 1..];
    assert ys == before + [last] + after;
    calc {
      multiset(front);
      multiset(xs) - multiset{last};
      multiset(ys) - multiset{last};
      { assert multiset(ys) == multiset(before + after) + multiset{last}; }
      multiset(before + after);
    }
  }

  /** Visiting the same elements in another order yields the same elements in another order. */
  lemma {:induction false} FlatMapPermuted<A, B>(xs: seq<A>, ys: seq<A>, f: A -> seq<B>)
    requires multiset(xs) == multiset(ys)
    ensures multiset(FlatMap(xs, f)) == multiset(FlatMap(ys, f))
  {
    if xs == [] {
      assert |multiset(ys)| == 0;
    } else {
      var front, last := xs[..|xs| - 1], xs[|xs| - 1];
      var before, after := SplitOffLast(xs, ys);
      FlatMapPermuted(front, before + after, f);
      FlatMapAppend(before, after, f);
      FlatMapAppend(before + [last], after, f);
      FlatMapSnoc(before, last, f);
    }
  }

  // ----- merging

  /** The last sequence merges the other two: each element comes from one of them, in its own order. */
  ghost predicate Merges<A>(xs: seq<A>, ys: seq<A>, zs: seq<A>)
    decreases zs
  {
    if zs == [] then xs == [] && ys == []
    else
      var front, last := zs[..|zs| - 1], zs[|zs| - 1];
      || (xs != [] && xs[|xs| - 1] == last && Merges(xs[..|xs| - 1], ys, front))
      || (ys != [] && ys[|ys| - 1] == last && Merges(xs, ys[..|ys| - 1], front))
  }

  lemma {:induction false} MergesSnoc<A>(xs: seq<A>, ys: seq<A>, zs: seq<A>, x: A)
    requires Merges(xs, ys, zs)
    ensures Merges(xs + [x], ys, zs + [x]) && Merges(xs, ys + [x], zs + [x])
  {
    assert (xs + [x])[..|xs|] == xs && (ys + [x])[..|ys|] == ys && (zs + [x])[..|zs|] == zs;
  }

  lemma {:induction false} MergesAppend<A>(xs: seq<A>, ys: seq<A>, zs: seq<A>, more: seq<A>)
    requires Merges(xs, ys, zs)
    ensures Merges(xs + more, ys, zs + more) && Merges(xs, ys + more, zs + more)
  {
    if more == [] {
      assert xs + more == xs && ys + more == ys && zs + more == zs;
    } else {
      var front, last := more[..|more| - 1], more[|more| - 1];
      MergesAppend(xs, ys, zs, front);
      assert xs + more == (xs + front) + [last] && ys + more == (ys + front) + [last];
      assert zs + more == (zs + front) + [last];
      MergesSnoc(xs + front, ys, zs + front, last);
      MergesSnoc(xs, ys + front, zs + front, last);
    }
  }

  lemma {:induction false} MergesNothing<A>()
    ensures Merges<A>([], [], [])
  {
  }

  /** Putting a block anywhere into a sequence is a merge. */
  lemma {:induction false} InsertionMerges<A>(xs: seq<A>, block: seq<A>, ys: seq<A>)
    ensures Merges(xs + ys, block, xs + block + ys)
  {
    hide Merges;
    MergesNothing<A>();
    MergesAppend([], [], [], xs);
    assert [] + xs == xs && [] + block == block;
    MergesAppend(xs, [], xs, block);
    MergesAppend(xs, block, xs + block, ys);
  }

  lemma {:induction false} MergesFlatMap<A, B>(xs: seq<A>, ys: seq<A>, zs: seq<A>, f: A -> seq<B>)
    requires Merges(xs, ys, zs)
    ensures Merges(FlatMap(xs, f), FlatMap(ys, f), FlatMap(zs, f))
  {
    if zs != [] {
      var front, last := zs[..|zs| - 1], zs[|zs| - 1];
      if xs != [] && xs[|xs| - 1] == last && Merges(xs[..|xs| - 1], ys, front) {
        MergesFlatMap(xs[..|xs| - 1], ys, front, f);
        MergesAppend(FlatMap(xs[..|xs| - 1], f), FlatMap(ys, f), FlatMap(front, f), f(last));
      } else {
        MergesFlatMap(xs, ys[..|ys| - 1], front, f);
        MergesAppend(FlatMap(xs, f), FlatMap(ys[..|ys| - 1], f), FlatMap(front, f), f(last));
      }
    }
  }

  lemma {:induction false} MergesMultiset<A>(xs: seq<A>, ys: seq<A>, zs: seq<A>)
    requires Merges(xs, ys, zs)
    ensures multiset(zs) == multiset(xs + ys)
  {
    if zs != [] {
      var front, last := zs[..|zs| - 1], zs[|zs| - 1];
      assert zs == front + [last];
      if xs != [] && xs[|xs| - 1] == last && Merges(xs[..|xs| - 1], ys, front) {
        assert xs == xs[..|xs| - 1] + [last];
        MergesMultiset(xs[..|xs| - 1], ys, front);
      } else {
        assert ys == ys[..|ys| - 1] + [last];
        MergesMultiset(xs, ys[..|ys| - 1], front);
      }
    }
  }

  // ----- keeping the first element of each key

  lemma {:induction false} FirstBySnoc<A, K>(xs: seq<A>, x: A, key: A -> K)
    ensures FirstBy(xs + [x], key) ==
            if HasKey(FirstBy(xs, key), key, key(x)) then FirstBy(xs, key) else FirstBy(xs, key) + [x]
  {
    assert (xs + [x])[..|xs|] == xs;
  }

  lemma {:induction false} FirstByDistinct<A, K>(xs: seq<A>, key: A -> K)
    ensures DistinctBy(FirstBy(xs, key), key)
  {
    if xs == [] {
    } else {
      FirstByDistinct(xs[..|xs| - 1], key);
    }
  }

  /** Whatever is kept is the earliest element of its key. */
  lemma {:induction false} FirstByEarliest<A, K>(xs: seq<A>, key: A -> K, x: A)
    requires x in FirstBy(xs, key)
    ensures exists i :: 0 <= i < |xs| && xs[i] == x && forall j :: 0 <= j < i ==> key(xs[j]) != key(x)
  {
    var front, last := xs[..|xs| - 1], xs[|xs| - 1];
    if x in FirstBy(front, key) {
      FirstByEarliest(front, key, x);
      var i :| 0 <= i < |front| && front[i] == x && forall j :: 0 <= j < i ==> key(front[j]) != key(x);
      assert xs[i] == x && forall j :: 0 <= j < i ==> xs[j] == front[j];
    } else {
      forall j | 0 <= j < |front| ensures key(xs[j]) != key(x) {
        assert front[j] in front;
        FirstByKeys(front, key, key(xs[j]));
      }
    }
  }

  lemma {:induction false} FirstByKeys<A, K>(xs: seq<A>, key: A -> K, k: K)
    ensures HasKey(FirstBy(xs, key), key, k) <==> HasKey(xs, key, k)
  {
    if xs == [] {
    } else {
      var front, last := xs[..|xs| - 1], xs[|xs| - 1];
      assert xs == front + [last];
      FirstByKeys(front, key, k);
      var kept := FirstBy(front, key);
      if HasKey(xs, key, k) && !HasKey(front, key, k) {
        assert key(last) == k && last in kept + [last];
      }
      if HasKey(FirstBy(xs, key), key, k) {
        var x :| x in FirstBy(xs, key) && key(x) == k;
        assert x in kept || x == last;
        if x == last {
          assert x in xs;
        }
      }
    }
  }

  lemma {:induction false} FirstByMember<A, K>(xs: seq<A>, key: A -> K)
    ensures forall x :: x in FirstBy(xs, key) ==> x in xs
  {
    forall x | x in FirstBy(xs, key) ensures x in xs {
      FirstByEarliest(xs, key, x);
    }
  }

  lemma {:induction false} FirstByPrefix<A, K>(xs: seq<A>, ys: seq<A>, key: A -> K)
    ensures FirstBy(xs, key) <= FirstBy(xs + ys, key)
  {
    if ys == [] {
      assert xs + ys == xs;
    } else {
      var front, last := ys[..|ys| - 1], ys[|ys| - 1];
      assert xs + ys == (xs + front) + [last];
      FirstByPrefix(xs, front, key);
      FirstBySnoc(xs + front, last, key);
    }
  }

  lemma {:induction false} FirstByKeepsDistinct<A, K>(xs: seq<A>, key: A -> K)
    requires DistinctBy(xs, key)
    ensures FirstBy(xs, key) == xs
  {
    if xs == [] {
    } else {
      var front := xs[..|xs| - 1];
      FirstByKeepsDistinct(front, key);
      assert xs == front + [xs[|xs| - 1]];
    }
  }

  /** Injectivity of the key on the elements makes FirstBy keep one copy of every element. */
  lemma {:induction false} FirstByKeepsEach<A, K>(xs: seq<A>, key: A -> K, x: A)
    requires x in xs
    requires forall y :: y in xs && key(y) == key(x) ==> y == x
    ensures x in FirstBy(xs, key)
  {
    FirstByKeys(xs, key, key(x));
    FirstByMember(xs, key);
  }

  lemma {:induction false} FirstByAbsorbsLeft<A, K>(xs: seq<A>, ys: seq<A>, key: A -> K)
    ensures FirstBy(FirstBy(xs, key) + ys, key) == FirstBy(xs + ys, key)
  {
    if ys == [] {
      assert xs + ys == xs && FirstBy(xs, key) + ys == FirstBy(xs, key);
      FirstByDistinct(xs, key);
      FirstByKeepsDistinct(FirstBy(xs, key), key);
    } else {
      var front, last := ys[..|ys| - 1], ys[|ys| - 1];
      assert xs + ys == (xs + front) + [last];
      assert FirstBy(xs, key) + ys == (FirstBy(xs, key) + front) + [last];
      FirstByAbsorbsLeft(xs, front, key);
      FirstBySnoc(xs + front, last, key);
      FirstBySnoc(FirstBy(xs, key) + front, last, key);
    }
  }

  lemma {:induction false} FirstByAbsorbsRight<A, K>(xs: seq<A>, ys: seq<A>, key: A -> K)
    ensures FirstBy(xs + FirstBy(ys, key), key) == FirstBy(xs + ys, key)
  {
    if ys == [] {
    } else {
      var front, last := ys[..|ys| - 1], ys[|ys| - 1];
      assert xs + ys == (xs + front) + [last];
      FirstByAbsorbsRight(xs, front, key);
      FirstBySnoc(xs + front, last, key);
      var kept := FirstBy(front, key);
      if HasKey(kept, key, key(last)) {
        var x :| x in kept && key(x) == key(last);
        FirstByMember(front, key);
        assert x in xs + front;
        FirstByKeys(xs + front, key, key(last));
      } else {
        assert xs + (kept + [last]) == (xs + kept) + [last];
        FirstBySnoc(xs + kept, last, key);
      }
    }
  }

  /** From a block whose keys are distinct, what is kept is what has no key kept before. */
  lemma {:induction false} FirstByBlock<A, K>(xs: seq<A>, block: seq<A>, key: A -> K, x: A)
    requires DistinctBy(block, key)
    ensures x in FirstBy(xs + block, key)
            <==> x in FirstBy(xs, key) || (x in block && !HasKey(xs, key, key(x)))
  {
    if block == [] {
      assert xs + block == xs;
    } else {
      var front, last := block[..|block| - 1], block[|block| - 1];
      assert block == front + [last] && xs + block == (xs + front) + [last];
      FirstByBlock(xs, front, key, x);
      hide FirstBy, HasKey;
      LastIsNew(xs, front, last, key);
      KeptSnoc(xs + front, last, key, x);
    }
  }

  lemma {:induction false} LastIsNew<A, K>(xs: seq<A>, front: seq<A>, last: A, key: A -> K)
    requires DistinctBy(front + [last], key)
    ensures HasKey(xs + front, key, key(last)) <==> HasKey(xs, key, key(last))
  {
    var block := front + [last];
    forall y | y in front ensures key(y) != key(last) {
      var i :| 0 <= i < |front| && front[i] == y;
      assert block[i] == y && key(block[i]) != key(block[|front|]);
    }
    if x :| x in xs && key(x) == key(last) {
      assert x in xs + front;
    }
  }

  lemma {:induction false} KeptSnoc<A, K>(xs: seq<A>, last: A, key: A -> K, x: A)
    ensures x in FirstBy(xs + [last], key)
            <==> x in FirstBy(xs, key) || (x == last && !HasKey(xs, key, key(last)))
  {
    FirstBySnoc(xs, last, key);
    FirstByKeys(xs, key, key(last));
  }

  /** Sequences that share no key are deduplicated each on its own. */
  lemma {:induction false} FirstByApart<A, K>(xs: seq<A>, ys: seq<A>, key: A -> K)
    requires forall x, y :: x in xs && y in ys ==> key(x) != key(y)
    ensures FirstBy(xs + ys, key) == FirstBy(xs, key) + FirstBy(ys, key)
  {
    if ys == [] {
      assert xs + ys == xs;
    } else {
      var front, last := ys[..|ys| - 1], ys[|ys| - 1];
      assert ys == front + [last] && xs + ys == (xs + front) + [last];
      FirstByApart(xs, front, key);
      hide FirstBy, HasKey;
      FirstBySnoc(xs + front, last, key);
      FirstBySnoc(front, last, key);
      FirstByKeys(front, key, key(last));
      FirstByKeys(xs + front, key, key(last));
      NoSharedKey(xs, front, last, key);
    }
  }

  lemma {:induction false} NoSharedKey<A, K>(xs: seq<A>, ys: seq<A>, y: A, key: A -> K)
    requires forall x :: x in xs ==> key(x) != key(y)
    ensures HasKey(xs + ys, key, key(y)) <==> HasKey(ys, key, key(y))
  {
    if x :| x in ys && key(x) == key(y) {
      assert x in xs + ys;
    }
  }

  // ----- duplicate-free sequences

  lemma {:induction false} NoDupCount<A>(xs: seq<A>, x: A)
    requires NoDup(xs)
    ensures multiset(xs)[x] == if x in xs then 1 else 0
  {
    if xs == [] {
    } else {
      var front, last := xs[..|xs| - 1], xs[|xs| - 1];
      assert xs == front + [last];
      NoDupCount(front, x);
    }
  }

  lemma {:induction false} NoDupSameElements<A(!new)>(xs: seq<A>, ys: seq<A>)
    requires NoDup(xs) && NoDup(ys)
    requires forall x :: x in xs <==> x in ys
    ensures multiset(xs) == multiset(ys)
  {
    forall x ensures multiset(xs)[x] == multiset(ys)[x] {
      NoDupCount(xs, x);
      NoDupCount(ys, x);
    }
  }

  lemma {:induction false} EnumerationsAgree<A(!new)>(xs: seq<A>, ys: seq<A>, keys: set<A>)
    requires Enumerates(xs, keys) && Enumerates(ys, keys)
    ensures multiset(xs) == multiset(ys)
  {
    NoDupSameElements(xs, ys);
  }
}
