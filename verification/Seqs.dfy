/** Small facts about sequences that the protocol proofs share. */
module Seqs {

  datatype Option<+T> = None | Some(value: T)

  /** The results of `f` on the elements of `s` that have one, in order. */
  function Collect<A, B>(f: A -> Option<B>, s: seq<A>): seq<B> {
    if s == [] then []
    else
      var init := Collect(f, s[..|s| - 1]);
      match f(s[|s| - 1])
      case None => init
      case Some(b) => init + [b]
  }

  function RemoveAt<A>(s: seq<A>, i: nat): seq<A>
    requires i < |s|
  {
    s[..i] + s[i + 1..]
  }

  function OptionToSeq<B>(o: Option<B>): seq<B> {
    match o case None => [] case Some(b) => [b]
  }

  lemma CollectAppend<A, B>(f: A -> Option<B>, s: seq<A>, a: A)
    ensures Collect(f, s + [a]) == Collect(f, s) + OptionToSeq(f(a))
  {
    assert (s + [a])[..|s|] == s;
  }

  lemma CollectTwo<A, B>(f: A -> Option<B>, a: A, b: A)
    ensures Collect(f, [a]) == OptionToSeq(f(a)) && Collect(f, [a, b]) == OptionToSeq(f(a)) + OptionToSeq(f(b))
  {
    assert [] + [a] == [a] && [a] + [b] == [a, b];
    CollectAppend(f, [], a);
    CollectAppend(f, [a], b);
  }

  lemma {:induction false} CollectConcat<A, B>(f: A -> Option<B>, s: seq<A>, t: seq<A>)
    ensures Collect(f, s + t) == Collect(f, s) + Collect(f, t)
    decreases |t|
  {
    if t == [] {
      assert s + t == s;
    } else {
      var init, last := t[..|t| - 1], t[|t| - 1];
      assert s + t == (s + init) + [last];
      CollectAppend(f, s + init, last);
      CollectConcat(f, s, init);
      assert t == init + [last];
    }
  }

  lemma CollectHead<A, B>(f: A -> Option<B>, s: seq<A>)
    requires s != []
    ensures Collect(f, s) == OptionToSeq(f(s[0])) + Collect(f, s[1..])
  {
    CollectConcat(f, [s[0]], s[1..]);
    assert s == [s[0]] + s[1..];
    CollectAppend(f, [], s[0]);
    assert [] + [s[0]] == [s[0]];
  }

  /** How many elements of `s` does `f` map to `x`? */
  function Tally<A>(f: A -> Option<nat>, s: seq<A>, x: nat): nat {
    if s == [] then 0
    else Tally(f, s[..|s| - 1], x) + One(f(s[|s| - 1]), x)
  }

  function One(o: Option<nat>, x: nat): nat {
    if o == Some(x) then 1 else 0
  }

  function Same(x: nat): Option<nat> {
    Some(x)
  }

  lemma TallyAppend<A>(f: A -> Option<nat>, s: seq<A>, a: A, x: nat)
    ensures Tally(f, s + [a], x) == Tally(f, s, x) + One(f(a), x)
  {
    assert (s + [a])[..|s|] == s;
  }

  lemma {:induction false} TallyConcat<A>(f: A -> Option<nat>, s: seq<A>, t: seq<A>, x: nat)
    ensures Tally(f, s + t, x) == Tally(f, s, x) + Tally(f, t, x)
    decreases |t|
  {
    if t == [] {
      assert s + t == s;
    } else {
      var init, last := t[..|t| - 1], t[|t| - 1];
      assert s + t == (s + init) + [last];
      TallyAppend(f, s + init, last, x);
      TallyConcat(f, s, init, x);
    }
  }

  lemma TallyRemoveAt<A>(f: A -> Option<nat>, s: seq<A>, i: nat, x: nat)
    requires i < |s|
    ensures Tally(f, s, x) == Tally(f, RemoveAt(s, i), x) + One(f(s[i]), x)
  {
    assert s == s[..i] + [s[i]] + s[i + 1..];
    TallyConcat(f, s[..i] + [s[i]], s[i + 1..], x);
    TallyAppend(f, s[..i], s[i], x);
    TallyConcat(f, s[..i], s[i + 1..], x);
  }

  lemma TallyHead<A>(f: A -> Option<nat>, s: seq<A>, x: nat)
    requires s != []
    ensures Tally(f, s, x) == Tally(f, s[1..], x) + One(f(s[0]), x)
  {
    TallyRemoveAt(f, s, 0, x);
    assert RemoveAt(s, 0) == s[1..];
  }

  lemma TallyUpdate<A>(f: A -> Option<nat>, s: seq<A>, i: nat, a: A, x: nat)
    requires i < |s|
    ensures Tally(f, s[i := a], x) + One(f(s[i]), x) == Tally(f, s, x) + One(f(a), x)
  {
    TallyRemoveAt(f, s, i, x);
    TallyRemoveAt(f, s[i := a], i, x);
    assert RemoveAt(s, i) == RemoveAt(s[i := a], i);
  }

  /** An element that counts makes the tally positive, and a positive tally has such an element. */
  lemma {:induction false} TallyWitness<A>(f: A -> Option<nat>, s: seq<A>, x: nat) returns (i: nat)
    requires Tally(f, s, x) > 0
    ensures i < |s| && f(s[i]) == Some(x)
  {
    if f(s[|s| - 1]) == Some(x) {
      i := |s| - 1;
    } else {
      i := TallyWitness(f, s[..|s| - 1], x);
    }
  }

  lemma TallyAt<A>(f: A -> Option<nat>, s: seq<A>, i: nat)
    requires i < |s| && f(s[i]).Some?
    ensures Tally(f, s, f(s[i]).value) > 0
  {
    TallyRemoveAt(f, s, i, f(s[i]).value);
  }

  /** Two elements with the same image count twice. */
  lemma TallyTwice<A>(f: A -> Option<nat>, s: seq<A>, i: nat, j: nat)
    requires i < j < |s| && f(s[i]).Some? && f(s[i]) == f(s[j])
    ensures Tally(f, s, f(s[i]).value) > 1
  {
    var x := f(s[i]).value;
    TallyRemoveAt(f, s, j, x);
    assert RemoveAt(s, j)[i] == s[i];
    TallyAt(f, RemoveAt(s, j), i);
  }

  lemma {:induction false} CollectOrigin<A, B>(f: A -> Option<B>, s: seq<A>, b: B) returns (i: nat)
    requires b in Collect(f, s)
    ensures i < |s| && f(s[i]) == Some(b)
    decreases |s|
  {
    if f(s[|s| - 1]) == Some(b) {
      i := |s| - 1;
    } else {
      i := CollectOrigin(f, s[..|s| - 1], b);
    }
  }

  function FlatMap<A, B>(f: A -> seq<B>, s: seq<A>): seq<B> {
    if s == [] then [] else FlatMap(f, s[..|s| - 1]) + f(s[|s| - 1])
  }

  lemma FlatMapOne<A, B>(f: A -> seq<B>, a: A)
    ensures FlatMap(f, [a]) == f(a)
  {
    assert [a][..0] == [];
  }

  lemma {:induction false} FlatMapConcat<A, B>(f: A -> seq<B>, s: seq<A>, t: seq<A>)
    ensures FlatMap(f, s + t) == FlatMap(f, s) + FlatMap(f, t)
    decreases |t|
  {
    if t == [] {
      assert s + t == s;
    } else {
      var init, last := t[..|t| - 1], t[|t| - 1];
      assert (s + t)[..|s + t| - 1] == s + init;
      FlatMapConcat(f, s, init);
    }
  }

  /** Distinct numbers below `n` are at most `n`. */
  lemma {:induction false} PigeonHole(s: seq<nat>, n: nat)
    requires forall x: nat :: Tally(Same, s, x) <= if x < n then 1 else 0
    ensures |s| <= n
    decreases n
  {
    if n == 0 {
      if s != [] { TallyAt(Same, s, 0); }
    } else if Tally(Same, s, n - 1) == 0 {
      PigeonHole(s, n - 1);
    } else {
      var i := TallyWitness(Same, s, n - 1);
      var rest := RemoveAt(s, i);
      forall x: nat ensures Tally(Same, rest, x) <= if x < n - 1 then 1 else 0 {
        TallyRemoveAt(Same, s, i, x);
      }
      PigeonHole(rest, n - 1);
    }
  }

  /** A list with every number below `n` has at least `n` elements. */
  lemma {:induction false} Covers(s: seq<nat>, n: nat)
    requires forall x: nat :: x < n ==> Tally(Same, s, x) >= 1
    ensures |s| >= n
    decreases n
  {
    if n == 0 {
    } else {
      var i := TallyWitness(Same, s, n - 1);
      var rest := RemoveAt(s, i);
      forall x: nat | x < n - 1 ensures Tally(Same, rest, x) >= 1 {
        TallyRemoveAt(Same, s, i, x);
      }
      Covers(rest, n - 1);
    }
  }

  lemma {:induction false} TallyCollect<A>(f: A -> Option<nat>, s: seq<A>, x: nat)
    ensures Tally(Same, Collect(f, s), x) == Tally(f, s, x)
    decreases |s|
  {
    if s == [] {
    } else {
      TallyCollect(f, s[..|s| - 1], x);
      if f(s[|s| - 1]).Some? {
        TallyAppend(Same, Collect(f, s[..|s| - 1]), f(s[|s| - 1]).value, x);
      }
    }
  }

  /** Two balances, one after the other. */
  lemma Splice<T>(before: seq<T>, waiting: seq<T>, base: seq<T>, made: seq<T>, out: seq<T>, waiting': seq<T>, more: seq<T>)
    requires before + waiting == base + made && out + waiting' == waiting + more
    ensures before + out + waiting' == base + (made + more)
  {
    assert before + out + waiting' == before + (out + waiting');
    assert before + (waiting + more) == (before + waiting) + more;
  }

  /** What comes in two parts comes as a whole. */
  lemma Chained<T>(first: seq<T>, next: seq<T>, last: seq<T>, some: seq<T>, all: seq<T>, more: seq<T>)
    requires next == first + some && last == next + more && all == some + more
    ensures last == first + all
  {}
}
