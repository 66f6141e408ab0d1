/** Concatenating what a function gives for each element of a list: the shape of a loop that
    pushes zero or more results per input element. */
module Sequences {

  /** f(xs[0]) + f(xs[1]) + … in order. */
  function ConcatMap<T, U>(xs: seq<T>, f: T -> seq<U>): seq<U> {
    if |xs| == 0 then [] else ConcatMap(xs[..|xs| - 1], f) + f(xs[|xs| - 1])
  }

  /** Concatenating commutes with appending inputs. */
  lemma {:induction false} ConcatMapAppend<T, U>(a: seq<T>, b: seq<T>, f: T -> seq<U>)
    ensures ConcatMap(a + b, f) == ConcatMap(a, f) + ConcatMap(b, f)
    decreases |b|
  {
    if |b| > 0 {
      var b' := b[..|b| - 1];
      assert (a + b)[..|a + b| - 1] == a + b';
      ConcatMapAppend(a, b', f);
    } else {
      assert a + b == a;
    }
  }

  /** An element for which f gives nothing can be dropped from the input. */
  lemma ConcatMapSkip<T, U>(xs: seq<T>, i: nat, f: T -> seq<U>)
    requires i < |xs| && f(xs[i]) == []
    ensures ConcatMap(xs, f) == ConcatMap(xs[..i] + xs[i + 1..], f)
  {
    var a, x, b := xs[..i], xs[i], xs[i + 1..];
    assert xs == (a + [x]) + b;
    ConcatMapAppend(a + [x], b, f);
    ConcatMapSingle(a, x, f);
    ConcatMapAppend(a, b, f);
  }

  /** Appending one input appends what f gives for it. */
  lemma ConcatMapSingle<T, U>(a: seq<T>, x: T, f: T -> seq<U>)
    ensures ConcatMap(a + [x], f) == ConcatMap(a, f) + f(x)
  {
    assert (a + [x])[..|a|] == a;
  }

  /** A property every f(x) has of all its elements holds of every element of the result. */
  lemma {:induction false} ConcatMapAll<T, U>(xs: seq<T>, f: T -> seq<U>, p: U -> bool)
    requires forall x, j | x in xs && 0 <= j < |f(x)| :: p(f(x)[j])
    ensures forall j | 0 <= j < |ConcatMap(xs, f)| :: p(ConcatMap(xs, f)[j])
  {
    if |xs| > 0 {
      var init := xs[..|xs| - 1];
      assert forall x | x in init :: x in xs;
      ConcatMapAll(init, f, p);
      assert xs[|xs| - 1] in xs;
    }
  }
}
