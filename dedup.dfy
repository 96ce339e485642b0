/**
 * The shape shared by the capability-list normalisers of the gateway and of the desktop
 * client: walk an array, skip entries that are not strings, normalise each string, drop the
 * empty results, and keep each result once, in the order it was first seen (a JavaScript
 * `Set` filled in order, then `Array.from`).
 */
module Dedup {
  import opened Js

  /** One step of the normalisers: keep `t` when it is non-empty and not seen yet. */
  function Admit(acc: seq<string>, t: string): seq<string>
  {
    if t != "" && t !in acc then acc + [t] else acc
  }

  /** What the normaliser makes of `items` when `norm` normalises each string entry. */
  function Normalized(items: seq<Value>, norm: string -> string): seq<string>
  {
    if items == [] then []
    else
      var acc := Normalized(items[..|items| - 1], norm);
      var last := items[|items| - 1];
      if last.Str? then Admit(acc, norm(last.s)) else acc
  }

  /** One more entry of the input is one more step of the normaliser. */
  lemma NormalizedStep(items: seq<Value>, i: nat, norm: string -> string)
    requires i < |items|
    ensures Normalized(items[..i + 1], norm)
      == if items[i].Str? then Admit(Normalized(items[..i], norm), norm(items[i].s)) else Normalized(items[..i], norm)
  {
    assert items[..i + 1][..i] == items[..i];
  }

  /** No element is empty and no element occurs twice. */
  predicate DistinctNonEmpty(r: seq<string>)
  {
    (forall i :: 0 <= i < |r| ==> r[i] != "") &&
    (forall i, j :: 0 <= i < j < |r| ==> r[i] != r[j])
  }

  /** `t` is the normal form of some string entry of `items`, and is not empty. */
  predicate Offers(items: seq<Value>, norm: string -> string, t: string)
  {
    t != "" && exists i :: 0 <= i < |items| && items[i].Str? && norm(items[i].s) == t
  }

  /** The result holds each non-empty normal form of a string entry, once, and nothing else. */
  lemma {:induction false} NormalizedMembers(items: seq<Value>, norm: string -> string)
    ensures DistinctNonEmpty(Normalized(items, norm))
    ensures forall t :: t in Normalized(items, norm) <==> Offers(items, norm, t)
  {
    if items != [] {
      var init := items[..|items| - 1];
      NormalizedMembers(init, norm);
      forall t ensures t in Normalized(items, norm) <==> Offers(items, norm, t) {
        if Offers(init, norm, t) {
          var i :| 0 <= i < |init| && init[i].Str? && norm(init[i].s) == t;
          assert items[i] == init[i];
        }
        if Offers(items, norm, t) {
          var i :| 0 <= i < |items| && items[i].Str? && norm(items[i].s) == t;
          if i < |init| {
            assert init[i] == items[i];
          }
        }
      }
    }
  }

  /** First-seen order: normalising a longer input only appends to what a prefix gave. */
  lemma {:induction false} NormalizedExtends(a: seq<Value>, b: seq<Value>, norm: string -> string)
    ensures Normalized(a, norm) <= Normalized(a + b, norm)
    decreases |b|
  {
    if b == [] {
      assert a + b == a;
    } else {
      var b' := b[..|b| - 1];
      NormalizedExtends(a, b', norm);
      assert (a + b)[..|a + b| - 1] == a + b';
    }
  }

  /** The element at position `k` of the result first appears, among the inputs, after
      every element before it: the result is in first-seen order. */
  lemma {:induction false} NormalizedOrder(items: seq<Value>, norm: string -> string, n: nat)
    requires n <= |items|
    ensures forall t :: t in Normalized(items[..n], norm) <==> Offers(items[..n], norm, t)
    ensures Normalized(items[..n], norm) <= Normalized(items, norm)
  {
    NormalizedMembers(items[..n], norm);
    NormalizedExtends(items[..n], items[n..], norm);
    assert items[..n] + items[n..] == items;
  }

  /** Normalising a list that is already normalised (for a `norm` that fixes it) changes nothing. */
  lemma {:induction false} NormalizedFixed(xs: seq<string>, norm: string -> string)
    requires DistinctNonEmpty(xs)
    requires forall i :: 0 <= i < |xs| ==> norm(xs[i]) == xs[i]
    ensures Normalized(Strs(xs), norm) == xs
  {
    if xs != [] {
      var init := xs[..|xs| - 1];
      assert Strs(xs)[..|xs| - 1] == Strs(init);
      NormalizedFixed(init, norm);
      assert xs[|xs| - 1] !in init;
      assert init + [xs[|xs| - 1]] == xs;
    }
  }

  /** A list of strings as an array value's items. */
  function Strs(xs: seq<string>): (r: seq<Value>)
    ensures |r| == |xs| && forall i :: 0 <= i < |xs| ==> r[i] == Str(xs[i])
  {
    seq(|xs|, i requires 0 <= i < |xs| => Str(xs[i]))
  }
}
