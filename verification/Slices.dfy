/** Go slices over a shared backing array: a window with a length and a capacity.  Appending
    writes into the spare capacity in place, so two windows on one array can disturb each other. */
module Slices {

  datatype Slice<T> = Slice(arr: array<T>, off: nat, len: nat, cap: nat)
  {
    ghost predicate Ok() { len <= cap && off + cap <= arr.Length }

    ghost function View(): (r: seq<T>)
      requires Ok()
      reads arr
      ensures |r| == len
    {
      arr[off..off + len]
    }
  }

  /** The elements that are not to be removed, in order. */
  function Filter<T>(xs: seq<T>, remove: T -> bool): seq<T> {
    if xs == [] then []
    else
      var n := |xs| - 1;
      Filter(xs[..n], remove) + if remove(xs[n]) then [] else [xs[n]]
  }

  lemma FilterNone<T>(xs: seq<T>, remove: T -> bool)
    ensures Filter(xs[..0], remove) == []
  {
  }

  lemma FilterSnoc<T>(xs: seq<T>, i: nat, remove: T -> bool)
    requires i < |xs|
    ensures Filter(xs[..i + 1], remove) == Filter(xs[..i], remove) + if remove(xs[i]) then [] else [xs[i]]
  {
    assert xs[..i + 1][..i] == xs[..i];
  }

  /** `append([]T(nil), s...)`: a private copy, perhaps with room to grow. */
  method Clone<T>(s: Slice<T>) returns (r: Slice<T>)
    requires s.Ok()
    ensures fresh(r.arr) && r.Ok() && r.View() == s.View()
  {
    if s.len == 0 {
      var none := new T[0];
      return Slice(none, 0, 0, 0);
    }
    var spare: nat :| 0 <= spare;
    var arr := new T[s.len + spare](i requires 0 <= i && s.Ok() && s.len > 0 reads s.arr =>
      if i < s.len then s.arr[s.off + i] else s.arr[s.off]);
    r := Slice(arr, 0, s.len, s.len + spare);
    assert r.View() == s.View();
  }

  /** `append(s, x)`. */
  method Append<T>(s: Slice<T>, x: T) returns (r: Slice<T>)
    requires s.Ok()
    modifies s.arr
    ensures r.Ok() && r.View() == old(s.View()) + [x]
    ensures if s.len < s.cap then r == s.(len := s.len + 1) else fresh(r.arr) && unchanged(s.arr)
    ensures forall i :: 0 <= i < s.arr.Length && i != s.off + s.len ==> s.arr[i] == old(s.arr[i])
  {
    if s.len < s.cap {
      s.arr[s.off + s.len] := x;
      r := s.(len := s.len + 1);
    } else {
      var spare: nat :| 0 <= spare;
      var arr := new T[s.len + 1 + spare](i requires 0 <= i && s.Ok() reads s.arr =>
        if i < s.len then s.arr[s.off + i] else x);
      r := Slice(arr, 0, s.len + 1, s.len + 1 + spare);
    }
    assert r.View() == old(s.View()) + [x];
  }

  /** Compaction in place: `kept := s[:0]`, then append what stays. */
  method FilterInPlace<T>(s: Slice<T>, remove: T -> bool) returns (kept: Slice<T>)
    requires s.Ok()
    modifies s.arr
    ensures kept.arr == s.arr && kept.Ok() && kept.View() == Filter(old(s.View()), remove)
  {
    hide Filter;
    ghost var xs := s.View();
    FilterNone(xs, remove);
    kept := s.(len := 0);
    for i := 0 to s.len
      invariant kept == s.(len := kept.len) && kept.len <= i
      invariant kept.View() == Filter(xs[..i], remove)
      invariant forall j :: i <= j < s.len ==> s.arr[s.off + j] == xs[j]
    {
      var x := s.arr[s.off + i];
      FilterSnoc(xs, i, remove);
      if !remove(x) {
        kept := Append(kept, x);
      }
    }
    assert xs[..s.len] == xs;
  }

  /** A copy shares nothing with what it was copied from, while a plain append may: with spare
      capacity, a second window on the same array sees the new element. */
  method AppendDisturbs<T>(s: Slice<T>, x: T) returns (r: Slice<T>, wider: Slice<T>)
    requires s.Ok() && s.len < s.cap
    modifies s.arr
    ensures wider.Ok() && wider.arr == s.arr && wider.View() == old(s.View()) + [x]
  {
    wider := s.(len := s.len + 1);
    r := Append(s, x);
  }
}
