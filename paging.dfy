/** Client-side paging of an already fetched list: the `slice` arithmetic shared
    by the gallery, the home projects section and the hero-carousel admin list. */
module Paging {

  /** Six items per page in every paged view (`ITEMS_PER_PAGE`, `PAGE_SIZE`). */
  const PageSize: nat := 6

  function Min(a: int, b: int): int { if a <= b then a else b }

  /** `s.slice(start, end)` for non-negative bounds: both bounds are clamped to the
      length, and a range that is empty after clamping yields `[]`. */
  function Slice<T>(s: seq<T>, start: nat, end: nat): (r: seq<T>)
    ensures |r| == if start < end && start < |s| then Min(end, |s|) - start else 0
    ensures forall i :: 0 <= i < |r| ==> r[i] == s[start + i]
  {
    if start < end && start < |s| then s[start..Min(end, |s|)] else []
  }

  /** `s.slice(0, n)`: the first `n` items, or all of them when there are fewer. */
  function Prefix<T>(s: seq<T>, n: nat): (r: seq<T>)
    ensures |r| == Min(n, |s|)
    ensures r <= s
  {
    Slice(s, 0, n)
  }

  /** Page `page` (1-based): `s.slice((page - 1) * 6, page * 6)`. */
  function PageWindow<T>(s: seq<T>, page: nat): (w: seq<T>)
    requires page >= 1
    ensures |w| <= PageSize
    ensures (page - 1) * PageSize < |s| ==> w == s[(page - 1) * PageSize .. Min(page * PageSize, |s|)]
    ensures |s| <= (page - 1) * PageSize ==> w == []
  {
    Slice(s, (page - 1) * PageSize, page * PageSize)
  }

  /** Pages 1..n shown one after the other, as "load more" accumulates them. */
  function Loaded<T>(s: seq<T>, n: nat): (r: seq<T>)
  {
    if n == 0 then [] else Loaded(s, n - 1) + PageWindow(s, n)
  }

  /** Appending page n + 1 to the first n pages gives the first n + 1 pages. */
  lemma AppendPage<T>(s: seq<T>, n: nat)
    ensures Prefix(s, n * PageSize) + PageWindow(s, n + 1) == Prefix(s, (n + 1) * PageSize)
  {
  }

  /** After pages 1..n, the shown list is the first min(6n, |s|) items, in order. */
  lemma {:induction false} LoadedIsPrefix<T>(s: seq<T>, n: nat)
    ensures Loaded(s, n) == Prefix(s, n * PageSize)
  {
    if n == 0 {
      assert Prefix(s, 0) == [];
    } else {
      LoadedIsPrefix(s, n - 1);
      AppendPage(s, n - 1);
    }
  }
}
