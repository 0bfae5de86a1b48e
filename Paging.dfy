/**
 * The page window both list pages display:
 * `rows.slice(page * rowsPerPage, page * rowsPerPage + rowsPerPage)`.
 */
module Paging {

  function Min(a: int, b: int): int {
    if a <= b then a else b
  }

  /** JavaScript `slice(start, start + rows)` with `start = page * rows`: clamped to the end, empty past it. */
  function PageWindow<T>(xs: seq<T>, page: nat, rows: nat): (r: seq<T>)
    ensures |r| <= rows
    ensures |r| == (if page * rows >= |xs| then 0 else Min(rows, |xs| - page * rows))
    ensures r != [] <==> rows > 0 && page * rows < |xs|
    ensures forall k :: 0 <= k < |r| ==> r[k] == xs[page * rows + k]
  {
    var start := page * rows;
    if start >= |xs| then [] else xs[start..Min(start + rows, |xs|)]
  }

  /** The pages from `page` on, each shown in turn and concatenated. */
  function PagesFrom<T>(xs: seq<T>, rows: nat, page: nat): seq<T>
    requires rows > 0
    decreases |xs| - page * rows
  {
    if page * rows >= |xs| then []
    else
      assert (page + 1) * rows == page * rows + rows;
      PageWindow(xs, page, rows) + PagesFrom(xs, rows, page + 1)
  }

  /** One step of paging on: a full window and the pages from the next start, or the last, short window. */
  lemma PagesFromStep<T>(xs: seq<T>, rows: nat, page: nat)
    requires rows > 0 && page * rows < |xs|
    ensures (page + 1) * rows == page * rows + rows
    ensures page * rows + rows <= |xs| ==>
      PagesFrom(xs, rows, page) == xs[page * rows..page * rows + rows] + PagesFrom(xs, rows, page + 1)
    ensures page * rows + rows > |xs| ==> PagesFrom(xs, rows, page) == xs[page * rows..]
  {
    assert (page + 1) * rows == page * rows + rows;
  }

  /** A suffix is the slice up to a later index followed by the suffix from there. */
  lemma SuffixSplit<T>(xs: seq<T>, i: nat, j: nat)
    requires i <= j <= |xs|
    ensures xs[i..] == xs[i..j] + xs[j..]
  {
  }

  /** Paging on from `page` shows exactly the rows from `page * rows` on, in order. */
  lemma {:induction false} PagesFromIsSuffix<T>(xs: seq<T>, rows: nat, page: nat)
    requires rows > 0 && page * rows <= |xs|
    ensures PagesFrom(xs, rows, page) == xs[page * rows..]
    decreases |xs| - page * rows
  {
    var start := page * rows;
    if start < |xs| {
      PagesFromStep(xs, rows, page);
      if start + rows <= |xs| {
        PagesFromIsSuffix(xs, rows, page + 1);
        SuffixSplit(xs, start, start + rows);
      }
    }
  }

  /** Every row appears on exactly one page, once: the pages partition the list. */
  lemma PagesPartition<T>(xs: seq<T>, rows: nat)
    requires rows > 0
    ensures PagesFrom(xs, rows, 0) == xs
  {
    PagesFromIsSuffix(xs, rows, 0);
  }

  /** Row `j` is shown on page `j / rows`, at position `j % rows`. */
  lemma RowOnItsPage<T>(xs: seq<T>, rows: nat, j: nat)
    requires rows > 0 && j < |xs|
    ensures j % rows < |PageWindow(xs, j / rows, rows)|
    ensures PageWindow(xs, j / rows, rows)[j % rows] == xs[j]
  {
    var p := j / rows;
    assert p * rows + j % rows == j;
  }

  /** A property every listed row has, every displayed row has. */
  lemma WindowKeeps<T>(xs: seq<T>, page: nat, rows: nat, ok: T -> bool)
    requires forall i :: 0 <= i < |xs| ==> ok(xs[i])
    ensures forall i :: 0 <= i < |PageWindow(xs, page, rows)| ==> ok(PageWindow(xs, page, rows)[i])
  {
    var r := PageWindow(xs, page, rows);
    forall i | 0 <= i < |r| ensures ok(r[i]) {
      assert r[i] == xs[page * rows + i];
    }
  }
}
