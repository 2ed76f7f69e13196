/**
 * The part of a pandas DataFrame the WEL code relies on: named columns in
 * insertion order, all of one height, column assignment, and selection of
 * rows by a boolean mask built from the timestamp column.
 */
module Frames {
  import opened Results
  import opened Clock

  /** A floating-point cell: a reading, or NaN for a missing one. Rounding is not modelled. */
  datatype Num = Val(x: real) | NaN

  /** Element-wise `+` of two float cells; NaN on either side gives NaN. */
  function Plus(a: Num, b: Num): Num {
    if a.Val? && b.Val? then Val(a.x + b.x) else NaN
  }

  /** Element-wise `-` of two float cells; NaN on either side gives NaN. */
  function Minus(a: Num, b: Num): Num {
    if a.Val? && b.Val? then Val(a.x - b.x) else NaN
  }

  /** One column, with the kind of value its cells hold. */
  datatype Column =
    | Texts(texts: seq<string>)
    | Days(days: seq<Day>)
    | Clocks(clocks: seq<Tod>)
    | Stamps(stamps: seq<Instant>)
    | Nums(nums: seq<Num>)

  function Len(c: Column): nat {
    match c
    case Texts(s) => |s|
    case Days(s) => |s|
    case Clocks(s) => |s|
    case Stamps(s) => |s|
    case Nums(s) => |s|
  }

  /** A data frame: column names in column order, the columns by name, and the row count. */
  datatype Frame = Frame(names: seq<string>, cols: map<string, Column>, height: nat)

  predicate Distinct(s: seq<string>) {
    forall i, j :: 0 <= i < j < |s| ==> s[i] != s[j]
  }

  /** The names are the distinct keys of the columns, and every column has `height` rows. */
  predicate Valid(f: Frame) {
    && Distinct(f.names)
    && (forall n :: n in f.names ==> n in f.cols)
    && (forall n :: n in f.cols ==> n in f.names)
    && (forall n :: n in f.cols ==> Len(f.cols[n]) == f.height)
  }

  /** `frame[name]`: item access, KeyError when there is no such column. */
  function Index(f: Frame, name: string): (r: Result<Column>)
    ensures r.Ok? <==> name in f.cols
    ensures r.Ok? ==> r.value == f.cols[name]
    ensures r.Err? ==> r.error == MissingKey(name)
  {
    if name in f.cols then Ok(f.cols[name]) else Err(MissingKey(name))
  }

  /**
   * `frame[name] = c`: an existing column is replaced where it stands, a new
   * one is added after the last column.
   */
  function Assign(f: Frame, name: string, c: Column): (r: Frame)
    requires Valid(f) && Len(c) == f.height
    ensures Valid(r) && r.height == f.height
    ensures r.cols == f.cols[name := c]
    ensures r.names == AppendName(f.names, name)
  {
    Frame(AppendName(f.names, name), f.cols[name := c], f.height)
  }

  /** The column order after assigning `name`: unchanged if present, else `name` last. */
  function AppendName(names: seq<string>, name: string): seq<string> {
    if name in names then names else names + [name]
  }

  /** The mask `(ts > lo) & (ts < hi)` holds at a row with timestamp `t`. */
  predicate Inside(t: Instant, lo: Instant, hi: Instant) {
    lo < t < hi
  }

  /** `xs[(ts > lo) & (ts < hi)]`: the cells whose row timestamp lies strictly inside, in row order. */
  function Keep<T>(xs: seq<T>, ts: seq<Instant>, lo: Instant, hi: Instant): (r: seq<T>)
    requires |xs| == |ts|
    ensures |r| <= |xs|
  {
    if |xs| == 0 then []
    else
      var n := |xs| - 1;
      Keep(xs[..n], ts[..n], lo, hi) + (if Inside(ts[n], lo, hi) then [xs[n]] else [])
  }

  /** The numbers of the rows strictly inside the window, ascending. */
  function Picked(ts: seq<Instant>, lo: Instant, hi: Instant): (p: seq<nat>)
    ensures forall k :: 0 <= k < |p| ==> p[k] < |ts| && Inside(ts[p[k]], lo, hi)
    ensures forall k, l :: 0 <= k < l < |p| ==> p[k] < p[l]
    ensures forall i :: 0 <= i < |ts| && Inside(ts[i], lo, hi) ==> i in p
  {
    if |ts| == 0 then []
    else
      var n := |ts| - 1;
      Picked(ts[..n], lo, hi) + (if Inside(ts[n], lo, hi) then [n] else [])
  }

  /** The cells of `xs` at the rows `p`, in the order of `p`. */
  function Gather<T>(xs: seq<T>, p: seq<nat>): (r: seq<T>)
    requires forall k :: 0 <= k < |p| ==> p[k] < |xs|
    ensures |r| == |p|
    ensures forall k :: 0 <= k < |p| ==> r[k] == xs[p[k]]
  {
    seq(|p|, k requires 0 <= k < |p| => xs[p[k]])
  }

  /** Masking by the window keeps exactly the cells of the rows strictly inside it, in row order. */
  lemma {:induction false} KeepIsGather<T>(xs: seq<T>, ts: seq<Instant>, lo: Instant, hi: Instant)
    requires |xs| == |ts|
    ensures Keep(xs, ts, lo, hi) == Gather(xs, Picked(ts, lo, hi))
  {
    if |xs| > 0 {
      var n := |xs| - 1;
      var p := Picked(ts[..n], lo, hi);
      KeepIsGather(xs[..n], ts[..n], lo, hi);
      assert Gather(xs[..n], p) == Gather(xs, p);
      if Inside(ts[n], lo, hi) {
        assert Gather(xs, p + [n]) == Gather(xs, p) + [xs[n]];
      }
    }
  }

  /** The column's cells at the rows `p`, of the same kind. */
  function GatherColumn(c: Column, p: seq<nat>): (r: Column)
    requires forall k :: 0 <= k < |p| ==> p[k] < Len(c)
    ensures Len(r) == |p|
  {
    match c
    case Texts(s) => assert Len(c) == |s|; Texts(Gather(s, p))
    case Days(s) => assert Len(c) == |s|; Days(Gather(s, p))
    case Clocks(s) => assert Len(c) == |s|; Clocks(Gather(s, p))
    case Stamps(s) => assert Len(c) == |s|; Stamps(Gather(s, p))
    case Nums(s) => assert Len(c) == |s|; Nums(Gather(s, p))
  }

  /**
   * `column[mask]` with the window mask: the column's cells at exactly the
   * rows strictly inside the window, in row order, of the same kind.
   */
  function KeepColumn(c: Column, ts: seq<Instant>, lo: Instant, hi: Instant): (r: Column)
    requires Len(c) == |ts|
    ensures r == GatherColumn(c, Picked(ts, lo, hi))
    ensures Len(r) == |Picked(ts, lo, hi)|
  {
    match c
    case Texts(s) => KeepIsGather(s, ts, lo, hi); Texts(Keep(s, ts, lo, hi))
    case Days(s) => KeepIsGather(s, ts, lo, hi); Days(Keep(s, ts, lo, hi))
    case Clocks(s) => KeepIsGather(s, ts, lo, hi); Clocks(Keep(s, ts, lo, hi))
    case Stamps(s) => KeepIsGather(s, ts, lo, hi); Stamps(Keep(s, ts, lo, hi))
    case Nums(s) => KeepIsGather(s, ts, lo, hi); Nums(Keep(s, ts, lo, hi))
  }
}
