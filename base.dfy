/** Sequence building blocks shared by the three add-ons: the flattening orders
    their loops produce, Python's in-place `list.reverse()`, and the
    "add layers until there are enough" loops. */
module Base {

  datatype Option<T> = None | Some(value: T)

  function Max(a: nat, b: nat): nat { if a < b then b else a }

  /** Dividing by a positive number keeps strict order. */
  lemma DivideIncreasing(x: real, y: real, n: real)
    requires 0.0 < n && x < y
    ensures x / n < y / n
  {
    assert y / n - x / n == (y - x) / n;
  }

  /** Every row has exactly `width` entries. */
  predicate Uniform<T>(rows: seq<seq<T>>, width: nat)
  {
    forall k :: 0 <= k < |rows| ==> |rows[k]| == width
  }

  /** The rows one after another, first row first: nested `append` loops. */
  function Concat<T>(rows: seq<seq<T>>): seq<T>
  {
    if rows == [] then [] else Concat(rows[..|rows| - 1]) + rows[|rows| - 1]
  }

  /** The rows one after another, last row first:
      `for row in reversed(rows): out.extend(row)`. */
  function ConcatReversed<T>(rows: seq<seq<T>>): seq<T>
  {
    if rows == [] then [] else ConcatReversed(rows[1..]) + rows[0]
  }

  /** Taking one more row from the front of a suffix puts it at the end. */
  lemma ConcatReversedStep<T>(rows: seq<seq<T>>, m: nat)
    requires m < |rows|
    ensures ConcatReversed(rows[m..]) == ConcatReversed(rows[m + 1..]) + rows[m]
  {
    assert rows[m..][1..] == rows[m + 1..];
  }

  /** Taking one more row from the front puts it at the end, first row first. */
  lemma ConcatStep<T>(rows: seq<seq<T>>, k: nat)
    requires k < |rows|
    ensures Concat(rows[..k + 1]) == Concat(rows[..k]) + rows[k]
  {
    assert rows[..k + 1][..k] == rows[..k];
  }

  /** One more entry of the row being copied. */
  lemma ExtendByOne<T>(done: seq<T>, row: seq<T>, i: nat)
    requires i < |row|
    ensures done + row[..i + 1] == (done + row[..i]) + [row[i]]
  {
    assert row[..i + 1] == row[..i] + [row[i]];
  }

  /** Python's `list.reverse()`. */
  function Reverse<T>(s: seq<T>): (r: seq<T>)
    ensures |r| == |s|
  {
    if s == [] then [] else [s[|s| - 1]] + Reverse(s[..|s| - 1])
  }

  /** `while len(layers) < count: layers.new()`, every new layer being `blank`. */
  function Pad<T>(layers: seq<T>, count: nat, blank: T): seq<T>
    decreases count - |layers|
  {
    if |layers| >= count then layers else Pad(layers + [blank], count, blank)
  }

  /** Row k of n rows of `width` entries starts below entry n * width. */
  lemma RowInside(k: nat, v: nat, n: nat, width: nat)
    requires k < n && v < width
    ensures k * width + v < n * width
  {
    assert (k + 1) * width <= n * width by {
      assert n * width == (k + 1) * width + (n - k - 1) * width;
    }
  }

  lemma {:induction false} ConcatLength<T>(rows: seq<seq<T>>, width: nat)
    requires Uniform(rows, width)
    ensures |Concat(rows)| == |rows| * width
  {
    if rows != [] {
      var n := |rows|;
      var init := rows[..n - 1];
      assert Uniform(init, width) by {
        assert forall k :: 0 <= k < n - 1 ==> init[k] == rows[k];
      }
      ConcatLength(init, width);
      assert |Concat(rows)| == |Concat(init)| + width;
      assert (n - 1) * width + width == n * width;
    }
  }

  lemma {:induction false} ConcatReversedLength<T>(rows: seq<seq<T>>, width: nat)
    requires Uniform(rows, width)
    ensures |ConcatReversed(rows)| == |rows| * width
  {
    if rows != [] {
      ConcatReversedLength(rows[1..], width);
    }
  }

  /** Entry v of row k sits at k * width + v. */
  lemma {:induction false} ConcatAt<T>(rows: seq<seq<T>>, width: nat, k: nat, v: nat)
    requires Uniform(rows, width)
    requires k < |rows| && v < width
    ensures |Concat(rows)| == |rows| * width
    ensures k * width + v < |Concat(rows)|
    ensures Concat(rows)[k * width + v] == rows[k][v]
  {
    var n := |rows|;
    var init := rows[..n - 1];
    ConcatLength(rows, width);
    ConcatLength(init, width);
    RowInside(k, v, n, width);
    if k < n - 1 {
      ConcatAt(init, width, k, v);
      RowInside(k, v, n - 1, width);
    } else {
      assert k * width + v == |Concat(init)| + v;
    }
  }

  /** Entry v of row k of the last-first concatenation is entry v of row n-1-k. */
  lemma {:induction false} ConcatReversedAt<T>(rows: seq<seq<T>>, width: nat, k: nat, v: nat)
    requires Uniform(rows, width)
    requires k < |rows| && v < width
    ensures |ConcatReversed(rows)| == |rows| * width
    ensures k * width + v < |ConcatReversed(rows)|
    ensures ConcatReversed(rows)[k * width + v] == rows[|rows| - 1 - k][v]
  {
    var n := |rows|;
    var tail := rows[1..];
    ConcatReversedLength(rows, width);
    ConcatReversedLength(tail, width);
    RowInside(k, v, n, width);
    if k < n - 1 {
      ConcatReversedAt(tail, width, k, v);
      RowInside(k, v, n - 1, width);
    } else {
      assert k * width + v == |ConcatReversed(tail)| + v;
    }
  }

  lemma {:induction false} ReverseAt<T>(s: seq<T>, i: nat)
    requires i < |s|
    ensures Reverse(s)[i] == s[|s| - 1 - i]
  {
    if i > 0 {
      ReverseAt(s[..|s| - 1], i - 1);
    }
  }

  /** Padding keeps what was there, adds blanks, and stops at `count`. */
  lemma {:induction false} PadSpec<T>(layers: seq<T>, count: nat, blank: T)
    ensures |Pad(layers, count, blank)| == Max(|layers|, count)
    ensures Pad(layers, count, blank)[..|layers|] == layers
    ensures forall i :: |layers| <= i < |Pad(layers, count, blank)| ==> Pad(layers, count, blank)[i] == blank
    decreases count - |layers|
  {
    if |layers| < count {
      var longer := layers + [blank];
      PadSpec(longer, count, blank);
      assert Pad(longer, count, blank)[..|longer|][..|layers|] == layers;
    }
  }
}
