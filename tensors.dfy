/** Dense numeric tensors of rank 1 and 2, with the numpy operations that
    nemo/export/trt_llm/nemo_utils.py applies to them: `np.split` and the
    `split` helper built on it, `np.concatenate` (the inverse the helper is
    checked against) and zero row padding with `np.pad`.
    Element values are never inspected, so the element type is a parameter. */
module Tensors {
  import opened Results

  /** A vector, or a matrix stored as its width and its rows. */
  datatype Tensor<T> = Vec(elems: seq<T>) | Mat(width: nat, rows: seq<seq<T>>)

  /** Every row of a matrix has the matrix's width (an ndarray is rectangular). */
  predicate WellFormed<T>(v: Tensor<T>)
  {
    v.Mat? ==> forall i :: 0 <= i < |v.rows| ==> |v.rows[i]| == v.width
  }

  function Ndim<T>(v: Tensor<T>): nat
  {
    if v.Vec? then 1 else 2
  }

  /** `v.shape[ax]`. */
  function AxisLen<T>(v: Tensor<T>, ax: nat): nat
    requires ax < Ndim(v)
  {
    if v.Vec? then |v.elems| else if ax == 0 then |v.rows| else v.width
  }

  /** Python's negative-index rule: position `idx` of something `len` long,
      with negatives counting from the end. It serves both list indexing
      `xs[idx]` and numpy's `axis` argument (`-ndim <= axis < ndim`). */
  function NormalizeIndex(idx: int, len: nat): (r: Option<nat>)
    ensures r.Some? <==> 0 <= idx + len && idx < len
    ensures r.Some? ==> r.value < len && (r.value == idx || r.value == idx + len)
  {
    if 0 <= idx < len then Some(idx)
    else if 0 <= idx + len && idx < 0 then Some(idx + len)
    else None
  }

  function Flatten<T>(ss: seq<seq<T>>): seq<T>
    decreases |ss|
  {
    if ss == [] then [] else ss[0] + Flatten(ss[1..])
  }

  lemma MulStep(n: nat, b: nat)
    requires n > 0
    ensures n * b == (n - 1) * b + b
  {
  }

  lemma {:induction false} MulBelow(i: nat, n: nat, b: nat)
    requires i < n
    ensures i * b + b <= n * b
    decreases n - i
  {
    MulStep(n, b);
    if i + 1 < n {
      MulBelow(i, n - 1, b);
    }
  }

  /** `s` cut into `n` consecutive pieces of length `b`. */
  function Chunks<T>(s: seq<T>, n: nat, b: nat): (r: seq<seq<T>>)
    requires |s| == n * b
    ensures |r| == n
    ensures forall i :: 0 <= i < n ==> |r[i]| == b
    decreases n
  {
    if n == 0 then []
    else
      MulStep(n, b);
      [s[..b]] + Chunks(s[b..], n - 1, b)
  }

  /** Piece `i` holds the elements `i * b .. i * b + b - 1` of `s`. */
  lemma {:induction false} ChunkAt<T>(s: seq<T>, n: nat, b: nat, i: nat, j: nat)
    requires |s| == n * b && i < n && j < b
    ensures i * b + j < |s|
    ensures Chunks(s, n, b)[i][j] == s[i * b + j]
    decreases i
  {
    MulStep(n, b);
    MulBelow(i, n, b);
    if i > 0 {
      MulStep(i, b);
      ChunkAt(s[b..], n - 1, b, i - 1, j);
    }
  }

  /** Gluing the pieces back together gives `s`. */
  lemma {:induction false} FlattenChunks<T>(s: seq<T>, n: nat, b: nat)
    requires |s| == n * b
    ensures Flatten(Chunks(s, n, b)) == s
    decreases n
  {
    if n > 0 {
      MulStep(n, b);
      var rest := s[b..];
      var cs := Chunks(s, n, b);
      assert cs == [s[..b]] + Chunks(rest, n - 1, b);
      FlattenChunks(rest, n - 1, b);
      assert cs[1..] == Chunks(rest, n - 1, b);
      assert s[..b] + rest == s;
    }
  }

  lemma DivExact(len: nat, n: nat)
    requires n > 0 && len % n == 0
    ensures len == n * (len / n)
  {
  }

  /** Column blocks: block `i` keeps columns `i * b .. i * b + b - 1` of every row. */
  function ColumnBlocks<T>(rows: seq<seq<T>>, width: nat, n: nat, b: nat): (r: seq<Tensor<T>>)
    requires width == n * b
    requires forall k :: 0 <= k < |rows| ==> |rows[k]| == width
    ensures |r| == n
    ensures forall i :: 0 <= i < n ==>
              r[i].Mat? && r[i].width == b && |r[i].rows| == |rows| && WellFormed(r[i])
  {
    seq(n, i requires 0 <= i < n =>
      Mat(b, seq(|rows|, k requires 0 <= k < |rows| => Chunks(rows[k], n, b)[i])))
  }

  /** Row blocks: block `i` holds rows `i * b .. i * b + b - 1`. */
  function RowBlocks<T>(rows: seq<seq<T>>, width: nat, n: nat, b: nat): (r: seq<Tensor<T>>)
    requires |rows| == n * b
    requires forall k :: 0 <= k < |rows| ==> |rows[k]| == width
    ensures |r| == n
    ensures forall i :: 0 <= i < n ==>
              r[i].Mat? && r[i].width == width && |r[i].rows| == b && WellFormed(r[i])
  {
    var cs := Chunks(rows, n, b);
    assert forall i, j :: 0 <= i < n && 0 <= j < b ==> |cs[i][j]| == width by {
      forall i, j | 0 <= i < n && 0 <= j < b ensures |cs[i][j]| == width {
        ChunkAt(rows, n, b, i, j);
      }
    }
    seq(n, i requires 0 <= i < n => Mat(width, cs[i]))
  }

  /** The `n` equal blocks of `v` along axis `ax`. */
  function Blocks<T>(v: Tensor<T>, n: nat, ax: nat): (r: seq<Tensor<T>>)
    requires WellFormed(v) && ax < Ndim(v) && n > 0 && AxisLen(v, ax) % n == 0
    ensures |r| == n
    ensures forall i :: 0 <= i < n ==>
              && WellFormed(r[i]) && r[i].Vec? == v.Vec?
              && AxisLen(r[i], ax) * n == AxisLen(v, ax)
              && (v.Mat? ==> (ax == 0 ==> r[i].width == v.width)
                             && (ax == 1 ==> |r[i].rows| == |v.rows|))
  {
    var b := AxisLen(v, ax) / n;
    DivExact(AxisLen(v, ax), n);
    if v.Vec? then
      var cs := Chunks(v.elems, n, b);
      seq(n, i requires 0 <= i < n => Vec(cs[i]))
    else if ax == 0 then
      RowBlocks(v.rows, v.width, n, b)
    else
      ColumnBlocks(v.rows, v.width, n, b)
  }

  /** `np.split(v, sections, axis=axis)`. */
  function NpSplit<T>(v: Tensor<T>, sections: int, axis: int): (r: Result<seq<Tensor<T>>>)
    requires WellFormed(v)
    ensures r.Ok? <==> NormalizeIndex(axis, Ndim(v)).Some? && sections > 0
                       && AxisLen(v, NormalizeIndex(axis, Ndim(v)).value) % sections == 0
    ensures r.Ok? ==> |r.value| == sections
  {
    match NormalizeIndex(axis, Ndim(v))
    case None => Err(AxisOutOfRange)
    case Some(ax) =>
      if sections <= 0 then Err(NonPositiveSections)
      else if AxisLen(v, ax) % sections != 0 then Err(UnequalDivision)
      else Ok(Blocks(v, sections, ax))
  }

  /** `np.split(...)[idx]`. */
  function PickBlock<T>(blocks: Result<seq<Tensor<T>>>, idx: int): Result<Tensor<T>>
  {
    match blocks
    case Err(e) => Err(e)
    case Ok(bs) =>
      match NormalizeIndex(idx, |bs|)
      case None => Err(BlockIndexOutOfRange)
      case Some(k) => Ok(bs[k])
  }

  /** The axis `split` cuts: the only axis of a vector, `dim` of a matrix. */
  function SplitAxis<T>(v: Tensor<T>, dim: int): Option<nat>
  {
    if v.Vec? then Some(0) else NormalizeIndex(dim, 2)
  }

  /** Whether `split(v, tpSize, idx, dim)` returns rather than raises. */
  predicate SplitDefined<T>(v: Tensor<T>, tpSize: int, idx: int, dim: int)
  {
    tpSize == 1 ||
    (SplitAxis(v, dim).Some? && SplitAxis(v, dim).value < Ndim(v) && tpSize > 0
     && AxisLen(v, SplitAxis(v, dim).value) % tpSize == 0 && -tpSize <= idx < tpSize)
  }

  /** `split(v, tp_size, idx, dim)`: the `idx`-th of `tp_size` equal blocks of `v`
      along `dim` (a vector is always cut along its one axis), or `v` itself
      when `tp_size == 1`, whatever `idx` and `dim` are. */
  function Split<T>(v: Tensor<T>, tpSize: int, idx: int, dim: int): (r: Result<Tensor<T>>)
    requires WellFormed(v)
    ensures tpSize == 1 ==> r == Ok(v)
    ensures r.Ok? <==> SplitDefined(v, tpSize, idx, dim)
    ensures r.Ok? ==> WellFormed(r.value)
    ensures r.Ok? && tpSize != 1 ==>
              var ax := SplitAxis(v, dim).value;
              r.value.Vec? == v.Vec? && Ndim(r.value) == Ndim(v)
              && AxisLen(r.value, ax) * tpSize == AxisLen(v, ax)
              && (v.Mat? ==> (ax == 0 ==> r.value.width == v.width)
                             && (ax == 1 ==> |r.value.rows| == |v.rows|))
  {
    if tpSize == 1 then Ok(v)
    else if v.Vec? then PickBlock(NpSplit(v, tpSize, 0), idx)
    else PickBlock(NpSplit(v, tpSize, dim), idx)
  }

  /** `split` returns the block that `idx`, read as a Python list index, selects. */
  lemma SplitIsBlock<T>(v: Tensor<T>, tpSize: int, idx: int, dim: int)
    requires WellFormed(v) && tpSize != 1 && SplitDefined(v, tpSize, idx, dim)
    ensures tpSize > 0 && SplitAxis(v, dim).value < Ndim(v)
    ensures AxisLen(v, SplitAxis(v, dim).value) % tpSize == 0
    ensures NormalizeIndex(idx, tpSize).Some?
    ensures Split(v, tpSize, idx, dim).value
            == Blocks(v, tpSize, SplitAxis(v, dim).value)[NormalizeIndex(idx, tpSize).value]
  {
  }

  /** Block `k` of a vector holds its elements `k * b ..` */
  lemma {:induction false} VecBlockAt<T>(v: Tensor<T>, n: nat, k: nat, j: nat)
    requires v.Vec? && n > 0 && |v.elems| % n == 0 && k < n && j < |v.elems| / n
    ensures k * (|v.elems| / n) + j < |v.elems|
    ensures Blocks(v, n, 0)[k].elems[j] == v.elems[k * (|v.elems| / n) + j]
  {
    DivExact(|v.elems|, n);
    ChunkAt(v.elems, n, |v.elems| / n, k, j);
  }

  /** Block `k` of a matrix cut along axis 0 holds its rows `k * b ..` */
  lemma {:induction false} RowBlockAt<T>(v: Tensor<T>, n: nat, k: nat, i: nat)
    requires v.Mat? && WellFormed(v) && n > 0 && |v.rows| % n == 0 && k < n && i < |v.rows| / n
    ensures k * (|v.rows| / n) + i < |v.rows|
    ensures Blocks(v, n, 0)[k].rows[i] == v.rows[k * (|v.rows| / n) + i]
  {
    DivExact(|v.rows|, n);
    ChunkAt(v.rows, n, |v.rows| / n, k, i);
  }

  /** Block `k` of a matrix cut along axis 1 holds columns `k * b ..` of every row. */
  lemma {:induction false} ColumnBlockAt<T>(v: Tensor<T>, n: nat, k: nat, i: nat, j: nat)
    requires v.Mat? && WellFormed(v) && n > 0 && v.width % n == 0 && k < n
    requires i < |v.rows| && j < v.width / n
    ensures k * (v.width / n) + j < v.width
    ensures Blocks(v, n, 1)[k].rows[i][j] == v.rows[i][k * (v.width / n) + j]
  {
    DivExact(v.width, n);
    ChunkAt(v.rows[i], n, v.width / n, k, j);
  }

  /** `parts` can be joined along `ax`: all vectors, or all matrices agreeing on
      the axis that is not joined. */
  predicate Concatenable<T>(parts: seq<Tensor<T>>, ax: nat)
  {
    && |parts| > 0
    && (forall i :: 0 <= i < |parts| ==> WellFormed(parts[i]) && parts[i].Vec? == parts[0].Vec?)
    && ax < Ndim(parts[0])
    && (parts[0].Mat? ==> forall i :: 0 <= i < |parts| ==>
          (ax == 0 ==> parts[i].width == parts[0].width)
          && (ax == 1 ==> |parts[i].rows| == |parts[0].rows|))
  }

  function SumWidths<T>(parts: seq<Tensor<T>>): nat
    requires forall i :: 0 <= i < |parts| ==> parts[i].Mat?
    decreases |parts|
  {
    if parts == [] then 0 else parts[0].width + SumWidths(parts[1..])
  }

  lemma {:induction false} SumEqualWidths<T>(parts: seq<Tensor<T>>, b: nat)
    requires forall i :: 0 <= i < |parts| ==> parts[i].Mat? && parts[i].width == b
    ensures SumWidths(parts) == |parts| * b
    decreases |parts|
  {
    if parts != [] {
      SumEqualWidths(parts[1..], b);
    }
  }

  /** `np.concatenate(parts, axis=ax)`. */
  function Concatenate<T>(parts: seq<Tensor<T>>, ax: nat): Tensor<T>
    requires Concatenable(parts, ax)
  {
    if parts[0].Vec? then
      Vec(Flatten(seq(|parts|, i requires 0 <= i < |parts| => parts[i].elems)))
    else if ax == 0 then
      Mat(parts[0].width, Flatten(seq(|parts|, i requires 0 <= i < |parts| => parts[i].rows)))
    else
      Mat(SumWidths(parts), seq(|parts[0].rows|, k requires 0 <= k < |parts[0].rows| =>
        Flatten(seq(|parts|, i requires 0 <= i < |parts| => parts[i].rows[k]))))
  }

  /** The axis `split` cuts exists and its length is a multiple of `tpSize`. */
  predicate Divisible<T>(v: Tensor<T>, tpSize: int, dim: int)
  {
    && tpSize >= 1
    && SplitAxis(v, dim).Some? && SplitAxis(v, dim).value < Ndim(v)
    && AxisLen(v, SplitAxis(v, dim).value) % tpSize == 0
  }

  /** `[split(v, tpSize, i, dim) for i in range(tpSize)]`. */
  function AllSplits<T>(v: Tensor<T>, tpSize: int, dim: int): (r: seq<Tensor<T>>)
    requires WellFormed(v) && Divisible(v, tpSize, dim)
    ensures |r| == tpSize
  {
    seq(tpSize, i requires 0 <= i < tpSize => Split(v, tpSize, i, dim).value)
  }

  lemma FlattenOne<T>(x: seq<T>)
    ensures Flatten([x]) == x
  {
    assert [x][1..] == [];
  }

  /** The blocks `split` hands to the `tpSize` ranks concatenate back to `v`. */
  lemma SplitConcatenate<T>(v: Tensor<T>, tpSize: int, dim: int)
    requires WellFormed(v) && Divisible(v, tpSize, dim)
    ensures forall i :: 0 <= i < tpSize ==> Split(v, tpSize, i, dim).Ok?
    ensures Concatenable(AllSplits(v, tpSize, dim), SplitAxis(v, dim).value)
    ensures Concatenate(AllSplits(v, tpSize, dim), SplitAxis(v, dim).value) == v
  {
    var parts := AllSplits(v, tpSize, dim);
    var ax := SplitAxis(v, dim).value;
    if tpSize == 1 {
      assert parts == [v];
      if v.Vec? {
        FlattenOne(v.elems);
        assert seq(1, i requires 0 <= i < 1 => parts[i].elems) == [v.elems];
      } else if ax == 0 {
        FlattenOne(v.rows);
        assert seq(1, i requires 0 <= i < 1 => parts[i].rows) == [v.rows];
      } else {
        SumEqualWidths(parts, v.width);
        forall k | 0 <= k < |v.rows|
          ensures Flatten(seq(1, i requires 0 <= i < 1 => parts[i].rows[k])) == v.rows[k]
        {
          assert seq(1, i requires 0 <= i < 1 => parts[i].rows[k]) == [v.rows[k]];
          FlattenOne(v.rows[k]);
        }
      }
    } else {
      var n: nat := tpSize;
      var b := AxisLen(v, ax) / n;
      DivExact(AxisLen(v, ax), n);
      var bs := Blocks(v, n, ax);
      forall i | 0 <= i < n ensures parts[i] == bs[i] {
        SplitIsBlock(v, tpSize, i, dim);
      }
      if v.Vec? {
        assert seq(n, i requires 0 <= i < n => parts[i].elems) == Chunks(v.elems, n, b);
        FlattenChunks(v.elems, n, b);
      } else if ax == 0 {
        assert seq(n, i requires 0 <= i < n => parts[i].rows) == Chunks(v.rows, n, b);
        FlattenChunks(v.rows, n, b);
      } else {
        SumEqualWidths(parts, b);
        forall k | 0 <= k < |v.rows|
          ensures Flatten(seq(n, i requires 0 <= i < n => parts[i].rows[k])) == v.rows[k]
        {
          assert seq(n, i requires 0 <= i < n => parts[i].rows[k]) == Chunks(v.rows[k], n, b);
          FlattenChunks(v.rows[k], n, b);
        }
      }
    }
  }

  /** `np.pad(v, ((0, count), (0, 0)), "constant", constant_values=zero)`:
      `count` rows of `zero` appended below a matrix. A vector cannot take a
      two-axis pad spec and a negative count is refused, as numpy does. */
  function PadRows<T>(v: Tensor<T>, count: int, zero: T): (r: Result<Tensor<T>>)
    requires WellFormed(v)
    ensures r.Ok? <==> v.Mat? && count >= 0
    ensures r.Ok? ==>
              && r.value.Mat? && WellFormed(r.value) && r.value.width == v.width
              && |r.value.rows| == |v.rows| + count
              && r.value.rows[..|v.rows|] == v.rows
              && forall i, j :: |v.rows| <= i < |r.value.rows| && 0 <= j < v.width ==> r.value.rows[i][j] == zero
  {
    if v.Vec? then Err(PadNeedsMatrix)
    else if count < 0 then Err(NegativePad)
    else Ok(Mat(v.width, v.rows + seq(count, _ => seq(v.width, _ => zero))))
  }
}
