/** Tensors of the network, abstracted to their shapes, and the failures the
    PyTorch code raises on them (assertions, shape errors of library calls). */
module Shapes {

  /** Why a call raised. */
  datatype Error =
    | ChannelMismatch        // a layer saw a channel count other than the one it was built for
    | RankMismatch           // a convolution or interpolation saw a tensor of the wrong rank
    | EmbeddingWidth         // the timestep embedding is not as wide as the linear layer expects
    | BroadcastMismatch      // an elementwise add of tensors whose dims are neither equal nor 1
    | ConcatMismatch         // torch.cat of tensors that differ outside the channel axis
    | NotDivisible           // `assert channels % num_head_channels == 0` or `width % (3 * n_heads) == 0`
    | ZeroDivision           // Python `%` by zero
    | BadHeads               // a non-positive head count makes the reshape fail
    | DownsampleChannels     // `assert self.channels == self.out_channels` in Downsample
    | InputChannels          // `assert x.shape[1] == 3` in the forward pass
    | LabelMismatch          // `y` given without `num_classes`, or the reverse
    | NotImplemented         // the class-conditional forward path
    | NoConditioningModule   // `self.mfcm` was never built (high_way=False)
    | PopFromEmpty           // `list.pop()` on an empty list
    | EmptyAxis              // a convolution, pool or interpolation whose input or output has a spatial axis of size 0
    | EmptyTensor            // `reshape(b, c, -1)` with b * c == 0, where the -1 is ambiguous
    | UnsupportedDims        // `conv_nd` or `avg_pool_nd` asked for a signal that is not 1D, 2D or 3D

  datatype Result<+T> = Ok(value: T) | Err(error: Error) {
    predicate IsFailure() { Err? }
    function PropagateFailure<U>(): Result<U>
      requires Err?
    {
      Err(error)
    }
    function Extract(): T
      requires Ok?
    {
      value
    }
  }

  /** A feature map [N x C x spatial...]; `spatial` has one entry per spatial axis. */
  datatype Shape = Shape(batch: nat, channels: nat, spatial: seq<nat>)

  /** A timestep embedding [N x width]. */
  datatype Emb = Emb(batch: nat, width: nat)

  /** Python's `a or b` on a channel count: 0 (and None, which the model writes
      as 0) is falsy, so the default is taken. */
  function OrDefault(given: nat, default: nat): (r: nat)
    ensures given != 0 ==> r == given
    ensures given == 0 ==> r == default
  {
    if given == 0 then default else given
  }

  /** The signal dimensions `conv_nd` and `avg_pool_nd` build a layer for;
      they raise `ValueError` for any other `dims`. */
  predicate SupportedDims(dims: nat)
  {
    1 <= dims <= 3
  }

  function Pow2(k: nat): (r: nat)
    ensures r >= 1
  {
    if k == 0 then 1 else 2 * Pow2(k - 1)
  }

  /** Number of positions once the spatial axes are flattened (`reshape(b, c, -1)`). */
  function Product(s: seq<nat>): nat
  {
    if s == [] then 1 else Product(s[..|s| - 1]) * s[|s| - 1]
  }

  /** Broadcasting of one axis in an elementwise operation. */
  function BroadcastDim(a: nat, b: nat): (r: Result<nat>)
    ensures r.Ok? <==> (a == b || a == 1 || b == 1)
    ensures r.Ok? ==> (r.value == a || r.value == b) && (a == b ==> r.value == a)
  {
    if a == b then Ok(a)
    else if a == 1 then Ok(b)
    else if b == 1 then Ok(a)
    else Err(BroadcastMismatch)
  }

  predicate BroadcastableAxes(s: seq<nat>, t: seq<nat>)
  {
    |s| == |t| && forall i :: 0 <= i < |s| ==> BroadcastDim(s[i], t[i]).Ok?
  }

  function MaxLen(m: nat, n: nat): nat { if m < n then n else m }

  function MinLen(m: nat, n: nat): nat { if m < n then m else n }

  /** The i-th axis counted from the trailing end. */
  function FromEnd(s: seq<nat>, i: nat): nat
    requires i < |s|
  {
    s[|s| - 1 - i]
  }

  /** Every axis of a feature map, outermost first: [N, C, spatial...]. */
  function Axes(a: Shape): (r: seq<nat>)
    ensures |r| == 2 + |a.spatial| && r[0] == a.batch && r[1] == a.channels && r[2..] == a.spatial
  {
    [a.batch, a.channels] + a.spatial
  }

  lemma FromEndInit(s: seq<nat>, i: nat)
    requires 0 < i < |s|
    ensures FromEnd(s, i) == FromEnd(s[..|s| - 1], i - 1)
  {
  }

  /** The axes of `a + b` for tensors of any ranks, matched from the trailing
      end; the leading axes of the longer one are kept. */
  function BroadcastAxes(u: seq<nat>, v: seq<nat>): (r: Result<seq<nat>>)
    decreases |u|
    ensures r.Err? ==> r.error == BroadcastMismatch
    ensures r.Ok? ==> |r.value| == MaxLen(|u|, |v|)
  {
    if u == [] then Ok(v)
    else if v == [] then Ok(u)
    else
      var d :- BroadcastDim(u[|u| - 1], v[|v| - 1]);
      var p :- BroadcastAxes(u[..|u| - 1], v[..|v| - 1]);
      Ok(p + [d])
  }

  /** Broadcasting succeeds exactly when every pair of axes at the same
      distance from the end is equal or has a 1, and each such axis of the
      result is their broadcast. */
  lemma {:induction false} BroadcastAxesAligned(u: seq<nat>, v: seq<nat>)
    decreases |u|
    ensures BroadcastAxes(u, v).Ok? <==>
      forall i :: 0 <= i < MinLen(|u|, |v|) ==> BroadcastDim(FromEnd(u, i), FromEnd(v, i)).Ok?
    ensures BroadcastAxes(u, v).Ok? ==> forall i :: 0 <= i < MinLen(|u|, |v|) ==>
      FromEnd(BroadcastAxes(u, v).value, i) == BroadcastDim(FromEnd(u, i), FromEnd(v, i)).value
  {
    if u != [] && v != [] {
      var u', v' := u[..|u| - 1], v[..|v| - 1];
      BroadcastAxesAligned(u', v');
      forall i | 0 < i < MinLen(|u|, |v|)
        ensures FromEnd(u, i) == FromEnd(u', i - 1) && FromEnd(v, i) == FromEnd(v', i - 1)
      {
        FromEndInit(u, i);
        FromEndInit(v, i);
      }
      var r := BroadcastAxes(u, v);
      if r.Ok? {
        var p := BroadcastAxes(u', v').value;
        assert r.value == p + [BroadcastDim(FromEnd(u, 0), FromEnd(v, 0)).value];
        forall i | 0 < i < MinLen(|u|, |v|)
          ensures FromEnd(r.value, i) == FromEnd(p, i - 1)
        {
          FromEndInit(r.value, i);
          assert r.value[..|r.value| - 1] == p;
        }
      } else if BroadcastDim(FromEnd(u, 0), FromEnd(v, 0)).Ok? {
        var i :| 0 <= i < MinLen(|u'|, |v'|) && !BroadcastDim(FromEnd(u', i), FromEnd(v', i)).Ok?;
        assert FromEnd(u, i + 1) == FromEnd(u', i);
      }
    }
  }

  /** The axes in front of the shorter operand are the longer one's. */
  lemma {:induction false} BroadcastAxesLeading(u: seq<nat>, v: seq<nat>)
    decreases |u|
    ensures BroadcastAxes(u, v).Ok? && |u| <= |v| ==> BroadcastAxes(u, v).value[..|v| - |u|] == v[..|v| - |u|]
    ensures BroadcastAxes(u, v).Ok? && |v| <= |u| ==> BroadcastAxes(u, v).value[..|u| - |v|] == u[..|u| - |v|]
  {
    if u != [] && v != [] && BroadcastAxes(u, v).Ok? {
      var u', v' := u[..|u| - 1], v[..|v| - 1];
      BroadcastAxesLeading(u', v');
      var p := BroadcastAxes(u', v').value;
      var r := BroadcastAxes(u, v).value;
      assert r[..|r| - 1] == p;
      if |u| <= |v| {
        assert r[..|v| - |u|] == p[..|v| - |u|];
        assert v[..|v| - |u|] == v'[..|v'| - |u'|];
      }
      if |v| <= |u| {
        assert r[..|u| - |v|] == p[..|u| - |v|];
        assert u[..|u| - |v|] == u'[..|u'| - |v'|];
      }
    }
  }

  /** For operands of the same rank the axes pair up position by position. */
  lemma BroadcastAxesSameRank(u: seq<nat>, v: seq<nat>)
    requires |u| == |v|
    ensures BroadcastAxes(u, v).Ok? <==> BroadcastableAxes(u, v)
  {
    BroadcastAxesAligned(u, v);
    forall i | 0 <= i < |u|
      ensures u[i] == FromEnd(u, |u| - 1 - i) && v[i] == FromEnd(v, |v| - 1 - i)
    {
    }
  }

  /** A tensor broadcast with itself is unchanged. */
  lemma BroadcastAxesSelf(u: seq<nat>)
    ensures BroadcastAxes(u, u) == Ok(u)
  {
    BroadcastAxesAligned(u, u);
    assert forall i :: 0 <= i < |u| ==> BroadcastDim(FromEnd(u, i), FromEnd(u, i)) == Ok(FromEnd(u, i));
    var r := BroadcastAxes(u, u).value;
    forall i | 0 <= i < |u|
      ensures r[i] == u[i]
    {
      assert r[i] == FromEnd(r, |u| - 1 - i);
    }
    assert r == u;
  }

  /** Shape of `a + b` for two feature maps, aligned from their trailing axes. */
  function Broadcast(a: Shape, b: Shape): (r: Result<Shape>)
    ensures r.Err? ==> r.error == BroadcastMismatch
    ensures r.Ok? <==> BroadcastAxes(Axes(a), Axes(b)).Ok?
    ensures r.Ok? ==> Axes(r.value) == BroadcastAxes(Axes(a), Axes(b)).value
    ensures a == b ==> r == Ok(a)
  {
    BroadcastAxesSelf(Axes(a));
    match BroadcastAxes(Axes(a), Axes(b))
    case Ok(s) => Ok(Shape(s[0], s[1], s[2..]))
    case Err(e) => Err(e)
  }

  /** For feature maps of the same rank, `a + b` succeeds exactly when the
      batch, the channels and every spatial axis are equal or have a 1. */
  lemma BroadcastSameRank(a: Shape, b: Shape)
    requires |a.spatial| == |b.spatial|
    ensures Broadcast(a, b).Ok? <==>
      BroadcastDim(a.batch, b.batch).Ok? && BroadcastDim(a.channels, b.channels).Ok? &&
      BroadcastableAxes(a.spatial, b.spatial)
  {
    var u, v := Axes(a), Axes(b);
    BroadcastAxesSameRank(u, v);
    if BroadcastableAxes(u, v) {
      assert BroadcastDim(u[0], v[0]).Ok? && BroadcastDim(u[1], v[1]).Ok?;
      forall i | 0 <= i < |a.spatial|
        ensures BroadcastDim(a.spatial[i], b.spatial[i]).Ok?
      {
        assert u[i + 2] == a.spatial[i] && v[i + 2] == b.spatial[i];
        assert BroadcastDim(u[i + 2], v[i + 2]).Ok?;
      }
    }
    if BroadcastDim(a.batch, b.batch).Ok? && BroadcastDim(a.channels, b.channels).Ok? && BroadcastableAxes(a.spatial, b.spatial) {
      forall i | 2 <= i < |u|
        ensures BroadcastDim(u[i], v[i]).Ok?
      {
        assert u[i] == a.spatial[i - 2] && v[i] == b.spatial[i - 2];
      }
      assert BroadcastableAxes(u, v);
    }
  }

  /** `h + anchor` where the anchor, read from its trailing axes, is 1 or
      the feature map's size on every axis it has: the map keeps its shape. */
  lemma BroadcastOnto(h: Shape, anchor: Shape)
    requires |anchor.spatial| <= |h.spatial|
    requires forall i :: 0 <= i < |Axes(anchor)| ==> FromEnd(Axes(anchor), i) == 1 || FromEnd(Axes(anchor), i) == FromEnd(Axes(h), i)
    ensures Broadcast(h, anchor) == Ok(h)
  {
    var u, v := Axes(h), Axes(anchor);
    BroadcastAxesAligned(u, v);
    BroadcastAxesLeading(u, v);
    var w := BroadcastAxes(u, v).value;
    forall i | 0 <= i < |u|
      ensures w[i] == u[i]
    {
      var j := |u| - 1 - i;
      if j < |v| {
        assert FromEnd(w, j) == FromEnd(u, j);
      } else {
        assert w[i] == w[..|u| - |v|][i];
      }
    }
    assert w == u;
  }

  /** A lower-rank anchor is read with leading 1s: (1, 1, 8) onto (2, 4, 8, 8). */
  lemma BroadcastLowerRank()
    ensures Broadcast(Shape(2, 4, [8, 8]), Shape(1, 1, [8])) == Ok(Shape(2, 4, [8, 8]))
  {
    BroadcastOnto(Shape(2, 4, [8, 8]), Shape(1, 1, [8]));
  }

  /** `torch.cat([a, b], dim=1)`: every axis but the channel axis must agree. */
  function ConcatChannels(a: Shape, b: Shape): (r: Result<Shape>)
    ensures r.Ok? <==> a.batch == b.batch && a.spatial == b.spatial
    ensures r.Ok? ==> r.value == Shape(a.batch, a.channels + b.channels, a.spatial)
  {
    if a.batch == b.batch && a.spatial == b.spatial then Ok(Shape(a.batch, a.channels + b.channels, a.spatial))
    else Err(ConcatMismatch)
  }

  /** Nearest-neighbour interpolation by 2: every spatial axis doubles, except
      that in 3D the first (depth) axis is kept. */
  function Doubled(dims: nat, s: seq<nat>): (r: seq<nat>)
    ensures |r| == |s|
    ensures forall i :: 0 <= i < |s| ==> r[i] == if dims == 3 && i == 0 then s[i] else 2 * s[i]
  {
    seq(|s|, i requires 0 <= i < |s| => if dims == 3 && i == 0 then s[i] else 2 * s[i])
  }

  /** Strided 3x3 convolution with padding 1 (stride 2, or (1,2,2) in 3D):
      an axis of size n becomes floor((n - 1) / 2) + 1, i.e. ceil(n / 2). */
  function ConvHalved(dims: nat, s: seq<nat>): (r: seq<nat>)
    ensures |r| == |s|
    ensures forall i :: 0 <= i < |s| ==> r[i] == if dims == 3 && i == 0 then s[i] else (s[i] + 1) / 2
  {
    seq(|s|, i requires 0 <= i < |s| => if dims == 3 && i == 0 then s[i] else (s[i] + 1) / 2)
  }

  /** Average pooling with kernel = stride = 2 (or (1,2,2) in 3D): floor(n / 2). */
  function PoolHalved(dims: nat, s: seq<nat>): (r: seq<nat>)
    ensures |r| == |s|
    ensures forall i :: 0 <= i < |s| ==> r[i] == if dims == 3 && i == 0 then s[i] else s[i] / 2
  {
    seq(|s|, i requires 0 <= i < |s| => if dims == 3 && i == 0 then s[i] else s[i] / 2)
  }

  /** Every spatial axis has at least one position: a 3x3 convolution with
      padding 1, a pool and an interpolation all raise on an axis (of their
      input or their output) of size 0. */
  predicate NonEmptyAxes(s: seq<nat>)
  {
    forall i :: 0 <= i < |s| ==> s[i] > 0
  }

  /** The flattened length of non-empty spatial axes is positive. */
  lemma {:induction false} ProductPositive(s: seq<nat>)
    requires NonEmptyAxes(s)
    ensures Product(s) > 0
  {
    if s != [] {
      ProductPositive(s[..|s| - 1]);
    }
  }

  /** The axes that resampling changes have sizes divisible by `f`. */
  predicate DivisibleAxes(dims: nat, s: seq<nat>, f: nat)
    requires f >= 1
  {
    forall i :: 0 <= i < |s| && !(dims == 3 && i == 0) ==> s[i] % f == 0
  }

  /** Halving `k` times (exact on divisible sizes; either down-sampler may be used). */
  function HalvedN(dims: nat, s: seq<nat>, k: nat): (r: seq<nat>)
    ensures |r| == |s|
  {
    if k == 0 then s else PoolHalved(dims, HalvedN(dims, s, k - 1))
  }
}
