/** The building blocks of guided_diffusion/unet.py at the level of shapes:
    Upsample, Downsample, ResBlock, AttentionBlock, the two QKV attention
    kernels and TimestepEmbedSequential. */
module Layers {
  import opened Shapes

  // ---------------------------------------------------------------- Upsample

  datatype Upsample = Upsample(channels: nat, useConv: bool, dims: nat, outChannels: nat)

  /** `Upsample.__init__`: `out_channels or channels`. */
  function NewUpsample(channels: nat, useConv: bool, dims: nat, outChannels: nat): (u: Upsample)
    ensures u.channels == channels && u.useConv == useConv && u.dims == dims
    ensures outChannels != 0 ==> u.outChannels == outChannels
    ensures outChannels == 0 ==> u.outChannels == channels
  {
    Upsample(channels, useConv, dims, OrDefault(outChannels, channels))
  }

  /** `Upsample.forward`. The channel assertion, then interpolation (in 3D the
      code indexes x.shape[4], so the tensor must be rank 5; otherwise
      F.interpolate takes 1 to 3 spatial axes, none of them empty), then the
      optional convolution, which alone may change the width. */
  function UpsampleForward(u: Upsample, x: Shape): (r: Result<Shape>)
    ensures x.channels != u.channels ==> r == Err(ChannelMismatch)
    ensures r.Ok? <==>
      x.channels == u.channels &&
      (if u.dims == 3 then |x.spatial| == 3 else 1 <= |x.spatial| <= 3) &&
      NonEmptyAxes(x.spatial) &&
      (u.useConv ==> |x.spatial| == u.dims)
    ensures r.Ok? ==> r.value.batch == x.batch
    ensures r.Ok? ==> r.value.channels == if u.useConv then u.outChannels else u.channels
    ensures r.Ok? ==> r.value.spatial == Doubled(u.dims, x.spatial)
  {
    if x.channels != u.channels then Err(ChannelMismatch)
    else if u.dims == 3 && |x.spatial| != 3 then Err(RankMismatch)
    else if u.dims != 3 && !(1 <= |x.spatial| <= 3) then Err(RankMismatch)
    else if !NonEmptyAxes(x.spatial) then Err(EmptyAxis)
    else if u.useConv && |x.spatial| != u.dims then Err(RankMismatch)
    else Ok(Shape(x.batch, if u.useConv then u.outChannels else u.channels, Doubled(u.dims, x.spatial)))
  }

  // -------------------------------------------------------------- Downsample

  datatype Downsample = Downsample(channels: nat, useConv: bool, dims: nat, outChannels: nat)

  /** The stride of the down-sampling op on spatial axis `i`: 2, or (1, 2, 2) in 3D. */
  function Stride(dims: nat, i: nat): (r: nat)
    ensures r == 1 <==> dims == 3 && i == 0
    ensures r != 1 ==> r == 2
  {
    if dims == 3 && i == 0 then 1 else 2
  }

  /** `Downsample.__init__`: with a convolution the op is `conv_nd`; without
      one the code asserts the width does not change and the op is
      `avg_pool_nd`. Either op raises for a `dims` outside 1 to 3. */
  function NewDownsample(channels: nat, useConv: bool, dims: nat, outChannels: nat): (r: Result<Downsample>)
    ensures r.Ok? <==> (useConv || OrDefault(outChannels, channels) == channels) && SupportedDims(dims)
    ensures !useConv && OrDefault(outChannels, channels) != channels ==> r == Err(DownsampleChannels)
    ensures r.Ok? ==> r.value.channels == channels && r.value.useConv == useConv && r.value.dims == dims
    ensures r.Ok? && outChannels != 0 ==> r.value.outChannels == outChannels
    ensures r.Ok? && outChannels == 0 ==> r.value.outChannels == channels
  {
    var out := OrDefault(outChannels, channels);
    if !useConv && channels != out then Err(DownsampleChannels)
    else if !SupportedDims(dims) then Err(UnsupportedDims)
    else Ok(Downsample(channels, useConv, dims, out))
  }

  /** `Downsample.forward`: the channel assertion, then a strided convolution
      (any width; a 3x3 kernel on an axis padded to size 2 raises) or the pool
      (same width; it raises when an output axis would be empty). */
  function DownsampleForward(d: Downsample, x: Shape): (r: Result<Shape>)
    ensures x.channels != d.channels ==> r == Err(ChannelMismatch)
    ensures r.Ok? <==>
      x.channels == d.channels && |x.spatial| == d.dims &&
      (if d.useConv then NonEmptyAxes(x.spatial) else NonEmptyAxes(PoolHalved(d.dims, x.spatial)))
    ensures r.Ok? ==> r.value.batch == x.batch && |r.value.spatial| == |x.spatial|
    ensures r.Ok? ==> NonEmptyAxes(r.value.spatial)
    ensures r.Ok? ==> r.value.channels == if d.useConv then d.outChannels else d.channels
    ensures r.Ok? ==> forall i :: 0 <= i < |x.spatial| ==>
      r.value.spatial[i] == if d.useConv then (x.spatial[i] + Stride(d.dims, i) - 1) / Stride(d.dims, i)
                            else x.spatial[i] / Stride(d.dims, i)
  {
    if x.channels != d.channels then Err(ChannelMismatch)
    else if |x.spatial| != d.dims then Err(RankMismatch)
    else if d.useConv then
      if !NonEmptyAxes(x.spatial) then Err(EmptyAxis)
      else Ok(Shape(x.batch, d.outChannels, ConvHalved(d.dims, x.spatial)))
    else if !NonEmptyAxes(PoolHalved(d.dims, x.spatial)) then Err(EmptyAxis)
    else Ok(Shape(x.batch, d.channels, PoolHalved(d.dims, x.spatial)))
  }

  // ---------------------------------------------------------------- ResBlock

  /** Which module carries the residual: the identity, a 3x3 or a 1x1 convolution. */
  datatype Skip = Identity | Conv3x3 | Conv1x1

  /** Resampling inside a ResBlock: `up` wins over `down` (if/elif in the code). */
  datatype Resample = NoResample | ResUp | ResDown

  datatype ResBlock = ResBlock(
    channels: nat, embChannels: nat, outChannels: nat, scaleShift: bool,
    dims: nat, resample: Resample, skip: Skip, embProjWidth: nat)

  function NewResBlock(channels: nat, embChannels: nat, outChannels: nat, useConv: bool,
                       scaleShift: bool, dims: nat, up: bool, down: bool): (b: ResBlock)
    ensures b.channels == channels && b.embChannels == embChannels && b.dims == dims
    ensures b.outChannels == if outChannels == 0 then channels else outChannels
    ensures b.skip == Identity <==> b.outChannels == channels
    ensures b.skip == Conv3x3 <==> b.outChannels != channels && useConv
    ensures b.embProjWidth == if scaleShift then 2 * b.outChannels else b.outChannels
    ensures b.resample == if up then ResUp else if down then ResDown else NoResample
  {
    var out := OrDefault(outChannels, channels);
    ResBlock(channels, embChannels, out, scaleShift, dims,
             if up then ResUp else if down then ResDown else NoResample,
             if out == channels then Identity else if useConv then Conv3x3 else Conv1x1,
             if scaleShift then 2 * out else out)
  }

  /** `th.chunk(t, 2, dim=1)` on an axis of width w: ceil(w/2) then floor(w/2). */
  function ChunkTwo(w: nat): (r: (nat, nat))
    ensures r.0 + r.1 == w && r.1 <= r.0 <= r.1 + 1
  {
    ((w + 1) / 2, w / 2)
  }

  /** Spatial size after `h_upd`/`x_upd`: Upsample(channels, False) doubles,
      Downsample(channels, False) pools. */
  function ResampledSpatial(rs: Resample, dims: nat, s: seq<nat>): seq<nat>
  {
    match rs
    case NoResample => s
    case ResUp => Doubled(dims, s)
    case ResDown => PoolHalved(dims, s)
  }

  /** `ResBlock._forward` on shapes. The input convolution needs `channels`
      input channels and a tensor of rank dims + 2; the embedding projection is
      a linear layer from `embChannels`; its output is broadcast over the
      feature map (over the batch axis too), and the skip path is the identity
      or a convolution to `outChannels`. The convolutions, and the pool or the
      interpolation of a resampling block, raise on an empty spatial axis. */
  function ResBlockForward(b: ResBlock, x: Shape, emb: Emb): (r: Result<Shape>)
    ensures x.channels != b.channels ==> r == Err(ChannelMismatch)
    ensures r.Ok? <==>
      x.channels == b.channels && |x.spatial| == b.dims && emb.width == b.embChannels &&
      (b.resample == ResUp ==> (if b.dims == 3 then |x.spatial| == 3 else 1 <= |x.spatial| <= 3)) &&
      NonEmptyAxes(x.spatial) && NonEmptyAxes(ResampledSpatial(b.resample, b.dims, x.spatial)) &&
      BroadcastDim(x.batch, emb.batch).Ok?
    ensures r.Ok? ==> r.value.channels == b.outChannels
    ensures r.Ok? && emb.batch == x.batch ==> r.value.batch == x.batch
    ensures r.Ok? ==> r.value.spatial == ResampledSpatial(b.resample, b.dims, x.spatial)
  {
    if x.channels != b.channels then Err(ChannelMismatch)
    else if |x.spatial| != b.dims then Err(RankMismatch)
    else if b.resample == ResUp && !(if b.dims == 3 then |x.spatial| == 3 else 1 <= |x.spatial| <= 3) then Err(RankMismatch)
    else if !NonEmptyAxes(x.spatial) || !NonEmptyAxes(ResampledSpatial(b.resample, b.dims, x.spatial)) then Err(EmptyAxis)
    else if emb.width != b.embChannels then Err(EmbeddingWidth)
    else
      match BroadcastDim(x.batch, emb.batch)
      case Err(e) => Err(e)
      case Ok(n) =>
        Ok(Shape(n, b.outChannels, ResampledSpatial(b.resample, b.dims, x.spatial)))
  }

  /** The shape contract of a ResBlock: it outputs `out_channels or channels`
      channels, keeps the batch and the spatial size unless it resamples, and
      the embedding projection splits (under scale-shift) into a scale and a
      shift that are each `out_channels` wide, so both the additive and the
      scale-shift combination line up with the feature map. */
  lemma ResBlockContract(channels: nat, embChannels: nat, outChannels: nat, useConv: bool,
                         scaleShift: bool, dims: nat, x: Shape, emb: Emb)
    requires x.channels == channels && |x.spatial| == dims && NonEmptyAxes(x.spatial)
    requires emb.width == embChannels && emb.batch == x.batch
    ensures var b := NewResBlock(channels, embChannels, outChannels, useConv, scaleShift, dims, false, false);
      && ResBlockForward(b, x, emb) == Ok(Shape(x.batch, OrDefault(outChannels, channels), x.spatial))
      && (scaleShift ==> ChunkTwo(b.embProjWidth) == (b.outChannels, b.outChannels))
      && (!scaleShift ==> b.embProjWidth == b.outChannels)
  {
  }

  // --------------------------------------------------------------- Attention

  /** The head count of an AttentionBlock: `num_heads` when `num_head_channels`
      is -1, otherwise `channels // num_head_channels` under the assertion that
      it divides evenly (a zero divisor raises ZeroDivisionError). */
  function AttentionHeads(channels: nat, numHeads: int, numHeadChannels: int): (r: Result<int>)
    ensures numHeadChannels == -1 ==> r == Ok(numHeads)
    ensures numHeadChannels == 0 ==> r == Err(ZeroDivision)
    ensures numHeadChannels != -1 && numHeadChannels != 0 ==>
      (r.Ok? <==> channels % numHeadChannels == 0)
    ensures numHeadChannels != -1 && r.Ok? ==> r.value * numHeadChannels == channels
  {
    if numHeadChannels == -1 then Ok(numHeads)
    else if numHeadChannels == 0 then Err(ZeroDivision)
    else if channels % numHeadChannels != 0 then Err(NotDivisible)
    else Ok(channels / numHeadChannels)
  }

  /** Shape of a qkv tensor [N x width x T]. */
  datatype Seq3 = Seq3(batch: nat, width: nat, length: nat)

  /** The head width `ch = width // (3 * n_heads)`, under the assertion
      `width % (3 * n_heads) == 0`; a zero head count raises in `%`, and a
      negative one in the reshape that follows. */
  function HeadWidth(nHeads: int, width: nat): (r: Result<nat>)
    ensures r.Ok? <==> nHeads > 0 && width % (3 * nHeads) == 0
    ensures r.Ok? ==> r.value * (3 * nHeads) == width && (nHeads * r.value) * 3 == width
  {
    if nHeads == 0 then Err(ZeroDivision)
    else if nHeads < 0 then Err(BadHeads)
    else if width % (3 * nHeads) != 0 then Err(NotDivisible)
    else
      var ch := width / (3 * nHeads);
      assert ch * (3 * nHeads) == width;
      assert (nHeads * ch) * 3 == ch * (3 * nHeads);
      Ok(ch)
  }

  /** `QKVAttentionLegacy.forward`: heads are split before q, k and v are
      separated; the result is [N x (H * ch) x T]. */
  function QKVAttentionLegacy(nHeads: int, qkv: Seq3): (r: Result<Seq3>)
    ensures r.Ok? <==> nHeads > 0 && qkv.width % (3 * nHeads) == 0
    ensures r.Ok? ==> r.value.batch == qkv.batch && r.value.length == qkv.length
    ensures r.Ok? ==> 3 * r.value.width == qkv.width
  {
    match HeadWidth(nHeads, qkv.width)
    case Err(e) => Err(e)
    case Ok(ch) => Ok(Seq3(qkv.batch, nHeads * ch, qkv.length))
  }

  /** `QKVAttention.forward`: q, k and v are separated (chunk(3)) before the
      heads are split; each of them is [N x (H * ch) x T], and so is the result.
      The two orders differ only in which values meet, not in the shapes they
      check and produce, so this one's shape is the legacy order's. */
  function QKVAttention(nHeads: int, qkv: Seq3): (r: Result<Seq3>)
    ensures r.Ok? <==> nHeads > 0 && qkv.width % (3 * nHeads) == 0
    ensures r.Ok? ==> r.value.batch == qkv.batch && r.value.length == qkv.length
    ensures r.Ok? ==> 3 * r.value.width == qkv.width
  {
    QKVAttentionLegacy(nHeads, qkv)
  }

  // ---------------------------------------------------------- AttentionBlock

  /** The construction parameters of an AttentionBlock; its head count is
      `AttentionHeads(channels, numHeads, numHeadChannels)`. */
  datatype AttentionBlock = AttentionBlock(channels: nat, numHeads: int, numHeadChannels: int, newOrder: bool)

  /** A multiple of m leaves no remainder. */
  lemma MultipleMod(k: nat, m: nat)
    requires m > 0
    ensures (k * m) % m == 0 && (k * m) / m == k
  {
    var q, r := (k * m) / m, (k * m) % m;
    var d := k - q;
    assert m * d == r by {
      assert k * m == m * q + r;
      assert m * k == m * q + m * d;
    }
  }

  /** Tripling both sides of a division keeps its exactness. */
  lemma {:induction false} TripleDivides(c: nat, h: int)
    ensures h > 0 ==> ((3 * c) % (3 * h) == 0 <==> c % h == 0)
  {
    if h > 0 && c % h == 0 {
      var q := c / h;
      assert c == q * h;
      assert 3 * c == q * (3 * h);
      MultipleMod(q, 3 * h);
    }
    if h > 0 && (3 * c) % (3 * h) == 0 {
      var q := (3 * c) / (3 * h);
      assert 3 * c == q * (3 * h);
      assert c == q * h;
      MultipleMod(q, h);
    }
  }

  /** `AttentionBlock._forward` on shapes: flatten the spatial axes to T
      (`reshape(b, c, -1)` cannot infer T when b * c == 0), project to a
      [N x 3C x T] qkv tensor (the 1x1 convolution raises when T == 0),
      attend, project back to C channels, add the input and restore the
      spatial axes. */
  function AttentionForward(a: AttentionBlock, x: Shape): (r: Result<Shape>)
    ensures r.Ok? <==>
      AttentionHeads(a.channels, a.numHeads, a.numHeadChannels).Ok? && x.channels == a.channels &&
      x.batch > 0 && x.channels > 0 && Product(x.spatial) > 0 &&
      var heads := AttentionHeads(a.channels, a.numHeads, a.numHeadChannels).value;
      heads > 0 && a.channels % heads == 0
    ensures r.Ok? ==> r.value == x
  {
    match AttentionHeads(a.channels, a.numHeads, a.numHeadChannels)
    case Err(e) => Err(e)
    case Ok(heads) =>
      if x.batch == 0 || x.channels == 0 then Err(EmptyTensor)
      else if x.channels != a.channels then Err(ChannelMismatch)
      else if Product(x.spatial) == 0 then Err(EmptyAxis)
      else
        var qkv := Seq3(x.batch, 3 * x.channels, Product(x.spatial));
        var att := if a.newOrder then QKVAttention(heads, qkv) else QKVAttentionLegacy(heads, qkv);
        TripleDivides(x.channels, heads);
        match att
        case Err(e) => Err(e)
        case Ok(h) =>
          // proj_out is a 1x1 convolution from C to C channels, then x + h
          if h.width != x.channels then Err(ChannelMismatch)
          else Ok(Shape(x.batch, x.channels, x.spatial))
  }

  // ------------------------------------------------- TimestepEmbedSequential

  /** One child of a TimestepEmbedSequential; `Conv` is the input
      convolution (3x3, padding 1) of the first encoder block. */
  datatype Layer =
    | Conv(inChannels: nat, outChannels: nat, dims: nat)
    | Res(res: ResBlock)
    | Attn(attn: AttentionBlock)
    | Down(down: Downsample)
    | Up(up: Upsample)

  /** `isinstance(layer, TimestepBlock)`: only ResBlocks take the embedding. */
  predicate IsTimestepBlock(l: Layer)
  {
    l.Res?
  }

  /** A child that is called as `layer(x)`. */
  function ApplyPlain(l: Layer, x: Shape): (r: Result<Shape>)
    requires !IsTimestepBlock(l)
    ensures l.Attn? && r.Ok? ==> r.value == x
    ensures l.Conv? ==> (r.Ok? <==> x.channels == l.inChannels && |x.spatial| == l.dims && NonEmptyAxes(x.spatial))
    ensures l.Conv? && r.Ok? ==> r.value == Shape(x.batch, l.outChannels, x.spatial)
  {
    match l
    case Conv(i, o, d) =>
      if x.channels != i then Err(ChannelMismatch)
      else if |x.spatial| != d then Err(RankMismatch)
      else if !NonEmptyAxes(x.spatial) then Err(EmptyAxis)
      else Ok(Shape(x.batch, o, x.spatial))
    case Attn(a) => AttentionForward(a, x)
    case Down(d) => DownsampleForward(d, x)
    case Up(u) => UpsampleForward(u, x)
  }

  function ApplyLayer(l: Layer, x: Shape, emb: Emb): Result<Shape>
  {
    if IsTimestepBlock(l) then ResBlockForward(l.res, x, emb) else ApplyPlain(l, x)
  }

  /** The children applied in order, stopping at the first that raises. */
  function RunBlock(layers: seq<Layer>, x: Shape, emb: Emb): Result<Shape>
  {
    if layers == [] then Ok(x)
    else
      match RunBlock(layers[..|layers| - 1], x, emb)
      case Err(e) => Err(e)
      case Ok(h) => ApplyLayer(layers[|layers| - 1], h, emb)
  }

  /** Once a child raises, the rest of the block is not run. */
  lemma {:induction false} RunBlockStops(layers: seq<Layer>, n: nat, x: Shape, emb: Emb)
    requires n <= |layers| && RunBlock(layers[..n], x, emb).Err?
    ensures RunBlock(layers, x, emb) == RunBlock(layers[..n], x, emb)
    decreases |layers| - n
  {
    if n < |layers| {
      var longer := layers[..n + 1];
      assert longer[..n] == layers[..n];
      RunBlockStops(layers, n + 1, x, emb);
    } else {
      assert layers[..n] == layers;
    }
  }

  /** `TimestepEmbedSequential.forward`. */
  method SequentialForward(layers: seq<Layer>, x: Shape, emb: Emb) returns (r: Result<Shape>)
    ensures r == RunBlock(layers, x, emb)
  {
    var h := x;
    for i := 0 to |layers|
      invariant RunBlock(layers[..i], x, emb) == Ok(h)
    {
      assert layers[..i + 1][..i] == layers[..i];
      var next;
      if IsTimestepBlock(layers[i]) {
        next := ResBlockForward(layers[i].res, h, emb);
      } else {
        next := ApplyPlain(layers[i], h);
      }
      if next.Err? {
        RunBlockStops(layers, i + 1, x, emb);
        return next;
      }
      h := next.value;
    }
    assert layers[..|layers|] == layers;
    return Ok(h);
  }

  /** The embedding reaches only the timestep blocks: a block with no ResBlock
      computes the same whatever embedding it is given. */
  lemma {:induction false} EmbeddingOnlyReachesTimestepBlocks(layers: seq<Layer>, x: Shape, e1: Emb, e2: Emb)
    requires forall i :: 0 <= i < |layers| ==> !IsTimestepBlock(layers[i])
    ensures RunBlock(layers, x, e1) == RunBlock(layers, x, e2)
  {
    if layers != [] {
      EmbeddingOnlyReachesTimestepBlocks(layers[..|layers| - 1], x, e1, e2);
    }
  }
}
