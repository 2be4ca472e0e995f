/** The shapes that flow through a network the constructor builds: under the
    conditions the code silently relies on (even sizes, matching anchors,
    attention widths that split into heads, `channel_mult[0] == 1`),
    `forward` succeeds and both outputs have the input's batch and spatial
    size; the skip stacks hold exactly the widths the constructor's ledger
    recorded. */
module ShapeFlow {
  import opened Shapes
  import opened Layers
  import opened Ladder
  import opened UNetForward

  // ----------------------------------------------------------- spatial sizes

  lemma HalfDivisible(v: nat, p: nat)
    requires p >= 1 && v % (2 * p) == 0
    ensures v % 2 == 0 && (v / 2) % p == 0
  {
    var q := v / (2 * p);
    assert v == q * (2 * p);
    assert v == 2 * (q * p);
    MultipleMod(q, p);
  }

  /** Halving k times a size divisible by 2^m leaves one divisible by 2^(m-k). */
  lemma {:induction false} HalvedDivisible(dims: nat, s: seq<nat>, m: nat, k: nat)
    requires k <= m && DivisibleAxes(dims, s, Pow2(m))
    ensures DivisibleAxes(dims, HalvedN(dims, s, k), Pow2(m - k))
    decreases k
  {
    if k > 0 {
      HalvedDivisible(dims, s, m, k - 1);
      var t := HalvedN(dims, s, k - 1);
      assert Pow2(m - (k - 1)) == 2 * Pow2(m - k);
      forall i | 0 <= i < |t| && !(dims == 3 && i == 0)
        ensures PoolHalved(dims, t)[i] % Pow2(m - k) == 0
      {
        HalfDivisible(t[i], Pow2(m - k));
      }
    }
  }

  /** On sizes that are even along the resampled axes, the strided
      convolution and the pool agree, and nearest-neighbour doubling undoes
      them: a down-sampler followed by an up-sampler restores the size. */
  lemma EvenRoundTrip(dims: nat, s: seq<nat>)
    requires DivisibleAxes(dims, s, 2)
    ensures ConvHalved(dims, s) == PoolHalved(dims, s)
    ensures Doubled(dims, PoolHalved(dims, s)) == s
  {
  }

  /** Halving k times a non-empty size divisible by 2^m, k <= m, leaves no
      axis empty: every halved axis is even and positive before it is halved. */
  lemma {:induction false} HalvedNonEmpty(dims: nat, s: seq<nat>, m: nat, k: nat)
    requires k <= m && DivisibleAxes(dims, s, Pow2(m)) && NonEmptyAxes(s)
    ensures NonEmptyAxes(HalvedN(dims, s, k))
    decreases k
  {
    if k > 0 {
      HalvedNonEmpty(dims, s, m, k - 1);
      HalvedDivisible(dims, s, m, k - 1);
      var t := HalvedN(dims, s, k - 1);
      assert Pow2(m - (k - 1)) == 2 * Pow2(m - k);
      forall i | 0 <= i < |t| && !(dims == 3 && i == 0)
        ensures PoolHalved(dims, t)[i] > 0
      {
        HalfDivisible(t[i], Pow2(m - k));
      }
    }
  }

  /** The spatial size at level k: the input's, halved k times. */
  function Sp(cfg: Config, sp: seq<nat>, k: nat): seq<nat>
  {
    HalvedN(cfg.dims, sp, k)
  }

  /** The head count of an AttentionBlock of width c is positive and divides c. */
  predicate HeadsFit(c: nat, numHeads: int, numHeadChannels: int)
  {
    var heads := AttentionHeads(c, numHeads, numHeadChannels);
    heads.Ok? && heads.value > 0 && c % heads.value == 0
  }

  /** Level k has a positive width, and its AttentionBlocks, if any, split
      that width into whole heads (the encoder's only when it builds any). */
  predicate LevelFits(cfg: Config, k: nat)
    requires k < Levels(cfg)
  {
    && Width(cfg, k) > 0
    && (Pow2(k) in cfg.attentionResolutions ==>
          && (cfg.numResBlocks > 0 ==> HeadsFit(Width(cfg, k), cfg.numHeads, cfg.numHeadChannels))
          && HeadsFit(Width(cfg, k), HeadsUpsample(cfg), cfg.numHeadChannels))
  }

  /** A configuration and an input size under which the network runs. */
  predicate Ready(cfg: Config, sp: seq<nat>)
  {
    && Levels(cfg) >= 1
    && cfg.inChannels == 2
    && (forall k :: 0 <= k < Levels(cfg) ==> LevelFits(cfg, k))
    && 1 <= cfg.dims <= 3 && |sp| == cfg.dims && NonEmptyAxes(sp)
    && DivisibleAxes(cfg.dims, sp, Pow2(Levels(cfg) - 1))
    && HeadsFit(MidCh(cfg), cfg.numHeads, cfg.numHeadChannels)
    && !cfg.classConditional && cfg.highWay
  }

  /** The conditioning module's anchors line up with the stem's output: the
      same batch and spatial size, and `2 * anch[0] + anch[1]` channels adding
      up to `model_channels`. */
  predicate AnchorsFit(cfg: Config, x: Shape, a0: Shape, a1: Shape)
  {
    && a0.batch == x.batch && a1.batch == x.batch
    && a0.spatial == x.spatial && a1.spatial == x.spatial
    && 2 * a0.channels + a1.channels == cfg.modelChannels
  }

  /** No level's size has an empty axis. */
  lemma SpNonEmpty(cfg: Config, sp: seq<nat>, k: nat)
    requires k < Levels(cfg)
    ensures Ready(cfg, sp) ==> NonEmptyAxes(Sp(cfg, sp, k))
  {
    if Ready(cfg, sp) {
      HalvedNonEmpty(cfg.dims, sp, Levels(cfg) - 1, k);
    }
  }

  /** Between two levels the sizes are even, so both down-samplers halve
      exactly and the up-sampler restores the finer size. */
  lemma SpStep(cfg: Config, sp: seq<nat>, k: nat)
    requires k + 1 < Levels(cfg)
    ensures Ready(cfg, sp) ==> |Sp(cfg, sp, k)| == cfg.dims
    ensures Ready(cfg, sp) ==> ConvHalved(cfg.dims, Sp(cfg, sp, k)) == Sp(cfg, sp, k + 1)
    ensures Ready(cfg, sp) ==> PoolHalved(cfg.dims, Sp(cfg, sp, k)) == Sp(cfg, sp, k + 1)
    ensures Ready(cfg, sp) ==> Doubled(cfg.dims, Sp(cfg, sp, k + 1)) == Sp(cfg, sp, k)
  {
    if !Ready(cfg, sp) {
      return;
    }
    var m := Levels(cfg) - 1;
    HalvedDivisible(cfg.dims, sp, m, k);
    var s := Sp(cfg, sp, k);
    assert Pow2(m - k) == 2 * Pow2(m - k - 1);
    forall i | 0 <= i < |s| && !(cfg.dims == 3 && i == 0)
      ensures s[i] % 2 == 0
    {
      HalfDivisible(s[i], Pow2(m - k - 1));
    }
    EvenRoundTrip(cfg.dims, s);
  }

  // ---------------------------------------------------------------- blocks

  function EmbOf(cfg: Config, n: nat): Emb
  {
    Emb(n, TimeEmbedDim(cfg))
  }

  lemma RunBlockSnoc(layers: seq<Layer>, l: Layer, x: Shape, h: Shape, emb: Emb)
    requires RunBlock(layers, x, emb) == Ok(h)
    ensures RunBlock(layers + [l], x, emb) == ApplyLayer(l, h, emb)
  {
    assert (layers + [l])[..|layers|] == layers;
  }

  /** A plain ResBlock to a non-zero width w, followed by attention when
      asked for, maps an (n, c, s) map to (n, w, s). */
  lemma ResAttnShape(cfg: Config, c: nat, w: nat, heads: int, withAttn: bool, n: nat, s: seq<nat>)
    requires n > 0 && w > 0 && |s| == cfg.dims && NonEmptyAxes(s)
    requires withAttn ==> HeadsFit(w, heads, cfg.numHeadChannels)
    ensures RunBlock([PlainRes(cfg, c, w)] + (if withAttn then [AttnLayer(cfg, w, heads)] else []),
                     Shape(n, c, s), EmbOf(cfg, n)) == Ok(Shape(n, w, s))
  {
    var x, emb := Shape(n, c, s), EmbOf(cfg, n);
    RunBlockSnoc([], PlainRes(cfg, c, w), x, x, emb);
    assert [] + [PlainRes(cfg, c, w)] == [PlainRes(cfg, c, w)];
    if withAttn {
      ProductPositive(s);
      RunBlockSnoc([PlainRes(cfg, c, w)], AttnLayer(cfg, w, heads), x, Shape(n, w, s), emb);
    } else {
      assert [PlainRes(cfg, c, w)] + [] == [PlainRes(cfg, c, w)];
    }
  }

  /** The up-sampler closing a decoder level keeps the width and doubles the size. */
  lemma UpLayerShape(cfg: Config, w: nat, n: nat, s: seq<nat>)
    requires 1 <= cfg.dims <= 3 && |s| == cfg.dims && NonEmptyAxes(s)
    ensures ApplyLayer(UpLayer(cfg, w), Shape(n, w, s), EmbOf(cfg, n)) == Ok(Shape(n, w, Doubled(cfg.dims, s)))
  {
  }

  /** The down-sampling ResBlock keeps the width and pools the size. */
  lemma ResDownLayerShape(cfg: Config, w: nat, n: nat, s: seq<nat>)
    requires |s| == cfg.dims && NonEmptyAxes(s) && NonEmptyAxes(PoolHalved(cfg.dims, s))
    ensures ApplyLayer(Res(NewResBlock(w, TimeEmbedDim(cfg), w, false, cfg.useScaleShiftNorm, cfg.dims, false, true)),
                       Shape(n, w, s), EmbOf(cfg, n))
         == Ok(Shape(n, w, PoolHalved(cfg.dims, s)))
  {
  }

  /** The Downsample layer keeps the width and, on even sizes, halves the size. */
  lemma DownLayerShape(cfg: Config, w: nat, n: nat, s: seq<nat>)
    requires |s| == cfg.dims && ConvHalved(cfg.dims, s) == PoolHalved(cfg.dims, s)
    requires NonEmptyAxes(s) && NonEmptyAxes(PoolHalved(cfg.dims, s))
    ensures ApplyLayer(Down(Downsample(w, cfg.convResample, cfg.dims, w)), Shape(n, w, s), EmbOf(cfg, n))
         == Ok(Shape(n, w, PoolHalved(cfg.dims, s)))
  {
  }

  /** The down-sampler closing an encoder level keeps the width and, on even
      sizes, halves the size. */
  lemma DownBlockShape(cfg: Config, k: nat, n: nat, s: seq<nat>)
    requires k < Levels(cfg) && |s| == cfg.dims && ConvHalved(cfg.dims, s) == PoolHalved(cfg.dims, s)
    requires NonEmptyAxes(s) && NonEmptyAxes(PoolHalved(cfg.dims, s))
    ensures RunBlock(EncDownBlock(cfg, k), Shape(n, EncCh(cfg, k), s), EmbOf(cfg, n))
         == Ok(Shape(n, EncCh(cfg, k), PoolHalved(cfg.dims, s)))
  {
    var x, emb := Shape(n, EncCh(cfg, k), s), EmbOf(cfg, n);
    var block := EncDownBlock(cfg, k);
    RunBlockSnoc([], block[0], x, x, emb);
    assert [] + [block[0]] == block;
    if cfg.resblockUpdown {
      ResDownLayerShape(cfg, EncCh(cfg, k), n, s);
    } else {
      DownLayerShape(cfg, EncCh(cfg, k), n, s);
    }
  }

  // ------------------------------------------------------------- skip stacks

  function Copies(s: Shape, n: nat): (r: seq<Shape>)
    ensures |r| == n
  {
    if n == 0 then [] else Copies(s, n - 1) + [s]
  }

  /** What encoder level k pushes: its residual blocks' outputs, then the
      down-sampler's. */
  function SkipLevel(cfg: Config, n: nat, sp: seq<nat>, k: nat): seq<Shape>
    requires k < Levels(cfg)
  {
    Copies(Shape(n, Width(cfg, k), Sp(cfg, sp, k)), cfg.numResBlocks)
    + (if k != Levels(cfg) - 1 then [Shape(n, EncCh(cfg, k), Sp(cfg, sp, k + 1))] else [])
  }

  function SkipLevels(cfg: Config, n: nat, sp: seq<nat>, m: nat): seq<Shape>
    requires m <= Levels(cfg)
  {
    if m == 0 then [] else SkipLevels(cfg, n, sp, m - 1) + SkipLevel(cfg, n, sp, m - 1)
  }

  /** A pathway's skip stack after i residual blocks of encoder level k; the
      decoder finds the same stack before block R - i of level k. */
  function Stack(cfg: Config, n: nat, sp: seq<nat>, k: nat, i: nat): seq<Shape>
    requires k < Levels(cfg)
  {
    [Shape(n, cfg.modelChannels, sp)] + SkipLevels(cfg, n, sp, k) + Copies(Shape(n, Width(cfg, k), Sp(cfg, sp, k)), i)
  }

  /** The widths of a sequence of feature maps. */
  function Channels(hs: seq<Shape>): (r: seq<nat>)
    ensures |r| == |hs|
  {
    if hs == [] then [] else Channels(hs[..|hs| - 1]) + [hs[|hs| - 1].channels]
  }

  // ----------------------------------------------------------------- encoder

  lemma {:induction false} EncodeExtend(b: seq<seq<Layer>>, c: seq<seq<Layer>>, h0: Shape, emb: Emb, a0: Shape, a1: Shape, n: nat)
    requires n <= |b|
    ensures Encode(b + c, h0, emb, a0, a1, n) == Encode(b, h0, emb, a0, a1, n)
    decreases n
  {
    if n > 0 {
      EncodeExtend(b, c, h0, emb, a0, a1, n - 1);
      assert (b + c)[n - 1] == b[n - 1];
    }
  }

  /** One more input block: the encoder runs it on the top of the stack and
      pushes its output. */
  lemma EncodeSnoc(b: seq<seq<Layer>>, blk: seq<Layer>, h0: Shape, emb: Emb, a0: Shape, a1: Shape, hs: seq<Shape>, out: Shape)
    requires |b| >= 1 && Encode(b, h0, emb, a0, a1, |b|) == Ok(hs)
    requires RunBlock(blk, hs[|hs| - 1], emb) == Ok(out)
    ensures Encode(b + [blk], h0, emb, a0, a1, |b + [blk]|) == Ok(hs + [out])
  {
    EncodeExtend(b, [blk], h0, emb, a0, a1, |b|);
    assert (b + [blk])[|b|] == blk;
  }

  /** The input blocks up to residual block i of encoder level k. */
  function EncPrefix(cfg: Config, k: nat, i: nat): seq<seq<Layer>>
    requires k < Levels(cfg)
  {
    [Stem(cfg)] + EncLevels(cfg, k) + EncResBlocks(cfg, k, i)
  }

  /** The encoder run over the blocks `b` on a pathway's input. */
  function EncodeFrom(cfg: Config, x: Shape, a0: Shape, a1: Shape, b: seq<seq<Layer>>): Result<seq<Shape>>
  {
    Encode(b, PathwayInput(x), EmbOf(cfg, x.batch), a0, a1, |b|)
  }

  /** After residual block i of encoder level k a pathway's skip stack is Stack(k, i). */
  predicate EncodedTo(cfg: Config, x: Shape, a0: Shape, a1: Shape, k: nat, i: nat)
    requires k < Levels(cfg)
  {
    EncodeFrom(cfg, x, a0, a1, EncPrefix(cfg, k, i)) == Ok(Stack(cfg, x.batch, x.spatial, k, i))
  }

  /** `EncodeSnoc` on a pathway's input. */
  lemma EncodeFromSnoc(cfg: Config, x: Shape, a0: Shape, a1: Shape, b: seq<seq<Layer>>, blk: seq<Layer>, hs: seq<Shape>, out: Shape)
    requires |b| >= 1 && EncodeFrom(cfg, x, a0, a1, b) == Ok(hs)
    requires RunBlock(blk, hs[|hs| - 1], EmbOf(cfg, x.batch)) == Ok(out)
    ensures EncodeFrom(cfg, x, a0, a1, b + [blk]) == Ok(hs + [out])
  {
    EncodeSnoc(b, blk, PathwayInput(x), EmbOf(cfg, x.batch), a0, a1, hs, out);
  }

  /** The top of Stack(k, i), the activation, has the running width `ch` and
      the level's size. */
  lemma StackTop(cfg: Config, n: nat, sp: seq<nat>, k: nat, i: nat)
    requires k < Levels(cfg)
    ensures var hs := Stack(cfg, n, sp, k, i);
      hs[|hs| - 1] == Shape(n, if i == 0 then ChIn(cfg, k) else Width(cfg, k), Sp(cfg, sp, k))
  {
    var hs := Stack(cfg, n, sp, k, i);
    var c := Shape(n, Width(cfg, k), Sp(cfg, sp, k));
    var head := [Shape(n, cfg.modelChannels, sp)] + SkipLevels(cfg, n, sp, k);
    if i > 0 {
      assert hs == head + Copies(c, i - 1) + [c];
    } else if k == 0 {
      assert hs == [Shape(n, cfg.modelChannels, sp)];
    } else {
      var down := Shape(n, EncCh(cfg, k - 1), Sp(cfg, sp, k));
      assert SkipLevel(cfg, n, sp, k - 1) == Copies(Shape(n, Width(cfg, k - 1), Sp(cfg, sp, k - 1)), cfg.numResBlocks) + [down];
      assert hs == [Shape(n, cfg.modelChannels, sp)] + SkipLevels(cfg, n, sp, k - 1)
                   + Copies(Shape(n, Width(cfg, k - 1), Sp(cfg, sp, k - 1)), cfg.numResBlocks) + [down];
    }
  }

  /** The stem and the anchor: (n, 2, s) becomes (n, model_channels, s). */
  lemma EncodeStem(cfg: Config, x: Shape, a0: Shape, a1: Shape)
    ensures Ready(cfg, x.spatial) && AnchorsFit(cfg, x, a0, a1) ==> EncodedTo(cfg, x, a0, a1, 0, 0)
  {
    if !(Ready(cfg, x.spatial) && AnchorsFit(cfg, x, a0, a1)) {
      return;
    }
    var h := Shape(x.batch, cfg.modelChannels, x.spatial);
    assert EncPrefix(cfg, 0, 0) == [Stem(cfg)];
    RunBlockSnoc([], Conv(cfg.inChannels, cfg.modelChannels, cfg.dims), PathwayInput(x), PathwayInput(x), EmbOf(cfg, x.batch));
    assert [] + [Conv(cfg.inChannels, cfg.modelChannels, cfg.dims)] == Stem(cfg);
    assert RunBlock(Stem(cfg), PathwayInput(x), EmbOf(cfg, x.batch)) == Ok(h);
    assert AnchorCat(a0, a1) == Ok(h);
    assert AnchorAdd(h, a0, a1) == Ok(h);
    assert Stack(cfg, x.batch, x.spatial, 0, 0) == [h];
    var b := EncPrefix(cfg, 0, 0);
    assert Encode(b, PathwayInput(x), EmbOf(cfg, x.batch), a0, a1, 0) == Ok([]);
    assert b[0] == Stem(cfg);
    assert [] + [h] == [h];
  }

  /** One residual block further: its block on the prefix, its output on the stack. */
  lemma EncResNext(cfg: Config, n: nat, sp: seq<nat>, k: nat, i: nat)
    requires k < Levels(cfg) && 0 < i
    ensures EncPrefix(cfg, k, i) == EncPrefix(cfg, k, i - 1) + [EncResBlock(cfg, k, i - 1)]
    ensures Stack(cfg, n, sp, k, i) == Stack(cfg, n, sp, k, i - 1) + [Shape(n, Width(cfg, k), Sp(cfg, sp, k))]
  {
  }

  /** Residual block i - 1 of encoder level k: (n, ch, s) to (n, mult * model_channels, s). */
  lemma EncodeRes(cfg: Config, x: Shape, a0: Shape, a1: Shape, k: nat, i: nat)
    requires k < Levels(cfg) && 0 < i <= cfg.numResBlocks
    ensures Ready(cfg, x.spatial) && x.batch > 0 && EncodedTo(cfg, x, a0, a1, k, i - 1) ==> EncodedTo(cfg, x, a0, a1, k, i)
  {
    if !(Ready(cfg, x.spatial) && x.batch > 0 && EncodedTo(cfg, x, a0, a1, k, i - 1)) {
      return;
    }
    var n, s := x.batch, Sp(cfg, x.spatial, k);
    var w := Width(cfg, k);
    var hs := Stack(cfg, n, x.spatial, k, i - 1);
    StackTop(cfg, n, x.spatial, k, i - 1);
    assert LevelFits(cfg, k);
    SpNonEmpty(cfg, x.spatial, k);
    ResAttnShape(cfg, if i - 1 == 0 then ChIn(cfg, k) else w, w, cfg.numHeads, Pow2(k) in cfg.attentionResolutions, n, s);
    EncodeFromSnoc(cfg, x, a0, a1, EncPrefix(cfg, k, i - 1), EncResBlock(cfg, k, i - 1), hs, Shape(n, w, s));
    EncResNext(cfg, n, x.spatial, k, i);
  }

  /** The down-sampler closing level k - 1: its block on the prefix, its
      output on the stack, and level k begins. */
  lemma EncDownNext(cfg: Config, n: nat, sp: seq<nat>, k: nat)
    requires 0 < k < Levels(cfg)
    ensures EncPrefix(cfg, k, 0) == EncPrefix(cfg, k - 1, cfg.numResBlocks) + [EncDownBlock(cfg, k - 1)]
    ensures Stack(cfg, n, sp, k, 0) == Stack(cfg, n, sp, k - 1, cfg.numResBlocks) + [Shape(n, EncCh(cfg, k - 1), Sp(cfg, sp, k))]
  {
    var R := cfg.numResBlocks;
    assert EncLevel(cfg, k - 1) == EncResBlocks(cfg, k - 1, R) + [EncDownBlock(cfg, k - 1)];
    assert EncLevels(cfg, k) == EncLevels(cfg, k - 1) + EncLevel(cfg, k - 1);
    var out := Shape(n, EncCh(cfg, k - 1), Sp(cfg, sp, k));
    assert SkipLevel(cfg, n, sp, k - 1) == Copies(Shape(n, Width(cfg, k - 1), Sp(cfg, sp, k - 1)), R) + [out];
    assert SkipLevels(cfg, n, sp, k) == SkipLevels(cfg, n, sp, k - 1) + SkipLevel(cfg, n, sp, k - 1);
  }

  /** The down-sampler closing encoder level k - 1: the stack of level k begins. */
  lemma EncodeDown(cfg: Config, x: Shape, a0: Shape, a1: Shape, k: nat)
    requires 0 < k < Levels(cfg)
    ensures Ready(cfg, x.spatial) && EncodedTo(cfg, x, a0, a1, k - 1, cfg.numResBlocks) ==> EncodedTo(cfg, x, a0, a1, k, 0)
  {
    if !(Ready(cfg, x.spatial) && EncodedTo(cfg, x, a0, a1, k - 1, cfg.numResBlocks)) {
      return;
    }
    var n, R, j := x.batch, cfg.numResBlocks, k - 1;
    var hs := Stack(cfg, n, x.spatial, j, R);
    StackTop(cfg, n, x.spatial, j, R);
    assert hs[|hs| - 1] == Shape(n, EncCh(cfg, j), Sp(cfg, x.spatial, j));
    SpStep(cfg, x.spatial, j);
    assert j + 1 == k;
    SpNonEmpty(cfg, x.spatial, j);
    SpNonEmpty(cfg, x.spatial, k);
    DownBlockShape(cfg, j, n, Sp(cfg, x.spatial, j));
    EncodeFromSnoc(cfg, x, a0, a1, EncPrefix(cfg, j, R), EncDownBlock(cfg, j), hs, Shape(n, EncCh(cfg, j), Sp(cfg, x.spatial, k)));
    EncDownNext(cfg, n, x.spatial, k);
  }

  /** Within encoder level k, each residual block extends the stack the
      level opened with. */
  lemma {:induction false} EncodeWithin(cfg: Config, x: Shape, a0: Shape, a1: Shape, k: nat, i: nat)
    requires k < Levels(cfg) && i <= cfg.numResBlocks
    ensures Ready(cfg, x.spatial) && x.batch > 0 && EncodedTo(cfg, x, a0, a1, k, 0) ==> EncodedTo(cfg, x, a0, a1, k, i)
    decreases i
  {
    if i > 0 {
      EncodeWithin(cfg, x, a0, a1, k, i - 1);
      EncodeRes(cfg, x, a0, a1, k, i);
    }
  }

  /** Every position of the encoder is reached, walking up from the stem. */
  lemma {:induction false} EncodeLadder(cfg: Config, x: Shape, a0: Shape, a1: Shape, k: nat, i: nat)
    requires k < Levels(cfg) && i <= cfg.numResBlocks
    ensures Ready(cfg, x.spatial) && x.batch > 0 && AnchorsFit(cfg, x, a0, a1) ==> EncodedTo(cfg, x, a0, a1, k, i)
    decreases k
  {
    if !(Ready(cfg, x.spatial) && x.batch > 0 && AnchorsFit(cfg, x, a0, a1)) {
      return;
    }
    if k > 0 {
      EncodeLadder(cfg, x, a0, a1, k - 1, cfg.numResBlocks);
      EncodeDown(cfg, x, a0, a1, k);
    } else {
      EncodeStem(cfg, x, a0, a1);
    }
    EncodeWithin(cfg, x, a0, a1, k, i);
  }

  /** The whole encoder: the stack is Stack(Levels - 1, R), topped by a map
      as wide as the middle block at the coarsest size. */
  lemma EncodeAll(cfg: Config, x: Shape, a0: Shape, a1: Shape)
    ensures Ready(cfg, x.spatial) && x.batch > 0 && AnchorsFit(cfg, x, a0, a1) ==>
      var hs := Stack(cfg, x.batch, x.spatial, Levels(cfg) - 1, cfg.numResBlocks);
      && Encode(InputBlocks(cfg), PathwayInput(x), EmbOf(cfg, x.batch), a0, a1, |InputBlocks(cfg)|) == Ok(hs)
      && Top(PathwayInput(x), hs) == Shape(x.batch, MidCh(cfg), Sp(cfg, x.spatial, Levels(cfg) - 1))
  {
    if Ready(cfg, x.spatial) && x.batch > 0 && AnchorsFit(cfg, x, a0, a1) {
      EncodeLadder(cfg, x, a0, a1, Levels(cfg) - 1, cfg.numResBlocks);
      EncodedAll(cfg, x, a0, a1);
    }
  }

  /** The last position of the ladder, read as the whole encoder. */
  lemma EncodedAll(cfg: Config, x: Shape, a0: Shape, a1: Shape)
    requires Levels(cfg) > 0
    ensures var hs := Stack(cfg, x.batch, x.spatial, Levels(cfg) - 1, cfg.numResBlocks);
      EncodedTo(cfg, x, a0, a1, Levels(cfg) - 1, cfg.numResBlocks) ==>
        && Encode(InputBlocks(cfg), PathwayInput(x), EmbOf(cfg, x.batch), a0, a1, |InputBlocks(cfg)|) == Ok(hs)
        && Top(PathwayInput(x), hs) == Shape(x.batch, MidCh(cfg), Sp(cfg, x.spatial, Levels(cfg) - 1))
  {
    InputBlocksPrefix(cfg);
    EncodedTop(cfg, PathwayInput(x), x.batch, x.spatial);
  }

  /** The top of the finished stack is as wide as the middle block, at the coarsest size. */
  lemma EncodedTop(cfg: Config, h0: Shape, n: nat, sp: seq<nat>)
    requires Levels(cfg) > 0
    ensures var L := Levels(cfg);
      Top(h0, Stack(cfg, n, sp, L - 1, cfg.numResBlocks)) == Shape(n, MidCh(cfg), Sp(cfg, sp, L - 1))
  {
    StackTop(cfg, n, sp, Levels(cfg) - 1, cfg.numResBlocks);
  }

  /** The last position of the ladder is the whole encoder. */
  lemma InputBlocksPrefix(cfg: Config)
    requires Levels(cfg) > 0
    ensures InputBlocks(cfg) == EncPrefix(cfg, Levels(cfg) - 1, cfg.numResBlocks)
  {
    var L := Levels(cfg);
    assert EncLevel(cfg, L - 1) == EncResBlocks(cfg, L - 1, cfg.numResBlocks);
    assert EncLevels(cfg, L) == EncLevels(cfg, L - 1) + EncLevel(cfg, L - 1);
  }

  lemma {:induction false} ChannelsAppend(a: seq<Shape>, b: seq<Shape>)
    ensures Channels(a + b) == Channels(a) + Channels(b)
    decreases |b|
  {
    if b == [] {
      assert a + b == a;
    } else {
      var init := b[..|b| - 1];
      assert (a + b)[..|a + b| - 1] == a + init;
      assert b[..|b| - 1] == init;
      ChannelsAppend(a, init);
    }
  }

  lemma {:induction false} CopiesChannels(s: Shape, r: nat)
    ensures Channels(Copies(s, r)) == Repeat(s.channels, r)
  {
    if r > 0 {
      assert Copies(s, r)[..r - 1] == Copies(s, r - 1);
      CopiesChannels(s, r - 1);
    }
  }

  /** Encoder level k pushes the widths it appends to the ledger. */
  lemma SkipLevelChannels(cfg: Config, n: nat, sp: seq<nat>, k: nat)
    requires k < Levels(cfg)
    ensures Channels(SkipLevel(cfg, n, sp, k)) == LedgerLevel(cfg, k)
  {
    var tail := if k != Levels(cfg) - 1 then [Shape(n, EncCh(cfg, k), Sp(cfg, sp, k + 1))] else [];
    var copies := Copies(Shape(n, Width(cfg, k), Sp(cfg, sp, k)), cfg.numResBlocks);
    ChannelsAppend(copies, tail);
    CopiesChannels(Shape(n, Width(cfg, k), Sp(cfg, sp, k)), cfg.numResBlocks);
  }

  lemma {:induction false} SkipLevelsChannels(cfg: Config, n: nat, sp: seq<nat>, m: nat)
    requires m <= Levels(cfg)
    ensures Channels(SkipLevels(cfg, n, sp, m)) == LedgerLevels(cfg, m)
    decreases m
  {
    if m > 0 {
      var before, level := SkipLevels(cfg, n, sp, m - 1), SkipLevel(cfg, n, sp, m - 1);
      SkipLevelsChannels(cfg, n, sp, m - 1);
      SkipLevelChannels(cfg, n, sp, m - 1);
      ChannelsAppend(before, level);
      assert SkipLevels(cfg, n, sp, m) == before + level;
      assert LedgerLevels(cfg, m) == LedgerLevels(cfg, m - 1) + LedgerLevel(cfg, m - 1);
    }
  }

  /** What `forward` pushes on a pathway's skip stack, width by width, is
      what the constructor appended to `input_block_chans`. */
  lemma StackIsLedger(cfg: Config, n: nat, sp: seq<nat>)
    requires Levels(cfg) >= 1
    ensures Channels(Stack(cfg, n, sp, Levels(cfg) - 1, cfg.numResBlocks)) == Ledger(cfg)
  {
    var L, R := Levels(cfg), cfg.numResBlocks;
    var x := Shape(n, cfg.modelChannels, sp);
    var skips := SkipLevels(cfg, n, sp, L - 1);
    var copies := Copies(Shape(n, Width(cfg, L - 1), Sp(cfg, sp, L - 1)), R);
    calc {
      Channels(Stack(cfg, n, sp, L - 1, R));
      { assert Stack(cfg, n, sp, L - 1, R) == [x] + skips + copies == [x] + (skips + copies); }
      Channels([x] + (skips + copies));
      { ChannelsAppend([x], skips + copies); ChannelsAppend(skips, copies); }
      Channels([x]) + (Channels(skips) + Channels(copies));
      { assert [x][..0] == [];
        SkipLevelsChannels(cfg, n, sp, L - 1);
        CopiesChannels(Shape(n, Width(cfg, L - 1), Sp(cfg, sp, L - 1)), R); }
      [cfg.modelChannels] + (LedgerLevels(cfg, L - 1) + Repeat(Width(cfg, L - 1), R));
      { assert LedgerLevel(cfg, L - 1) == Repeat(Width(cfg, L - 1), R); }
      [cfg.modelChannels] + (LedgerLevels(cfg, L - 1) + LedgerLevel(cfg, L - 1));
      Ledger(cfg);
    }
  }

  // ---------------------------------------------------------- middle block

  lemma MiddleShape(cfg: Config, sp: seq<nat>, n: nat)
    requires Ready(cfg, sp) && n > 0
    ensures var h := Shape(n, MidCh(cfg), Sp(cfg, sp, Levels(cfg) - 1));
      RunBlock(MiddleBlock(cfg), h, EmbOf(cfg, n)) == Ok(h)
  {
    var ch, s := MidCh(cfg), Sp(cfg, sp, Levels(cfg) - 1);
    var h := Shape(n, ch, s);
    assert LevelFits(cfg, Levels(cfg) - 1);
    assert ch > 0;
    assert PlainRes(cfg, ch, 0) == PlainRes(cfg, ch, ch);
    SpNonEmpty(cfg, sp, Levels(cfg) - 1);
    ResAttnShape(cfg, ch, ch, cfg.numHeads, true, n, s);
    var first := [PlainRes(cfg, ch, ch)] + [AttnLayer(cfg, ch, cfg.numHeads)];
    RunBlockSnoc(first, PlainRes(cfg, ch, ch), h, h, EmbOf(cfg, n));
    assert MiddleBlock(cfg) == first + [PlainRes(cfg, ch, ch)];
  }

  // ----------------------------------------------------------------- decoder

  lemma {:induction false} DecodeExtend(b: seq<seq<Layer>>, c: seq<seq<Layer>>, h: Shape, hs: seq<Shape>, emb: Emb, m: nat)
    requires m <= |b|
    ensures Decode(b + c, h, hs, emb, m) == Decode(b, h, hs, emb, m)
    decreases m
  {
    if m > 0 {
      DecodeExtend(b, c, h, hs, emb, m - 1);
      assert (b + c)[m - 1] == b[m - 1];
      var d := Decode(b, h, hs, emb, m - 1);
      if d.Ok? {
        DecodeStepOn(b, h, hs, emb, m - 1, d.value);
        DecodeStepOn(b + c, h, hs, emb, m - 1, d.value);
      } else {
        DecodeStops(b, h, hs, emb, m - 1, m);
        DecodeStops(b + c, h, hs, emb, m - 1, m);
      }
    }
  }

  /** The output blocks up to block i of decoder level k. */
  function DecPrefix(cfg: Config, k: nat, i: nat): seq<seq<Layer>>
    requires k < Levels(cfg)
  {
    DecSpan(cfg, k + 1) + DecBlocks(cfg, k, i)
  }

  /** Decoder block i of level k maps the concatenation of `ch` and the
      popped `ich` to the level's width, at the next finer size once the
      level's up-sampler has run. */
  lemma DecBlockShape(cfg: Config, sp: seq<nat>, k: nat, i: nat, n: nat)
    requires Ready(cfg, sp) && n > 0 && k < Levels(cfg) && i <= cfg.numResBlocks
    ensures RunBlock(DecBlock(cfg, k, i), Shape(n, DecChBefore(cfg, k, i) + DecSkip(cfg, k, i), Sp(cfg, sp, k)), EmbOf(cfg, n))
         == Ok(Shape(n, Width(cfg, k), if k > 0 && i == cfg.numResBlocks then Sp(cfg, sp, k - 1) else Sp(cfg, sp, k)))
  {
    var w, s := Width(cfg, k), Sp(cfg, sp, k);
    var x := Shape(n, DecChBefore(cfg, k, i) + DecSkip(cfg, k, i), s);
    var attn := Pow2(k) in cfg.attentionResolutions;
    assert LevelFits(cfg, k);
    var base := [PlainRes(cfg, x.channels, w)] + (if attn then [AttnLayer(cfg, w, HeadsUpsample(cfg))] else []);
    SpNonEmpty(cfg, sp, k);
    ResAttnShape(cfg, x.channels, w, HeadsUpsample(cfg), attn, n, s);
    if k > 0 && i == cfg.numResBlocks {
      SpStep(cfg, sp, k - 1);
      UpLayerShape(cfg, w, n, s);
      RunBlockSnoc(base, UpLayer(cfg, w), x, Shape(n, w, s), EmbOf(cfg, n));
      assert DecBlock(cfg, k, i) == base + [UpLayer(cfg, w)];
    } else {
      assert DecBlock(cfg, k, i) == base + [];
      assert base + [] == base;
    }
  }

  /** The stack decoder block i of level k leaves: one entry shorter. */
  function Popped(cfg: Config, n: nat, sp: seq<nat>, k: nat, i: nat): seq<Shape>
    requires k < Levels(cfg) && i <= cfg.numResBlocks
  {
    if i < cfg.numResBlocks then Stack(cfg, n, sp, k, cfg.numResBlocks - i - 1)
    else if k > 0 then Stack(cfg, n, sp, k - 1, cfg.numResBlocks)
    else []
  }

  /** The pop of decoder block i of level k finds the map the encoder pushed
      for it: `DecSkip` wide, at level k's size. */
  lemma StackPop(cfg: Config, n: nat, sp: seq<nat>, k: nat, i: nat)
    requires k < Levels(cfg) && i <= cfg.numResBlocks
    ensures var hs := Stack(cfg, n, sp, k, cfg.numResBlocks - i);
      && |hs| > 0
      && hs[|hs| - 1] == Shape(n, DecSkip(cfg, k, i), Sp(cfg, sp, k))
      && hs[..|hs| - 1] == Popped(cfg, n, sp, k, i)
  {
    var R := cfg.numResBlocks;
    var hs := Stack(cfg, n, sp, k, R - i);
    var top := Shape(n, DecSkip(cfg, k, i), Sp(cfg, sp, k));
    if i < R {
      EncResNext(cfg, n, sp, k, R - i);
    } else if k == 0 {
      assert hs == [] + [top];
    } else {
      EncDownNext(cfg, n, sp, k);
    }
    LastAndInit(hs, Popped(cfg, n, sp, k, i), top);
  }

  lemma LastAndInit(hs: seq<Shape>, init: seq<Shape>, last: Shape)
    requires hs == init + [last]
    ensures |hs| > 0 && hs[|hs| - 1] == last && hs[..|hs| - 1] == init
  {
  }

  /** The decoder run over the blocks `b`, from the middle block's output
      and the full stack. */
  function DecodeFrom(cfg: Config, n: nat, sp: seq<nat>, b: seq<seq<Layer>>): Result<Descent>
    requires Levels(cfg) > 0
  {
    var L := Levels(cfg);
    Decode(b, Shape(n, MidCh(cfg), Sp(cfg, sp, L - 1)), Stack(cfg, n, sp, L - 1, cfg.numResBlocks), EmbOf(cfg, n), |b|)
  }

  /** Before decoder block i of level k: the running width `ch` at level k's
      size, and the stack Stack(k, R - i). */
  function Before(cfg: Config, n: nat, sp: seq<nat>, k: nat, i: nat): Descent
    requires k < Levels(cfg) && i <= cfg.numResBlocks
  {
    Descent(Shape(n, DecChBefore(cfg, k, i), Sp(cfg, sp, k)), Stack(cfg, n, sp, k, cfg.numResBlocks - i))
  }

  /** After decoder block i of level k: the level's width, one size finer
      after the level's last block, and the stack one entry shorter. */
  function After(cfg: Config, n: nat, sp: seq<nat>, k: nat, i: nat): Descent
    requires k < Levels(cfg) && i <= cfg.numResBlocks
  {
    Descent(Shape(n, Width(cfg, k), if k > 0 && i == cfg.numResBlocks then Sp(cfg, sp, k - 1) else Sp(cfg, sp, k)),
            Popped(cfg, n, sp, k, i))
  }

  predicate DecodedTo(cfg: Config, n: nat, sp: seq<nat>, k: nat, i: nat)
    requires k < Levels(cfg) && i <= cfg.numResBlocks
  {
    DecodeFrom(cfg, n, sp, DecPrefix(cfg, k, i)) == Ok(Before(cfg, n, sp, k, i))
  }

  /** Decoder block i of level k on the state the previous blocks leave:
      pop, concatenate, run. */
  lemma DecodeStepAt(cfg: Config, n: nat, sp: seq<nat>, k: nat, i: nat)
    requires Ready(cfg, sp) && n > 0 && k < Levels(cfg) && i <= cfg.numResBlocks
    ensures StepFits(cfg, n, sp, k, i)
  {
    StackPop(cfg, n, sp, k, i);
    DecBlockShape(cfg, sp, k, i, n);
  }

  /** One more output block: the decoder pops, concatenates and runs it. */
  lemma DecodeSnoc(b: seq<seq<Layer>>, blk: seq<Layer>, h: Shape, hs: seq<Shape>, emb: Emb, d: Descent, next: Descent)
    requires Decode(b, h, hs, emb, |b|) == Ok(d) && DecodeStep(blk, d, emb) == Ok(next)
    ensures Decode(b + [blk], h, hs, emb, |b + [blk]|) == Ok(next)
  {
    DecodeExtend(b, [blk], h, hs, emb, |b|);
    assert (b + [blk])[|b|] == blk;
  }

  /** `DecodeSnoc` from the middle block's output and the full stack. */
  lemma DecodeFromSnoc(cfg: Config, n: nat, sp: seq<nat>, b: seq<seq<Layer>>, blk: seq<Layer>, d: Descent, next: Descent)
    requires Levels(cfg) > 0
    requires DecodeFrom(cfg, n, sp, b) == Ok(d) && DecodeStep(blk, d, EmbOf(cfg, n)) == Ok(next)
    ensures DecodeFrom(cfg, n, sp, b + [blk]) == Ok(next)
  {
    var L := Levels(cfg);
    DecodeSnoc(b, blk, Shape(n, MidCh(cfg), Sp(cfg, sp, L - 1)), Stack(cfg, n, sp, L - 1, cfg.numResBlocks), EmbOf(cfg, n), d, next);
  }

  /** Decoder block i of level k maps the state before it to the state after it. */
  predicate StepFits(cfg: Config, n: nat, sp: seq<nat>, k: nat, i: nat)
    requires k < Levels(cfg) && i <= cfg.numResBlocks
  {
    DecodeStep(DecBlock(cfg, k, i), Before(cfg, n, sp, k, i), EmbOf(cfg, n)) == Ok(After(cfg, n, sp, k, i))
  }

  /** Decoder block i of level k, run from the state the previous blocks left. */
  lemma DecodeAt(cfg: Config, n: nat, sp: seq<nat>, k: nat, i: nat)
    requires k < Levels(cfg) && i <= cfg.numResBlocks && StepFits(cfg, n, sp, k, i)
    ensures DecodedTo(cfg, n, sp, k, i) ==>
      DecodeFrom(cfg, n, sp, DecPrefix(cfg, k, i) + [DecBlock(cfg, k, i)]) == Ok(After(cfg, n, sp, k, i))
  {
    if !DecodedTo(cfg, n, sp, k, i) {
      return;
    }
    DecodeFromSnoc(cfg, n, sp, DecPrefix(cfg, k, i), DecBlock(cfg, k, i), Before(cfg, n, sp, k, i), After(cfg, n, sp, k, i));
  }

  /** Within a level, the state after block i - 1 is the state before block i. */
  lemma AfterIsBefore(cfg: Config, n: nat, sp: seq<nat>, k: nat, i: nat)
    requires k < Levels(cfg) && 0 < i <= cfg.numResBlocks
    ensures After(cfg, n, sp, k, i - 1) == Before(cfg, n, sp, k, i)
    ensures DecPrefix(cfg, k, i) == DecPrefix(cfg, k, i - 1) + [DecBlock(cfg, k, i - 1)]
    ensures DecodeFrom(cfg, n, sp, DecPrefix(cfg, k, i - 1) + [DecBlock(cfg, k, i - 1)]) == Ok(After(cfg, n, sp, k, i - 1))
            ==> DecodedTo(cfg, n, sp, k, i)
  {
    assert DecChBefore(cfg, k, i) == Width(cfg, k);
  }

  /** Across levels, the state after the last block of level k + 1 is the
      state before the first block of level k. */
  lemma AfterIsBeforeLevel(cfg: Config, n: nat, sp: seq<nat>, k: nat)
    requires k + 1 < Levels(cfg)
    ensures After(cfg, n, sp, k + 1, cfg.numResBlocks) == Before(cfg, n, sp, k, 0)
    ensures DecPrefix(cfg, k, 0) == DecPrefix(cfg, k + 1, cfg.numResBlocks) + [DecBlock(cfg, k + 1, cfg.numResBlocks)]
    ensures DecodeFrom(cfg, n, sp, DecPrefix(cfg, k + 1, cfg.numResBlocks) + [DecBlock(cfg, k + 1, cfg.numResBlocks)])
              == Ok(After(cfg, n, sp, k + 1, cfg.numResBlocks))
            ==> DecodedTo(cfg, n, sp, k, 0)
  {
    var R := cfg.numResBlocks;
    assert DecSpan(cfg, k + 1) == DecSpan(cfg, k + 2) + DecBlocks(cfg, k + 1, R + 1);
    assert DecChBefore(cfg, k, 0) == Width(cfg, k + 1);
  }

  lemma DecodeNext(cfg: Config, n: nat, sp: seq<nat>, k: nat, i: nat)
    requires k < Levels(cfg) && 0 < i <= cfg.numResBlocks
    ensures StepFits(cfg, n, sp, k, i - 1) && DecodedTo(cfg, n, sp, k, i - 1) ==> DecodedTo(cfg, n, sp, k, i)
  {
    if !StepFits(cfg, n, sp, k, i - 1) {
      return;
    }
    DecodeAt(cfg, n, sp, k, i - 1);
    AfterIsBefore(cfg, n, sp, k, i);
  }

  lemma DecodeNextLevel(cfg: Config, n: nat, sp: seq<nat>, k: nat)
    requires k + 1 < Levels(cfg)
    ensures StepFits(cfg, n, sp, k + 1, cfg.numResBlocks) && DecodedTo(cfg, n, sp, k + 1, cfg.numResBlocks)
            ==> DecodedTo(cfg, n, sp, k, 0)
  {
    if !StepFits(cfg, n, sp, k + 1, cfg.numResBlocks) {
      return;
    }
    DecodeAt(cfg, n, sp, k + 1, cfg.numResBlocks);
    AfterIsBeforeLevel(cfg, n, sp, k);
  }

  /** Before the first output block: the middle block's output and the full stack. */
  lemma DecodeStart(cfg: Config, n: nat, sp: seq<nat>, k: nat)
    requires k + 1 == Levels(cfg)
    ensures DecodedTo(cfg, n, sp, k, 0)
  {
    assert DecPrefix(cfg, k, 0) == [];
  }

  /** Under the fitting conditions, decoder block i - 1 of level k takes the
      decoder one position further. */
  lemma DecodeAdvance(cfg: Config, n: nat, sp: seq<nat>, k: nat, i: nat)
    requires k < Levels(cfg) && 0 < i <= cfg.numResBlocks
    ensures Ready(cfg, sp) && n > 0 && DecodedTo(cfg, n, sp, k, i - 1) ==> DecodedTo(cfg, n, sp, k, i)
  {
    if !(Ready(cfg, sp) && n > 0) {
      return;
    }
    DecodeStepAt(cfg, n, sp, k, i - 1);
    DecodeNext(cfg, n, sp, k, i);
  }

  /** Under the fitting conditions, the last block of level k + 1 takes the
      decoder to the start of level k. */
  lemma DecodeAdvanceLevel(cfg: Config, n: nat, sp: seq<nat>, k: nat)
    requires k + 1 < Levels(cfg)
    ensures Ready(cfg, sp) && n > 0 && DecodedTo(cfg, n, sp, k + 1, cfg.numResBlocks) ==> DecodedTo(cfg, n, sp, k, 0)
  {
    if !(Ready(cfg, sp) && n > 0) {
      return;
    }
    DecodeStepAt(cfg, n, sp, k + 1, cfg.numResBlocks);
    DecodeNextLevel(cfg, n, sp, k);
  }

  /** Within level k, every position is reached from the level's start. */
  lemma {:induction false} DecodeWithin(cfg: Config, n: nat, sp: seq<nat>, k: nat, i: nat)
    requires k < Levels(cfg) && i <= cfg.numResBlocks
    ensures Ready(cfg, sp) && n > 0 && DecodedTo(cfg, n, sp, k, 0) ==> DecodedTo(cfg, n, sp, k, i)
  {
    if !(Ready(cfg, sp) && n > 0 && DecodedTo(cfg, n, sp, k, 0)) {
      return;
    }
    if i > 0 {
      DecodeAdvance(cfg, n, sp, k, i);
      DecodeWithin(cfg, n, sp, k, i - 1);
    }
  }

  /** Every level's start is reached, walking down from the middle. */
  lemma {:induction false} DecodeLadder(cfg: Config, n: nat, sp: seq<nat>, k: nat)
    requires k < Levels(cfg)
    ensures Ready(cfg, sp) && n > 0 ==> DecodedTo(cfg, n, sp, k, 0)
    decreases Levels(cfg) - k
  {
    if !(Ready(cfg, sp) && n > 0) {
      return;
    }
    if k + 1 < Levels(cfg) {
      DecodeLadder(cfg, n, sp, k + 1);
      DecodeWithin(cfg, n, sp, k + 1, cfg.numResBlocks);
      DecodeAdvanceLevel(cfg, n, sp, k);
    } else {
      DecodeStart(cfg, n, sp, k);
    }
  }

  /** The whole decoder drains the stack and ends at the input's size with
      `mult[0] * model_channels` channels. */
  lemma DecodeAll(cfg: Config, n: nat, sp: seq<nat>)
    requires Ready(cfg, sp) && n > 0
    ensures var L := Levels(cfg);
      Decode(OutputBlocks(cfg), Shape(n, MidCh(cfg), Sp(cfg, sp, L - 1)), Stack(cfg, n, sp, L - 1, cfg.numResBlocks),
             EmbOf(cfg, n), |OutputBlocks(cfg)|)
      == Ok(Descent(Shape(n, Width(cfg, 0), sp), []))
  {
    var R := cfg.numResBlocks;
    DecodeLast(cfg, n, sp);
    DecodeDone(cfg, n, sp);
    assert OutputBlocks(cfg) == DecPrefix(cfg, 0, R) + [DecBlock(cfg, 0, R)];
  }

  /** The last output block runs from the state every earlier block leaves. */
  lemma DecodeLast(cfg: Config, n: nat, sp: seq<nat>)
    requires Ready(cfg, sp) && n > 0
    ensures var R := cfg.numResBlocks;
      DecodeFrom(cfg, n, sp, DecPrefix(cfg, 0, R) + [DecBlock(cfg, 0, R)]) == Ok(After(cfg, n, sp, 0, R))
  {
    var R := cfg.numResBlocks;
    DecodeStepAt(cfg, n, sp, 0, R);
    DecodeAt(cfg, n, sp, 0, R);
    DecodeLadder(cfg, n, sp, 0);
    DecodeWithin(cfg, n, sp, 0, R);
  }

  /** After the last output block: level 0's width, the input's size, an empty stack. */
  lemma DecodeDone(cfg: Config, n: nat, sp: seq<nat>)
    requires Levels(cfg) > 0
    ensures After(cfg, n, sp, 0, cfg.numResBlocks) == Descent(Shape(n, Width(cfg, 0), sp), [])
  {
  }

  // ------------------------------------------------------------ end to end

  /** The stem accepts the signal dimension and every AttentionBlock the
      constructor asserts on passes. */
  lemma ReadyBuilds(cfg: Config, sp: seq<nat>)
    requires Ready(cfg, sp)
    ensures SupportedDims(cfg.dims) && AttentionBuildable(cfg)
  {
    forall k | 0 <= k < Levels(cfg) && Pow2(k) in cfg.attentionResolutions
      ensures AttentionHeads(Width(cfg, k), HeadsUpsample(cfg), cfg.numHeadChannels).Ok?
    {
      assert LevelFits(cfg, k);
    }
  }

  /** `forward` on the network the constructor builds: under the conditions
      above, both pathways keep the input's batch and spatial size through the
      ladders, and `cal` is passed through. The output heads normalise over the
      final `ch` but convolve from `model_channels`, so forward succeeds, with
      `out_channels_gaussian` and `out_channels_bernoulli` channels, exactly
      when `channel_mult[0] * model_channels == model_channels`; otherwise the
      Gaussian head raises a channel mismatch. The lemma is stated for one
      timestep per sample; a single timestep row broadcast over the batch
      (`steps == 1`) is handled by `ForwardSpec` but is not covered here. */
  lemma ForwardSucceeds(cfg: Config, x: Shape, a0: Shape, a1: Shape, cal: Shape)
    requires Ready(cfg, x.spatial) && x.batch > 0 && x.channels == 3 && AnchorsFit(cfg, x, a0, a1)
    ensures Width(cfg, 0) == cfg.modelChannels ==>
      ForwardSpec(SpecNet(cfg), x, x.batch, false, a0, a1, cal)
         == Ok((Shape(x.batch, cfg.outChannelsGaussian, x.spatial),
                Shape(x.batch, cfg.outChannelsBernoulli, x.spatial), cal))
    ensures Width(cfg, 0) != cfg.modelChannels ==>
      ForwardSpec(SpecNet(cfg), x, x.batch, false, a0, a1, cal) == Err(ChannelMismatch)
  {
    var net, n, sp := SpecNet(cfg), x.batch, x.spatial;
    var emb := EmbOf(cfg, n);
    assert Embedding(net, n) == emb;
    EncodeAll(cfg, x, a0, a1);
    MiddleShape(cfg, sp, n);
    DecodeAll(cfg, n, sp);
    var h := Shape(n, Width(cfg, 0), sp);
    assert FinalCh(cfg) == Width(cfg, 0);
    if Width(cfg, 0) == cfg.modelChannels {
      assert OutForward(net.outGaussian, h) == Ok(Shape(n, cfg.outChannelsGaussian, sp));
      assert OutForward(net.outBernoulli, h) == Ok(Shape(n, cfg.outChannelsBernoulli, sp));
    } else {
      assert OutForward(net.outGaussian, h) == Err(ChannelMismatch);
    }
  }
}
