/** The construction of EchoDNDUNet (`__init__`): the encoder ladder, the
    middle block and the decoder ladder of one pathway, the output projections,
    and the Bernoulli pathway as a copy of the Gaussian one. */
module Ladder {
  import opened Shapes
  import opened Layers

  /** The constructor arguments that decide shapes. */
  datatype Config = Config(
    inChannels: nat,
    modelChannels: nat,
    outChannelsGaussian: nat,
    outChannelsBernoulli: nat,
    numResBlocks: nat,
    attentionResolutions: set<int>,
    channelMult: seq<nat>,
    convResample: bool,
    dims: nat,
    classConditional: bool,      // `num_classes is not None`
    numHeads: int,
    numHeadChannels: int,
    numHeadsUpsample: int,
    useScaleShiftNorm: bool,
    resblockUpdown: bool,
    useNewAttentionOrder: bool,
    highWay: bool)

  /** `normalization(ch)` followed by a convolution from `convIn` channels. */
  datatype OutProj = OutProj(normChannels: nat, convIn: nat, outChannels: nat, dims: nat)

  datatype Net = Net(
    cfg: Config,
    inputGaussian: seq<seq<Layer>>,
    middleGaussian: seq<Layer>,
    outputGaussian: seq<seq<Layer>>,
    outGaussian: OutProj,
    inputBernoulli: seq<seq<Layer>>,
    middleBernoulli: seq<Layer>,
    outputBernoulli: seq<seq<Layer>>,
    outBernoulli: OutProj,
    hasMfcm: bool,
    featureSize: nat)

  // ------------------------------------------------- the ladder, level by level

  function Levels(cfg: Config): nat { |cfg.channelMult| }

  function TimeEmbedDim(cfg: Config): nat { 4 * cfg.modelChannels }

  /** `mult * model_channels` at level k. */
  function Width(cfg: Config, k: nat): nat
    requires k < Levels(cfg)
  {
    cfg.modelChannels * cfg.channelMult[k]
  }

  /** The running `ch` after the residual blocks of encoder level k: with no
      residual blocks it never moves from `model_channels`. */
  function EncCh(cfg: Config, k: nat): nat
    requires k < Levels(cfg)
  {
    if cfg.numResBlocks == 0 then cfg.modelChannels else Width(cfg, k)
  }

  /** The running `ch` when encoder level k starts (k == Levels: after the encoder). */
  function ChIn(cfg: Config, k: nat): nat
    requires k <= Levels(cfg)
  {
    if k == 0 then cfg.modelChannels else EncCh(cfg, k - 1)
  }

  /** The width of the middle block. */
  function MidCh(cfg: Config): nat
  {
    ChIn(cfg, Levels(cfg))
  }

  function HeadsUpsample(cfg: Config): int
  {
    if cfg.numHeadsUpsample == -1 then cfg.numHeads else cfg.numHeadsUpsample
  }

  function AttnLayer(cfg: Config, ch: nat, heads: int): Layer
  {
    Attn(AttentionBlock(ch, heads, cfg.numHeadChannels, cfg.useNewAttentionOrder))
  }

  function PlainRes(cfg: Config, ch: nat, out: nat): Layer
  {
    Res(NewResBlock(ch, TimeEmbedDim(cfg), out, false, cfg.useScaleShiftNorm, cfg.dims, false, false))
  }

  /** The i-th residual block of encoder level k, with attention when the
      downsample factor 2^k is an attention resolution. */
  function EncResBlock(cfg: Config, k: nat, i: nat): seq<Layer>
    requires k < Levels(cfg)
  {
    [PlainRes(cfg, if i == 0 then ChIn(cfg, k) else Width(cfg, k), Width(cfg, k))]
    + (if Pow2(k) in cfg.attentionResolutions then [AttnLayer(cfg, Width(cfg, k), cfg.numHeads)] else [])
  }

  /** The down-sampling block closing encoder level k. */
  function EncDownBlock(cfg: Config, k: nat): seq<Layer>
    requires k < Levels(cfg)
  {
    var ch := EncCh(cfg, k);
    if cfg.resblockUpdown
    then [Res(NewResBlock(ch, TimeEmbedDim(cfg), ch, false, cfg.useScaleShiftNorm, cfg.dims, false, true))]
    else [Down(Downsample(ch, cfg.convResample, cfg.dims, ch))]
  }

  function EncResBlocks(cfg: Config, k: nat, n: nat): (r: seq<seq<Layer>>)
    requires k < Levels(cfg)
    ensures |r| == n
  {
    if n == 0 then [] else EncResBlocks(cfg, k, n - 1) + [EncResBlock(cfg, k, n - 1)]
  }

  function EncLevel(cfg: Config, k: nat): seq<seq<Layer>>
    requires k < Levels(cfg)
  {
    EncResBlocks(cfg, k, cfg.numResBlocks)
    + (if k != Levels(cfg) - 1 then [EncDownBlock(cfg, k)] else [])
  }

  /** Encoder levels 0 .. n-1. */
  function EncLevels(cfg: Config, n: nat): seq<seq<Layer>>
    requires n <= Levels(cfg)
  {
    if n == 0 then [] else EncLevels(cfg, n - 1) + EncLevel(cfg, n - 1)
  }

  function Stem(cfg: Config): seq<Layer>
  {
    [Conv(cfg.inChannels, cfg.modelChannels, cfg.dims)]
  }

  function InputBlocks(cfg: Config): seq<seq<Layer>>
  {
    [Stem(cfg)] + EncLevels(cfg, Levels(cfg))
  }

  function MiddleBlock(cfg: Config): seq<Layer>
  {
    var ch := MidCh(cfg);
    [PlainRes(cfg, ch, 0), AttnLayer(cfg, ch, cfg.numHeads), PlainRes(cfg, ch, 0)]
  }

  function Repeat(x: nat, n: nat): (r: seq<nat>)
    ensures |r| == n && forall i :: 0 <= i < n ==> r[i] == x
  {
    if n == 0 then [] else Repeat(x, n - 1) + [x]
  }

  /** What encoder level k appends to `input_block_chans`. */
  function LedgerLevel(cfg: Config, k: nat): seq<nat>
    requires k < Levels(cfg)
  {
    Repeat(Width(cfg, k), cfg.numResBlocks) + (if k != Levels(cfg) - 1 then [EncCh(cfg, k)] else [])
  }

  function LedgerLevels(cfg: Config, n: nat): seq<nat>
    requires n <= Levels(cfg)
  {
    if n == 0 then [] else LedgerLevels(cfg, n - 1) + LedgerLevel(cfg, n - 1)
  }

  /** `input_block_chans` once the encoder is built. */
  function Ledger(cfg: Config): seq<nat>
  {
    [cfg.modelChannels] + LedgerLevels(cfg, Levels(cfg))
  }

  /** The running `ch` before decoder block i of level k. */
  function DecChBefore(cfg: Config, k: nat, i: nat): nat
    requires k < Levels(cfg)
  {
    if i > 0 then Width(cfg, k) else if k == Levels(cfg) - 1 then MidCh(cfg) else Width(cfg, k + 1)
  }

  /** The skip width decoder block i of level k pops: the level's own block
      widths first, then the width that entered the level (the preceding
      down-sampler's, or the stem's). */
  function DecSkip(cfg: Config, k: nat, i: nat): nat
    requires k < Levels(cfg)
  {
    if i < cfg.numResBlocks then Width(cfg, k) else ChIn(cfg, k)
  }

  function UpLayer(cfg: Config, ch: nat): Layer
  {
    if cfg.resblockUpdown
    then Res(NewResBlock(ch, TimeEmbedDim(cfg), ch, false, cfg.useScaleShiftNorm, cfg.dims, true, false))
    else Up(NewUpsample(ch, cfg.convResample, cfg.dims, ch))
  }

  /** Decoder block i of level k: a ResBlock over `ch + ich` channels, then
      attention at the attention resolutions, then, closing every level but
      the first, an up-sampler. */
  function DecBlock(cfg: Config, k: nat, i: nat): seq<Layer>
    requires k < Levels(cfg)
  {
    [PlainRes(cfg, DecChBefore(cfg, k, i) + DecSkip(cfg, k, i), Width(cfg, k))]
    + (if Pow2(k) in cfg.attentionResolutions then [AttnLayer(cfg, Width(cfg, k), HeadsUpsample(cfg))] else [])
    + (if k > 0 && i == cfg.numResBlocks then [UpLayer(cfg, Width(cfg, k))] else [])
  }

  function DecBlocks(cfg: Config, k: nat, n: nat): (r: seq<seq<Layer>>)
    requires k < Levels(cfg)
    ensures |r| == n
  {
    if n == 0 then [] else DecBlocks(cfg, k, n - 1) + [DecBlock(cfg, k, n - 1)]
  }

  /** Decoder levels Levels-1 down to lo. */
  function DecSpan(cfg: Config, lo: nat): seq<seq<Layer>>
    requires lo <= Levels(cfg)
    decreases Levels(cfg) - lo
  {
    if lo == Levels(cfg) then [] else DecSpan(cfg, lo + 1) + DecBlocks(cfg, lo, cfg.numResBlocks + 1)
  }

  function OutputBlocks(cfg: Config): seq<seq<Layer>>
  {
    DecSpan(cfg, 0)
  }

  /** The output widths of the decoder blocks of levels Levels-1 down to lo. */
  function DecWidths(cfg: Config, lo: nat): seq<nat>
    requires lo <= Levels(cfg)
    decreases Levels(cfg) - lo
  {
    if lo == Levels(cfg) then [] else DecWidths(cfg, lo + 1) + Repeat(Width(cfg, lo), cfg.numResBlocks + 1)
  }

  /** The running `ch` after the decoder: that of level 0, or of the middle
      block when there are no levels. */
  function FinalCh(cfg: Config): nat
  {
    if Levels(cfg) == 0 then cfg.modelChannels else Width(cfg, 0)
  }

  function Sum(s: seq<nat>): nat
  {
    if s == [] then 0 else Sum(s[..|s| - 1]) + s[|s| - 1]
  }

  /** `_feature_size`: every width appended on the way down, the middle, and
      every decoder block's width. */
  function FeatureSize(cfg: Config): nat
  {
    Sum(Ledger(cfg)) + MidCh(cfg) + Sum(DecWidths(cfg, 0))
  }

  /** Every AttentionBlock the constructor builds passes its divisibility
      check: the middle one, and one per level whose factor 2^k is an
      attention resolution (every decoder level builds one; the encoder
      builds the same check at the same width). */
  predicate AttentionBuildable(cfg: Config)
  {
    && AttentionHeads(MidCh(cfg), cfg.numHeads, cfg.numHeadChannels).Ok?
    && forall k :: 0 <= k < Levels(cfg) && Pow2(k) in cfg.attentionResolutions ==>
         AttentionHeads(Width(cfg, k), HeadsUpsample(cfg), cfg.numHeadChannels).Ok?
  }

  /** The network the constructor builds. */
  function SpecNet(cfg: Config): Net
  {
    var outG := OutProj(FinalCh(cfg), cfg.modelChannels, cfg.outChannelsGaussian, cfg.dims);
    var outB := OutProj(FinalCh(cfg), cfg.modelChannels, cfg.outChannelsBernoulli, cfg.dims);
    Net(cfg, InputBlocks(cfg), MiddleBlock(cfg), OutputBlocks(cfg), outG,
        InputBlocks(cfg), MiddleBlock(cfg), OutputBlocks(cfg), outB,
        cfg.highWay, FeatureSize(cfg))
  }

  // ------------------------------------------- the ledger as the decoder sees it

  /** `input_block_chans` just before decoder block i of level k pops from it
      (i == numResBlocks + 1: once the level is done). */
  function DecLedger(cfg: Config, k: nat, i: nat): seq<nat>
    requires k < Levels(cfg)
  {
    if i <= cfg.numResBlocks then [cfg.modelChannels] + LedgerLevels(cfg, k) + Repeat(Width(cfg, k), cfg.numResBlocks - i)
    else if k > 0 then [cfg.modelChannels] + LedgerLevels(cfg, k - 1) + Repeat(Width(cfg, k - 1), cfg.numResBlocks)
    else []
  }

  lemma SumAppend(s: seq<nat>, x: nat)
    ensures Sum(s + [x]) == Sum(s) + x
  {
    assert (s + [x])[..|s|] == s;
  }

  /** The encoder leaves exactly the ledger decoder level Levels-1 starts from. */
  lemma LedgerAtDecoderStart(cfg: Config)
    requires Levels(cfg) > 0
    ensures Ledger(cfg) == DecLedger(cfg, Levels(cfg) - 1, 0)
  {
    var k := Levels(cfg) - 1;
    assert LedgerLevel(cfg, k) == Repeat(Width(cfg, k), cfg.numResBlocks);
    assert Ledger(cfg) == [cfg.modelChannels] + LedgerLevels(cfg, k) + LedgerLevel(cfg, k);
  }

  /** Each decoder pop finds the ledger non-empty, takes `DecSkip` from its
      end and leaves the ledger the next block expects. */
  lemma LedgerPop(cfg: Config, k: nat, i: nat)
    requires k < Levels(cfg) && i <= cfg.numResBlocks
    ensures var l := DecLedger(cfg, k, i);
      |l| > 0 && l[|l| - 1] == DecSkip(cfg, k, i) && l[..|l| - 1] == DecLedger(cfg, k, i + 1)
  {
    var R := cfg.numResBlocks;
    var l := DecLedger(cfg, k, i);
    var head := [cfg.modelChannels] + LedgerLevels(cfg, k);
    if i < R {
      assert Repeat(Width(cfg, k), R - i) == Repeat(Width(cfg, k), R - i - 1) + [Width(cfg, k)];
      assert l == head + Repeat(Width(cfg, k), R - i - 1) + [Width(cfg, k)];
    } else if k == 0 {
      assert l == [cfg.modelChannels];
    } else {
      var tail := Repeat(Width(cfg, k - 1), R);
      assert LedgerLevel(cfg, k - 1) == tail + [EncCh(cfg, k - 1)];
      assert l == [cfg.modelChannels] + LedgerLevels(cfg, k - 1) + tail + [EncCh(cfg, k - 1)];
    }
  }

  // --------------------------------------------------- counting pushes and pops

  /** The encoder levels push one ledger entry per block they build. */
  lemma {:induction false} EncLevelsPushOne(cfg: Config, n: nat)
    requires n <= Levels(cfg)
    ensures |EncLevels(cfg, n)| == |LedgerLevels(cfg, n)|
  {
    if n > 0 {
      EncLevelsPushOne(cfg, n - 1);
      assert |EncLevel(cfg, n - 1)| == |LedgerLevel(cfg, n - 1)|;
    }
  }

  /** Levels 0 .. n-1 push `numResBlocks` entries each, plus one for every
      down-sampler: all levels but the last have one. */
  lemma {:induction false} LedgerLevelsLength(cfg: Config, n: nat)
    requires n <= Levels(cfg)
    ensures |LedgerLevels(cfg, n)| + (if n == Levels(cfg) && n > 0 then 1 else 0) == n * (cfg.numResBlocks + 1)
  {
    if n > 0 {
      LedgerLevelsLength(cfg, n - 1);
      assert n * (cfg.numResBlocks + 1) == (n - 1) * (cfg.numResBlocks + 1) + cfg.numResBlocks + 1;
    }
  }

  /** Decoder levels Levels-1 down to lo build `numResBlocks + 1` blocks each. */
  lemma {:induction false} DecSpanLength(cfg: Config, lo: nat)
    requires lo <= Levels(cfg)
    ensures |DecSpan(cfg, lo)| == (Levels(cfg) - lo) * (cfg.numResBlocks + 1)
    decreases Levels(cfg) - lo
  {
    if lo < Levels(cfg) {
      DecSpanLength(cfg, lo + 1);
      assert (Levels(cfg) - lo) * (cfg.numResBlocks + 1)
          == (Levels(cfg) - lo - 1) * (cfg.numResBlocks + 1) + cfg.numResBlocks + 1;
    }
  }

  /** Every input block pushes exactly one entry on `input_block_chans`, and
      the output blocks pop exactly as many: 1 + L·R + (L-1) pushes against
      L·(R+1) pops. */
  lemma LedgerDrained(cfg: Config)
    requires Levels(cfg) > 0
    ensures |InputBlocks(cfg)| == |Ledger(cfg)|
    ensures |Ledger(cfg)| == 1 + Levels(cfg) * cfg.numResBlocks + (Levels(cfg) - 1)
    ensures |OutputBlocks(cfg)| == |Ledger(cfg)| == Levels(cfg) * (cfg.numResBlocks + 1)
  {
    var L, R := Levels(cfg), cfg.numResBlocks;
    EncLevelsPushOne(cfg, L);
    LedgerLevelsLength(cfg, L);
    DecSpanLength(cfg, 0);
    var pushes := |Ledger(cfg)|;
    assert pushes == 1 + |LedgerLevels(cfg, L)|;
    assert |InputBlocks(cfg)| == 1 + |EncLevels(cfg, L)|;
    Distribute(L, R);
  }

  lemma Distribute(l: nat, r: nat)
    ensures l * (r + 1) == l * r + l
  {
  }

  // ---------------------------------------------------------- attention mirror

  /** The widths of the AttentionBlocks of one block, in order. */
  function AttentionWidths(block: seq<Layer>): (r: seq<nat>)
    ensures |r| <= |block|
  {
    if block == [] then []
    else AttentionWidths(block[..|block| - 1])
         + (if block[|block| - 1].Attn? then [block[|block| - 1].attn.channels] else [])
  }

  lemma {:induction false} AttentionWidthsAppend(a: seq<Layer>, b: seq<Layer>)
    ensures AttentionWidths(a + b) == AttentionWidths(a) + AttentionWidths(b)
    decreases |b|
  {
    if b == [] {
      assert a + b == a;
    } else {
      var b' := b[..|b| - 1];
      AttentionWidthsAppend(a, b');
      assert (a + b)[..|a + b| - 1] == a + b';
    }
  }

  /** The AttentionBlocks a level carries: one of the level's width when the
      factor 2^k is an attention resolution, none otherwise. */
  function LevelAttention(cfg: Config, k: nat): seq<nat>
    requires k < Levels(cfg)
  {
    if Pow2(k) in cfg.attentionResolutions then [Width(cfg, k)] else []
  }

  lemma NoAttention(l: Layer)
    requires !l.Attn?
    ensures AttentionWidths([l]) == []
  {
    assert [l][..0] == [];
  }

  /** The optional AttentionBlock of level k, of the given head count. */
  lemma LevelAttentionLayer(cfg: Config, k: nat, heads: int)
    requires k < Levels(cfg)
    ensures AttentionWidths(if Pow2(k) in cfg.attentionResolutions then [AttnLayer(cfg, Width(cfg, k), heads)] else [])
         == LevelAttention(cfg, k)
  {
    if Pow2(k) in cfg.attentionResolutions {
      assert [AttnLayer(cfg, Width(cfg, k), heads)][..0] == [];
    }
  }

  lemma EncAttention(cfg: Config, k: nat, i: nat)
    requires k < Levels(cfg)
    ensures AttentionWidths(EncResBlock(cfg, k, i)) == LevelAttention(cfg, k)
  {
    var w := Width(cfg, k);
    var attn := if Pow2(k) in cfg.attentionResolutions then [AttnLayer(cfg, w, cfg.numHeads)] else [];
    var res := PlainRes(cfg, if i == 0 then ChIn(cfg, k) else w, w);
    AttentionWidthsAppend([res], attn);
    NoAttention(res);
    LevelAttentionLayer(cfg, k, cfg.numHeads);
  }

  lemma DecAttention(cfg: Config, k: nat, j: nat)
    requires k < Levels(cfg)
    ensures AttentionWidths(DecBlock(cfg, k, j)) == LevelAttention(cfg, k)
  {
    var w := Width(cfg, k);
    var attn := if Pow2(k) in cfg.attentionResolutions then [AttnLayer(cfg, w, HeadsUpsample(cfg))] else [];
    var up := if k > 0 && j == cfg.numResBlocks then [UpLayer(cfg, w)] else [];
    var res := PlainRes(cfg, DecChBefore(cfg, k, j) + DecSkip(cfg, k, j), w);
    assert DecBlock(cfg, k, j) == [res] + attn + up;
    AttentionWidthsAppend([res] + attn, up);
    AttentionWidthsAppend([res], attn);
    NoAttention(res);
    LevelAttentionLayer(cfg, k, HeadsUpsample(cfg));
    assert AttentionWidths(up) == [] by {
      if up != [] {
        NoAttention(UpLayer(cfg, w));
      }
    }
  }

  /** Attention sits at the same levels on the way down and on the way up:
      every residual block the encoder builds at level k (i < num_res_blocks)
      and every decoder block of level k (j <= num_res_blocks) carries the
      same AttentionBlocks, one of the level's width exactly when 2^k is an
      attention resolution. */
  lemma AttentionMirror(cfg: Config, k: nat, i: nat, j: nat)
    requires k < Levels(cfg) && i < cfg.numResBlocks && j <= cfg.numResBlocks
    ensures AttentionWidths(EncResBlock(cfg, k, i)) == AttentionWidths(DecBlock(cfg, k, j))
    ensures Pow2(k) in cfg.attentionResolutions <==> AttentionWidths(DecBlock(cfg, k, j)) == [Width(cfg, k)]
    ensures Pow2(k) !in cfg.attentionResolutions <==> AttentionWidths(EncResBlock(cfg, k, i)) == []
  {
    EncAttention(cfg, k, i);
    DecAttention(cfg, k, j);
  }

  /** With `num_res_blocks == 0` the mirror breaks: the encoder builds no
      AttentionBlock at all (a level holds at most its down-sampler), while
      the one decoder block of each level still carries the level's
      attention. */
  lemma DecoderOnlyAttention(cfg: Config, k: nat)
    requires k < Levels(cfg) && cfg.numResBlocks == 0
    ensures forall b | b in EncLevel(cfg, k) :: AttentionWidths(b) == []
    ensures AttentionWidths(DecBlock(cfg, k, 0)) == LevelAttention(cfg, k)
  {
    assert EncResBlocks(cfg, k, 0) == [];
    var down := EncDownBlock(cfg, k);
    assert |down| == 1 && !down[0].Attn?;
    assert down == [down[0]];
    NoAttention(down[0]);
    DecAttention(cfg, k, 0);
  }
}
