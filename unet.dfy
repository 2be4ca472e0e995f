/** `EchoDNDUNet.__init__`: the loops that build the ladders while keeping the
    running width `ch`, the downsample factor `ds`, `_feature_size` and the
    channel ledger `input_block_chans`. */
module EchoDNDUNet {
  import opened Shapes
  import opened Layers
  import opened Ladder

  /** The constructor's loop variables: the blocks built so far, the ledger,
      `ch`, `ds` and `_feature_size`. */
  datatype Progress = Progress(blocks: seq<seq<Layer>>, ledger: seq<nat>, ch: nat, ds: nat, featureSize: nat)

  /** The loop variables once encoder levels 0 .. n-1 are built. */
  function EncoderState(cfg: Config, n: nat): Progress
    requires n <= Levels(cfg)
  {
    var ledger := [cfg.modelChannels] + LedgerLevels(cfg, n);
    Progress([Stem(cfg)] + EncLevels(cfg, n), ledger, ChIn(cfg, n),
             if n < Levels(cfg) then Pow2(n) else if n == 0 then 1 else Pow2(n - 1),
             Sum(ledger))
  }

  /** The loop variables once decoder levels Levels-1 down to n are built. */
  function DecoderState(cfg: Config, n: nat): Progress
    requires n <= Levels(cfg)
  {
    Progress(DecSpan(cfg, n),
             if n > 0 then DecLedger(cfg, n - 1, 0) else if Levels(cfg) == 0 then [cfg.modelChannels] else [],
             if n == Levels(cfg) then MidCh(cfg) else Width(cfg, n),
             if n > 0 then Pow2(n - 1) else 1,
             Sum(Ledger(cfg)) + MidCh(cfg) + Sum(DecWidths(cfg, n)))
  }

  /** The body of the encoder's inner loop: a ResBlock from the running `ch`
      to `mult * model_channels` (whose `conv_nd` raises first for an
      unsupported `dims`), and attention when `ds` is an attention
      resolution. */
  method EncoderBlock(cfg: Config, level: nat, i: nat, ch: nat, ds: nat) returns (r: Result<seq<Layer>>)
    requires level < Levels(cfg) && ds == Pow2(level)
    requires ch == if i == 0 then ChIn(cfg, level) else Width(cfg, level)
    ensures r.Ok? <==>
      SupportedDims(cfg.dims) &&
      !(Pow2(level) in cfg.attentionResolutions && AttentionHeads(Width(cfg, level), cfg.numHeads, cfg.numHeadChannels).Err?)
    ensures !SupportedDims(cfg.dims) ==> r == Err(UnsupportedDims)
    ensures r.Ok? ==> r.value == EncResBlock(cfg, level, i)
  {
    if !SupportedDims(cfg.dims) {
      return Err(UnsupportedDims);
    }
    var width := cfg.channelMult[level] * cfg.modelChannels;
    var layers := [Res(NewResBlock(ch, 4 * cfg.modelChannels, width, false, cfg.useScaleShiftNorm, cfg.dims, false, false))];
    if ds in cfg.attentionResolutions {
      var heads := AttentionHeads(width, cfg.numHeads, cfg.numHeadChannels);
      if heads.Err? {
        return Err(heads.error);
      }
      layers := layers + [Attn(AttentionBlock(width, cfg.numHeads, cfg.numHeadChannels, cfg.useNewAttentionOrder))];
    }
    return Ok(layers);
  }

  /** The body of the decoder's inner loop after the pop: a ResBlock over
      `ch + ich` channels, attention when `ds` is an attention resolution, and
      the up-sampler closing every level but level 0. The ResBlock's
      `conv_nd` raises first for an unsupported `dims`. */
  method DecoderBlock(cfg: Config, level: nat, i: nat, ch: nat, ich: nat, ds: nat) returns (r: Result<seq<Layer>>)
    requires level < Levels(cfg) && i <= cfg.numResBlocks && ds == Pow2(level)
    requires ch == DecChBefore(cfg, level, i) && ich == DecSkip(cfg, level, i)
    ensures r.Ok? <==>
      SupportedDims(cfg.dims) &&
      !(Pow2(level) in cfg.attentionResolutions && AttentionHeads(Width(cfg, level), HeadsUpsample(cfg), cfg.numHeadChannels).Err?)
    ensures !SupportedDims(cfg.dims) ==> r == Err(UnsupportedDims)
    ensures r.Ok? ==> r.value == DecBlock(cfg, level, i)
  {
    if !SupportedDims(cfg.dims) {
      return Err(UnsupportedDims);
    }
    var width := cfg.modelChannels * cfg.channelMult[level];
    var headsUp := if cfg.numHeadsUpsample == -1 then cfg.numHeads else cfg.numHeadsUpsample;
    assert width == Width(cfg, level) && headsUp == HeadsUpsample(cfg);
    var layers := [Res(NewResBlock(ch + ich, 4 * cfg.modelChannels, width, false, cfg.useScaleShiftNorm, cfg.dims, false, false))];
    var attn: seq<Layer> := [];
    if ds in cfg.attentionResolutions {
      var heads := AttentionHeads(width, headsUp, cfg.numHeadChannels);
      if heads.Err? {
        return Err(heads.error);
      }
      attn := [Attn(AttentionBlock(width, headsUp, cfg.numHeadChannels, cfg.useNewAttentionOrder))];
      layers := layers + attn;
    }
    assert layers == [PlainRes(cfg, ch + ich, width)] + attn;
    var up: seq<Layer> := [];
    if level > 0 && i == cfg.numResBlocks {
      if cfg.resblockUpdown {
        up := [Res(NewResBlock(width, 4 * cfg.modelChannels, width, false, cfg.useScaleShiftNorm, cfg.dims, true, false))];
      } else {
        up := [Up(NewUpsample(width, cfg.convResample, cfg.dims, width))];
      }
      layers := layers + up;
    }
    assert layers == [PlainRes(cfg, ch + ich, width)] + attn + up;
    return Ok(layers);
  }

  /** The loop variables after i residual blocks of encoder level k. */
  function EncInner(cfg: Config, k: nat, i: nat): Progress
    requires k < Levels(cfg)
  {
    var ledger := [cfg.modelChannels] + LedgerLevels(cfg, k) + Repeat(Width(cfg, k), i);
    Progress([Stem(cfg)] + EncLevels(cfg, k) + EncResBlocks(cfg, k, i), ledger,
             if i == 0 then ChIn(cfg, k) else Width(cfg, k), Pow2(k), Sum(ledger))
  }

  /** One residual block further into encoder level k: its block and its
      width are appended, and `ch` becomes the level's width. */
  lemma EncInnerNext(cfg: Config, k: nat, i: nat)
    requires k < Levels(cfg)
    ensures var st, next := EncInner(cfg, k, i), EncInner(cfg, k, i + 1);
      && next.blocks == st.blocks + [EncResBlock(cfg, k, i)]
      && next.ledger == st.ledger + [Width(cfg, k)]
      && next.ch == Width(cfg, k) && next.ds == st.ds
      && next.featureSize == st.featureSize + Width(cfg, k)
  {
    var w := Width(cfg, k);
    var st := EncInner(cfg, k, i);
    assert EncResBlocks(cfg, k, i + 1) == EncResBlocks(cfg, k, i) + [EncResBlock(cfg, k, i)];
    assert Repeat(w, i + 1) == Repeat(w, i) + [w];
    SumAppend(st.ledger, w);
  }

  /** One iteration of the encoder's inner loop: the block goes on the list,
      `ch` becomes `mult * model_channels` and is appended to the ledger. */
  method EncoderStep(cfg: Config, k: nat, i: nat, st: Progress) returns (r: Result<Progress>)
    requires k < Levels(cfg) && st == EncInner(cfg, k, i)
    ensures r.Ok? <==>
      SupportedDims(cfg.dims) &&
      !(Pow2(k) in cfg.attentionResolutions && AttentionHeads(Width(cfg, k), cfg.numHeads, cfg.numHeadChannels).Err?)
    ensures !SupportedDims(cfg.dims) ==> r == Err(UnsupportedDims)
    ensures r.Ok? ==> r.value == EncInner(cfg, k, i + 1)
  {
    var block := EncoderBlock(cfg, k, i, st.ch, st.ds);
    if block.Err? {
      return Err(block.error);
    }
    var ch := cfg.channelMult[k] * cfg.modelChannels;
    assert ch == Width(cfg, k);
    EncInnerNext(cfg, k, i);
    return Ok(Progress(st.blocks + [block.value], st.ledger + [ch], ch, st.ds, st.featureSize + ch));
  }

  /** Encoder level k opens with the loop variables the previous levels left. */
  lemma EncoderLevelOpens(cfg: Config, k: nat)
    requires k < Levels(cfg)
    ensures EncInner(cfg, k, 0) == EncoderState(cfg, k)
  {
    var first, st := EncInner(cfg, k, 0), EncoderState(cfg, k);
    assert EncResBlocks(cfg, k, 0) == [] && Repeat(Width(cfg, k), 0) == [];
    assert first.blocks == st.blocks && first.ledger == st.ledger;
    assert first.ch == st.ch && first.ds == st.ds && first.featureSize == st.featureSize;
  }

  /** Closing encoder level k appends the down-sampler (except at the last
      level) to what its residual blocks left. */
  lemma EncoderLevelClosed(cfg: Config, k: nat)
    requires k < Levels(cfg)
    ensures var st, next := EncInner(cfg, k, cfg.numResBlocks), EncoderState(cfg, k + 1);
      && next.ledger == st.ledger + (if k != Levels(cfg) - 1 then [EncCh(cfg, k)] else [])
      && next.blocks == st.blocks + (if k != Levels(cfg) - 1 then [EncDownBlock(cfg, k)] else [])
  {
    var R, mc := cfg.numResBlocks, cfg.modelChannels;
    var tail := if k != Levels(cfg) - 1 then [EncCh(cfg, k)] else [];
    assert LedgerLevel(cfg, k) == Repeat(Width(cfg, k), R) + tail;
    assert LedgerLevels(cfg, k + 1) == LedgerLevels(cfg, k) + LedgerLevel(cfg, k);
    assert [mc] + LedgerLevels(cfg, k) + Repeat(Width(cfg, k), R) + tail
        == [mc] + (LedgerLevels(cfg, k) + (Repeat(Width(cfg, k), R) + tail));
    var blockTail := if k != Levels(cfg) - 1 then [EncDownBlock(cfg, k)] else [];
    assert EncLevel(cfg, k) == EncResBlocks(cfg, k, R) + blockTail;
    assert EncLevels(cfg, k + 1) == EncLevels(cfg, k) + EncLevel(cfg, k);
    assert [Stem(cfg)] + EncLevels(cfg, k) + EncResBlocks(cfg, k, R) + blockTail
        == [Stem(cfg)] + (EncLevels(cfg, k) + (EncResBlocks(cfg, k, R) + blockTail));
  }

  /** The end of one iteration of the encoder's outer loop: except at the
      last level, a down-sampler that keeps `ch`, whose width goes on the
      ledger, and `ds` doubles. The down-sampler's `conv_nd` or
      `avg_pool_nd` raises for an unsupported `dims`. */
  method EncoderDown(cfg: Config, k: nat, st: Progress) returns (r: Result<Progress>)
    requires k < Levels(cfg) && st == EncInner(cfg, k, cfg.numResBlocks)
    ensures r.Ok? <==> SupportedDims(cfg.dims) || k == Levels(cfg) - 1
    ensures r.Err? ==> r.error == UnsupportedDims
    ensures r.Ok? ==> r.value == EncoderState(cfg, k + 1)
  {
    var L, R, mc := |cfg.channelMult|, cfg.numResBlocks, cfg.modelChannels;
    var inputs, ledger, ch, ds, featureSize := st.blocks, st.ledger, st.ch, st.ds, st.featureSize;
    assert ch == EncCh(cfg, k);
    if k != L - 1 {
      var outCh := ch;
      var block: seq<Layer>;
      if cfg.resblockUpdown {
        if !SupportedDims(cfg.dims) {
          return Err(UnsupportedDims);
        }
        block := [Res(NewResBlock(ch, 4 * mc, outCh, false, cfg.useScaleShiftNorm, cfg.dims, false, true))];
      } else {
        var down := NewDownsample(ch, cfg.convResample, cfg.dims, outCh);
        if down.Err? {
          return Err(down.error);
        }
        block := [Down(down.value)];
      }
      assert block == EncDownBlock(cfg, k);
      inputs := inputs + [block];
      ch := outCh;
      SumAppend(ledger, ch);
      ledger := ledger + [ch];
      ds := ds * 2;
      featureSize := featureSize + ch;
    }
    EncoderLevelClosed(cfg, k);
    ghost var next := EncoderState(cfg, k + 1);
    assert inputs == next.blocks && ledger == next.ledger;
    assert ch == next.ch;
    assert ds == next.ds by {
      if k != L - 1 {
        assert Pow2(k + 1) == 2 * Pow2(k);
      }
    }
    assert featureSize == next.featureSize;
    return Ok(Progress(inputs, ledger, ch, ds, featureSize));
  }

  /** One iteration of the encoder's outer loop: `num_res_blocks` ResBlocks
      (each followed by attention when `ds` is an attention resolution), then,
      except at the last level, a down-sampler; every block's width goes on
      the ledger. A level builds a layer for its `dims` unless it has neither
      residual blocks nor a down-sampler. */
  method EncoderLevel(cfg: Config, k: nat, st: Progress) returns (r: Result<Progress>)
    requires k < Levels(cfg) && st == EncoderState(cfg, k)
    ensures r.Ok? <==>
      (SupportedDims(cfg.dims) || (cfg.numResBlocks == 0 && k == Levels(cfg) - 1)) &&
      !(cfg.numResBlocks > 0 && Pow2(k) in cfg.attentionResolutions &&
        AttentionHeads(Width(cfg, k), cfg.numHeads, cfg.numHeadChannels).Err?)
    ensures !SupportedDims(cfg.dims) && r.Err? ==> r.error == UnsupportedDims
    ensures r.Ok? ==> r.value == EncoderState(cfg, k + 1)
  {
    var cur := st;
    EncoderLevelOpens(cfg, k);
    for i := 0 to cfg.numResBlocks
      invariant cur == EncInner(cfg, k, i)
      invariant i > 0 ==> SupportedDims(cfg.dims)
      invariant i > 0 && Pow2(k) in cfg.attentionResolutions ==>
        AttentionHeads(Width(cfg, k), cfg.numHeads, cfg.numHeadChannels).Ok?
    {
      var next := EncoderStep(cfg, k, i, cur);
      if next.Err? {
        return next;
      }
      cur := next.value;
    }
    var done := EncoderDown(cfg, k, cur);
    return done;
  }

  /** The loop variables before decoder block i of level k. */
  function DecInner(cfg: Config, k: nat, i: nat): Progress
    requires k < Levels(cfg)
  {
    Progress(DecSpan(cfg, k + 1) + DecBlocks(cfg, k, i),
             DecLedger(cfg, k, i),
             DecChBefore(cfg, k, i),
             if i == cfg.numResBlocks + 1 && k > 0 then Pow2(k - 1) else Pow2(k),
             Sum(Ledger(cfg)) + MidCh(cfg) + Sum(DecWidths(cfg, k + 1) + Repeat(Width(cfg, k), i)))
  }

  /** One block further into decoder level k: its block is appended, its
      skip width is popped, `ch` becomes the level's width and `ds` halves
      after the level's up-sampler. */
  lemma DecInnerNext(cfg: Config, k: nat, i: nat)
    requires k < Levels(cfg) && i <= cfg.numResBlocks
    ensures var st, next := DecInner(cfg, k, i), DecInner(cfg, k, i + 1);
      && next.blocks == st.blocks + [DecBlock(cfg, k, i)]
      && next.ch == Width(cfg, k)
      && next.ds == (if k > 0 && i == cfg.numResBlocks then st.ds / 2 else st.ds)
      && next.featureSize == st.featureSize + Width(cfg, k)
  {
    var span, done := DecSpan(cfg, k + 1), DecBlocks(cfg, k, i);
    assert DecBlocks(cfg, k, i + 1) == done + [DecBlock(cfg, k, i)];
    assert span + (done + [DecBlock(cfg, k, i)]) == (span + done) + [DecBlock(cfg, k, i)];
    if k > 0 && i == cfg.numResBlocks {
      assert Pow2(k) == 2 * Pow2(k - 1);
    }
    DecWidthsNext(cfg, k, i);
  }

  lemma DecWidthsNext(cfg: Config, k: nat, i: nat)
    requires k < Levels(cfg)
    ensures Sum(DecWidths(cfg, k + 1) + Repeat(Width(cfg, k), i + 1))
         == Sum(DecWidths(cfg, k + 1) + Repeat(Width(cfg, k), i)) + Width(cfg, k)
  {
    var w := Width(cfg, k);
    var done := DecWidths(cfg, k + 1) + Repeat(w, i);
    assert Repeat(w, i + 1) == Repeat(w, i) + [w];
    assert DecWidths(cfg, k + 1) + Repeat(w, i + 1) == done + [w];
    SumAppend(done, w);
  }

  /** One iteration of the decoder's inner loop: pop `ich` from the ledger,
      build the block over `ch + ich` channels, set `ch`, and halve `ds` after
      an up-sampler. */
  method DecoderStep(cfg: Config, k: nat, i: nat, st: Progress) returns (r: Result<Progress>)
    requires k < Levels(cfg) && i <= cfg.numResBlocks && st == DecInner(cfg, k, i)
    ensures r.Ok? <==>
      SupportedDims(cfg.dims) &&
      !(Pow2(k) in cfg.attentionResolutions && AttentionHeads(Width(cfg, k), HeadsUpsample(cfg), cfg.numHeadChannels).Err?)
    ensures !SupportedDims(cfg.dims) ==> r == Err(UnsupportedDims)
    ensures r.Ok? ==> r.value == DecInner(cfg, k, i + 1)
  {
    var ledger, ds := st.ledger, st.ds;
    LedgerPop(cfg, k, i);
    var ich := ledger[|ledger| - 1];
    ledger := ledger[..|ledger| - 1];
    var block := DecoderBlock(cfg, k, i, st.ch, ich, ds);
    if block.Err? {
      return Err(block.error);
    }
    var ch := cfg.modelChannels * cfg.channelMult[k];
    if k > 0 && i == cfg.numResBlocks {
      ds := ds / 2;
    }
    DecInnerNext(cfg, k, i);
    return Ok(Progress(st.blocks + [block.value], ledger, ch, ds, st.featureSize + ch));
  }

  /** The inner loop of decoder level k starts where level k+1 ended and
      ends where level k is done. */
  lemma DecoderLevelBounds(cfg: Config, k: nat)
    requires k < Levels(cfg)
    ensures DecInner(cfg, k, 0) == DecoderState(cfg, k + 1)
    ensures DecInner(cfg, k, cfg.numResBlocks + 1) == DecoderState(cfg, k)
  {
    var R := cfg.numResBlocks;
    var first, before := DecInner(cfg, k, 0), DecoderState(cfg, k + 1);
    assert DecSpan(cfg, k + 1) + DecBlocks(cfg, k, 0) == DecSpan(cfg, k + 1);
    assert DecWidths(cfg, k + 1) + Repeat(Width(cfg, k), 0) == DecWidths(cfg, k + 1);
    assert first.blocks == before.blocks && first.ledger == before.ledger && first.ch == before.ch;
    assert first.ds == before.ds && first.featureSize == before.featureSize;
    var last, after := DecInner(cfg, k, R + 1), DecoderState(cfg, k);
    assert DecSpan(cfg, k) == DecSpan(cfg, k + 1) + DecBlocks(cfg, k, R + 1);
    assert DecWidths(cfg, k) == DecWidths(cfg, k + 1) + Repeat(Width(cfg, k), R + 1);
    assert last.blocks == after.blocks && last.ledger == after.ledger && last.ch == after.ch;
    assert last.ds == after.ds && last.featureSize == after.featureSize;
  }

  /** One iteration of the decoder's outer loop: `num_res_blocks + 1`
      blocks, each a ResBlock over `ch + ich` channels where `ich` is popped
      from the ledger, then attention when `ds` is an attention resolution,
      and, closing every level but level 0, an up-sampler that halves `ds`. */
  method DecoderLevel(cfg: Config, k: nat, st: Progress) returns (r: Result<Progress>)
    requires k < Levels(cfg) && st == DecoderState(cfg, k + 1)
    ensures r.Ok? <==>
      SupportedDims(cfg.dims) &&
      !(Pow2(k) in cfg.attentionResolutions &&
        AttentionHeads(Width(cfg, k), HeadsUpsample(cfg), cfg.numHeadChannels).Err?)
    ensures !SupportedDims(cfg.dims) ==> r == Err(UnsupportedDims)
    ensures r.Ok? ==> r.value == DecoderState(cfg, k)
  {
    var cur := st;
    DecoderLevelBounds(cfg, k);
    for i := 0 to cfg.numResBlocks + 1
      invariant cur == DecInner(cfg, k, i)
      invariant i > 0 ==> SupportedDims(cfg.dims)
      invariant i > 0 && Pow2(k) in cfg.attentionResolutions ==>
        AttentionHeads(Width(cfg, k), HeadsUpsample(cfg), cfg.numHeadChannels).Ok?
    {
      var next := DecoderStep(cfg, k, i, cur);
      if next.Err? {
        return next;
      }
      cur := next.value;
    }
    return Ok(cur);
  }

  /** Whether the AttentionBlock at width c passes its divisibility check
      does not depend on the head count it is given. */
  lemma HeadCountIrrelevant(c: nat, h1: int, h2: int, nhc: int)
    ensures AttentionHeads(c, h1, nhc).Ok? == AttentionHeads(c, h2, nhc).Ok?
  {
  }

  /** Every encoder level whose factor is an attention resolution builds its
      attention (vacuous with no residual blocks). */
  predicate EncoderAttentionOk(cfg: Config, n: nat)
    requires n <= Levels(cfg)
  {
    cfg.numResBlocks > 0 ==>
      forall k :: 0 <= k < n && Pow2(k) in cfg.attentionResolutions ==>
        AttentionHeads(Width(cfg, k), cfg.numHeads, cfg.numHeadChannels).Ok?
  }

  lemma EncoderAttentionNext(cfg: Config, n: nat)
    requires n < Levels(cfg)
    ensures EncoderAttentionOk(cfg, n + 1) <==>
      EncoderAttentionOk(cfg, n) &&
      !(cfg.numResBlocks > 0 && Pow2(n) in cfg.attentionResolutions &&
        AttentionHeads(Width(cfg, n), cfg.numHeads, cfg.numHeadChannels).Err?)
  {
  }

  lemma EncoderAttentionLater(cfg: Config, n: nat)
    requires n <= Levels(cfg) && !EncoderAttentionOk(cfg, n)
    ensures !EncoderAttentionOk(cfg, Levels(cfg))
  {
  }

  /** Before the first level: the stem alone, `input_block_chans == [model_channels]`,
      `ch == _feature_size == model_channels` and `ds == 1`. */
  lemma EncoderStart(cfg: Config)
    ensures var mc := cfg.modelChannels;
      EncoderState(cfg, 0) == Progress([[Conv(cfg.inChannels, mc, cfg.dims)]], [mc], mc, 1, mc)
  {
    var mc := cfg.modelChannels;
    assert Sum([mc]) == mc by { assert [mc][..0] == []; }
    assert [Stem(cfg)] + EncLevels(cfg, 0) == [Stem(cfg)];
  }

  /** The encoder: the stem, whose `conv_nd` raises for an unsupported
      `dims` before any level is built, then every level in turn. */
  method Encoder(cfg: Config) returns (r: Result<Progress>)
    ensures r.Ok? <==> SupportedDims(cfg.dims) && EncoderAttentionOk(cfg, Levels(cfg))
    ensures !SupportedDims(cfg.dims) ==> r == Err(UnsupportedDims)
    ensures r.Ok? ==> r.value == EncoderState(cfg, Levels(cfg))
  {
    if !SupportedDims(cfg.dims) {
      return Err(UnsupportedDims);
    }
    var mc := cfg.modelChannels;
    var enc := Progress([[Conv(cfg.inChannels, mc, cfg.dims)]], [mc], mc, 1, mc);
    EncoderStart(cfg);
    for level := 0 to |cfg.channelMult|
      invariant enc == EncoderState(cfg, level)
      invariant EncoderAttentionOk(cfg, level)
    {
      var next := EncoderLevel(cfg, level, enc);
      EncoderAttentionNext(cfg, level);
      if next.Err? {
        EncoderAttentionLater(cfg, level + 1);
        return next;
      }
      enc := next.value;
    }
    return Ok(enc);
  }

  /** Every decoder level from Levels-1 down to n whose factor is an attention
      resolution builds its attention. */
  predicate DecoderAttentionOk(cfg: Config, n: nat)
    requires n <= Levels(cfg)
  {
    forall k :: n <= k < Levels(cfg) && Pow2(k) in cfg.attentionResolutions ==>
      AttentionHeads(Width(cfg, k), HeadsUpsample(cfg), cfg.numHeadChannels).Ok?
  }

  lemma DecoderAttentionNext(cfg: Config, n: nat)
    requires n < Levels(cfg)
    ensures DecoderAttentionOk(cfg, n) <==>
      DecoderAttentionOk(cfg, n + 1) &&
      !(Pow2(n) in cfg.attentionResolutions &&
        AttentionHeads(Width(cfg, n), HeadsUpsample(cfg), cfg.numHeadChannels).Err?)
  {
  }

  lemma DecoderAttentionLater(cfg: Config, n: nat)
    requires n <= Levels(cfg) && !DecoderAttentionOk(cfg, n)
    ensures !DecoderAttentionOk(cfg, 0)
  {
  }

  /** What one decoder level's attention check tells about the whole decoder. */
  lemma DecoderLevelChecked(cfg: Config, n: nat)
    requires n < Levels(cfg)
    ensures DecoderAttentionOk(cfg, n + 1) &&
            !(Pow2(n) in cfg.attentionResolutions && AttentionHeads(Width(cfg, n), HeadsUpsample(cfg), cfg.numHeadChannels).Err?)
            ==> DecoderAttentionOk(cfg, n)
    ensures Pow2(n) in cfg.attentionResolutions && AttentionHeads(Width(cfg, n), HeadsUpsample(cfg), cfg.numHeadChannels).Err?
            ==> !DecoderAttentionOk(cfg, 0)
  {
    DecoderAttentionNext(cfg, n);
    if !DecoderAttentionOk(cfg, n) {
      DecoderAttentionLater(cfg, n);
    }
  }

  /** The decoder: every level from the deepest up, popping the ledger.
      Every level builds ResBlocks, so an unsupported `dims` raises unless
      there are no levels. */
  method Decoder(cfg: Config, st: Progress) returns (r: Result<Progress>)
    requires st == DecoderState(cfg, Levels(cfg))
    ensures r.Ok? <==> (SupportedDims(cfg.dims) || Levels(cfg) == 0) && DecoderAttentionOk(cfg, 0)
    ensures !SupportedDims(cfg.dims) && Levels(cfg) > 0 ==> r == Err(UnsupportedDims)
    ensures r.Ok? ==> r.value == DecoderState(cfg, 0)
  {
    var dec := st;
    var level: nat := |cfg.channelMult|;
    while level > 0
      invariant level <= Levels(cfg)
      invariant dec == DecoderState(cfg, level)
      invariant level < Levels(cfg) ==> SupportedDims(cfg.dims)
      invariant DecoderAttentionOk(cfg, level)
    {
      level := level - 1;
      var next := DecoderLevel(cfg, level, dec);
      DecoderLevelChecked(cfg, level);
      if next.Err? {
        assert !((SupportedDims(cfg.dims) || Levels(cfg) == 0) && DecoderAttentionOk(cfg, 0));
        return next;
      }
      dec := next.value;
    }
    return Ok(dec);
  }

  /** The decoder's loops fail exactly where the encoder's do, plus the levels
      the encoder checks only when it has residual blocks. */
  lemma AttentionChecks(cfg: Config)
    ensures DecoderAttentionOk(cfg, 0) ==> EncoderAttentionOk(cfg, Levels(cfg))
  {
    forall k | 0 <= k < Levels(cfg) && Pow2(k) in cfg.attentionResolutions
      ensures AttentionHeads(Width(cfg, k), HeadsUpsample(cfg), cfg.numHeadChannels).Ok? ==
              AttentionHeads(Width(cfg, k), cfg.numHeads, cfg.numHeadChannels).Ok?
    {
      HeadCountIrrelevant(Width(cfg, k), HeadsUpsample(cfg), cfg.numHeads, cfg.numHeadChannels);
    }
  }

  /** The decoder's loop variables start from the encoder's: no blocks yet,
      the ledger as the encoder left it, and the middle block's width added
      to `_feature_size`. */
  lemma DecoderStartsWhereEncoderEnds(cfg: Config)
    ensures var e := EncoderState(cfg, Levels(cfg));
      && e.ch == MidCh(cfg)
      && Progress([], e.ledger, e.ch, e.ds, e.featureSize + e.ch) == DecoderState(cfg, Levels(cfg))
  {
    var L := Levels(cfg);
    var e, d := EncoderState(cfg, L), DecoderState(cfg, L);
    if L > 0 {
      LedgerAtDecoderStart(cfg);
    }
    assert e.ledger == d.ledger && e.ch == d.ch && e.ds == d.ds;
    assert e.featureSize + e.ch == d.featureSize;
  }

  /** What the loops leave assembles into the network of `SpecNet`; the
      ledger is drained (or holds the stem's width alone when there are no
      levels) and `ds` is back at 1. */
  lemma BuiltIsSpec(cfg: Config)
    ensures var e, d, mc := EncoderState(cfg, Levels(cfg)), DecoderState(cfg, 0), cfg.modelChannels;
      && Net(cfg, e.blocks, MiddleBlock(cfg), d.blocks, OutProj(d.ch, mc, cfg.outChannelsGaussian, cfg.dims),
             e.blocks, MiddleBlock(cfg), d.blocks, OutProj(d.ch, mc, cfg.outChannelsBernoulli, cfg.dims),
             cfg.highWay, d.featureSize) == SpecNet(cfg)
      && d.ds == 1
      && d.ledger == if Levels(cfg) == 0 then [mc] else []
  {
    var L := Levels(cfg);
    var e, d := EncoderState(cfg, L), DecoderState(cfg, 0);
    assert e.blocks == InputBlocks(cfg);
    assert d.blocks == OutputBlocks(cfg);
    assert d.ch == FinalCh(cfg);
    assert d.featureSize == FeatureSize(cfg);
  }

  /** Builds the network, or fails at the stem when `dims` is not 1, 2 or 3,
      or on the first AttentionBlock whose divisibility assertion fails. The
      ghost results are the ledger and the downsample factor as the
      constructor leaves them. */
  method Build(cfg: Config) returns (r: Result<Net>, ghost ledgerLeft: seq<nat>, ghost dsLeft: nat)
    ensures r.Ok? <==> SupportedDims(cfg.dims) && AttentionBuildable(cfg)
    ensures !SupportedDims(cfg.dims) ==> r == Err(UnsupportedDims)
    ensures r.Ok? ==> r.value == SpecNet(cfg)
    ensures r.Ok? ==> dsLeft == 1
    ensures r.Ok? ==> ledgerLeft == if Levels(cfg) == 0 then [cfg.modelChannels] else []
  {
    var L, mc := |cfg.channelMult|, cfg.modelChannels;
    var temb := 4 * mc;
    ledgerLeft, dsLeft := [], 0;
    AttentionChecks(cfg);

    var enc := Encoder(cfg);
    if enc.Err? {
      return Err(enc.error), ledgerLeft, dsLeft;
    }

    // the middle block
    var ch := enc.value.ch;
    var midHeads := AttentionHeads(ch, cfg.numHeads, cfg.numHeadChannels);
    if midHeads.Err? {
      return Err(midHeads.error), ledgerLeft, dsLeft;
    }
    var middle := [
      Res(NewResBlock(ch, temb, 0, false, cfg.useScaleShiftNorm, cfg.dims, false, false)),
      Attn(AttentionBlock(ch, cfg.numHeads, cfg.numHeadChannels, cfg.useNewAttentionOrder)),
      Res(NewResBlock(ch, temb, 0, false, cfg.useScaleShiftNorm, cfg.dims, false, false))];
    assert ch == MidCh(cfg);
    assert middle == MiddleBlock(cfg);

    // the decoder, from the deepest level up
    DecoderStartsWhereEncoderEnds(cfg);
    var start := Progress([], enc.value.ledger, ch, enc.value.ds, enc.value.featureSize + ch);
    var dec := Decoder(cfg, start);
    if dec.Err? {
      return Err(dec.error), ledgerLeft, dsLeft;
    }

    // the output projections; the Bernoulli ladders are deep copies
    var outG := OutProj(dec.value.ch, mc, cfg.outChannelsGaussian, cfg.dims);
    var outB := OutProj(dec.value.ch, mc, cfg.outChannelsBernoulli, cfg.dims);
    r := Ok(Net(cfg, enc.value.blocks, middle, dec.value.blocks, outG, enc.value.blocks, middle, dec.value.blocks, outB,
                cfg.highWay, dec.value.featureSize));
    BuiltIsSpec(cfg);
    ledgerLeft, dsLeft := dec.value.ledger, dec.value.ds;
  }
}
