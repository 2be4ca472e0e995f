/** The skip stacks of `forward` (`hs` in each pathway): the decoder never
    pops an empty stack, whatever the configuration,
    and once the decoder is done the stack holds nothing but what the
    constructor's own ledger leaves. */
module SkipStacks {
  import opened Shapes
  import opened Layers
  import opened Ladder
  import opened UNetForward

  /** A layer can fail in many ways, but never by popping: only the
      decoder loop pops. */
  lemma LayerNeverPops(l: Layer, x: Shape, emb: Emb)
    ensures ApplyLayer(l, x, emb) != Err(PopFromEmpty)
  {
    match l
    case Conv(_, _, _) =>
    case Res(b) =>
    case Attn(a) =>
    case Down(d) =>
    case Up(u) =>
  }

  /** No block pops either. This is only bookkeeping for the lemmas below:
      the balance itself is `DecodeNeverPops` and `StacksBalance`. */
  lemma {:induction false} BlockNeverPops(layers: seq<Layer>, x: Shape, emb: Emb)
    ensures RunBlock(layers, x, emb) != Err(PopFromEmpty)
  {
    if layers != [] {
      BlockNeverPops(layers[..|layers| - 1], x, emb);
      var h := RunBlock(layers[..|layers| - 1], x, emb);
      if h.Ok? {
        LayerNeverPops(layers[|layers| - 1], h.value, emb);
      }
    }
  }

  /** The encoder only pushes. */
  lemma {:induction false} EncodeNeverPops(blocks: seq<seq<Layer>>, h0: Shape, emb: Emb, a0: Shape, a1: Shape, n: nat)
    requires n <= |blocks|
    ensures Encode(blocks, h0, emb, a0, a1, n) != Err(PopFromEmpty)
  {
    if n > 0 {
      EncodeNeverPops(blocks, h0, emb, a0, a1, n - 1);
      var hs := Encode(blocks, h0, emb, a0, a1, n - 1);
      if hs.Ok? {
        BlockNeverPops(blocks[n - 1], if n == 1 then h0 else hs.value[n - 2], emb);
      }
    }
  }

  /** A decoder with no more output blocks than there are entries on the
      stack never pops it empty. */
  lemma {:induction false} DecodeNeverPops(blocks: seq<seq<Layer>>, h: Shape, hs: seq<Shape>, emb: Emb, n: nat)
    requires n <= |blocks| && n <= |hs|
    ensures Decode(blocks, h, hs, emb, n) != Err(PopFromEmpty)
  {
    if n > 0 {
      DecodeNeverPops(blocks, h, hs, emb, n - 1);
      var d := Decode(blocks, h, hs, emb, n - 1);
      if d.Ok? {
        assert |d.value.hs| == |hs| - (n - 1) > 0;
        var top := d.value.hs[|d.value.hs| - 1];
        var cat := ConcatChannels(d.value.h, top);
        if cat.Ok? {
          BlockNeverPops(blocks[n - 1], cat.value, emb);
        }
      }
    }
  }

  /** One pathway of the network the constructor builds: the encoder pushes
      one entry per input block, exactly as many as the output blocks pop
      when there is at least one level, so the decoder never pops an empty
      stack and leaves it empty; with an empty `channel_mult` there are no
      output blocks and the stem's entry is left over, as it is on
      `input_block_chans`. */
  lemma StacksBalance(cfg: Config, h0: Shape, emb: Emb, a0: Shape, a1: Shape, h: Shape)
    ensures var enc := Encode(InputBlocks(cfg), h0, emb, a0, a1, |InputBlocks(cfg)|);
      && enc != Err(PopFromEmpty)
      && (enc.Ok? ==> |enc.value| == |OutputBlocks(cfg)| + (if Levels(cfg) == 0 then 1 else 0))
    ensures var enc := Encode(InputBlocks(cfg), h0, emb, a0, a1, |InputBlocks(cfg)|);
      enc.Ok? ==>
        var dec := Decode(OutputBlocks(cfg), h, enc.value, emb, |OutputBlocks(cfg)|);
        && dec != Err(PopFromEmpty)
        && (dec.Ok? ==> dec.value.hs == if Levels(cfg) == 0 then enc.value else [])
  {
    var ins, outs := InputBlocks(cfg), OutputBlocks(cfg);
    EncodeNeverPops(ins, h0, emb, a0, a1, |ins|);
    if Levels(cfg) == 0 {
      assert ins == [Stem(cfg)];
      assert outs == [];
    } else {
      LedgerDrained(cfg);
    }
    var enc := Encode(ins, h0, emb, a0, a1, |ins|);
    if enc.Ok? {
      DecodeNeverPops(outs, h, enc.value, emb, |outs|);
    }
  }

  /** `forward` on the network the constructor builds never fails by
      popping an empty skip stack, whatever the configuration and input. */
  lemma ForwardNeverPops(cfg: Config, x: Shape, steps: nat, hasY: bool, a0: Shape, a1: Shape, cal: Shape)
    ensures ForwardSpec(SpecNet(cfg), x, steps, hasY, a0, a1, cal) != Err(PopFromEmpty)
  {
    var net := SpecNet(cfg);
    var emb, h0 := Embedding(net, steps), PathwayInput(x);
    var ins, mid, outs := InputBlocks(cfg), MiddleBlock(cfg), OutputBlocks(cfg);
    StacksBalance(cfg, h0, emb, a0, a1, h0);
    var enc := Encode(ins, h0, emb, a0, a1, |ins|);
    if enc.Ok? {
      BlockNeverPops(mid, Top(h0, enc.value), emb);
      var m := RunBlock(mid, Top(h0, enc.value), emb);
      if m.Ok? {
        StacksBalance(cfg, h0, emb, a0, a1, m.value);
      }
    }
  }
}
