/** `EchoDNDUNet.forward`: two pathways (Gaussian and Bernoulli) run in
    lockstep over their ladders, each pushing every input block's output on
    its own skip stack and popping it again in the decoder. */
module UNetForward {
  import opened Shapes
  import opened Layers
  import opened Ladder

  /** `th.cat((anch[0], anch[0], anch[1]), 1)`: the anchor added after the stem. */
  function AnchorCat(a0: Shape, a1: Shape): (r: Result<Shape>)
    ensures r.Ok? <==> a0.batch == a1.batch && a0.spatial == a1.spatial
    ensures r.Ok? ==> r.value == Shape(a0.batch, 2 * a0.channels + a1.channels, a0.spatial)
  {
    var pair := ConcatChannels(a0, a0).value;
    ConcatChannels(pair, a1)
  }

  /** `h + th.cat(...)`: the anchor broadcast onto the stem's output. */
  function AnchorAdd(h: Shape, a0: Shape, a1: Shape): Result<Shape>
  {
    var anchor :- AnchorCat(a0, a1);
    Broadcast(h, anchor)
  }

  /** The skip stack of one pathway after its first n input blocks. */
  function Encode(blocks: seq<seq<Layer>>, h0: Shape, emb: Emb, a0: Shape, a1: Shape, n: nat): (r: Result<seq<Shape>>)
    requires n <= |blocks|
    ensures r.Ok? ==> |r.value| == n
  {
    if n == 0 then Ok([])
    else
      var hs :- Encode(blocks, h0, emb, a0, a1, n - 1);
      var h :- RunBlock(blocks[n - 1], if n == 1 then h0 else hs[n - 2], emb);
      var added :- if n == 1 then AnchorAdd(h, a0, a1) else Ok(h);
      Ok(hs + [added])
  }

  /** The running activation and what is left of the skip stack. */
  datatype Descent = Descent(h: Shape, hs: seq<Shape>)

  /** One output block: pop the top of the skip stack, concatenate it onto
      the activation along the channels, run the block. */
  function DecodeStep(block: seq<Layer>, d: Descent, emb: Emb): (r: Result<Descent>)
    ensures r.Ok? ==> |d.hs| > 0 && r.value.hs == d.hs[..|d.hs| - 1]
  {
    if d.hs == [] then Err(PopFromEmpty)
    else
      var cat :- ConcatChannels(d.h, d.hs[|d.hs| - 1]);
      var next :- RunBlock(block, cat, emb);
      Ok(Descent(next, d.hs[..|d.hs| - 1]))
  }

  /** One pathway's state after its first n output blocks. */
  function Decode(blocks: seq<seq<Layer>>, h: Shape, hs: seq<Shape>, emb: Emb, n: nat): (r: Result<Descent>)
    requires n <= |blocks|
    ensures r.Ok? ==> n <= |hs| && r.value.hs == hs[..|hs| - n]
  {
    if n == 0 then Ok(Descent(h, hs))
    else
      var d :- Decode(blocks, h, hs, emb, n - 1);
      var next :- DecodeStep(blocks[n - 1], d, emb);
      assert next.hs == hs[..|hs| - n];
      Ok(next)
  }

  /** `out_gaussian` / `out_bernoulli`: GroupNorm over `normChannels`, SiLU,
      and a 3x3 convolution (padding 1) from `convIn` channels, which raises
      on an empty spatial axis. */
  function OutForward(o: OutProj, h: Shape): (r: Result<Shape>)
    ensures r.Ok? <==>
      h.channels == o.normChannels && h.channels == o.convIn && |h.spatial| == o.dims && NonEmptyAxes(h.spatial)
    ensures r.Ok? ==> r.value == Shape(h.batch, o.outChannels, h.spatial)
  {
    if h.channels != o.normChannels || h.channels != o.convIn then Err(ChannelMismatch)
    else if |h.spatial| != o.dims then Err(RankMismatch)
    else if !NonEmptyAxes(h.spatial) then Err(EmptyAxis)
    else Ok(Shape(h.batch, o.outChannels, h.spatial))
  }

  /** The top of the skip stack once the encoder is done: the activation the
      middle block receives. */
  function Top(h0: Shape, hs: seq<Shape>): Shape
  {
    if hs == [] then h0 else hs[|hs| - 1]
  }

  /** One pathway end to end: input blocks, middle block, output blocks, output projection. */
  function Pathway(ins: seq<seq<Layer>>, mid: seq<Layer>, outs: seq<seq<Layer>>, proj: OutProj,
                   h0: Shape, emb: Emb, a0: Shape, a1: Shape): Result<Shape>
  {
    var hs :- Encode(ins, h0, emb, a0, a1, |ins|);
    var h :- RunBlock(mid, Top(h0, hs), emb);
    var d :- Decode(outs, h, hs, emb, |outs|);
    OutForward(proj, d.h)
  }

  /** The Bernoulli ladders are deep copies of the Gaussian ones, and the two
      output projections differ only in their output width. */
  predicate Twinned(net: Net)
  {
    && net.inputBernoulli == net.inputGaussian
    && net.middleBernoulli == net.middleGaussian
    && net.outputBernoulli == net.outputGaussian
    && net.outBernoulli.normChannels == net.outGaussian.normChannels
    && net.outBernoulli.convIn == net.outGaussian.convIn
    && net.outBernoulli.dims == net.outGaussian.dims
  }

  /** The input of both pathways: the image channel concatenated with its
      own noise channel. */
  function PathwayInput(x: Shape): Shape
  {
    Shape(x.batch, 2, x.spatial)
  }

  /** `time_embed(timestep_embedding(timesteps, model_channels))`: one row
      per timestep, `4 * model_channels` wide. */
  function Embedding(net: Net, steps: nat): Emb
  {
    Emb(steps, TimeEmbedDim(net.cfg))
  }

  /** What `forward(x, timesteps, y)` returns, `x` having `steps` timesteps
      and the conditioning module having produced `anch = (a0, a1)` and `cal`. */
  function ForwardSpec(net: Net, x: Shape, steps: nat, hasY: bool, a0: Shape, a1: Shape, cal: Shape)
    : Result<(Shape, Shape, Shape)>
  {
    if x.channels != 3 then Err(InputChannels)
    else if hasY != net.cfg.classConditional then Err(LabelMismatch)
    else if net.cfg.classConditional then Err(NotImplemented)
    else if !net.hasMfcm then Err(NoConditioningModule)
    else
      var emb := Embedding(net, steps);
      var h0 := PathwayInput(x);
      var g :- Pathway(net.inputGaussian, net.middleGaussian, net.outputGaussian, net.outGaussian, h0, emb, a0, a1);
      var b :- Pathway(net.inputBernoulli, net.middleBernoulli, net.outputBernoulli, net.outBernoulli, h0, emb, a0, a1);
      Ok((g, b, cal))
  }

  /** Once an input block raises, the encoder stops with that error. */
  lemma {:induction false} EncodeStops(blocks: seq<seq<Layer>>, h0: Shape, emb: Emb, a0: Shape, a1: Shape, n: nat, m: nat)
    requires n <= m <= |blocks| && Encode(blocks, h0, emb, a0, a1, n).Err?
    ensures Encode(blocks, h0, emb, a0, a1, m) == Encode(blocks, h0, emb, a0, a1, n)
    decreases m
  {
    if m > n {
      EncodeStops(blocks, h0, emb, a0, a1, n, m - 1);
    }
  }

  /** Once an output block raises, the decoder stops with that error. */
  lemma {:induction false} DecodeStops(blocks: seq<seq<Layer>>, h: Shape, hs: seq<Shape>, emb: Emb, n: nat, m: nat)
    requires n <= m <= |blocks| && Decode(blocks, h, hs, emb, n).Err?
    ensures Decode(blocks, h, hs, emb, m) == Decode(blocks, h, hs, emb, n)
    decreases m
  {
    if m > n {
      DecodeStops(blocks, h, hs, emb, n, m - 1);
    }
  }

  /** One more output block: the step from the state after the first n. */
  lemma DecodeStepOn(blocks: seq<seq<Layer>>, h: Shape, hs: seq<Shape>, emb: Emb, n: nat, d: Descent)
    requires n < |blocks| && Decode(blocks, h, hs, emb, n) == Ok(d)
    ensures Decode(blocks, h, hs, emb, n + 1) == DecodeStep(blocks[n], d, emb)
  {
  }

  /** The input-block loop of `forward`, both pathways in lockstep. */
  method EncodeBoth(net: Net, h0: Shape, emb: Emb, a0: Shape, a1: Shape) returns (r: Result<(seq<Shape>, seq<Shape>)>)
    requires Twinned(net)
    ensures var spec := Encode(net.inputGaussian, h0, emb, a0, a1, |net.inputGaussian|);
      && (r.Ok? <==> spec.Ok?)
      && (r.Ok? ==> r.value == (spec.value, spec.value))
      && (r.Err? ==> r.error == spec.error)
  {
    var blocks := net.inputGaussian;
    var hsG, hsB := [], [];
    var hG, hB := h0, h0;
    for ind := 0 to |net.inputGaussian|
      invariant Encode(blocks, h0, emb, a0, a1, ind) == Ok(hsG) && hsB == hsG
      invariant hG == Top(h0, hsG) && hB == hG
    {
      var g := SequentialForward(net.inputGaussian[ind], hG, emb);
      if g.Err? {
        EncodeStops(blocks, h0, emb, a0, a1, ind + 1, |blocks|);
        return Err(g.error);
      }
      var b := SequentialForward(net.inputBernoulli[ind], hB, emb);
      hG, hB := g.value, b.value;
      if ind == 0 {
        var catG := AnchorCat(a0, a1);
        if catG.Err? {
          EncodeStops(blocks, h0, emb, a0, a1, ind + 1, |blocks|);
          return Err(catG.error);
        }
        var addG := Broadcast(hG, catG.value);
        if addG.Err? {
          EncodeStops(blocks, h0, emb, a0, a1, ind + 1, |blocks|);
          return Err(addG.error);
        }
        var catB := AnchorCat(a0, a1);
        var addB := Broadcast(hB, catB.value);
        hG, hB := addG.value, addB.value;
      }
      hsG, hsB := hsG + [hG], hsB + [hB];
    }
    return Ok((hsG, hsB));
  }

  /** The body of the output-block loop for one pathway: `hs.pop()`,
      `th.cat`, then the block. */
  method PopAndRun(block: seq<Layer>, d: Descent, emb: Emb) returns (r: Result<Descent>)
    ensures r == DecodeStep(block, d, emb)
  {
    var hs := d.hs;
    if hs == [] {
      return Err(PopFromEmpty);
    }
    var skip := hs[|hs| - 1];
    hs := hs[..|hs| - 1];
    var cat := ConcatChannels(d.h, skip);
    if cat.Err? {
      return Err(cat.error);
    }
    var h := SequentialForward(block, cat.value, emb);
    if h.Err? {
      return Err(h.error);
    }
    return Ok(Descent(h.value, hs));
  }

  /** The output-block loop of `forward`, both pathways in lockstep. */
  method DecodeBoth(net: Net, h: Shape, hs: seq<Shape>, emb: Emb) returns (r: Result<(Descent, Descent)>)
    requires Twinned(net)
    ensures var spec := Decode(net.outputGaussian, h, hs, emb, |net.outputGaussian|);
      && (r.Ok? <==> spec.Ok?)
      && (r.Ok? ==> r.value == (spec.value, spec.value))
      && (r.Err? ==> r.error == spec.error)
  {
    var blocks := net.outputGaussian;
    var dG, dB := Descent(h, hs), Descent(h, hs);
    for ind := 0 to |net.outputGaussian|
      invariant Decode(blocks, h, hs, emb, ind) == Ok(dG) && dB == dG
    {
      var g := PopAndRun(net.outputGaussian[ind], dG, emb);
      DecodeStepOn(blocks, h, hs, emb, ind, dG);
      if g.Err? {
        DecodeStops(blocks, h, hs, emb, ind + 1, |blocks|);
        return Err(g.error);
      }
      var b := PopAndRun(net.outputBernoulli[ind], dB, emb);
      dG, dB := g.value, b.value;
    }
    return Ok((dG, dB));
  }

  /** `forward`: the input checks, the conditioning module, then both
      pathways in lockstep; returns `(out_gaussian, out_bernoulli, cal)`. */
  method Forward(net: Net, x: Shape, steps: nat, hasY: bool, a0: Shape, a1: Shape, cal: Shape)
    returns (r: Result<(Shape, Shape, Shape)>)
    requires Twinned(net)
    ensures r == ForwardSpec(net, x, steps, hasY, a0, a1, cal)
  {
    if x.channels != 3 {
      return Err(InputChannels);
    }
    var xImg := Shape(x.batch, 1, x.spatial);
    var noiseGaussian, noiseBernoulli := xImg, xImg;
    if hasY != net.cfg.classConditional {
      return Err(LabelMismatch);
    }
    var emb := Emb(steps, 4 * net.cfg.modelChannels);
    if net.cfg.classConditional {
      return Err(NotImplemented);
    }
    if !net.hasMfcm {
      return Err(NoConditioningModule);
    }
    var hG := ConcatChannels(xImg, noiseGaussian).value;
    var hB := ConcatChannels(xImg, noiseBernoulli).value;
    assert hG == hB == PathwayInput(x);

    var hs := EncodeBoth(net, hG, emb, a0, a1);
    if hs.Err? {
      return Err(hs.error);
    }
    var (hsG, hsB) := hs.value;
    var midG := SequentialForward(net.middleGaussian, Top(hG, hsG), emb);
    if midG.Err? {
      return Err(midG.error);
    }
    var midB := SequentialForward(net.middleBernoulli, Top(hB, hsB), emb);

    var dec := DecodeBoth(net, midG.value, hsG, emb);
    if dec.Err? {
      return Err(dec.error);
    }
    var (decG, decB) := dec.value;
    var outG := OutForward(net.outGaussian, decG.h);
    if outG.Err? {
      return Err(outG.error);
    }
    var outB := OutForward(net.outBernoulli, decB.h);
    return Ok((outG.value, outB.value, cal));
  }
}
