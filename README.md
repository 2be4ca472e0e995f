# Echo-DND UNet: a shape model

This project models `EchoDNDUNet` from Echo-DND, the dual-pathway diffusion UNet in
`guided_diffusion/unet.py`. The network runs a Gaussian pathway and a Bernoulli pathway in
lockstep. Each pathway has an encoder ladder of input blocks, a middle block, a decoder
ladder of output blocks and an output head. The Bernoulli ladders are deep copies of the
Gaussian ones.

Every tensor is replaced by its shape: `Shape(batch, channels, spatial)`, plus `Emb(batch, width)`
for timestep embeddings. Every module is replaced by the shape computation its `forward` performs,
and a `Result` carries the assertion or exception the code would raise. The model has these parts:

- `shapes.dfy`: channel concatenation, broadcasting, and nearest-neighbour doubling.
  It also covers the two ways of halving a spatial size: a strided convolution rounds up, an average pool rounds down.
- `layers.dfy`: `Upsample`, `Downsample`, `ResBlock`, `AttentionBlock`, the two QKV attention
  orders, and `TimestepEmbedSequential`.
- `ladder.dfy`: the network the constructor builds, written as functions of the configuration.
  This includes the channel ledger `input_block_chans` and the fact that the decoder drains it whenever `channel_mult` is non-empty.
  It also covers how attention mirrors between the ladders. The mirror holds when `num_res_blocks >= 1`. With `num_res_blocks == 0` the encoder builds no attention, but the decoder still does.
- `unet.dfy`: the constructor's loops as methods over the loop variables `ch`, `ds`,
  `_feature_size` and `input_block_chans`. Each method is proved against the functions of `ladder.dfy`.
- `forward.dfy`: `forward` as a method over both pathways and their skip stacks, proved equal to a
  functional specification.
- `balance.dfy`: the skip stacks of `forward` are never popped when empty, for every configuration. When `channel_mult`
  is non-empty they end empty; otherwise the stem's entry is left over.
- `flow.dfy`: `forward` on the network the constructor builds. The conditions are `ShapeFlow.Ready` and three more.
  `Ready` asks for:
  - `in_channels == 2`, because `forward` feeds the stem the image concatenated with one noise channel;
  - at least one level;
  - a positive width at every level;
  - at every attention resolution, a head count that is positive and divides the level's width, for the encoder's
    `num_heads` (when it builds attention) and for the decoder's `num_heads_upsample`;
  - a head count from `num_heads` that is positive and divides the middle block's width;
  - `1 <= dims <= 3`, with one spatial size per axis;
  - positive sizes, divisible by 2^(levels-1) along the resampled axes;
  - `num_classes` unset (`forward` raises for class-conditional models);
  - `high_way` set (`forward` calls the conditioning module).

  The three more are a non-empty batch, a 3-channel input, and anchors `anch[0]`, `anch[1]` that match the input's batch and size
  with `2·c0 + c1 == model_channels`. Under all of these every block gets the width and size it was built for. The skip stacks hold exactly the widths in
  the constructor's ledger, and both outputs keep the input's batch and spatial size.
  This holds only when `channel_mult[0] == 1`. The output heads normalise over the final `ch` but
  convolve from `model_channels`, so for any other value the Gaussian head raises a channel mismatch.

`None` for `out_channels` is written as 0, because the code's `out_channels or channels` treats both as unset.

## Model

| member | source | states |
|---|---|---|
| Shapes.ConcatChannels | guided_diffusion/unet.py:716-718 | `th.cat(dim=1)` succeeds exactly when batch and spatial axes agree; the channels add up |
| Shapes.BroadcastAxes | guided_diffusion/unet.py:707-708 | the only failure of elementwise addition is a broadcast mismatch; the result has the rank of the higher-rank operand |
| Shapes.BroadcastAxesAligned | guided_diffusion/unet.py:707-708 | addition of tensors of any ranks succeeds exactly when every pair of axes at the same distance from the end is equal or has a 1, and each such axis of the result is their broadcast |
| Shapes.BroadcastAxesLeading | guided_diffusion/unet.py:707-708 | the axes in front of the lower-rank operand are taken unchanged from the higher-rank one |
| Shapes.BroadcastAxesSameRank | guided_diffusion/unet.py:707-708 | for operands of the same rank the axes pair up position by position |
| Shapes.BroadcastAxesSelf | guided_diffusion/unet.py:707-708 | a tensor added to one of its own shape keeps that shape |
| Shapes.Broadcast | guided_diffusion/unet.py:707-708 | `h + anchor` on feature maps of any ranks, aligned from the trailing axes: it fails only with a broadcast mismatch, exactly when the axes do not broadcast; its axes are the broadcast axes; equal shapes add to themselves |
| Shapes.BroadcastSameRank | guided_diffusion/unet.py:707-708 | for feature maps of the same rank, addition succeeds exactly when the batch, the channels and every spatial axis are pairwise equal or have a 1 |
| Shapes.BroadcastOnto | guided_diffusion/unet.py:707-708 | an anchor of no higher rank than the feature map, each of whose trailing-aligned axes is 1 or the map's size, leaves the map's shape unchanged |
| Shapes.BroadcastLowerRank | guided_diffusion/unet.py:707-708 | a (1, 1, 8) anchor added to a (2, 4, 8, 8) map gives (2, 4, 8, 8), its missing leading axis read as 1 |
| ShapeFlow.EvenRoundTrip | guided_diffusion/unet.py:80-85 | on sizes even along the resampled axes, the strided convolution and the pool halve alike, and nearest-neighbour doubling restores the size |
| Layers.NewUpsample | guided_diffusion/unet.py:69-76 | the output width is `out_channels` when given, else `channels` |
| Layers.UpsampleForward | guided_diffusion/unet.py:78-88 | a channel mismatch raises first; interpolation raises on a wrong rank or an empty axis; the output has the output width only when a convolution is used, and every axis doubles except the depth axis in 3D |
| Layers.NewDownsample | guided_diffusion/unet.py:101-114 | construction fails exactly when there is no convolution and the output width differs from the input width (the assertion), or when `dims` is not 1, 2 or 3 (`conv_nd` and `avg_pool_nd` raise) |
| Layers.DownsampleForward | guided_diffusion/unet.py:116-118 | succeeds exactly when channels and rank match and no axis is empty: the convolution's input, or the pool's output; the convolution rounds sizes up, the pool rounds them down, and the depth axis is kept in 3D |
| Layers.NewResBlock | guided_diffusion/unet.py:158-220 | output width is `out_channels or channels`; the embedding projection is twice the output width under scale-shift; the skip path is the identity exactly when the widths agree |
| Layers.ResBlockForward | guided_diffusion/unet.py:234-254 | a channel mismatch raises; success exactly when rank, embedding width and batch broadcast fit, and no axis of the input or of the resampled size is empty (so a down-sampling block raises on a size-1 axis); the output has the output width and the input size, resampled when the block resamples |
| Layers.ResBlockContract | guided_diffusion/unet.py:175-254 | on a non-empty size, a plain ResBlock maps (N, C, s) to (N, out or C, s); under scale-shift the projection splits into a scale and a shift each as wide as the output |
| Layers.AttentionHeads | guided_diffusion/unet.py:275-281 | `num_heads` when `num_head_channels == -1`; a zero divisor raises; otherwise the assertion passes exactly when the width divides, and heads × head width = channels |
| Layers.HeadWidth | guided_diffusion/unet.py:343-344 | the per-head width exists exactly when the head count is positive and divides a third of the width; it recovers the width |
| Layers.QKVAttentionLegacy | guided_diffusion/unet.py:342-352 | succeeds exactly when `width % (3 * n_heads) == 0`; the result is one third of the width, with the same batch and length |
| Layers.QKVAttention | guided_diffusion/unet.py:375-387 | the same shape contract for the order that splits q, k, v before the heads (it is defined as the legacy order's shape) |
| Layers.TripleDivides | guided_diffusion/unet.py:342-344 | the `3C` qkv width splits into `3H` parts exactly when C splits into H |
| Layers.AttentionForward | guided_diffusion/unet.py:297-303 | succeeds exactly when the head count is valid, positive and divides the width, the input has the block's width, and batch, channels and flattened length are all non-zero (`reshape` and the qkv convolution raise otherwise); the output shape equals the input's |
| Layers.ApplyPlain | guided_diffusion/unet.py:55 | a non-timestep child is called without the embedding; attention keeps the shape; the stem convolution needs the right width and rank and no empty axis |
| Layers.RunBlockStops | guided_diffusion/unet.py:50-56 | once a child raises, the remaining children do not change the outcome |
| Layers.SequentialForward | guided_diffusion/unet.py:50-56 | the loop over the children equals the block's functional specification |
| Layers.EmbeddingOnlyReachesTimestepBlocks | guided_diffusion/unet.py:51-55 | a block with no ResBlock computes the same shape whatever embedding it is given |
| Ladder.LedgerAtDecoderStart | guided_diffusion/unet.py:508-600 | the ledger the encoder leaves is exactly the one the deepest decoder level starts popping |
| Ladder.LedgerPop | guided_diffusion/unet.py:600 | every pop finds the ledger non-empty and takes the width the decoder block needs: first the level's block widths, then the width that entered the level |
| Ladder.EncLevelsPushOne | guided_diffusion/unet.py:536-563 | every input block built pushes exactly one ledger entry |
| Ladder.LedgerLevelsLength | guided_diffusion/unet.py:513-565 | each level pushes `num_res_blocks` entries, plus one for its down-sampler at every level but the last |
| Ladder.DecSpanLength | guided_diffusion/unet.py:598-641 | every decoder level builds `num_res_blocks + 1` blocks |
| Ladder.LedgerDrained | guided_diffusion/unet.py:507-641 | 1 + L·R + (L−1) pushes equal the number of input blocks, and the decoder pops exactly as many, L·(R+1) |
| Ladder.AttentionWidthsAppend | guided_diffusion/unet.py:514-640 | the attention blocks of a concatenation are those of its parts, in order |
| Ladder.AttentionMirror | guided_diffusion/unet.py:526-622 | each residual input block of level k that is built (`i < num_res_blocks`) and each of the level's `num_res_blocks + 1` output blocks carry the same attention blocks: one of the level's width exactly when 2^k is an attention resolution |
| Ladder.DecoderOnlyAttention | guided_diffusion/unet.py:513-622 | with `num_res_blocks == 0` no block of encoder level k has attention, while the level's decoder block still carries the level's attention |
| EchoDNDUNet.EncoderBlock | guided_diffusion/unet.py:514-535 | builds the encoder block; fails exactly when `dims` is not 1, 2 or 3 (the ResBlock's convolution raises first) or its attention's head assertion fails |
| EchoDNDUNet.DecoderBlock | guided_diffusion/unet.py:601-638 | builds the decoder block over `ch + ich`, with attention and the closing up-sampler; fails exactly on an unsupported `dims` (raised first) or the head assertion |
| EchoDNDUNet.EncInnerNext | guided_diffusion/unet.py:536-538 | one residual block appends its block and its width to the ledger, sets `ch` and adds the width to `_feature_size` |
| EchoDNDUNet.EncoderStep | guided_diffusion/unet.py:513-538 | one inner encoder iteration moves the loop variables to the next state, or fails exactly on an unsupported `dims` or the head assertion |
| EchoDNDUNet.EncoderLevelOpens | guided_diffusion/unet.py:511-513 | an encoder level starts from the loop variables the previous levels left |
| EchoDNDUNet.EncoderLevelClosed | guided_diffusion/unet.py:541-565 | closing a level appends the down-sampler and its width, except at the last level |
| EchoDNDUNet.EncoderDown | guided_diffusion/unet.py:541-565 | the down-sampler keeps `ch`, pushes it on the ledger, and doubles `ds` to 2^(k+1); it fails, with the unsupported-`dims` error, exactly when a down-sampler is built for a `dims` other than 1, 2 or 3 |
| EchoDNDUNet.EncoderLevel | guided_diffusion/unet.py:511-565 | one outer encoder iteration reaches the next level's state; it fails exactly when that level's attention check fails, or when `dims` is unsupported and the level builds any layer (a residual block, or a down-sampler at every level but the last) |
| EchoDNDUNet.DecInnerNext | guided_diffusion/unet.py:600-641 | one decoder block appends its block, sets `ch` to the level's width, adds it to `_feature_size`, and halves `ds` after the up-sampler |
| EchoDNDUNet.DecoderStep | guided_diffusion/unet.py:599-641 | pops `ich`, builds the block and moves the loop variables to the next state, or fails exactly on an unsupported `dims` or the head assertion |
| EchoDNDUNet.DecoderLevelBounds | guided_diffusion/unet.py:598-599 | a decoder level starts where the deeper level ended and ends in the level's final state |
| EchoDNDUNet.DecoderLevel | guided_diffusion/unet.py:598-641 | one outer decoder iteration reaches the shallower state, or fails exactly on an unsupported `dims` (every level builds ResBlocks) or when that level's attention check fails |
| EchoDNDUNet.HeadCountIrrelevant | guided_diffusion/unet.py:275-281 | whether the head assertion passes does not depend on `num_heads` |
| EchoDNDUNet.EncoderAttentionNext | guided_diffusion/unet.py:526-535 | one more encoder level passes its attention checks exactly when the earlier ones did and this one does |
| EchoDNDUNet.DecoderAttentionNext | guided_diffusion/unet.py:613-622 | the same for the decoder levels, from the deepest up |
| EchoDNDUNet.DecoderLevelChecked | guided_diffusion/unet.py:613-622 | a decoder level whose attention check fails makes the whole decoder fail; one that passes extends the checked range by one level |
| EchoDNDUNet.EncoderStart | guided_diffusion/unet.py:499-510 | the encoder loops start from the stem alone, with `input_block_chans == [model_channels]`, `ch == _feature_size == model_channels` and `ds == 1` |
| EchoDNDUNet.Encoder | guided_diffusion/unet.py:499-565 | the stem raises the unsupported-`dims` error before any level when `dims` is not 1, 2 or 3; otherwise the encoder loops succeed exactly when every encoder attention check passes, and leave the specified blocks, ledger, `ch`, `ds` and `_feature_size` |
| EchoDNDUNet.Decoder | guided_diffusion/unet.py:597-641 | the decoder loops succeed exactly when `dims` is supported (or there are no levels) and every decoder attention check passes, and leave the specified state |
| EchoDNDUNet.AttentionChecks | guided_diffusion/unet.py:526-622 | if every decoder attention check passes, so does every encoder one |
| EchoDNDUNet.DecoderStartsWhereEncoderEnds | guided_diffusion/unet.py:568-597 | the decoder starts from the encoder's ledger and `ch`, with the middle block's width added to `_feature_size` |
| EchoDNDUNet.BuiltIsSpec | guided_diffusion/unet.py:597-660 | the loop results assemble into the specified network; the ledger is drained and `ds` is back at 1 |
| EchoDNDUNet.Build | guided_diffusion/unet.py:469-660 | construction succeeds exactly when `dims` is 1, 2 or 3 and every attention block passes its head check; any other `dims` raises at the stem, before any head check; the result is the specified network with twin pathways and `ds == 1`; the ledger is drained, except that `[model_channels]` is left when `channel_mult` is empty |
| UNetForward.AnchorCat | guided_diffusion/unet.py:707 | `cat(anch0, anch0, anch1)` succeeds exactly when batches and sizes agree, with `2·c0 + c1` channels |
| UNetForward.Encode | guided_diffusion/unet.py:701-710 | a successful encoder pushes one activation per input block |
| UNetForward.DecodeStep | guided_diffusion/unet.py:716-719 | a successful output block pops exactly the top of the skip stack |
| UNetForward.Decode | guided_diffusion/unet.py:715-719 | after n output blocks, exactly the top n skip entries have been popped |
| UNetForward.OutForward | guided_diffusion/unet.py:644-647 | the head succeeds exactly when the input width equals both the normalised `ch` and the convolved `model_channels` and no axis is empty; it gives the output width at the same size |
| UNetForward.EncodeStops | guided_diffusion/unet.py:701-710 | once an input block raises, the encoder's outcome is that error |
| UNetForward.DecodeStops | guided_diffusion/unet.py:715-719 | once an output block raises, the decoder's outcome is that error |
| UNetForward.EncodeBoth | guided_diffusion/unet.py:701-710 | the lockstep input loop, with the anchor added after block 0, equals the specification on both pathways |
| UNetForward.PopAndRun | guided_diffusion/unet.py:716-717 | pop, concatenate and run equals the specified decoder step, and an empty stack raises |
| UNetForward.DecodeBoth | guided_diffusion/unet.py:715-719 | the lockstep output loop equals the specification on both pathways |
| UNetForward.Forward | guided_diffusion/unet.py:681-727 | the method is equal to the specification: the 3-channel check, the label iff class-conditional check, the class-conditional `NotImplementedError`, both pathways, `cal` passed through |
| ShapeFlow.HalvedNonEmpty | guided_diffusion/unet.py:107-114 | halving k times a positive size divisible by 2^m, with k <= m, never leaves an empty axis |
| ShapeFlow.SpNonEmpty | guided_diffusion/unet.py:511-565 | under the fitting conditions every level's size is non-empty, so no pool or convolution sees an empty axis |
| ShapeFlow.HalvedDivisible | guided_diffusion/unet.py:107-114 | halving k times a size divisible by 2^m leaves one divisible by 2^(m−k) |
| ShapeFlow.SpStep | guided_diffusion/unet.py:80-114 | between adjacent levels both down-samplers halve exactly, and the up-sampler restores the finer size |
| ShapeFlow.ResAttnShape | guided_diffusion/unet.py:514-622 | a ResBlock to width w, with optional attention, maps (N, c, s) to (N, w, s) |
| ShapeFlow.UpLayerShape | guided_diffusion/unet.py:623-638 | the decoder's up-sampling layer keeps the width and doubles the size |
| ShapeFlow.DownBlockShape | guided_diffusion/unet.py:541-560 | the encoder's down-sampling block keeps the width and halves the size |
| ShapeFlow.StackTop | guided_diffusion/unet.py:704-709 | the last pushed activation has the running `ch` and the level's size |
| ShapeFlow.EncodeStem | guided_diffusion/unet.py:698-709 | the stem and the anchor map (N, 2, s) to (N, `model_channels`, s) |
| ShapeFlow.EncodeRes | guided_diffusion/unet.py:701-710 | each residual input block pushes (N, level width, level size) |
| ShapeFlow.EncodeDown | guided_diffusion/unet.py:701-710 | each down-sampling input block pushes (N, `ch`, next size) |
| ShapeFlow.EncodeWithin | guided_diffusion/unet.py:701-710 | within a level, every residual input block extends the stack the level opened with |
| ShapeFlow.EncodeLadder | guided_diffusion/unet.py:701-710 | every prefix of the input blocks produces the specified skip stack |
| ShapeFlow.EncodeAll | guided_diffusion/unet.py:701-712 | the whole encoder produces the specified stack; its top has the middle block's width at the deepest size |
| ShapeFlow.ChannelsAppend | guided_diffusion/unet.py:709-710 | the widths of a concatenated stack are the concatenated widths |
| ShapeFlow.StackIsLedger | guided_diffusion/unet.py:508-710 | the widths on the skip stack after the encoder are exactly the constructor's `input_block_chans` |
| ShapeFlow.MiddleShape | guided_diffusion/unet.py:569-593 | the middle block keeps its input's shape |
| ShapeFlow.DecBlockShape | guided_diffusion/unet.py:600-640 | a decoder block maps `ch + ich` channels to the level's width, at the finer size after its up-sampler |
| ShapeFlow.StackPop | guided_diffusion/unet.py:600-716 | each forward pop finds the shape whose width the constructor popped for that block |
| ShapeFlow.DecodeStepAt | guided_diffusion/unet.py:716-717 | each decoder step takes the state before the block to the state after it |
| ShapeFlow.DecodeNext | guided_diffusion/unet.py:715-719 | decoding extends by one block within a level |
| ShapeFlow.DecodeNextLevel | guided_diffusion/unet.py:715-719 | decoding extends from one level to the next shallower one |
| ShapeFlow.DecodeAdvance | guided_diffusion/unet.py:715-719 | under the fitting conditions, each output block within a level takes the decoder from its state before the block to the state before the next block |
| ShapeFlow.DecodeAdvanceLevel | guided_diffusion/unet.py:715-719 | under the fitting conditions, the last output block of a level takes the decoder to the start of the next shallower level |
| ShapeFlow.DecodeWithin | guided_diffusion/unet.py:715-719 | from the start of a level, every position within that level is reached in the specified state |
| ShapeFlow.DecodeLadder | guided_diffusion/unet.py:715-719 | under the fitting conditions, the start of every decoder level is reached in the specified state, walking down from the middle block |
| ShapeFlow.DecodeAll | guided_diffusion/unet.py:715-719 | the decoder drains the skip stack and ends at (N, `mult[0]·model_channels`, input size) |
| ShapeFlow.ReadyBuilds | guided_diffusion/unet.py:469-622 | under `Ready` the stem accepts `dims` and every attention head assertion passes, so construction succeeds |
| ShapeFlow.ForwardSucceeds | guided_diffusion/unet.py:644-727 | under `Ready`, a non-empty batch, a 3-channel input and matching anchors (all listed above): with `channel_mult[0] == 1`, forward returns (N, `out_channels_gaussian`, s), (N, `out_channels_bernoulli`, s) and `cal`; otherwise the Gaussian head raises a channel mismatch |
| SkipStacks.BlockNeverPops | guided_diffusion/unet.py:50-56 | a block may raise, but never by popping an empty list |
| SkipStacks.EncodeNeverPops | guided_diffusion/unet.py:701-710 | the input loop only pushes, so it never pops an empty list |
| SkipStacks.DecodeNeverPops | guided_diffusion/unet.py:715-719 | when there are no more output blocks than skip entries, the output loop never pops an empty list |
| SkipStacks.StacksBalance | guided_diffusion/unet.py:701-719 | for every configuration, the input loop pushes one entry per output block (one more when `channel_mult` is empty); the output loop never pops an empty stack, and leaves it empty, or holding only the stem's entry when `channel_mult` is empty |
| SkipStacks.ForwardNeverPops | guided_diffusion/unet.py:681-727 | `forward` on the network the constructor builds never raises by popping an empty skip stack, whatever the configuration and input |

## Left out

- Tensor values, weights, normalisation statistics, SiLU, dropout, softmax and the attention arithmetic are left out: the model follows shapes only.
- The equivalence of `QKVAttention` and `QKVAttentionLegacy` is a statement about values, so it is not modelled.
- Gradient checkpointing, fp16 casts and `.type(...)`, `zero_module` and parameter initialisation do not change shapes, so they are not modelled.
- `deepcopy` is modelled only as equal Bernoulli ladders: `UNetForward.Forward` requires this twinning, and the constructor establishes it.
- `guided_diffusion/nn.py` is not part of this model. `conv_nd`, `linear`, `avg_pool_nd` and `timestep_embedding` are taken at their shape behaviour. The `ValueError` that `conv_nd` and `avg_pool_nd` raise for a `dims` other than 1, 2 or 3 is the `UnsupportedDims` error. The constructor methods raise it where the code first builds such a layer, and `NewDownsample` raises it itself.
- Layers.NewResBlock, Layers.NewUpsample: these build their value for any `dims`. The unsupported-`dims` error of their convolutions is raised by the constructor methods that call them, before the call. `normalization` is taken as GroupNorm(32) without its requirement that the width divide into 32 groups.
- Time embedding: only its width `4 * model_channels` and one row per timestep are modelled. `emb.squeeze()` is not modelled.
- The HRNet conditioning module (MFCM) is not part of this model. Its outputs `anch` and `cal` are parameters. `UNetForward.ForwardSpec` raises when the module was not built (`high_way=False`), as the code does: it calls `self.mfcm` unconditionally.
- `conv_bn`, `conv_dw`, `count_flops_attn` and the `count_flops` hooks are not used by the network, so they are not modelled.
- `label_emb` is built but never reached: `forward` raises `NotImplementedError` for class-conditional models first.
- `image_size` is stored but never used for shapes, so it is not modelled.
- UNetForward.Forward: when a Bernoulli step fails, the model reports the Gaussian pathway's error. Twinned ladders on the same input always fail at the same step with the same error.
- ShapeFlow.ForwardSucceeds: covers only spatial sizes divisible by 2^(levels−1) along the resampled axes. For odd sizes at some level the pool floors and the up-sampler doubles. Forward on such inputs is still specified by `UNetForward.ForwardSpec`, but no lemma states its outcome.
- ShapeFlow.ForwardSucceeds: states the outcome only for one timestep per sample (`steps == N`). `UNetForward.ForwardSpec` also specifies a single timestep row broadcast over the batch (`steps == 1`), but no lemma states that case's outcome.
- Shapes.Broadcast: both operands are feature maps, so each has at least a batch and a channel axis; adding an anchor of rank 0 or 1 is not modelled.
- An empty batch raises only in `AttentionBlock`, where `reshape(b, c, -1)` cannot infer the flattened length; every other layer passes an empty batch through. Because the middle block always holds an attention block, `ShapeFlow.ForwardSucceeds` requires a non-empty batch.
