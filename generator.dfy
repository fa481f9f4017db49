/** The enhancement network of models/architecture/generator.py at the level of tensor shapes: every
    layer is a shape-transfer function, and the network is their composition. No tensor values are
    modelled. A failing layer (a channel mismatch, an input smaller than the kernel) is `None`,
    standing for the RuntimeError PyTorch raises. */
module Generator {
  import opened Wrappers

  /** The shape of an N×C×H×W tensor. */
  datatype Shape = Shape(batch: nat, channels: nat, height: nat, width: nat)

  datatype Layer =
    | Conv2d(inChannels: nat, outChannels: nat, kernel: nat, padding: nat, stride: nat)
    | BatchNorm2d(features: nat)
    | ReLU
    | Tanh

  /** PyTorch's convolution output size with dilation 1, `floor((size + 2p - k) / s) + 1`; `None` when
      the padded input is smaller than the kernel. */
  function ConvOutSize(size: nat, kernel: nat, padding: nat, stride: nat): (r: Option<nat>)
    requires kernel >= 1 && stride >= 1
    ensures r.Some? <==> kernel <= size + 2 * padding
    ensures r.Some? ==> r.value >= 1
  {
    if size + 2 * padding < kernel then None else Some((size + 2 * padding - kernel) / stride + 1)
  }

  /** The output size counts the kernel positions: the last one fits in the padded input, and one
      stride further would not. */
  lemma ConvOutSizeCountsPositions(size: nat, kernel: nat, padding: nat, stride: nat)
    requires kernel >= 1 && stride >= 1 && kernel <= size + 2 * padding
    ensures var n := ConvOutSize(size, kernel, padding, stride).value;
            (n - 1) * stride + kernel <= size + 2 * padding < n * stride + kernel
  {
  }

  /** A 3×3 convolution with padding 1 and stride 1 keeps every non-zero spatial size. */
  lemma SamePaddingKeepsSize(size: nat)
    requires size >= 1
    ensures ConvOutSize(size, 3, 1, 1) == Some(size)
  {
  }

  function ApplyLayer(l: Layer, x: Shape): Option<Shape>
  {
    match l
    case Conv2d(cin, cout, k, p, s) =>
      if k == 0 || s == 0 || x.channels != cin then None
      else
        var h := ConvOutSize(x.height, k, p, s);
        var w := ConvOutSize(x.width, k, p, s);
        if h.None? || w.None? then None else Some(Shape(x.batch, cout, h.value, w.value))
    case BatchNorm2d(n) => if x.channels == n then Some(x) else None
    case ReLU => Some(x)
    case Tanh => Some(x)
  }

  /** `nn.Sequential`: the layers applied in order. */
  function RunLayers(ls: seq<Layer>, x: Shape): Option<Shape>
    decreases |ls|
  {
    if ls == [] then Some(x)
    else
      match ApplyLayer(ls[0], x)
      case None => None
      case Some(y) => RunLayers(ls[1..], y)
  }

  /** The channel count a layer expects, given the count it is fed (activations take any count). */
  predicate Accepts(l: Layer, c: nat)
  {
    match l
    case Conv2d(cin, _, _, _, _) => cin == c
    case BatchNorm2d(n) => n == c
    case ReLU => true
    case Tanh => true
  }

  function OutChannels(l: Layer, c: nat): nat
  {
    if l.Conv2d? then l.outChannels else c
  }

  /** Each layer's input width, BatchNorm widths included, is the preceding layer's output width. */
  predicate Chained(ls: seq<Layer>, c: nat)
    decreases |ls|
  {
    ls == [] || (Accepts(ls[0], c) && Chained(ls[1..], OutChannels(ls[0], c)))
  }

  function FinalChannels(ls: seq<Layer>, c: nat): nat
    decreases |ls|
  {
    if ls == [] then c else FinalChannels(ls[1..], OutChannels(ls[0], c))
  }

  predicate SamePadding(l: Layer)
  {
    l.Conv2d? ==> l.kernel == 3 && l.padding == 1 && l.stride == 1
  }

  predicate AllSamePadding(ls: seq<Layer>)
  {
    forall i :: 0 <= i < |ls| ==> SamePadding(ls[i])
  }

  /** A chained stack of same-padding layers keeps batch and spatial size and ends at its final
      channel count; a stack that is not chained fails. */
  lemma {:induction false} SequentialShape(ls: seq<Layer>, x: Shape)
    requires AllSamePadding(ls) && x.height >= 1 && x.width >= 1
    ensures RunLayers(ls, x).Some? <==> Chained(ls, x.channels)
    ensures Chained(ls, x.channels) ==>
              RunLayers(ls, x) == Some(Shape(x.batch, FinalChannels(ls, x.channels), x.height, x.width))
    decreases |ls|
  {
    if ls != [] {
      assert SamePadding(ls[0]);
      var y := Shape(x.batch, OutChannels(ls[0], x.channels), x.height, x.width);
      if Accepts(ls[0], x.channels) {
        assert ApplyLayer(ls[0], x) == Some(y);
        assert AllSamePadding(ls[1..]) by {
          forall i | 0 <= i < |ls[1..]| ensures SamePadding(ls[1..][i]) { assert ls[1..][i] == ls[i + 1]; }
        }
        SequentialShape(ls[1..], y);
      } else {
        assert ApplyLayer(ls[0], x).None?;
      }
    }
  }

  /** `models/architecture/generator.py`'s `ResidualBlock`: two convolutions with batch norms, and the
      block's input added back in place. */
  datatype ResidualBlock = ResidualBlock(conv1: Layer, bn1: Layer, conv2: Layer, bn2: Layer)

  function NewResidualBlock(c: nat): ResidualBlock
  {
    ResidualBlock(Conv2d(c, c, 3, 1, 1), BatchNorm2d(c), Conv2d(c, c, 3, 1, 1), BatchNorm2d(c))
  }

  /** The layers `ResidualBlock.forward` applies before the add, in order. */
  function BlockBody(b: ResidualBlock): seq<Layer>
  {
    [b.conv1, b.bn1, ReLU, b.conv2, b.bn2]
  }

  /** Whether `out += other` is allowed: every dimension of other equals out's or is 1, so that other
      broadcasts to out's shape and out keeps it. */
  predicate BroadcastsTo(other: Shape, out: Shape)
  {
    && (other.batch == out.batch || other.batch == 1)
    && (other.channels == out.channels || other.channels == 1)
    && (other.height == out.height || other.height == 1)
    && (other.width == out.width || other.width == 1)
  }

  /** The in-place add `out += residual`. */
  function AddInPlace(out: Shape, residual: Shape): Option<Shape>
  {
    if BroadcastsTo(residual, out) then Some(out) else None
  }

  /** `ResidualBlock.forward(x)`: the body, then the block's own input `x` added to its result. */
  function BlockForward(b: ResidualBlock, x: Shape): Option<Shape>
  {
    match RunLayers(BlockBody(b), x)
    case None => None
    case Some(out) => AddInPlace(out, x)
  }

  /** `ResidualBlock(c)` maps (N, c, H, W) to itself, and the add is shape-valid: the body's result has
      exactly the shape of the block's input. */
  lemma ResidualBlockShape(c: nat, x: Shape)
    requires x.channels == c && x.height >= 1 && x.width >= 1
    ensures RunLayers(BlockBody(NewResidualBlock(c)), x) == Some(x)
    ensures BlockForward(NewResidualBlock(c), x) == Some(x)
  {
    BlockLayout(c);
    SequentialShape(BlockBody(NewResidualBlock(c)), x);
  }

  /** A residual block fed the wrong channel count fails at its first convolution. */
  lemma ResidualBlockRejects(c: nat, x: Shape)
    requires x.channels != c
    ensures BlockForward(NewResidualBlock(c), x) == None
  {
  }

  /** The residual blocks in list order, as `Generator.forward`'s loop rebinds `x`. */
  function RunBlocks(bs: seq<ResidualBlock>, x: Shape): Option<Shape>
    decreases |bs|
  {
    if bs == [] then Some(x)
    else
      match RunBlocks(bs[..|bs| - 1], x)
      case None => None
      case Some(y) => BlockForward(bs[|bs| - 1], y)
  }

  /** Once a block has failed, the remaining blocks do not run. */
  lemma {:induction false} RunBlocksFailurePersists(bs: seq<ResidualBlock>, i: nat, x: Shape)
    requires i <= |bs| && RunBlocks(bs[..i], x).None?
    ensures RunBlocks(bs, x).None?
    decreases |bs| - i
  {
    if i < |bs| {
      assert bs[..i + 1][..i] == bs[..i];
      RunBlocksFailurePersists(bs, i + 1, x);
    } else {
      assert bs[..i] == bs;
    }
  }

  /** Blocks of width c applied to an (N, c, H, W) tensor leave its shape unchanged. */
  lemma {:induction false} UniformBlocksShape(bs: seq<ResidualBlock>, c: nat, x: Shape)
    requires forall i :: 0 <= i < |bs| ==> bs[i] == NewResidualBlock(c)
    requires x.channels == c && x.height >= 1 && x.width >= 1
    ensures RunBlocks(bs, x) == Some(x)
    decreases |bs|
  {
    if bs != [] {
      UniformBlocksShape(bs[..|bs| - 1], c, x);
      ResidualBlockShape(c, x);
    }
  }

  datatype Network = Network(encoder: seq<Layer>, residualBlocks: seq<ResidualBlock>, decoder: seq<Layer>)

  function Encoder(): seq<Layer>
  {
    [Conv2d(3, 64, 3, 1, 1), BatchNorm2d(64), ReLU, Conv2d(64, 128, 3, 1, 1), BatchNorm2d(128), ReLU]
  }

  function Decoder(): seq<Layer>
  {
    [ReLU, Conv2d(128, 64, 3, 1, 1), BatchNorm2d(64), ReLU, Conv2d(64, 64, 3, 1, 1), BatchNorm2d(64), ReLU,
     Conv2d(64, 3, 3, 1, 1), Tanh]
  }

  /** `Generator.__init__`: the encoder, three residual blocks of width 128, the decoder. */
  function NewGenerator(): Network
  {
    Network(Encoder(), [NewResidualBlock(128), NewResidualBlock(128), NewResidualBlock(128)], Decoder())
  }

  /** `Generator.forward`, as a function of the network and the input shape. */
  function GeneratorForward(g: Network, x: Shape): Option<Shape>
  {
    match RunLayers(g.encoder, x)
    case None => None
    case Some(e) =>
      match RunBlocks(g.residualBlocks, e)
      case None => None
      case Some(r) => RunLayers(g.decoder, r)
  }

  /** Chained, walked back from the empty suffix: if every suffix from k on is chained at its width,
      so is the whole list. */
  lemma {:induction false} ChainedFromWidths(ls: seq<Layer>, widths: seq<nat>)
    requires |widths| == |ls| + 1
    requires forall i :: 0 <= i < |ls| ==> Accepts(ls[i], widths[i]) && OutChannels(ls[i], widths[i]) == widths[i + 1]
    ensures Chained(ls, widths[0]) && FinalChannels(ls, widths[0]) == widths[|ls|]
    decreases |ls|
  {
    if ls != [] {
      ChainedFromWidths(ls[1..], widths[1..]);
    }
  }

  /** Every convolution of the encoder is 3×3 with padding 1 and stride 1, and its channel counts
      chain from 3 to 128. */
  lemma EncoderLayout()
    ensures AllSamePadding(Encoder())
    ensures Chained(Encoder(), 3) && FinalChannels(Encoder(), 3) == 128
  {
    ChainedFromWidths(Encoder(), [3, 64, 64, 64, 128, 128, 128]);
  }

  /** Every convolution of the decoder is 3×3 with padding 1 and stride 1, and its channel counts,
      batch-norm widths included, chain from 128 to 3. */
  lemma DecoderLayout()
    ensures AllSamePadding(Decoder())
    ensures Chained(Decoder(), 128) && FinalChannels(Decoder(), 128) == 3
  {
    var ls := Decoder();
    var widths: seq<nat> := [128, 128, 64, 64, 64, 64, 64, 64, 3, 3];
    forall i | 0 <= i < |ls|
      ensures SamePadding(ls[i])
      ensures Accepts(ls[i], widths[i]) && OutChannels(ls[i], widths[i]) == widths[i + 1]
    {
      if i < 3 {
      } else if i < 6 {
      } else {
      }
    }
    ChainedFromWidths(ls, widths);
  }

  /** A residual block of width c is chained at c, keeps c, and uses same-padding convolutions. */
  lemma BlockLayout(c: nat)
    ensures AllSamePadding(BlockBody(NewResidualBlock(c)))
    ensures Chained(BlockBody(NewResidualBlock(c)), c) && FinalChannels(BlockBody(NewResidualBlock(c)), c) == c
  {
    ChainedFromWidths(BlockBody(NewResidualBlock(c)), [c, c, c, c, c, c]);
  }

  /** There are exactly three residual blocks, each of width 128, between encoder and decoder. */
  lemma GeneratorBlocks()
    ensures NewGenerator().encoder == Encoder() && NewGenerator().decoder == Decoder()
    ensures |NewGenerator().residualBlocks| == 3
    ensures forall i :: 0 <= i < 3 ==> NewGenerator().residualBlocks[i] == NewResidualBlock(128)
  {
  }

  /** The encoder maps (N, 3, H, W) to (N, 128, H, W). */
  lemma EncoderShape(x: Shape)
    requires x.channels == 3 && x.height >= 1 && x.width >= 1
    ensures RunLayers(Encoder(), x) == Some(Shape(x.batch, 128, x.height, x.width))
  {
    EncoderLayout();
    SequentialShape(Encoder(), x);
  }

  /** The decoder maps (N, 128, H, W) to (N, 3, H, W). */
  lemma DecoderShape(x: Shape)
    requires x.channels == 128 && x.height >= 1 && x.width >= 1
    ensures RunLayers(Decoder(), x) == Some(Shape(x.batch, 3, x.height, x.width))
  {
    DecoderLayout();
    SequentialShape(Decoder(), x);
  }

  /** The whole network maps (N, 3, H, W) to (N, 3, H, W) for every H, W >= 1, and fails on every
      other input: a channel count other than 3, or an empty spatial dimension. */
  lemma GeneratorPreservesShape(x: Shape)
    ensures GeneratorForward(NewGenerator(), x).Some? <==> x.channels == 3 && x.height >= 1 && x.width >= 1
    ensures GeneratorForward(NewGenerator(), x).Some? ==> GeneratorForward(NewGenerator(), x) == Some(x)
  {
    var g := NewGenerator();
    if x.channels == 3 && x.height >= 1 && x.width >= 1 {
      EncoderShape(x);
      var e := Shape(x.batch, 128, x.height, x.width);
      GeneratorBlocks();
      UniformBlocksShape(g.residualBlocks, 128, e);
      DecoderShape(e);
    } else {
      assert ApplyLayer(Encoder()[0], x).None?;
    }
  }

  /** `Generator.forward`: the encoder, then a loop over the residual blocks rebinding `x`, then the
      decoder. */
  method Forward(g: Network, x: Shape) returns (y: Option<Shape>)
    ensures y == GeneratorForward(g, x)
  {
    var encoded := RunLayers(g.encoder, x);
    if encoded.None? {
      return None;
    }
    var cur := encoded.value;
    var i := 0;
    while i < |g.residualBlocks|
      invariant 0 <= i <= |g.residualBlocks|
      invariant RunBlocks(g.residualBlocks[..i], encoded.value) == Some(cur)
    {
      assert g.residualBlocks[..i + 1][..i] == g.residualBlocks[..i];
      var next := BlockForward(g.residualBlocks[i], cur);
      if next.None? {
        RunBlocksFailurePersists(g.residualBlocks, i + 1, encoded.value);
        return None;
      }
      cur := next.value;
      i := i + 1;
    }
    assert g.residualBlocks[..i] == g.residualBlocks;
    y := RunLayers(g.decoder, cur);
  }
}
