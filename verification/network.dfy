/**
  Shape propagation through the two network builders of main.py:40-91.

  Only tensor shapes are modelled: a tensor is its (height, width, channels)
  triple, the batch dimension left implicit, and each layer is the function
  the framework documents from input shape to output shape:
  - a 3x3 convolution with stride 1 and `padding='same'` keeps height and
    width and sets the channel count to its number of filters;
  - a 2x2 max-pooling with `padding='same'` (stride equal to the pool size)
    maps a side of n to ceil(n / 2);
  - dropout keeps the shape;
  - 2x up-sampling doubles height and width;
  - element-wise `add` needs its operands to have the same shape, which is
    also its result's shape; otherwise graph construction fails.
 */
module Network {

  datatype Shape = Shape(h: nat, w: nat, c: nat)

  /** The single-input layers the builders stack. */
  datatype Layer =
    | Conv2D(filters: nat)        // 3x3 kernel, stride 1, padding 'same'
    | MaxPooling2D                // default pool (2, 2), padding 'same'
    | Dropout(ratePercent: nat)   // the rate only matters while training
    | UpSampling2D                // default size (2, 2)

  /** A model is known here by its input and output tensors. */
  datatype Model = Model(input: Shape, output: Shape)

  /**
    What `get_decoder` yields: the pair of models it returns, or the pair of
    shapes an `add` could not join (the framework raises at that point).
   */
  datatype DecoderResult =
    | Built(autoencoder: Model, autoencoderHfenn: Model)
    | AddMismatch(left: Shape, right: Shape)

  /** `Input(shape=(256, 256, 3))` of main.py:179. */
  const InputShape := Shape(256, 256, 3)

  /** Dropout rate 0.3 of main.py:46 and main.py:64, in percent. */
  const DropoutPercent := 30

  /** ceil(n / 2): the side length after a 'same'-padded pooling of stride 2. */
  function CeilHalf(n: nat): (r: nat)
    ensures 2 * r == n || 2 * r == n + 1
  {
    (n + 1) / 2
  }

  /**
    The documented output shape of one layer. Only pooling and up-sampling
    move height and width, pooling never grows them and at least halves them,
    pooling undoes up-sampling, and only a convolution changes the channel
    count.
   */
  function Apply(layer: Layer, s: Shape): (r: Shape)
    ensures (r.h != s.h || r.w != s.w) ==> layer.MaxPooling2D? || layer.UpSampling2D?
    ensures layer.MaxPooling2D? ==> r.h <= s.h <= 2 * r.h && r.w <= s.w <= 2 * r.w
    ensures layer.UpSampling2D? ==> CeilHalf(r.h) == s.h && CeilHalf(r.w) == s.w
    ensures r.c != s.c ==> layer.Conv2D?
  {
    match layer
    case Conv2D(filters) => Shape(s.h, s.w, filters)
    case MaxPooling2D => Shape(CeilHalf(s.h), CeilHalf(s.w), s.c)
    case Dropout(_) => s
    case UpSampling2D => Shape(2 * s.h, 2 * s.w, s.c)
  }

  /** Feeds a shape through a chain of layers, first layer first. */
  function ApplyAll(layers: seq<Layer>, s: Shape): Shape
  {
    if layers == [] then s else ApplyAll(layers[1..], Apply(layers[0], s))
  }

  /** `add([a, b])` of the framework, on shapes. */
  function Add(a: Shape, b: Shape): Option<Shape>
  {
    if a == b then Some(a) else None
  }

  datatype Option<T> = None | Some(value: T)

  // The stages shared by both builders (main.py:41-54 and main.py:59-72).
  /** layer1, layer2: two 64-filter convolutions. */
  const Block1 := [Conv2D(64), Conv2D(64)]
  /** layer3 (pooling, then dropout), layer4, layer5: two 128-filter convolutions. */
  const Block2 := [MaxPooling2D, Dropout(DropoutPercent), Conv2D(128), Conv2D(128)]
  /** layer6, layer7: pooling and a 256-filter convolution. */
  const Block3 := [MaxPooling2D, Conv2D(256)]
  /** The encoder as one chain (main.py:41-54). */
  const EncoderLayers := Block1 + Block2 + Block3

  // The decoder's expanding path (main.py:73-84, main.py:87).
  /** layer8, layer9, layer10: up-sampling and two 128-filter convolutions. */
  const Up1 := [UpSampling2D, Conv2D(128), Conv2D(128)]
  /** layer12, layer13, layer14: up-sampling and two 64-filter convolutions. */
  const Up2 := [UpSampling2D, Conv2D(64), Conv2D(64)]
  /** The final 3-filter convolution. */
  const OutputConv := Conv2D(3)

  /** The contracting stack both builders derive, with the tensors the decoder reuses. */
  datatype Stack = Stack(layer2: Shape, layer5: Shape, layer7: Shape)

  /**
    The contracting stack keeps the input's height and width at layer2, halves
    them (rounding up) at layer5 and quarters them (rounding up) at layer7.
   */
  function ContractingStack(input: Shape): (st: Stack)
    ensures st.layer2 == Shape(input.h, input.w, 64)
    ensures st.layer5 == Shape(CeilHalf(input.h), CeilHalf(input.w), 128)
    ensures st.layer7 == Shape((input.h + 3) / 4, (input.w + 3) / 4, 256)
  {
    var layer2 := ApplyAll(Block1, input);
    var layer5 := ApplyAll(Block2, layer2);
    var layer7 := ApplyAll(Block3, layer5);
    BlockShapes(input);
    BlockShapes(layer2);
    BlockShapes(layer5);
    CeilHalfTwice(input.h);
    CeilHalfTwice(input.w);
    Stack(layer2, layer5, layer7)
  }

  /** `get_encoder` (main.py:40-55): the model from the input to layer7. */
  function GetEncoder(input: Shape): (m: Model)
    ensures m.input == input
    ensures m.output == Shape((input.h + 3) / 4, (input.w + 3) / 4, 256)
  {
    ApplyAllConcat(Block1, Block2, input);
    ApplyAllConcat(Block1 + Block2, Block3, input);
    var _ := ContractingStack(input);
    Model(input, ApplyAll(EncoderLayers, input))
  }

  /** One layer in front of a chain runs first. */
  lemma ApplyAllCons(layer: Layer, rest: seq<Layer>, s: Shape)
    ensures ApplyAll([layer] + rest, s) == ApplyAll(rest, Apply(layer, s))
  {
    assert ([layer] + rest)[1..] == rest;
  }

  /** Two convolutions with the same filter count. */
  lemma ConvPairShape(filters: nat, s: Shape)
    ensures ApplyAll([Conv2D(filters), Conv2D(filters)], s) == Shape(s.h, s.w, filters)
  {
    var conv := Conv2D(filters);
    assert [conv, conv] == [conv] + [conv];
    ApplyAllCons(conv, [conv], s);
    assert [conv] == [conv] + [];
    ApplyAllCons(conv, [], Apply(conv, s));
  }

  /** What each fixed chain does to a shape. */
  lemma BlockShapes(s: Shape)
    ensures ApplyAll(Block1, s) == Shape(s.h, s.w, 64)
    ensures ApplyAll(Block2, s) == Shape(CeilHalf(s.h), CeilHalf(s.w), 128)
    ensures ApplyAll(Block3, s) == Shape(CeilHalf(s.h), CeilHalf(s.w), 256)
    ensures ApplyAll(Up1, s) == Shape(2 * s.h, 2 * s.w, 128)
    ensures ApplyAll(Up2, s) == Shape(2 * s.h, 2 * s.w, 64)
  {
    ConvPairShape(64, s);
    Block2Shape(s);
    Block3Shape(s);
    UpShape(128, s);
    UpShape(64, s);
  }

  /** Pooling, dropout and two 128-filter convolutions. */
  lemma Block2Shape(s: Shape)
    ensures ApplyAll(Block2, s) == Shape(CeilHalf(s.h), CeilHalf(s.w), 128)
  {
    var pooled := Apply(MaxPooling2D, s);
    var drop := Dropout(DropoutPercent);
    assert Block2 == [MaxPooling2D] + ([drop] + [Conv2D(128), Conv2D(128)]);
    ApplyAllCons(MaxPooling2D, [drop] + [Conv2D(128), Conv2D(128)], s);
    ApplyAllCons(drop, [Conv2D(128), Conv2D(128)], pooled);
    ConvPairShape(128, pooled);
  }

  /** Pooling and one 256-filter convolution. */
  lemma Block3Shape(s: Shape)
    ensures ApplyAll(Block3, s) == Shape(CeilHalf(s.h), CeilHalf(s.w), 256)
  {
    var pooled := Apply(MaxPooling2D, s);
    assert Block3 == [MaxPooling2D] + ([Conv2D(256)] + []);
    ApplyAllCons(MaxPooling2D, [Conv2D(256)] + [], s);
    ApplyAllCons(Conv2D(256), [], pooled);
  }

  /** Up-sampling and two convolutions with `filters` filters: `Up1` or `Up2`. */
  lemma UpShape(filters: nat, s: Shape)
    ensures filters == 128 ==> ApplyAll(Up1, s) == Shape(2 * s.h, 2 * s.w, 128)
    ensures filters == 64 ==> ApplyAll(Up2, s) == Shape(2 * s.h, 2 * s.w, 64)
  {
    var up := Apply(UpSampling2D, s);
    var tail := [Conv2D(filters), Conv2D(filters)];
    ApplyAllCons(UpSampling2D, tail, s);
    ConvPairShape(filters, up);
    if filters == 128 {
      assert Up1 == [UpSampling2D] + tail;
    } else if filters == 64 {
      assert Up2 == [UpSampling2D] + tail;
    }
  }

  /** Two 'same' poolings round up once: ceil(ceil(n / 2) / 2) == ceil(n / 4). */
  lemma CeilHalfTwice(n: nat)
    ensures CeilHalf(CeilHalf(n)) == (n + 3) / 4
  {
  }

  /**
    One side of the tensor survives both skip `add`s exactly when it is a
    multiple of 4: the first needs ceil(n / 2) == 2 * ceil(n / 4), the second
    needs 2 * ceil(n / 2) == n.
   */
  lemma SkipSides(n: nat)
    ensures (CeilHalf(n) == 2 * ((n + 3) / 4) && 2 * CeilHalf(n) == n) <==> n % 4 == 0
  {
  }

  /**
    `get_decoder` (main.py:58-91): re-derives the contracting stack, expands it
    again with the two skip `add`s, and returns the same model twice. It builds
    exactly when height and width are multiples of 4, and then reconstructs the
    input's height and width with 3 channels.
   */
  function GetDecoder(input: Shape): (r: DecoderResult)
    ensures r.Built? <==> input.h % 4 == 0 && input.w % 4 == 0
    ensures r.Built? ==> r.autoencoder == r.autoencoderHfenn
    ensures r.Built? ==> r.autoencoder == Model(input, Shape(input.h, input.w, 3))
  {
    var st := ContractingStack(input);
    BlockShapes(st.layer7);
    SkipSides(input.h);
    SkipSides(input.w);
    var layer10 := ApplyAll(Up1, st.layer7);
    match Add(st.layer5, layer10)
    case None => AddMismatch(st.layer5, layer10)
    case Some(layer11) =>
      BlockShapes(layer11);
      var layer14 := ApplyAll(Up2, layer11);
      match Add(layer14, st.layer2)
      case None => AddMismatch(layer14, st.layer2)
      case Some(layer15) =>
        var output := Apply(OutputConv, layer15);
        Built(Model(input, output), Model(input, output))
  }

  /** Running two chains one after the other is running their concatenation. */
  lemma {:induction false} ApplyAllConcat(a: seq<Layer>, b: seq<Layer>, s: Shape)
    ensures ApplyAll(a + b, s) == ApplyAll(b, ApplyAll(a, s))
  {
    if a == [] {
      assert a + b == b;
    } else {
      assert (a + b)[1..] == a[1..] + b;
      ApplyAllConcat(a[1..], b, Apply(a[0], s));
    }
  }

  /**
    The decoder's own contracting stack ends in the same shape as the
    separately built encoder, and both models hang off the same input.
   */
  lemma DecoderRederivesEncoder(input: Shape)
    requires input.h % 4 == 0 && input.w % 4 == 0
    ensures ContractingStack(input).layer7 == GetEncoder(input).output
    ensures GetDecoder(input).autoencoder.input == GetEncoder(input).input
  {
    ApplyAllConcat(Block1, Block2, input);
    ApplyAllConcat(Block1 + Block2, Block3, input);
  }

  /**
    At the script's input (256, 256, 3): the skip `add` of main.py:79 joins two
    (128, 128, 128) tensors, the one of main.py:85 joins two (256, 256, 64)
    tensors, the encoder ends at (64, 64, 256), and both returned autoencoders
    map (256, 256, 3) to (256, 256, 3).
   */
  lemma ShapesAtScriptInput()
    ensures var st := ContractingStack(InputShape);
      && st.layer5 == ApplyAll(Up1, st.layer7) == Shape(128, 128, 128)
      && ApplyAll(Up2, st.layer5) == st.layer2 == Shape(256, 256, 64)
    ensures GetEncoder(InputShape) == Model(InputShape, Shape(64, 64, 256))
    ensures GetDecoder(InputShape) == Built(Model(InputShape, InputShape), Model(InputShape, InputShape))
  {
  }
}
