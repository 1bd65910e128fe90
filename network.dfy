/** The network topology built by `sep_cnn_model`, as an ordered list of
    layer-configuration records, and the choice of output layer and loss. */
module Network {

  datatype Activation = Sigmoid | Softmax | Relu

  datatype Loss = BinaryCrossentropy | SparseCategoricalCrossentropy

  /** One layer configuration. Every separable convolution of the builder
      uses `padding='same'` and random-uniform bias and depthwise
      initialisers, so those fixed settings are not recorded. */
  datatype Layer =
    | Embedding(inputDim: int, outputDim: int, inputLength: int)
    | Dropout(rate: real)
    | SeparableConv1D(filters: int, kernelSize: int, activation: Activation)
    | MaxPooling1D(poolSize: int)
    | GlobalAveragePooling1D
    | Dense(units: int, activation: Activation)

  /** Width of the embedding vectors. */
  const EmbeddingDim := 200
  /** Pool size of the pooling layer that closes each convolution block. */
  const PoolSize := 3
  /** Rate of the dropout layer before the output layer (not the `dropout_rate` argument). */
  const HeadDropoutRate: real := 0.5

  /** Arguments `train` passes to `sep_cnn_model`. */
  const TrainBlocks := 2
  const TrainFilters := 64
  const TrainKernelSize := 4
  const TrainDropoutRate: real := 0.5

  /** `_get_last_layer_units_and_activation`. */
  function LastLayerUnitsAndActivation(numClasses: int): (r: (int, Activation))
    ensures r.1 == Sigmoid || r.1 == Softmax
    ensures r.1 == Sigmoid <==> numClasses == 2
    ensures r.1 == Sigmoid ==> r.0 == 1
    ensures r.1 == Softmax ==> r.0 == numClasses
  {
    if numClasses == 2 then (1, Sigmoid) else (numClasses, Softmax)
  }

  /** The loss `train` compiles the network with. */
  function LossFor(numClasses: int): (l: Loss)
    ensures l == BinaryCrossentropy <==> numClasses == 2
  {
    if numClasses == 2 then BinaryCrossentropy else SparseCategoricalCrossentropy
  }

  /** Whether an output layer of `units` units with activation `act` can be
      trained towards class index `k`: one sigmoid unit scores the two
      classes 0 and 1, a softmax layer has one unit per class. */
  predicate HeadAccepts(units: int, act: Activation, k: int)
  {
    match act
    case Sigmoid => units == 1 && 0 <= k <= 1
    case Softmax => 0 <= k < units
    case Relu => false
  }

  /** The output layer and the loss are chosen together: a binary
      cross-entropy loss exactly when the head is one sigmoid unit, and the
      head scores exactly the class indices below `numClasses`. */
  lemma OutputLayerFitsClasses(numClasses: int, k: int)
    ensures var (units, act) := LastLayerUnitsAndActivation(numClasses);
      (LossFor(numClasses) == BinaryCrossentropy <==> act == Sigmoid && units == 1) &&
      (HeadAccepts(units, act, k) <==> 0 <= k < numClasses)
  {
  }

  /** The four layers one pass of the `for _ in range(blocks - 1)` loop adds. */
  function ConvBlock(filters: int, kernelSize: int, dropoutRate: real): seq<Layer>
  {
    [Dropout(dropoutRate),
     SeparableConv1D(filters, kernelSize, Relu),
     SeparableConv1D(filters, kernelSize, Relu),
     MaxPooling1D(PoolSize)]
  }

  /** `n` convolution blocks in a row. */
  function ConvBlocks(n: nat, filters: int, kernelSize: int, dropoutRate: real): seq<Layer>
  {
    if n == 0 then [] else ConvBlocks(n - 1, filters, kernelSize, dropoutRate) + ConvBlock(filters, kernelSize, dropoutRate)
  }

  /** The layers after the blocks: two wider convolutions, pooling, dropout
      and the output layer. */
  function Head(numClasses: int, filters: int, kernelSize: int): seq<Layer>
  {
    var (units, act) := LastLayerUnitsAndActivation(numClasses);
    [SeparableConv1D(filters * 2, kernelSize, Relu),
     SeparableConv1D(filters * 2, kernelSize, Relu),
     GlobalAveragePooling1D,
     Dropout(HeadDropoutRate),
     Dense(units, act)]
  }

  /** How many times `range(blocks - 1)` runs: never when `blocks <= 1`. */
  function BlockRepeats(blocks: int): (n: nat)
    ensures blocks >= 1 ==> n == blocks - 1
    ensures blocks < 1 ==> n == 0
  {
    if blocks > 1 then blocks - 1 else 0
  }

  /** Specification of `sep_cnn_model`: the layers it adds, in order. */
  function SepCnnLayers(inputShape: int, numClasses: int, numFeatures: int,
                        blocks: int, filters: int, kernelSize: int, dropoutRate: real): seq<Layer>
  {
    [Embedding(numFeatures, EmbeddingDim, inputShape)]
    + ConvBlocks(BlockRepeats(blocks), filters, kernelSize, dropoutRate)
    + Head(numClasses, filters, kernelSize)
  }

  /** A Keras `Sequential` model, seen as the list of layers added to it. */
  class Sequential {
    var layers: seq<Layer>

    constructor ()
      ensures layers == []
    {
      layers := [];
    }

    method Add(layer: Layer)
      modifies this
      ensures layers == old(layers) + [layer]
    {
      layers := layers + [layer];
    }
  }

  /** `sep_cnn_model`: adds the embedding, `blocks - 1` convolution blocks
      and the head to a new `Sequential`. */
  method SepCnnModel(inputShape: int, numClasses: int, numFeatures: int,
                     blocks: int, filters: int, kernelSize: int, dropoutRate: real)
    returns (model: Sequential)
    ensures fresh(model)
    ensures model.layers == SepCnnLayers(inputShape, numClasses, numFeatures, blocks, filters, kernelSize, dropoutRate)
  {
    var (opUnits, opActivation) := LastLayerUnitsAndActivation(numClasses);
    model := new Sequential();
    model.Add(Embedding(numFeatures, EmbeddingDim, inputShape));
    var i := 0;
    while i < blocks - 1
      invariant 0 <= i <= BlockRepeats(blocks)
      invariant model.layers == [Embedding(numFeatures, EmbeddingDim, inputShape)] + ConvBlocks(i, filters, kernelSize, dropoutRate)
    {
      model.Add(Dropout(dropoutRate));
      model.Add(SeparableConv1D(filters, kernelSize, Relu));
      model.Add(SeparableConv1D(filters, kernelSize, Relu));
      model.Add(MaxPooling1D(PoolSize));
      i := i + 1;
    }
    model.Add(SeparableConv1D(filters * 2, kernelSize, Relu));
    model.Add(SeparableConv1D(filters * 2, kernelSize, Relu));
    model.Add(GlobalAveragePooling1D);
    model.Add(Dropout(HeadDropoutRate));
    model.Add(Dense(opUnits, opActivation));
  }

  lemma {:induction false} ConvBlocksLength(n: nat, filters: int, kernelSize: int, dropoutRate: real)
    ensures |ConvBlocks(n, filters, kernelSize, dropoutRate)| == 4 * n
  {
    if n > 0 {
      ConvBlocksLength(n - 1, filters, kernelSize, dropoutRate);
    }
  }

  /** Layer `4 * k + j` of the blocks is layer `j` of one block. */
  lemma {:induction false} ConvBlocksAt(n: nat, filters: int, kernelSize: int, dropoutRate: real, k: nat, j: nat)
    requires k < n && j < 4
    ensures |ConvBlocks(n, filters, kernelSize, dropoutRate)| == 4 * n
    ensures ConvBlocks(n, filters, kernelSize, dropoutRate)[4 * k + j] == ConvBlock(filters, kernelSize, dropoutRate)[j]
  {
    ConvBlocksLength(n, filters, kernelSize, dropoutRate);
    ConvBlocksLength(n - 1, filters, kernelSize, dropoutRate);
    if k < n - 1 {
      ConvBlocksAt(n - 1, filters, kernelSize, dropoutRate, k, j);
    }
  }

  /** The shape of the network: `4 * blocks + 2` layers (six when
      `blocks <= 1`), the embedding first, then the blocks, then the head,
      whose last layer is the output layer the class count selects. */
  lemma SepCnnShape(inputShape: int, numClasses: int, numFeatures: int,
                    blocks: int, filters: int, kernelSize: int, dropoutRate: real)
    ensures var layers := SepCnnLayers(inputShape, numClasses, numFeatures, blocks, filters, kernelSize, dropoutRate);
      var b := if blocks >= 1 then blocks else 1;
      var (units, act) := LastLayerUnitsAndActivation(numClasses);
      |layers| == 4 * b + 2 &&
      layers[0] == Embedding(numFeatures, EmbeddingDim, inputShape) &&
      layers[4 * b - 3..] == Head(numClasses, filters, kernelSize) &&
      layers[|layers| - 1] == Dense(units, act)
  {
    ConvBlocksLength(BlockRepeats(blocks), filters, kernelSize, dropoutRate);
  }

  /** Layer `1 + 4 * k + j`, for a block `k < blocks - 1`, is layer `j` of a block:
      dropout, two separable convolutions of `filters` filters, pooling of size 3. */
  lemma SepCnnBlockLayer(inputShape: int, numClasses: int, numFeatures: int,
                         blocks: int, filters: int, kernelSize: int, dropoutRate: real, k: nat, j: nat)
    requires k < blocks - 1 && j < 4
    ensures var layers := SepCnnLayers(inputShape, numClasses, numFeatures, blocks, filters, kernelSize, dropoutRate);
      1 + 4 * k + j < |layers| &&
      layers[1 + 4 * k + j] == ConvBlock(filters, kernelSize, dropoutRate)[j]
  {
    ConvBlocksAt(BlockRepeats(blocks), filters, kernelSize, dropoutRate, k, j);
  }

  /** The network `train` builds (two blocks, 64 filters, kernel 4, dropout 0.5)
      has exactly these ten layers. */
  lemma TrainNetworkLayers(inputShape: int, numClasses: int, numFeatures: int)
    ensures var (units, act) := LastLayerUnitsAndActivation(numClasses);
      SepCnnLayers(inputShape, numClasses, numFeatures, TrainBlocks, TrainFilters, TrainKernelSize, TrainDropoutRate) ==
      [Embedding(numFeatures, 200, inputShape),
       Dropout(0.5), SeparableConv1D(64, 4, Relu), SeparableConv1D(64, 4, Relu), MaxPooling1D(3),
       SeparableConv1D(128, 4, Relu), SeparableConv1D(128, 4, Relu),
       GlobalAveragePooling1D, Dropout(0.5), Dense(units, act)]
  {
    assert ConvBlocks(1, TrainFilters, TrainKernelSize, TrainDropoutRate) == ConvBlock(TrainFilters, TrainKernelSize, TrainDropoutRate);
  }
}
