/** The `Model` wrapper: `train` fits the vectoriser, builds the network and
    saves three artifacts, once; `test` loads them and expands the
    predicted classes into a one-hot matrix. Segmentation, tokenisation,
    padding and inference are collaborators given as functions. */
module Lifecycle {
  import opened Errors
  import opened Cjk
  import opened Network
  import opened Vectorize
  import opened Labels
  import opened ConfigFile

  /** The fields of the metadata dictionary the wrapper reads. */
  datatype Metadata = Metadata(language: string, trainNum: int, testNum: int, classNum: int)

  const Chinese := "ZH"

  /** What a file of the artifact directory holds. A saved network keeps
      its topology and its loss; its weights are not modelled. */
  datatype Artifact =
    | SavedModel(layers: seq<Layer>, loss: Loss)
    | PickledTokenizer(tokenizer: Tokenizer)
    | TextFile(text: string)

  const ModelFileName := "model.h5"
  const TokenizerFileName := "tokenizer.pickle"
  const ConfigFileName := "model.config"

  /** What training hands over to inference through the three files. */
  datatype Bundle = Bundle(layers: seq<Layer>, loss: Loss, tokenizer: Tokenizer, maxLength: int)

  /** The external libraries: word segmentation (`' '.join(jieba.cut(text))`),
      the tokenizer, and padding to a length followed by `predict_classes`
      on a network. */
  datatype Collaborators = Collaborators(
    segment: Text -> Text,
    tokenizerLib: TokenizerLib,
    predictClasses: (seq<Layer>, seq<seq<nat>>, int) -> seq<nat>)

  /** The files on disk, by path. */
  class Disk {
    var files: map<string, Artifact>

    constructor (files: map<string, Artifact>)
      ensures this.files == files
    {
      this.files := files;
    }

    method Write(path: string, artifact: Artifact)
      modifies this
      ensures files == old(files)[path := artifact]
    {
      files := files[path := artifact];
    }
  }

  /** Texts as the tokenizer sees them: segmented into words when the
      language is Chinese, untouched otherwise. */
  function PrepareTexts(language: string, texts: seq<Text>, segment: Text -> Text): (r: seq<Text>)
    ensures |r| == |texts|
    ensures language != Chinese ==> r == texts
    ensures language == Chinese ==> forall i :: 0 <= i < |texts| ==> r[i] == segment(texts[i])
  {
    if language == Chinese then seq(|texts|, i requires 0 <= i < |texts| => segment(texts[i])) else texts
  }

  /** The files after `train` has saved a bundle into directory `dir`. */
  function Saved(files: map<string, Artifact>, dir: string, b: Bundle): (r: map<string, Artifact>)
    ensures r.Keys == files.Keys + {dir + ModelFileName, dir + TokenizerFileName, dir + ConfigFileName}
    ensures forall p :: p in files && p != dir + ModelFileName && p != dir + TokenizerFileName && p != dir + ConfigFileName ==>
      r[p] == files[p]
  {
    files[dir + ModelFileName := SavedModel(b.layers, b.loss)]
         [dir + TokenizerFileName := PickledTokenizer(b.tokenizer)]
         [dir + ConfigFileName := TextFile(WriteConfig(b.maxLength))]
  }

  /** `test` loading the network, the tokenizer and the length, in that order. */
  function Load(files: map<string, Artifact>, dir: string): (r: Result<Bundle>)
    ensures r.Ok? ==> dir + ModelFileName in files && dir + TokenizerFileName in files && dir + ConfigFileName in files
  {
    var modelPath, tokenizerPath, configPath := dir + ModelFileName, dir + TokenizerFileName, dir + ConfigFileName;
    if modelPath !in files then Err(ArtifactMissing(modelPath))
    else if !files[modelPath].SavedModel? then Err(ArtifactUnreadable(modelPath))
    else if tokenizerPath !in files then Err(ArtifactMissing(tokenizerPath))
    else if !files[tokenizerPath].PickledTokenizer? then Err(ArtifactUnreadable(tokenizerPath))
    else if configPath !in files then Err(ArtifactMissing(configPath))
    else if !files[configPath].TextFile? then Err(ArtifactUnreadable(configPath))
    else
      var maxLength :- ReadConfig(files[configPath].text);
      Ok(Bundle(files[modelPath].layers, files[modelPath].loss, files[tokenizerPath].tokenizer, maxLength))
  }

  /** The three file names are different, so the three writes do not
      overwrite one another. */
  lemma ArtifactPathsDistinct(dir: string)
    ensures dir + ModelFileName != dir + TokenizerFileName
    ensures dir + ModelFileName != dir + ConfigFileName
    ensures dir + TokenizerFileName != dir + ConfigFileName
  {
    assert |dir + ModelFileName| == |dir| + 8;
    assert |dir + TokenizerFileName| == |dir| + 16;
    assert |dir + ConfigFileName| == |dir| + 12;
  }

  /** Loading what was saved into the same directory gives back the same
      network, the same tokenizer and the same length, whatever else the
      directory held. */
  lemma SaveLoad(files: map<string, Artifact>, dir: string, b: Bundle)
    ensures Load(Saved(files, dir, b), dir) == Ok(b)
  {
    var saved := Saved(files, dir, b);
    var modelPath, tokenizerPath, configPath := dir + ModelFileName, dir + TokenizerFileName, dir + ConfigFileName;
    ArtifactPathsDistinct(dir);
    assert saved[modelPath] == SavedModel(b.layers, b.loss);
    assert saved[tokenizerPath] == PickledTokenizer(b.tokenizer);
    assert saved[configPath] == TextFile(WriteConfig(b.maxLength));
    ReadWriteConfig(b.maxLength);
  }

  /** What `train` computes before it writes anything: the network, its
      loss, the fitted tokenizer and the length. */
  function TrainPlan(metadata: Metadata, xTrain: seq<Text>, yTrain: Matrix, labelCols: nat, lib: Collaborators): (r: Result<Bundle>)
    requires IsMatrix(yTrain, labelCols)
    ensures r.Err? <==> |xTrain| == 0 || labelCols == 0 || |yTrain| != |xTrain|
    ensures |xTrain| == 0 ==> r == Err(EmptyInput)
    ensures |xTrain| > 0 && labelCols == 0 ==> r == Err(EmptyAxis)
    ensures |xTrain| > 0 && labelCols > 0 && |yTrain| != |xTrain| ==> r == Err(SampleCountMismatch)
  {
    var texts := PrepareTexts(metadata.language, xTrain, lib.segment);
    var v :- SequentializeData(lib.tokenizerLib, texts, DefaultTopK, DefaultMaxSequenceLength);
    var layers := SepCnnLayers(v.maxLength, metadata.classNum, v.numFeatures,
                               TrainBlocks, TrainFilters, TrainKernelSize, TrainDropoutRate);
    var labels :- OheTo(yTrain, labelCols);
    if |labels| != |texts| then Err(SampleCountMismatch)
    else Ok(Bundle(layers, LossFor(metadata.classNum), v.tokenizer, v.maxLength))
  }

  /** What `test` feeds to the expansion loop: the classes predicted for the
      test texts with the loaded network, tokenizer and length. Padding to
      a negative stored length is refused as a negative dimension. */
  function Predictions(files: map<string, Artifact>, dir: string, metadata: Metadata, xTest: seq<Text>, lib: Collaborators): (r: Result<seq<nat>>)
    ensures r.Err? <==> Load(files, dir).Err? || Load(files, dir).value.maxLength < 0
    ensures r.Err? ==> r.error == if Load(files, dir).Err? then Load(files, dir).error else NegativeDimension
  {
    var b :- Load(files, dir);
    var texts := PrepareTexts(metadata.language, xTest, lib.segment);
    var sequences := TextsToSequences(lib.tokenizerLib, b.tokenizer, texts);
    if b.maxLength < 0 then Err(NegativeDimension)
    else Ok(lib.predictClasses(b.layers, sequences, b.maxLength))
  }

  class Model {
    var doneTraining: bool
    const metadata: Metadata
    const trainOutputPath: string
    const testInputPath: string

    constructor (metadata: Metadata, trainOutputPath: string := "./", testInputPath: string := "./")
      ensures !doneTraining
      ensures this.metadata == metadata
      ensures this.trainOutputPath == trainOutputPath && this.testInputPath == testInputPath
    {
      doneTraining := false;
      this.metadata := metadata;
      this.trainOutputPath := trainOutputPath;
      this.testInputPath := testInputPath;
    }

    /** `train`: nothing happens once training is done; otherwise the bundle
        is computed, saved into `trainOutputPath`, and training is marked done.
        A failure leaves the flag and the disk as they were. */
    method Train(disk: Disk, xTrain: seq<Text>, yTrain: Matrix, labelCols: nat, lib: Collaborators) returns (r: Outcome)
      requires IsMatrix(yTrain, labelCols)
      modifies this, disk
      ensures old(doneTraining) ==> r == Pass && doneTraining && disk.files == old(disk.files)
      ensures var plan := TrainPlan(metadata, xTrain, yTrain, labelCols, lib);
        !old(doneTraining) && plan.Err? ==> r == Fail(plan.error) && !doneTraining && disk.files == old(disk.files)
      ensures var plan := TrainPlan(metadata, xTrain, yTrain, labelCols, lib);
        !old(doneTraining) && plan.Ok? ==> r == Pass && doneTraining && disk.files == Saved(old(disk.files), trainOutputPath, plan.value)
    {
      if doneTraining {
        return Pass;
      }
      var texts := PrepareTexts(metadata.language, xTrain, lib.segment);
      var vectorized := SequentializeData(lib.tokenizerLib, texts, DefaultTopK, DefaultMaxSequenceLength);
      if vectorized.Err? {
        return Fail(vectorized.error);
      }
      var v := vectorized.value;
      var network := SepCnnModel(v.maxLength, metadata.classNum, v.numFeatures,
                                 TrainBlocks, TrainFilters, TrainKernelSize, TrainDropoutRate);
      var loss := LossFor(metadata.classNum);
      var labels := OheTo(yTrain, labelCols);
      if labels.Err? {
        return Fail(labels.error);
      }
      if |labels.value| != |texts| {
        return Fail(SampleCountMismatch);
      }
      disk.Write(trainOutputPath + ModelFileName, SavedModel(network.layers, loss));
      disk.Write(trainOutputPath + TokenizerFileName, PickledTokenizer(v.tokenizer));
      disk.Write(trainOutputPath + ConfigFileName, TextFile(WriteConfig(v.maxLength)));
      doneTraining := true;
      r := Pass;
    }

    /** `test`: the predictions of the loaded artifacts for `xTest`, as a
        `test_num x class_num` one-hot matrix. */
    method Test(disk: Disk, xTest: seq<Text>, lib: Collaborators) returns (r: Result<array2<real>>)
      ensures var p := Predictions(disk.files, testInputPath, metadata, xTest, lib);
        p.Err? ==> r.Err? && r.error == p.error
      ensures var p := Predictions(disk.files, testInputPath, metadata, xTest, lib);
        p.Ok? && (metadata.testNum < 0 || metadata.classNum < 0) ==> r.Err? && r.error == NegativeDimension
      ensures var p := Predictions(disk.files, testInputPath, metadata, xTest, lib);
        p.Ok? && metadata.testNum >= 0 && metadata.classNum >= 0 ==>
          (r.Ok? <==> FitsMatrix(p.value, metadata.testNum, metadata.classNum)) &&
          (r.Err? ==> r.error == IndexOutOfRange) &&
          (r.Ok? ==> r.value.Length0 == metadata.testNum && r.value.Length1 == metadata.classNum) &&
          (r.Ok? ==> Cells(r.value) == OneHotMatrix(p.value, metadata.testNum, metadata.classNum))
      ensures r.Ok? ==> fresh(r.value)
    {
      var p := Predictions(disk.files, testInputPath, metadata, xTest, lib);
      if p.Err? {
        return Err(p.error);
      }
      if metadata.testNum < 0 || metadata.classNum < 0 {
        return Err(NegativeDimension);
      }
      r := ExpandPredictions(p.value, metadata.testNum, metadata.classNum);
    }
  }

  /** A successful training run, for any training set: the length lies in
      `[0, 200]`, the network is the ten-layer one with an embedding of at
      most 20000 features over inputs of that length, and the output layer
      and loss match the class count. */
  lemma TrainPlanShape(metadata: Metadata, xTrain: seq<Text>, yTrain: Matrix, labelCols: nat, lib: Collaborators)
    requires IsMatrix(yTrain, labelCols)
    requires TrainPlan(metadata, xTrain, yTrain, labelCols, lib).Ok?
    ensures var b := TrainPlan(metadata, xTrain, yTrain, labelCols, lib).value;
      var (units, act) := LastLayerUnitsAndActivation(metadata.classNum);
      0 <= b.maxLength <= DefaultMaxSequenceLength &&
      |b.layers| == 10 &&
      b.layers[0].Embedding? && b.layers[0].inputLength == b.maxLength &&
      1 <= b.layers[0].inputDim <= DefaultTopK &&
      b.layers[9] == Dense(units, act) &&
      (b.loss == BinaryCrossentropy <==> act == Sigmoid)
  {
    var texts := PrepareTexts(metadata.language, xTrain, lib.segment);
    var v := SequentializeData(lib.tokenizerLib, texts, DefaultTopK, DefaultMaxSequenceLength).value;
    SequentializeBounds(lib.tokenizerLib, texts, DefaultTopK, DefaultMaxSequenceLength);
    TrainNetworkLayers(v.maxLength, metadata.classNum, v.numFeatures);
  }

  /** When the label matrix has one column per declared class, every class
      index `OHE_to` hands to `fit` is a target the output layer can score. */
  lemma TrainingLabelsFitHead(yTrain: Matrix, classNum: nat)
    requires IsMatrix(yTrain, classNum) && classNum >= 1
    ensures var labels := OheTo(yTrain, classNum);
      var (units, act) := LastLayerUnitsAndActivation(classNum);
      labels.Ok? && forall i :: 0 <= i < |labels.value| ==> HeadAccepts(units, act, labels.value[i])
  {
    var labels := OheTo(yTrain, classNum).value;
    forall i | 0 <= i < |labels|
      ensures HeadAccepts(LastLayerUnitsAndActivation(classNum).0, LastLayerUnitsAndActivation(classNum).1, labels[i])
    {
      OutputLayerFitsClasses(classNum, labels[i]);
    }
  }

  /** Train, then test from the directory training wrote to: inference uses
      exactly the network, tokenizer and length training produced, on the
      test texts prepared the same way, whatever else the directory held. */
  lemma TestUsesTrainingArtifacts(metadata: Metadata, xTrain: seq<Text>, yTrain: Matrix, labelCols: nat,
                                  xTest: seq<Text>, lib: Collaborators, files: map<string, Artifact>, dir: string)
    requires IsMatrix(yTrain, labelCols)
    requires TrainPlan(metadata, xTrain, yTrain, labelCols, lib).Ok?
    ensures var b := TrainPlan(metadata, xTrain, yTrain, labelCols, lib).value;
      Predictions(Saved(files, dir, b), dir, metadata, xTest, lib) ==
        Ok(lib.predictClasses(b.layers,
             TextsToSequences(lib.tokenizerLib, b.tokenizer, PrepareTexts(metadata.language, xTest, lib.segment)),
             b.maxLength))
  {
    TrainPlanShape(metadata, xTrain, yTrain, labelCols, lib);
    SaveLoad(files, dir, TrainPlan(metadata, xTrain, yTrain, labelCols, lib).value);
  }
}
