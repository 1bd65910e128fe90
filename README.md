# Verified model of the AutoNLP CNN baseline (`cnn/model.py`)

The baseline classifies English or Chinese text with a separable-convolution
network. Most of `AutoDL_simple_baseline_models/cnn/model.py` drives Keras,
scikit-learn, jieba and pickle. This project models the deterministic logic
around those calls and proves what that logic promises:

- `Cjk`: the CJK code-point test `_is_chinese_char` and the pass
  `_tokenize_chinese_chars` that puts spaces around every CJK character.
  Text is a sequence of code points, as Python iterates a `str`.
- `Network`: `_get_last_layer_units_and_activation`, the loss `train`
  compiles with, and `sep_cnn_model`. The network is an ordered list of
  layer records grown by a `Sequential` object's `Add`, not a neural network.
- `Vectorize`: `max_length` and `num_features` in `sequentialize_data`.
  The Keras tokenizer is a pair of functions given as parameters.
- `Labels`: `OHE_to` (row-wise first argmax) and the loop in `Model.test`
  that writes ones into a zero `array2`, with round trips both ways.
- `ConfigFile`: `str(max_length)` as written to `model.config`, and
  `int(text.strip())` as read back.
- `Lifecycle`: the `Model` class and its `done_training` flag, with a `Disk`
  class that holds the three artifacts by path. `Train` runs at most once.
  It saves the network, the tokenizer and the length. `Test` loads them and
  expands the predictions. Segmentation (jieba), the tokenizer, padding and
  `predict_classes` are functions passed in as `Collaborators`.
- `Errors`: the exceptions the code lets escape, as a `Result` value.

Behaviour of the code worth noting:
- Each convolution block is dropout, two separable convolutions and a
  pooling layer.
- Every class count other than 2 gets a softmax layer with that many units.
  This includes 1, 0 and negative counts; there is no separate multi-class test.
- `test` does not look at `done_training`.

## Model

| member | source | states |
|---|---|---|
| `Cjk.IsChineseChar` | AutoDL_simple_baseline_models/cnn/model.py:134-146 | a code point that passes the test lies between 0x3400 and 0x2FA1F, so ASCII (the space included) is never CJK |
| `Cjk.IsChineseCharBlocks` | AutoDL_simple_baseline_models/cnn/model.py:136-146 | the test is true exactly inside one of the eight listed inclusive blocks and false everywhere else |
| `Cjk.MergedBlocksSeparated` | AutoDL_simple_baseline_models/cnn/model.py:136-143 | the six merged ranges are ascending and separated by gaps, so they are a second, disjoint description of the eight blocks |
| `Cjk.IsChineseCharMerged` | AutoDL_simple_baseline_models/cnn/model.py:136-143 | the eight blocks are the same set as six disjoint ascending ranges (Extensions C to E touch and merge) |
| `Cjk.TokenizeChineseChars` | AutoDL_simple_baseline_models/cnn/model.py:149-160 | the loop's output is the concatenation, in order, of `" " + c + " "` for each CJK character `c` and of `c` for any other character |
| `Cjk.TokenizedLength` | AutoDL_simple_baseline_models/cnn/model.py:151-160 | the output is longer than the input by exactly two per CJK character |
| `Cjk.TokenizedNoCjk` | AutoDL_simple_baseline_models/cnn/model.py:151-160 | text without CJK characters is returned unchanged |
| `Cjk.TokenizedAppend` | AutoDL_simple_baseline_models/cnn/model.py:152-159 | the pass distributes over concatenation of texts |
| `Cjk.TokenizedLastNotCjk` | AutoDL_simple_baseline_models/cnn/model.py:154-159 | a non-empty output never ends in a CJK character |
| `Cjk.TokenizedSpaced` | AutoDL_simple_baseline_models/cnn/model.py:150-160 | every CJK character of the output has a space immediately before and after it |
| `Cjk.UntokenizeTokenized` | AutoDL_simple_baseline_models/cnn/model.py:149-160 | the pass loses nothing: an inverse recovers the original text from every output |
| `Network.LastLayerUnitsAndActivation` | AutoDL_simple_baseline_models/cnn/model.py:69-84 | sigmoid exactly when there are 2 classes, and then 1 unit; otherwise softmax with one unit per class |
| `Network.LossFor` | AutoDL_simple_baseline_models/cnn/model.py:227-230 | binary cross-entropy exactly when there are 2 classes, sparse categorical cross-entropy otherwise |
| `Network.OutputLayerFitsClasses` | AutoDL_simple_baseline_models/cnn/model.py:78-84 | for every class count, the loss is binary exactly when the head is one sigmoid unit, and the head scores exactly the class indices below the class count |
| `Network.BlockRepeats` | AutoDL_simple_baseline_models/cnn/model.py:99 | `range(blocks - 1)` runs `blocks - 1` times for `blocks >= 1` and never otherwise |
| `Network.Sequential.constructor` | AutoDL_simple_baseline_models/cnn/model.py:96 | a new model has no layers |
| `Network.Sequential.Add` | AutoDL_simple_baseline_models/cnn/model.py:97-131 | `add` appends one layer at the end and changes nothing else |
| `Network.SepCnnModel` | AutoDL_simple_baseline_models/cnn/model.py:87-132 | the layers added are the embedding, the repeated blocks, then the head, in that order (the loop keeps "embedding + i blocks") |
| `Network.SepCnnShape` | AutoDL_simple_baseline_models/cnn/model.py:96-132 | the network has `4 * blocks + 2` layers (6 when `blocks <= 1`), starts with `Embedding(num_features, 200, input_shape)`, ends with two `2 * filters` convolutions, pooling, `Dropout(0.5)` and the `Dense` layer the class count selects |
| `Network.SepCnnBlockLayer` | AutoDL_simple_baseline_models/cnn/model.py:99-113 | layer `1 + 4k + j` of block `k < blocks - 1` is dropout, convolution, convolution or pooling of size 3, by `j` |
| `Network.ConvBlocksAt` | AutoDL_simple_baseline_models/cnn/model.py:99-113 | `n` blocks hold `4n` layers, and layer `4k + j` is layer `j` of a block |
| `Network.TrainNetworkLayers` | AutoDL_simple_baseline_models/cnn/model.py:220-226 | the network `train` asks for (2 blocks, 64 filters, kernel 4) is exactly these ten layers |
| `Vectorize.TextsToSequences` | AutoDL_simple_baseline_models/cnn/model.py:45 | one token sequence per text, in order |
| `Vectorize.Longest` | AutoDL_simple_baseline_models/cnn/model.py:50 | the length of some sequence of the list, and no sequence is longer |
| `Vectorize.MaxLength` | AutoDL_simple_baseline_models/cnn/model.py:50-52 | fails exactly on an empty list; otherwise the largest of the lengths each capped at `MAX_SEQUENCE_LENGTH`, never above the cap |
| `Vectorize.NumFeatures` | AutoDL_simple_baseline_models/cnn/model.py:59 | at most `TOP_K` and at most the vocabulary size plus one, and equal to one of the two |
| `Vectorize.SequentializeData` | AutoDL_simple_baseline_models/cnn/model.py:31-63 | fails exactly when there are no training texts; the tokenizer has `num_words` 20000 and the fitted word index; length and feature count as above |
| `Vectorize.SequentializeBounds` | AutoDL_simple_baseline_models/cnn/model.py:50-59 | for a non-empty training set, `0 <= max_length <= MAX_SEQUENCE_LENGTH` and `1 <= num_features <= TOP_K` |
| `Labels.ArgMax` | AutoDL_simple_baseline_models/cnn/model.py:182 | an index of the row holding a largest entry, with every earlier entry strictly smaller (the first maximum) |
| `Labels.OheTo` | AutoDL_simple_baseline_models/cnn/model.py:181-182 | fails exactly when rows have no columns; otherwise one class index per row, each below the column count and the row's first maximum |
| `Labels.OneHotMatrix` | AutoDL_simple_baseline_models/cnn/model.py:280-282 | the expected result has `test_num` rows of `class_num` entries |
| `Labels.ExpandPredictions` | AutoDL_simple_baseline_models/cnn/model.py:280-282 | fails with an index error exactly when there are more predictions than rows or a prediction is not below `class_num`; otherwise a `test_num x class_num` matrix with a 1 at `[i][result[i]]` for each prediction and 0 everywhere else, in a newly allocated array |
| `Labels.ArgMaxOneHot` | AutoDL_simple_baseline_models/cnn/model.py:182 | decoding a one-hot row gives the column of its 1 |
| `Labels.OneHotOfArgMax` | AutoDL_simple_baseline_models/cnn/model.py:182 | a one-hot row is rebuilt from its decoded index |
| `Labels.DecodeEncode` | AutoDL_simple_baseline_models/cnn/model.py:280-282 | expanding class indices and decoding with `OHE_to` gives the indices back |
| `Labels.EncodeDecode` | AutoDL_simple_baseline_models/cnn/model.py:280-282 | decoding a one-hot matrix and expanding the indices into a matrix of as many rows rebuilds the matrix |
| `Labels.ExpandExample` | AutoDL_simple_baseline_models/cnn/model.py:280-282 | with 3 classes, 5 rows and predictions `[0, 2, 1, 0, 2]` the matrix is `[1,0,0],[0,0,1],[0,1,0],[1,0,0],[0,0,1]` |
| `ConfigFile.NatToDecimal` | AutoDL_simple_baseline_models/cnn/model.py:249 | a non-empty string of decimal digits, with no leading zero for a positive number |
| `ConfigFile.IntToString` | AutoDL_simple_baseline_models/cnn/model.py:249 | starts with a minus sign exactly for a negative number |
| `ConfigFile.ParseInt` | AutoDL_simple_baseline_models/cnn/model.py:265 | succeeds exactly when the text is an optional `+` or `-` followed by one or more digits, with the value of the digits negated after a `-`; otherwise a value error |
| `ConfigFile.DigitsValueOfDecimal` | AutoDL_simple_baseline_models/cnn/model.py:249 | the digits written for a number have that number as their value |
| `ConfigFile.Strip` | AutoDL_simple_baseline_models/cnn/model.py:265 | the result neither starts nor ends with whitespace, and it is the part of the text between a run of leading and a run of trailing whitespace |
| `ConfigFile.WriteConfig` | AutoDL_simple_baseline_models/cnn/model.py:249 | the text written for a length has no whitespace at its ends, is decimal digits after an optional sign, and starts with a minus sign exactly for a negative length |
| `ConfigFile.ReadConfig` | AutoDL_simple_baseline_models/cnn/model.py:265 | reading the file fails only with a value error, and a blank file always fails |
| `ConfigFile.ReadWriteConfig` | AutoDL_simple_baseline_models/cnn/model.py:248-265 | the length read back from `model.config` is the length written there, for every integer |
| `Lifecycle.PrepareTexts` | AutoDL_simple_baseline_models/cnn/model.py:212-214 | texts are segmented one by one exactly when the language is `"ZH"`, and left unchanged otherwise |
| `Lifecycle.Load` | AutoDL_simple_baseline_models/cnn/model.py:261-266 | loading succeeds only when all three files are present in the directory |
| `Lifecycle.ArtifactPathsDistinct` | AutoDL_simple_baseline_models/cnn/model.py:245-248 | the three artifact paths in one directory are different |
| `Lifecycle.Saved` | AutoDL_simple_baseline_models/cnn/model.py:245-250 | saving adds exactly the three artifact paths of the directory to the files present, and leaves every other file as it was |
| `Lifecycle.Predictions` | AutoDL_simple_baseline_models/cnn/model.py:261-277 | among the failures modelled, prediction fails exactly when loading the three artifacts fails, with the same error, or when the stored length is negative, with a negative-dimension error from padding |
| `Lifecycle.SaveLoad` | AutoDL_simple_baseline_models/cnn/model.py:245-266 | loading what was saved into a directory gives back the same network, tokenizer and length, whatever else the directory held |
| `Lifecycle.TrainPlan` | AutoDL_simple_baseline_models/cnn/model.py:210-243 | among the failures modelled: no training texts (empty input), then a label matrix without columns (empty axis), then a number of label rows different from the number of texts (rejected by `fit`); otherwise the bundle to save |
| `Lifecycle.Disk.Write` | AutoDL_simple_baseline_models/cnn/model.py:245-250 | writing a file replaces that one path and no other |
| `Lifecycle.Model.constructor` | AutoDL_simple_baseline_models/cnn/model.py:188-198 | a new model has not been trained and keeps its metadata and two directories |
| `Lifecycle.Model.Train` | AutoDL_simple_baseline_models/cnn/model.py:200-252 | once trained, a call changes neither the flag nor the disk; otherwise a failure leaves both unchanged, and success writes exactly the three artifacts into the output directory and sets the flag |
| `Lifecycle.Model.Test` | AutoDL_simple_baseline_models/cnn/model.py:254-283 | an error from loading or padding is passed on unchanged, and a negative `test_num` or `class_num` is a negative-dimension error; otherwise, among the failures modelled, the call fails with an index error exactly when the predictions do not fit the `test_num x class_num` matrix, and succeeds with a newly allocated array of exactly `test_num` rows and `class_num` columns holding the one-hot matrix of the predictions for the test texts |
| `Lifecycle.TrainPlanShape` | AutoDL_simple_baseline_models/cnn/model.py:216-232 | a successful run has a length in `[0, 200]`, a ten-layer network whose embedding has `1..20000` features over inputs of that length, and the output layer and loss the class count selects |
| `Lifecycle.TrainingLabelsFitHead` | AutoDL_simple_baseline_models/cnn/model.py:235-237 | with one label column per class, every index `OHE_to` passes to `fit` is a target the output layer scores |
| `Lifecycle.TestUsesTrainingArtifacts` | AutoDL_simple_baseline_models/cnn/model.py:245-277 | testing from the directory training wrote uses the same network, tokenizer and length, with the test texts prepared the same way |

## Left out

- Keras training and inference are not modelled: `compile`, `fit` with early stopping, `predict_classes`, `save` and `load_model`. A saved network keeps only its layer list and loss, not its weights. Prediction is a function passed in as a parameter.
- The Keras tokenizer is given as two functions: fitting a word index, and mapping one text to token indices. `pad_sequences` is part of the prediction function passed to `Test`. The padded training matrix only feeds `fit`, so it is not computed. The embedding's input length is `max_length`, because padding to `maxlen` gives rows of exactly that length. Which side is padded or truncated is not modelled.
- jieba segmentation (`_tokenize_chinese_words`) is a function passed in as a parameter.
- `vectorize_data` (TF-IDF from scikit-learn) is not modelled: it is a foreign library with float weights, and nothing in the file calls it.
- The `val_contents` branch of `sequentialize_data` is not modelled: `train` never passes validation texts.
- The tokenizer's hard-coded `num_words=20000` is recorded, but no link to `TOP_K` is assumed.
- The `print` in `train` and the `remaining_time_budget` argument are left out. The argument is never read.
- Missing metadata keys (a `KeyError`) are not modelled; the metadata is a record with the four fields read.
- Files are a map from path to artifact. The byte encoding of `model.config` is not modelled: the text is ASCII, so bytes and characters agree. Pickle is modelled as storing the tokenizer value unchanged.
- `ConfigFile.ParseInt`: does not accept the underscores between digits or the non-ASCII digits that Python's `int` accepts. `str` of an integer never produces either.
- `ConfigFile.Strip`: removes the whitespace characters below U+0080 only. It keeps U+0085, U+00A0 and the other Unicode whitespace that `str.strip` removes. `str` of an integer never produces any of them.
- `Lifecycle.TrainPlan`: of the errors raised inside Keras, only `fit` rejecting different numbers of inputs and labels is modelled. Other errors from `fit`, `compile` or layer building count as success in the model: for example a class index outside the output layer, or too few samples for the validation split.
- `Lifecycle.Model.Train`: the labels are taken to be a numpy array. The documented type of `y_train`, a plain list of lists, has no `shape`, so `train` raises an `AttributeError` at the `print` after `fit` (model.py:244). It then writes no artifact and leaves `done_training` false. The model instead returns `Pass` and writes the three files.
- `Lifecycle.Predictions` (and so `Lifecycle.Model.Test`): of the errors raised inside `pad_sequences` and `predict_classes`, only padding to a negative stored length is modelled. Others count as success in the model: for example a network whose input length differs from the stored length.
- `Labels.ArgMax`: entries are exact reals, so NaN is not modelled. Predicted classes are non-negative, so numpy's negative indexing in the expansion loop does not arise.
- `Cjk.TokenizeChineseChars`: the list of one-character strings that is joined at the end is modelled directly as the code-point sequence it joins to. Nothing in the file calls this function.
- `Network.Layer`: the fixed `padding='same'` and the random-uniform initialisers of every separable convolution are not recorded.
