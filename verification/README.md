# Image super-resolution autoencoder: batch loader and network shapes

This project models the two pieces of logic of its own that the
super-resolution script `main.py` has, beside the deep-learning framework,
image library and filesystem calls it delegates to:

- **The batch loader** `get_train_batches`. It walks the data directory and
  keeps only files whose names carry an image extension. It skips grayscale
  images. Each colour image is resized to 256x256, and a degraded copy is
  made by scaling up 2x and back down by half. It accumulates
  (original, degraded) pairs until 256 are held. Then it either returns that
  first batch (load-only mode) or trains the autoencoder on it and starts a
  new batch (training mode).
  - `FileFilter` (`file_filter.dfy`) is the file-name filter.
  - `BatchLoader` (`batch_loader.dfy`) holds the loop body as `Step`, the
    whole walk as `Run`, and a closed form `Expected` stated over the
    qualifying images alone. `GetTrainBatches` is the loop itself, proved
    equal to `Run`.
- **The network builders** `get_encoder` and `get_decoder`, as shape
  propagation. A tensor is its (height, width, channels) triple, and each
  layer is the framework's documented rule for its output shape.
  `Network` (`network.dfy`) proves when the decoder's two skip `add`s are
  well-shaped, and what the models map their input to.

The walk is a given sequence of files, each with its name and what decoding
yields: the number of dimensions and an identifier for the pixel content.
Decode, resize and rescale are foreign calls. An image is therefore the term
naming the calls that produced it. Each training call is recorded, with its
arguments, in a log returned as a ghost value.

What the code does:

- The early return `if curr_batch_ind == max_batches` can never fire.
  `max_batches` is -1, while `curr_batch_ind` starts at 0 and only grows.
- In load-only mode with fewer than 256 qualifying images, the function
  returns the two empty initial lists. The images it accumulated stay in its
  local accumulators and are not returned.
- In training mode the result is the last completed batch, or the empty
  initial lists if no batch completed. A trailing partial batch is never
  trained on and never returned.
- The encoder maps (256, 256, 3) to (64, 64, 256): it has two 'same'
  poolings, and each halves 256 once.
- Under the equal-shape rule for `add`, the decoder builds exactly when the
  input's height and width are multiples of 4. It then maps (H, W, C) to (H, W, 3). Both returned models are the
  same (input, output) pair.
- The script sets `just_loaddata = True` unconditionally (main.py:183). So
  the training branch is never reached from the script, whatever the menu
  choice.

## Model

| member | source | states |
|---|---|---|
| `FileFilter.MatchesImageExtension` | main.py:105 | A name that passes the filter holds a dot and is at least four characters long. |
| `FileFilter.MatchesImageExtensionSpec` | main.py:105 | A name passes exactly when it is some stem, a dot and one of jpg, jpeg, JPEG, png, bmp, tiff, optionally followed by one final newline (Python's `$`). |
| `FileFilter.EndsWithDotExtensionIff` | main.py:105 | Trying the alternatives one by one matches exactly when some alternative ends the name. |
| `FileFilter.AcceptedNames` | main.py:105 | `car.jpg`, `car.jpeg`, `car.JPEG`, `scan.tiff` and `car.png` followed by a newline pass the filter. |
| `FileFilter.UpperCasePngRejected` | main.py:105 | Matching is case-sensitive: `x.PNG` is rejected. |
| `FileFilter.ShortTiffRejected` | main.py:105 | The whole extension must match: `x.tif` is rejected. |
| `FileFilter.InnerExtensionRejected` | main.py:105 | The extension must end the name: `x.jpg.zip` is rejected. |
| `Network.Apply` | main.py:41-87 | Per layer: only pooling and up-sampling change height and width, pooling shrinks each side to between half and all of it, pooling undoes up-sampling, and only a convolution changes the channel count. |
| `Network.ContractingStack` | main.py:59-72 | The stack the decoder re-derives keeps H and W at layer2 (64 channels), rounds them up to half at layer5 (128 channels) and up to a quarter at layer7 (256 channels). |
| `Network.GetEncoder` | main.py:40-55 | The encoder model starts at its input and ends at (ceil(H/4), ceil(W/4), 256). |
| `Network.GetDecoder` | main.py:58-91 | The decoder builds exactly when H and W are multiples of 4. It then returns two equal models, each mapping (H, W, C) to (H, W, 3). |
| `Network.BlockShapes` | main.py:41-84 | The shape each fixed run of layers produces: the 64- and 128-filter blocks, the pooling block and the two up-sampling blocks. |
| `Network.DecoderRederivesEncoder` | main.py:40-72 | The decoder's own contracting stack ends in the encoder's output shape, and both models share the same input. |
| `Network.ShapesAtScriptInput` | main.py:179-181 | For input (256, 256, 3): the add at main.py:79 joins two (128, 128, 128) tensors, the add at main.py:85 joins two (256, 256, 64) tensors, the encoder ends at (64, 64, 256), and both autoencoders map (256, 256, 3) to (256, 256, 3). |
| `BatchLoader.GetTrainBatches` | main.py:94-133 | The loop returns the arrays, and makes the training calls, that `Run` gives for the walk. The two results have equal length, and that length is 0 or 256. |
| `BatchLoader.Init` | main.py:95-101 | The loader starts with `current_batch` and `curr_batch_ind` at 0, both accumulators and both results empty lists, running, and with nothing trained. |
| `BatchLoader.Step` | main.py:105-132 | One file moves the batch counter on by at most one. Unless the early return fires, the loader either keeps running as it was or returns. Load-only mode never trains. Training mode makes one training call exactly when the counter grows, on the arrays just stacked and with the fixed arguments (4 epochs, batch 10, shuffled, 15% validation). |
| `BatchLoader.Run` | main.py:103-133 | Over a whole walk: the `curr_batch_ind == max_batches` exit of main.py:106-107 never fires, since `curr_batch_ind` starts at 0, only grows and so never goes negative while `max_batches` is -1, load-only mode never trains, and training mode has trained once per counted batch. |
| `BatchLoader.RunConsistent` | main.py:112-132 | Whenever the walk has not returned, the accumulators hold `current_batch` < 256 images each, paired position by position as original and degraded copy. |
| `BatchLoader.NonQualifyingStepChangesNothing` | main.py:105-115 | Between iterations, a file failing the filter or without a channel dimension leaves the whole state unchanged: no list grows and the counter stays. |
| `BatchLoader.StepKeepsConsistent` | main.py:110-132 | A step from a running, consistent state never takes the early return. Either it stays running with both lists of length `current_batch` < 256 and paired position by position, or it returns a full 256-pair batch in load-only mode. |
| `BatchLoader.StepExpected` | main.py:110-132 | One qualifying image moves the closed form one image on: it appends to the accumulators, and on the 256th image it stacks, then returns or trains and resets. |
| `BatchLoader.RunIsExpected` | main.py:103-133 | On every walk, the loader's final state is the closed form over the walk's qualifying images. |
| `BatchLoader.RunStopsAtReturn` | main.py:121-122 | Once a return has fired, files later in the walk change nothing. |
| `BatchLoader.LoadOnlyReturnsFirstBatch` | main.py:111-122 | Load-only mode with at least 256 qualifying images returns the first 256 in walk order, each paired with its degraded copy, and never trains. |
| `BatchLoader.LoadOnlyShortWalkReturnsEmptyLists` | main.py:98-133 | Load-only mode with fewer than 256 qualifying images returns the two empty initial lists and never trains. The accumulated images stay in the accumulator. |
| `BatchLoader.TrainingModeTrainsEachFullBatch` | main.py:112-133 | Training mode trains floor(Q/256) times, the i-th time on qualifying images 256i to 256i+255 (degraded inputs, original targets, 4 epochs, batch 10, shuffled, 15% validation). It ends with `curr_batch_ind` = floor(Q/256) and returns the last full batch, or the empty lists if there was none. |
| `BatchLoader.QualifyingConcat` | main.py:103-110 | The qualifying files of two consecutive walks are those of the first followed by those of the second. |
| `BatchLoader.TrailingPartialBatchDropped` | main.py:112-133 | In training mode, fewer than 256 qualifying images after a whole number of batches change neither the training calls nor the result. |
| `BatchLoader.ResultLengths` | main.py:100-133 | In both modes, the two returned values have the same length, and that length is 0 or 256. |
| `BatchLoader.OneBatchTrainsOnce` | main.py:116-132 | With exactly 256 qualifying images, training mode trains once, on all of them, and leaves the accumulators empty. |

## Left out

- `unpack_data` (main.py:23-36): directory creation, zip extraction, file moves and directory removal are filesystem I/O.
- Image decoding and resampling (`plt.imread`, `resize`, `rescale`): foreign floating-point library calls. An image is only the term naming those calls. A decode failure, which aborts the run in the source, is not modelled: every file in the walk decodes.
- `os.walk` and `os.path.join`: the walk is taken as one flat sequence of files, in the order visited, each with its name and its decoded attributes. The order the walk visits directories in is not modelled.
- The progress `print` at main.py:124 and the type difference between Python lists and NumPy arrays beyond the `PyList`/`NdArray` tag. Stacking is modelled as keeping the same images in the same order.
- `BatchLoader.GetTrainBatches`: image sizes and channel counts are not modelled. In the source, `np.array` at main.py:118-119 fails, and the run aborts, when the batch mixes channel counts (an RGBA PNG among RGB JPEGs, say). The model assumes every full batch stacks.
- The framework's numerics: convolution weights, the L1 activity regulariser and its coefficient, activation functions, `fit`/`predict`/`load_weights`, and dropout's randomness. Only shape rules are modelled, and a training call is only recorded with its arguments.
- `Network.GetDecoder`: the model uses the documented rule that `add` joins tensors of the same shape. Any broadcasting the framework may perform on dimensions of size 1 is not modelled, so such inputs count as shape mismatches.
- The `__main__` driver (main.py:165-193): console input, the menu decorator, printing, clipping of floats, the random sample index and plotting.
