/**
  The batch loader `get_train_batches` of main.py:94-133.

  The directory walk is given as the sequence of files it visits, each with
  its name and what decoding it yields: the number of array dimensions and an
  identifier standing for the pixel content. The image library's decode,
  resize and rescale are foreign; an image is therefore the term that names
  the calls that produced it, so two images are equal exactly when they come
  from the same content through the same calls. Each call of the training
  routine is recorded as a `FitCall` in a log.

  `Step` is one pass of the inner loop body over a file, `Run` the whole walk;
  `Expected` is the closed form of where the walk ends, stated over the
  subsequence of qualifying images only; `GetTrainBatches` is the loop itself.
 */
module BatchLoader {
  import FileFilter

  /** `BATCH_SIZE` (main.py:20): images per accumulated batch. */
  const BatchSize: nat := 256
  /** `max_batches` (main.py:97). */
  const MaxBatches: int := -1
  /** Side length the originals are resized to (main.py:111). */
  const TargetSide: nat := 256
  /** `EPOCHS` (main.py:19) and the other arguments of the training call (main.py:126-128). */
  const Epochs: nat := 4
  const FitBatchSize: nat := 10
  const ValidationPercent: nat := 15

  /** One file met by the walk: its name, and the dimensions and content of its decoded array. */
  datatype Entry = Entry(filename: string, ndim: nat, id: nat)

  /** An image as the foreign calls that produced it. */
  datatype Image =
    | Decoded(id: nat)                            // plt.imread
    | Resized(source: Image, h: nat, w: nat)      // resize(image, (h, w))
    | Rescaled(source: Image, num: nat, den: nat) // rescale(image, num / den)

  /** The resized original of a file (main.py:111). */
  function Original(e: Entry): Image
  {
    Resized(Decoded(e.id), TargetSide, TargetSide)
  }

  /** The degraded copy: up-scaled by 2, then scaled by 0.5 (main.py:113-114). */
  function Degraded(original: Image): Image
  {
    Rescaled(Rescaled(original, 2, 1), 1, 2)
  }

  /**
    The two kinds of value the function can hand back: the initial Python
    lists (main.py:100-101) or arrays stacked from a full batch (main.py:118-119).
   */
  datatype Array = PyList(items: seq<Image>) | NdArray(items: seq<Image>)

  /** One call of `autoencoder.fit(x_train_down, x_train_n, ...)` (main.py:126-128). */
  datatype FitCall = FitCall(
    inputs: seq<Image>, targets: seq<Image>,
    epochs: nat, batchSize: nat, shuffle: bool, validationPercent: nat)

  /** Whether the walk goes on, or which `return` ended it. */
  datatype Exit = Running | EarlyReturn | BatchReturn

  /** The function's local state, plus the log of training calls. */
  datatype Loader = Loader(
    currentBatch: int,
    currBatchInd: int,
    xTrainList: seq<Image>,
    xTrainDownList: seq<Image>,
    xTrainN: Array,
    xTrainDown: Array,
    fits: seq<FitCall>,
    exit: Exit)

  /**
    The state before the walk (main.py:95-101): both counters at 0, both
    accumulators and both results empty, running, and nothing trained.
   */
  function Init(): (r: Loader)
    ensures Consistent(r) && r.exit == Running && r.fits == []
    ensures r.currentBatch == 0 && r.currBatchInd == 0
    ensures r.xTrainList == [] && r.xTrainDownList == []
    ensures r.xTrainN == r.xTrainDown == PyList([])
  {
    Loader(0, 0, [], [], PyList([]), PyList([]), [], Running)
  }

  /**
    The body of the inner loop (main.py:105-132) for one file. The batch
    counter grows by at most one; in load-only mode nothing is trained, and in
    training mode a training call is made exactly when the counter grows, on
    the arrays just stacked and with the fixed training arguments.
   */
  function Step(s: Loader, e: Entry, justLoadDataset: bool): (r: Loader)
    ensures r.currBatchInd == s.currBatchInd || r.currBatchInd == s.currBatchInd + 1
    ensures s.currBatchInd != MaxBatches ==> r.exit == s.exit || r.exit == BatchReturn
    ensures justLoadDataset ==> r.fits == s.fits
    ensures !justLoadDataset ==>
      if r.currBatchInd == s.currBatchInd then r.fits == s.fits
      else r.fits == s.fits + [FitCall(r.xTrainDown.items, r.xTrainN.items,
                                       Epochs, FitBatchSize, true, ValidationPercent)]
  {
    if !FileFilter.MatchesImageExtension(e.filename) then s
    else if s.currBatchInd == MaxBatches then s.(exit := EarlyReturn)
    else if e.ndim <= 2 then s
    else
      var reshaped := Original(e);
      var grown := s.(xTrainList := s.xTrainList + [reshaped],
                      xTrainDownList := s.xTrainDownList + [Degraded(reshaped)],
                      currentBatch := s.currentBatch + 1);
      if grown.currentBatch != BatchSize then grown
      else
        var full := grown.(currBatchInd := grown.currBatchInd + 1,
                           xTrainN := NdArray(grown.xTrainList),
                           xTrainDown := NdArray(grown.xTrainDownList));
        if justLoadDataset then full.(exit := BatchReturn)
        else
          var call := FitCall(full.xTrainDown.items, full.xTrainN.items,
                              Epochs, FitBatchSize, true, ValidationPercent);
          full.(fits := full.fits + [call], xTrainList := [], xTrainDownList := [], currentBatch := 0)
  }

  /**
    The state after walking `walk`; once a `return` has fired, later files are
    not visited. The early return never fires, the batch counter never goes
    negative, load-only mode never trains, and training mode trains once per
    counted batch.
   */
  function Run(walk: seq<Entry>, justLoadDataset: bool): (r: Loader)
    ensures r.exit != EarlyReturn && r.currBatchInd >= 0
    ensures justLoadDataset ==> r.fits == []
    ensures !justLoadDataset ==> |r.fits| == r.currBatchInd
    decreases |walk|
  {
    if walk == [] then Init()
    else
      var s := Run(walk[..|walk| - 1], justLoadDataset);
      if s.exit != Running then s else Step(s, walk[|walk| - 1], justLoadDataset)
  }

  // ---------------------------------------------------------------------------
  // The qualifying images and the closed form

  /** Passes the extension filter and has a channel dimension. */
  predicate Qualifies(e: Entry)
  {
    FileFilter.MatchesImageExtension(e.filename) && e.ndim > 2
  }

  /** The qualifying files of a walk, in walk order. */
  function Qualifying(walk: seq<Entry>): (q: seq<Entry>)
    ensures |q| <= |walk|
    ensures forall i :: 0 <= i < |q| ==> Qualifies(q[i])
    decreases |walk|
  {
    if walk == [] then []
    else
      var last := walk[|walk| - 1];
      Qualifying(walk[..|walk| - 1]) + (if Qualifies(last) then [last] else [])
  }

  function Originals(q: seq<Entry>): (r: seq<Image>)
    ensures |r| == |q|
  {
    seq(|q|, i requires 0 <= i < |q| => Original(q[i]))
  }

  function Degradeds(q: seq<Entry>): (r: seq<Image>)
    ensures |r| == |q|
  {
    seq(|q|, i requires 0 <= i < |q| => Degraded(Original(q[i])))
  }

  /** The `k`-th full batch of qualifying files (counting from 0). */
  function Chunk(q: seq<Entry>, k: nat): (c: seq<Entry>)
    requires BatchSize * (k + 1) <= |q|
    ensures |c| == BatchSize
  {
    q[BatchSize * k..BatchSize * (k + 1)]
  }

  /** The training call made for one full batch. */
  function TrainingCall(batch: seq<Entry>): FitCall
  {
    FitCall(Degradeds(batch), Originals(batch), Epochs, FitBatchSize, true, ValidationPercent)
  }

  /** The training calls for the first `k` full batches, in order. */
  function TrainingCalls(q: seq<Entry>, k: nat): (calls: seq<FitCall>)
    requires BatchSize * k <= |q|
    ensures |calls| == k
  {
    seq(k, i requires 0 <= i < k => TrainingCall(Chunk(q, i)))
  }

  /**
    Where the walk stands once its qualifying files are `q`: in load-only mode
    with a full batch, returned with that first batch; otherwise `|q| / 256`
    batches are complete, the last of them is held in the stacked arrays, and
    the remaining `|q| % 256` files sit in the accumulators.
   */
  function Expected(q: seq<Entry>, justLoadDataset: bool): Loader
  {
    if justLoadDataset && |q| >= BatchSize then
      var first := q[..BatchSize];
      Loader(BatchSize, 1, Originals(first), Degradeds(first),
             NdArray(Originals(first)), NdArray(Degradeds(first)), [], BatchReturn)
    else
      var k := |q| / BatchSize;
      var rest := q[BatchSize * k..];
      Loader(|q| % BatchSize, k, Originals(rest), Degradeds(rest),
             if k == 0 then PyList([]) else NdArray(Originals(Chunk(q, k - 1))),
             if k == 0 then PyList([]) else NdArray(Degradeds(Chunk(q, k - 1))),
             TrainingCalls(q, k), Running)
  }

  /** The accumulators stay paired and below a full batch between iterations (main.py:112-116, 130-132). */
  predicate Consistent(s: Loader)
  {
    && |s.xTrainList| == |s.xTrainDownList| == s.currentBatch
    && 0 <= s.currentBatch < BatchSize
    && s.currBatchInd >= 0
    && (forall i :: 0 <= i < |s.xTrainList| ==> s.xTrainDownList[i] == Degraded(s.xTrainList[i]))
  }

  // ---------------------------------------------------------------------------
  // Per-step facts

  /**
    A file that fails the filter, or decodes without a channel dimension,
    changes nothing: neither list grows and the counter stays (main.py:105, 110).
   */
  lemma NonQualifyingStepChangesNothing(s: Loader, e: Entry, justLoadDataset: bool)
    requires Consistent(s)
    requires !Qualifies(e)
    ensures Step(s, e, justLoadDataset) == s
  {
  }

  /**
    A step from a consistent state either stays consistent and running, or
    ends the walk through the batch return; the early return never fires.
   */
  lemma StepKeepsConsistent(s: Loader, e: Entry, justLoadDataset: bool)
    requires Consistent(s) && s.exit == Running
    ensures var t := Step(s, e, justLoadDataset);
      && t.exit != EarlyReturn
      && (t.exit == Running ==> Consistent(t))
      && (t.exit == BatchReturn ==> justLoadDataset && |t.xTrainN.items| == |t.xTrainDown.items| == BatchSize)
  {
    var t := Step(s, e, justLoadDataset);
    if Qualifies(e) && s.currentBatch + 1 < BatchSize {
      assert t.xTrainList == s.xTrainList + [Original(e)];
      assert t.xTrainDownList == s.xTrainDownList + [Degraded(Original(e))];
      forall i | 0 <= i < |t.xTrainList|
        ensures t.xTrainDownList[i] == Degraded(t.xTrainList[i])
      {
        if i < |s.xTrainList| {
          assert t.xTrainList[i] == s.xTrainList[i];
        }
      }
    }
  }

  /** Between iterations of the walk, the accumulators are consistent (main.py:112-116, 130-132). */
  lemma {:induction false} RunConsistent(walk: seq<Entry>, justLoadDataset: bool)
    ensures Run(walk, justLoadDataset).exit == Running ==> Consistent(Run(walk, justLoadDataset))
    decreases |walk|
  {
    if walk != [] {
      var prefix := walk[..|walk| - 1];
      RunConsistent(prefix, justLoadDataset);
      var s := Run(prefix, justLoadDataset);
      if s.exit == Running {
        StepKeepsConsistent(s, walk[|walk| - 1], justLoadDataset);
      }
    }
  }

  // ---------------------------------------------------------------------------
  // Sequence facts used by the closed form

  lemma OriginalsSnoc(q: seq<Entry>, e: Entry)
    ensures Originals(q + [e]) == Originals(q) + [Original(e)]
    ensures Degradeds(q + [e]) == Degradeds(q) + [Degraded(Original(e))]
  {
  }

  lemma TrainingCallsPrefix(q: seq<Entry>, tail: seq<Entry>, k: nat)
    requires BatchSize * k <= |q|
    ensures TrainingCalls(q + tail, k) == TrainingCalls(q, k)
  {
    forall i | 0 <= i < k
      ensures Chunk(q + tail, i) == Chunk(q, i)
    {
      assert BatchSize * (i + 1) <= BatchSize * k;
    }
  }

  lemma TrainingCallsSnoc(q: seq<Entry>, k: nat)
    requires BatchSize * (k + 1) <= |q|
    ensures TrainingCalls(q, k + 1) == TrainingCalls(q, k) + [TrainingCall(Chunk(q, k))]
  {
  }

  /** A qualifying file added to a walk still running moves the closed form one image on. */
  lemma {:induction false} StepExpected(q: seq<Entry>, e: Entry, justLoadDataset: bool)
    requires Qualifies(e)
    requires Expected(q, justLoadDataset).exit == Running
    ensures Step(Expected(q, justLoadDataset), e, justLoadDataset) == Expected(q + [e], justLoadDataset)
  {
    var s := Expected(q, justLoadDataset);
    var n := |q|;
    var k := n / BatchSize;
    var q' := q + [e];
    assert s.currBatchInd == k >= 0;
    assert q'[BatchSize * k..] == q[BatchSize * k..] + [e];
    OriginalsSnoc(q[BatchSize * k..], e);
    if n % BatchSize + 1 < BatchSize {
      assert (n + 1) / BatchSize == k && (n + 1) % BatchSize == n % BatchSize + 1;
      TrainingCallsPrefix(q, [e], k);
      if k > 0 {
        assert Chunk(q', k - 1) == Chunk(q, k - 1);
      }
    } else {
      assert (n + 1) / BatchSize == k + 1 && (n + 1) % BatchSize == 0;
      assert q'[BatchSize * k..] == Chunk(q', k);
      assert q'[BatchSize * (k + 1)..] == [];
      if justLoadDataset {
        assert k == 0;
        assert q'[..BatchSize] == q';
      } else {
        TrainingCallsPrefix(q, [e], k);
        TrainingCallsSnoc(q', k);
      }
    }
  }

  /** `Run` and the closed form agree on every walk. */
  lemma {:induction false} RunIsExpected(walk: seq<Entry>, justLoadDataset: bool)
    ensures Run(walk, justLoadDataset) == Expected(Qualifying(walk), justLoadDataset)
    decreases |walk|
  {
    if walk == [] {
      assert Expected([], justLoadDataset) == Init();
    } else {
      var prefix := walk[..|walk| - 1];
      var e := walk[|walk| - 1];
      RunIsExpected(prefix, justLoadDataset);
      var q := Qualifying(prefix);
      var s := Expected(q, justLoadDataset);
      if s.exit == Running {
        if Qualifies(e) {
          StepExpected(q, e, justLoadDataset);
        } else {
          assert Qualifying(walk) == q;
          NonQualifyingStepChangesNothing(s, e, justLoadDataset);
        }
      } else {
        assert justLoadDataset && |q| >= BatchSize;
        if Qualifies(e) {
          assert Qualifying(walk) == q + [e];
          assert (q + [e])[..BatchSize] == q[..BatchSize];
        } else {
          assert Qualifying(walk) == q;
          assert Run(walk, justLoadDataset) == s;
        }
      }
    }
  }

  /** Once a `return` has fired, the rest of the walk does not matter. */
  lemma {:induction false} RunStopsAtReturn(walk: seq<Entry>, n: nat, justLoadDataset: bool)
    requires n <= |walk|
    requires Run(walk[..n], justLoadDataset).exit != Running
    ensures Run(walk, justLoadDataset) == Run(walk[..n], justLoadDataset)
    decreases |walk| - n
  {
    if n < |walk| {
      assert walk[..|walk| - 1][..n] == walk[..n];
      RunStopsAtReturn(walk[..|walk| - 1], n, justLoadDataset);
    } else {
      assert walk[..n] == walk;
    }
  }

  // ---------------------------------------------------------------------------
  // What the loader does, over whole walks

  /**
    Load-only mode with at least 256 qualifying images returns the first 256
    of them, in walk order, each paired with its degraded copy, and trains never.
   */
  lemma LoadOnlyReturnsFirstBatch(walk: seq<Entry>)
    requires |Qualifying(walk)| >= BatchSize
    ensures var r := Run(walk, true); var q := Qualifying(walk);
      && r.exit == BatchReturn
      && r.xTrainN == NdArray(Originals(q[..BatchSize]))
      && r.xTrainDown == NdArray(Degradeds(q[..BatchSize]))
      && (forall i :: 0 <= i < BatchSize ==> r.xTrainDown.items[i] == Degraded(r.xTrainN.items[i]))
      && r.fits == []
  {
    RunIsExpected(walk, true);
  }

  /**
    Load-only mode with fewer than 256 qualifying images returns the two empty
    initial lists, not the images it accumulated, and trains never.
   */
  lemma LoadOnlyShortWalkReturnsEmptyLists(walk: seq<Entry>)
    requires |Qualifying(walk)| < BatchSize
    ensures var r := Run(walk, true);
      && r.xTrainN == PyList([]) && r.xTrainDown == PyList([])
      && r.fits == []
      && r.xTrainList == Originals(Qualifying(walk))
  {
    RunIsExpected(walk, true);
  }

  /**
    Training mode trains once per full batch of 256 consecutive qualifying
    images, counts the batches in `curr_batch_ind`, and returns the last full
    batch, or the empty initial lists when there was none.
   */
  lemma TrainingModeTrainsEachFullBatch(walk: seq<Entry>)
    ensures var r := Run(walk, false); var q := Qualifying(walk); var k := |q| / BatchSize;
      && r.exit == Running
      && r.currBatchInd == k
      && |r.fits| == k
      && (forall i :: 0 <= i < k ==>
            r.fits[i] == FitCall(Degradeds(q[BatchSize * i..BatchSize * (i + 1)]),
                                 Originals(q[BatchSize * i..BatchSize * (i + 1)]),
                                 Epochs, FitBatchSize, true, ValidationPercent))
      && (k == 0 ==> r.xTrainN == PyList([]) && r.xTrainDown == PyList([]))
      && (k > 0 ==>
            && r.xTrainN == NdArray(Originals(q[BatchSize * (k - 1)..BatchSize * k]))
            && r.xTrainDown == NdArray(Degradeds(q[BatchSize * (k - 1)..BatchSize * k])))
  {
    RunIsExpected(walk, false);
  }

  /** The qualifying files of two walks one after the other. */
  lemma {:induction false} QualifyingConcat(a: seq<Entry>, b: seq<Entry>)
    ensures Qualifying(a + b) == Qualifying(a) + Qualifying(b)
    decreases |b|
  {
    if b == [] {
      assert a + b == a;
    } else {
      var b' := b[..|b| - 1];
      assert (a + b)[..|a + b| - 1] == a + b';
      QualifyingConcat(a, b');
    }
  }

  /**
    In training mode a trailing partial batch is dropped: after a walk whose
    qualifying images make whole batches, walking on over fewer than 256 more
    qualifying images changes neither the training calls nor what is returned.
   */
  lemma {:induction false} TrailingPartialBatchDropped(walk: seq<Entry>, more: seq<Entry>)
    requires |Qualifying(walk)| % BatchSize == 0
    requires |Qualifying(more)| < BatchSize
    ensures var a := Run(walk, false); var b := Run(walk + more, false);
      && b.fits == a.fits && b.xTrainN == a.xTrainN && b.xTrainDown == a.xTrainDown
  {
    var q := Qualifying(walk);
    var extra := Qualifying(more);
    RunIsExpected(walk, false);
    RunIsExpected(walk + more, false);
    QualifyingConcat(walk, more);
    var k := |q| / BatchSize;
    assert (|q| + |extra|) / BatchSize == k;
    TrainingCallsPrefix(q, extra, k);
    if k > 0 {
      assert Chunk(q + extra, k - 1) == Chunk(q, k - 1);
    }
  }

  /**
    Whatever the mode and the walk, the two returned values have the same
    length, and that length is 0 or 256.
   */
  lemma ResultLengths(walk: seq<Entry>, justLoadDataset: bool)
    ensures var r := Run(walk, justLoadDataset);
      && |r.xTrainN.items| == |r.xTrainDown.items|
      && (|r.xTrainN.items| == 0 || |r.xTrainN.items| == BatchSize)
  {
    RunIsExpected(walk, justLoadDataset);
  }

  /**
    A walk whose qualifying images are exactly one batch, in training mode,
    trains once on all 256 and leaves the accumulators empty.
   */
  lemma OneBatchTrainsOnce(walk: seq<Entry>)
    requires |Qualifying(walk)| == BatchSize
    ensures var r := Run(walk, false); var q := Qualifying(walk);
      && r.fits == [TrainingCall(q)]
      && r.currentBatch == 0 && r.xTrainList == [] && r.xTrainDownList == []
  {
    RunIsExpected(walk, false);
    var q := Qualifying(walk);
    assert Chunk(q, 0) == q;
  }

  // ---------------------------------------------------------------------------
  // The loop

  /**
    `get_train_batches` (main.py:94-133). The walk is the sequence of files
    `os.walk` visits; `fitLog` records the training calls. What it returns,
    and what it trains on, is what `Run` describes, and so what `Expected`
    states about the qualifying images.
   */
  method GetTrainBatches(walk: seq<Entry>, justLoadDataset: bool)
    returns (xTrainN: Array, xTrainDown: Array, ghost fitLog: seq<FitCall>)
    ensures xTrainN == Run(walk, justLoadDataset).xTrainN
    ensures xTrainDown == Run(walk, justLoadDataset).xTrainDown
    ensures fitLog == Run(walk, justLoadDataset).fits
    ensures |xTrainN.items| == |xTrainDown.items|
    ensures |xTrainN.items| == 0 || |xTrainN.items| == BatchSize
  {
    var currentBatch: int := 0;
    var currBatchInd: int := 0;
    var maxBatches := MaxBatches;
    var xTrainList: seq<Image> := [];
    var xTrainDownList: seq<Image> := [];
    xTrainN := PyList([]);
    xTrainDown := PyList([]);
    fitLog := [];
    ResultLengths(walk, justLoadDataset);

    var i := 0;
    while i < |walk|
      invariant 0 <= i <= |walk|
      invariant currBatchInd >= 0
      invariant Run(walk[..i], justLoadDataset) ==
        Loader(currentBatch, currBatchInd, xTrainList, xTrainDownList,
               xTrainN, xTrainDown, fitLog, Running)
    {
      assert walk[..i + 1][..i] == walk[..i];
      var filename := walk[i].filename;
      if FileFilter.MatchesImageExtension(filename) {
        if currBatchInd == maxBatches {
          // The early return of main.py:106-107: `currBatchInd` starts at 0 and
          // only grows, so it never equals `maxBatches` (-1).
          assert false;
        }
        var image := walk[i];
        if image.ndim > 2 {
          var imageReshaped := Resized(Decoded(image.id), TargetSide, TargetSide);
          xTrainList := xTrainList + [imageReshaped];
          var imageDown := Rescaled(imageReshaped, 2, 1);
          xTrainDownList := xTrainDownList + [Rescaled(imageDown, 1, 2)];
          currentBatch := currentBatch + 1;
          if currentBatch == BatchSize {
            currBatchInd := currBatchInd + 1;
            xTrainN := NdArray(xTrainList);
            xTrainDown := NdArray(xTrainDownList);
            if justLoadDataset {
              RunStopsAtReturn(walk, i + 1, justLoadDataset);
              return;
            }
            fitLog := fitLog + [FitCall(xTrainDown.items, xTrainN.items,
                                        Epochs, FitBatchSize, true, ValidationPercent)];
            xTrainList := [];
            xTrainDownList := [];
            currentBatch := 0;
          }
        }
      }
      i := i + 1;
    }
    assert walk[..i] == walk;
  }
}
