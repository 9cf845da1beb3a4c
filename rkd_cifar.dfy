/**
 * The policy layer of the RKD baseline's Lightning module `RKD_Cifar`:
 * the training-mode guard of its constructor, the `forward` dispatch,
 * the dataset check of its data loaders, and the validation
 * accumulator that `validation_step` fills and `validation_end`
 * consumes and resets. Networks, the triplet criterion and the recall
 * metric live in modules outside this model and appear here as
 * uninterpreted function values.
 */
module RkdBaseline {
  import opened Wrappers
  import StrFlags

  /** One embedding vector produced by the student's embedding head. */
  type Embedding = seq<real>
  type Label = int
  /** A batch of input images, each flattened to its pixel values. */
  type Images = seq<seq<real>>
  /** A loss value; only passed along, never inspected. */
  type Loss = real

  datatype TrainMode = TEACHER | STUDENT

  /** The exceptions the module raises, one per distinct cause. */
  datatype Error =
    | NotImplementedYet     // ValueError("No implemented yet !"): STUDENT mode
    | InvalidForwardMode    // ValueError("mode should be teacher or student")
    | MissingTeacher        // `self.teacher` was never assigned
    | DatasetNotSupported   // ValueError('Dataset not supported !')
    | EmptyStack            // torch.stack of no validation outputs
    | EmptyConcat           // torch.cat of no accumulated batches
    | RecallIndexError      // rec[0] of an empty recall result

  /** The hyper-parameters this layer reads. */
  datatype HParams = HParams(
    dataset: string,
    l2normalize: string,
    outputSize: int,
    embeddingSize: int,
    recall: seq<int>,
    gpus: int,
    batchSize: int)

  /** The configuration `addEmbedding` gives the `LinearEmbedding` head. */
  datatype EmbeddingHead = EmbeddingHead(outputSize: int, embeddingSize: int, normalize: bool)

  /**
   * `addEmbedding`: sizes are copied from the hyper-parameters and
   * L2 normalisation is on exactly when `l2normalize` is the string
   * "true", compared case-sensitively (so "True" leaves it off, although
   * `str2bool("True")` holds).
   */
  function AddEmbedding(h: HParams): (e: EmbeddingHead)
    ensures e.outputSize == h.outputSize && e.embeddingSize == h.embeddingSize
    ensures e.normalize <==> StrFlags.IsExactlyTrue(h.l2normalize)
    ensures e.normalize ==> StrFlags.Str2Bool(h.l2normalize)
  {
    StrFlags.ExactTrueNarrowerThanStr2Bool(h.l2normalize);
    EmbeddingHead(h.outputSize, h.embeddingSize, h.l2normalize == "true")
  }

  /** Which sub-network `forward` hands the input to. */
  datatype Route = ToStudent | ToTeacher

  /** The dispatch of `forward`: only "student" and "teacher" are accepted. */
  function ForwardRoute(mode: string): (r: Result<Route, Error>)
    ensures r == Success(ToStudent) <==> mode == "student"
    ensures r == Success(ToTeacher) <==> mode == "teacher"
    ensures r.Failure? <==> mode != "student" && mode != "teacher"
    ensures r.Failure? ==> r.error == InvalidForwardMode
  {
    if mode == "student" then Success(ToStudent)
    else if mode == "teacher" then Success(ToTeacher)
    else Failure(InvalidForwardMode)
  }

  /** The two dataset names the loaders accept. */
  predicate DatasetSupported(name: string): (r: bool)
    ensures r ==> |name| >= 7 && name[..7] == "cifar10"
    ensures r ==> |name| == 7 || name[7..] == "0"
  {
    name == "cifar10" || name == "cifar100"
  }

  datatype Split = Train | Val | Test
  /** The torchvision dataset class that gets constructed. */
  datatype DatasetClass = CIFAR10
  /** Augmentation (pad, crop, flip) for training; normalisation only otherwise. */
  datatype Transform = TrainTransform | TestTransform

  /** What `DataLoader(...)` is built from. */
  datatype LoaderConfig = LoaderConfig(
    dataset: DatasetClass,
    trainSplit: bool,
    transform: Transform,
    distributedSampler: bool,
    batchSize: int)

  /**
   * `train_dataloader`, `val_dataloader` and `test_dataloader`: each
   * raises unless the dataset is "cifar10" or "cifar100", and otherwise
   * builds a CIFAR10 loader — also for "cifar100". Only the training
   * loader uses the training split and the augmenting transform; a
   * distributed sampler is used exactly when more than one GPU is set.
   */
  function Dataloader(h: HParams, split: Split): (r: Result<LoaderConfig, Error>)
    ensures r.Success? <==> DatasetSupported(h.dataset)
    ensures r.Failure? ==> r.error == DatasetNotSupported
    ensures r.Success? ==>
      && r.value.dataset == CIFAR10
      && (r.value.trainSplit <==> split == Train)
      && (r.value.transform == TrainTransform <==> split == Train)
      && (r.value.distributedSampler <==> h.gpus > 1)
      && r.value.batchSize == h.batchSize
  {
    if !DatasetSupported(h.dataset) then Failure(DatasetNotSupported)
    else
      var train := split == Train;
      Success(LoaderConfig(CIFAR10, train, if train then TrainTransform else TestTransform,
                           h.gpus > 1, h.batchSize))
  }

  /** The validation and test loaders are configured identically. */
  lemma ValAndTestLoadersAgree(h: HParams)
    ensures Dataloader(h, Val) == Dataloader(h, Test)
  {
  }

  /** `torch.cat` on a list of batches: all rows, batch after batch. */
  function Concat<T>(batches: seq<seq<T>>): (r: seq<T>)
    ensures |r| == TotalRows(batches)
    ensures forall i, j :: 0 <= i < |batches| && 0 <= j < |batches[i]| ==> batches[i][j] in r
  {
    if batches == [] then [] else batches[0] + Concat(batches[1..])
  }

  /** The number of rows over all batches. */
  function TotalRows<T>(batches: seq<seq<T>>): nat {
    if batches == [] then 0 else |batches[0]| + TotalRows(batches[1..])
  }

  /** Appending one batch appends its rows to the concatenation. */
  lemma {:induction false} ConcatAppend<T>(batches: seq<seq<T>>, b: seq<T>)
    ensures Concat(batches + [b]) == Concat(batches) + b
  {
    if batches != [] {
      assert (batches + [b])[1..] == batches[1..] + [b];
      ConcatAppend(batches[1..], b);
    }
  }

  /** What `validation_end` logs. */
  datatype ValMetrics = ValMetrics(recall: real)

  /**
   * The Lightning module in TEACHER mode. `student` is the student
   * backbone wrapped in its embedding head, `criterion` the triplet
   * loss; both are computed outside this model.
   */
  class RkdCifar {
    const hparams: HParams
    const mode: TrainMode
    const head: EmbeddingHead
    const student: Images -> seq<Embedding>
    const criterion: (seq<Embedding>, seq<Label>) -> Loss
    /** The recall cutoffs. */
    const K: seq<int>

    var trainStep: int
    var trainNumCorrect: int
    var valStep: int
    var valNumCorrect: int

    /** One entry per validation batch seen since the last `validation_end`. */
    var embeddingsAll: seq<seq<Embedding>>
    var labelsAll: seq<seq<Label>>

    /** Only TEACHER mode gets built; the accumulators pair up batch by batch. */
    ghost predicate Valid()
      reads this
    {
      mode == TEACHER && |embeddingsAll| == |labelsAll|
    }

    /** The TEACHER branch of `__init__`. */
    constructor Teacher(studentNet: Images -> seq<Embedding>, criterion: (seq<Embedding>, seq<Label>) -> Loss, h: HParams)
      ensures Valid()
      ensures hparams == h && mode == TEACHER && head == AddEmbedding(h)
      ensures this.student == studentNet && this.criterion == criterion
      ensures trainStep == 0 && trainNumCorrect == 0 && valStep == 0 && valNumCorrect == 0
      ensures embeddingsAll == [] && labelsAll == []
      ensures K == h.recall
    {
      hparams := h;
      mode := TEACHER;
      head := AddEmbedding(h);
      student := studentNet;
      this.criterion := criterion;
      trainStep, trainNumCorrect := 0, 0;
      valStep, valNumCorrect := 0, 0;
      embeddingsAll, labelsAll := [], [];
      K := h.recall;
    }

    /** `__init__`: STUDENT mode is refused, TEACHER mode starts with zeroed counters and empty accumulators. */
    static method Create(studentNet: Images -> seq<Embedding>, criterion: (seq<Embedding>, seq<Label>) -> Loss,
                         h: HParams, mode: TrainMode)
      returns (r: Result<RkdCifar, Error>)
      ensures mode == STUDENT ==> r == Failure(NotImplementedYet)
      ensures mode == TEACHER ==> r.Success?
      ensures r.Success? ==>
        && fresh(r.value) && r.value.Valid()
        && r.value.hparams == h && r.value.head == AddEmbedding(h)
        && r.value.student == studentNet && r.value.criterion == criterion
        && r.value.trainStep == 0 && r.value.trainNumCorrect == 0
        && r.value.valStep == 0 && r.value.valNumCorrect == 0
        && r.value.embeddingsAll == [] && r.value.labelsAll == []
        && r.value.K == h.recall
    {
      if mode == STUDENT {
        r := Failure(NotImplementedYet);
      } else {
        var m := new RkdCifar.Teacher(studentNet, criterion, h);
        r := Success(m);
      }
    }

    /**
     * `forward(x, mode)`: "student" runs the student; "teacher" would run
     * `self.teacher`, which this class never assigns, so it fails; any
     * other mode string is an error.
     */
    function Forward(x: Images, mode: string): (r: Result<seq<Embedding>, Error>)
      ensures mode == "student" ==> r == Success(student(x))
      ensures mode == "teacher" ==> r == Failure(MissingTeacher)
      ensures mode != "student" && mode != "teacher" ==> r == Failure(InvalidForwardMode)
    {
      match ForwardRoute(mode)
      case Success(ToStudent) => Success(student(x))
      case Success(ToTeacher) => Failure(MissingTeacher)
      case Failure(e) => Failure(e)
    }

    /** `training_step`: the criterion on the student's embeddings; no field changes. */
    method TrainingStep(x: Images, y: seq<Label>) returns (loss: Loss)
      requires Valid()
      ensures loss == criterion(student(x), y)
    {
      var embedding := student(x);
      loss := criterion(embedding, y);
    }

    /**
     * `validation_step`: one more entry at the end of each accumulator,
     * earlier entries untouched; the counters do not move.
     */
    method ValidationStep(x: Images, y: seq<Label>) returns (valLoss: Loss)
      requires Valid()
      modifies this
      ensures Valid()
      ensures embeddingsAll == old(embeddingsAll) + [student(x)]
      ensures labelsAll == old(labelsAll) + [y]
      ensures |embeddingsAll| == |labelsAll| == old(|embeddingsAll|) + 1
      ensures Concat(embeddingsAll) == Concat(old(embeddingsAll)) + student(x)
      ensures Concat(labelsAll) == Concat(old(labelsAll)) + y
      ensures valLoss == criterion(student(x), y)
      ensures trainStep == old(trainStep) && trainNumCorrect == old(trainNumCorrect)
      ensures valStep == old(valStep) && valNumCorrect == old(valNumCorrect)
    {
      var embedding := student(x);
      valLoss := criterion(embedding, y);
      ConcatAppend(embeddingsAll, embedding);
      ConcatAppend(labelsAll, y);
      embeddingsAll := embeddingsAll + [embedding];
      labelsAll := labelsAll + [y];
    }

    /**
     * `validation_end`: the recall of all accumulated rows, in append
     * order, at the first cutoff; both accumulators are empty afterwards.
     * Errors: no step outputs (torch.stack), nothing accumulated
     * (torch.cat), an empty recall result (rec[0]). In the last case
     * the lists have already been replaced by their concatenation.
     */
    method ValidationEnd(outputs: seq<Loss>, recall: (seq<Embedding>, seq<Label>, seq<int>) -> seq<real>)
      returns (r: Result<ValMetrics, Error>)
      requires Valid()
      modifies this
      ensures Valid()
      ensures trainStep == old(trainStep) && trainNumCorrect == old(trainNumCorrect)
      ensures valStep == old(valStep) && valNumCorrect == old(valNumCorrect)
      ensures |outputs| == 0 ==> r == Failure(EmptyStack)
      ensures |outputs| > 0 && old(embeddingsAll) == [] ==> r == Failure(EmptyConcat)
      ensures r.Failure? && r.error != RecallIndexError ==>
        embeddingsAll == old(embeddingsAll) && labelsAll == old(labelsAll)
      ensures |outputs| > 0 && old(embeddingsAll) != [] ==>
        var rec := recall(Concat(old(embeddingsAll)), Concat(old(labelsAll)), K);
        && (|rec| > 0 ==> r == Success(ValMetrics(rec[0])) && embeddingsAll == [] && labelsAll == [])
        && (|rec| == 0 ==> r == Failure(RecallIndexError)
                           && embeddingsAll == [Concat(old(embeddingsAll))]
                           && labelsAll == [Concat(old(labelsAll))])
    {
      if |outputs| == 0 {
        return Failure(EmptyStack);
      }
      if embeddingsAll == [] {
        return Failure(EmptyConcat);
      }
      embeddingsAll := [Concat(embeddingsAll)];
      labelsAll := [Concat(labelsAll)];
      var rec := recall(embeddingsAll[0], labelsAll[0], K);
      if |rec| == 0 {
        return Failure(RecallIndexError);
      }
      r := Success(ValMetrics(rec[0]));
      embeddingsAll, labelsAll := [], [];
    }
  }

  /** The student's embeddings of each batch, in order. */
  function StudentOutputs(m: RkdCifar, batches: seq<(Images, seq<Label>)>): (r: seq<seq<Embedding>>)
    ensures |r| == |batches|
    ensures forall i :: 0 <= i < |batches| ==> r[i] == m.student(batches[i].0)
  {
    seq(|batches|, i requires 0 <= i < |batches| => m.student(batches[i].0))
  }

  function LabelsOf(batches: seq<(Images, seq<Label>)>): (r: seq<seq<Label>>)
    ensures |r| == |batches|
    ensures forall i :: 0 <= i < |batches| ==> r[i] == batches[i].1
  {
    seq(|batches|, i requires 0 <= i < |batches| => batches[i].1)
  }

  /**
   * One validation pass as the Lightning trainer drives it: one
   * `validation_step` per batch, then `validation_end` over the step
   * outputs. Starting from empty accumulators, the reported recall is
   * that of every batch's embeddings and labels concatenated in order,
   * and the accumulators are empty again afterwards.
   */
  method ValidationPass(m: RkdCifar, batches: seq<(Images, seq<Label>)>,
                        recall: (seq<Embedding>, seq<Label>, seq<int>) -> seq<real>)
    returns (r: Result<ValMetrics, Error>)
    requires m.Valid() && m.embeddingsAll == [] && m.labelsAll == []
    modifies m
    ensures m.Valid()
    ensures batches == [] ==> r == Failure(EmptyStack) && m.embeddingsAll == []
    ensures batches != [] ==>
      var rec := recall(Concat(StudentOutputs(m, batches)), Concat(LabelsOf(batches)), m.K);
      |rec| > 0 ==> r == Success(ValMetrics(rec[0])) && m.embeddingsAll == [] && m.labelsAll == []
  {
    var outputs: seq<Loss> := [];
    var i := 0;
    while i < |batches|
      invariant 0 <= i <= |batches|
      invariant m.Valid()
      invariant |outputs| == i
      invariant m.embeddingsAll == StudentOutputs(m, batches[..i])
      invariant m.labelsAll == LabelsOf(batches[..i])
    {
      var valLoss := m.ValidationStep(batches[i].0, batches[i].1);
      assert StudentOutputs(m, batches[..i + 1]) == StudentOutputs(m, batches[..i]) + [m.student(batches[i].0)];
      assert LabelsOf(batches[..i + 1]) == LabelsOf(batches[..i]) + [batches[i].1];
      outputs := outputs + [valLoss];
      i := i + 1;
    }
    assert batches[..i] == batches;
    r := m.ValidationEnd(outputs, recall);
  }
}
