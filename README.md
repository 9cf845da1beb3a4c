# RKD baseline: orchestration policy layer in Dafny

This project models the policy layer of the relational-knowledge-distillation
baseline `RKD_Cifar` (a PyTorch-Lightning module) and the helpers beside it in
`rkd_baseline.py`. The model covers:

- `str2bool`, the case-insensitive test for a "true" spelling;
- the `normalize` flag that `addEmbedding` derives by exact comparison with `"true"`;
- the key renaming of `load_model_chk`, which drops the first six characters of
  every checkpoint key (meant to be the `model.` prefix; it is not checked) and
  rebuilds an `OrderedDict`;
- the constructor's mode guard (STUDENT mode is refused) and its initial state;
- the `forward` dispatch on `"student"` / `"teacher"`;
- the dataset guard of the three data loaders;
- the validation accumulator: `validation_step` appends one embedding batch and
  one label batch, and `validation_end` concatenates them, reports the recall at
  the first cutoff and resets both lists.

Networks, the triplet criterion (`losses.L2Triplet`) and the recall metric
(`metrics.recall`) belong to modules outside this model. They appear as
uninterpreted function values: `student` and `criterion` are constants of
the class, fixed at construction; `recall` is a parameter of `ValidationEnd`.
Losses are opaque `real` values.

Files: `wrappers.dfy` (Option/Result), `str_flags.dfy` (module `StrFlags`),
`checkpoint.dfy` (module `Checkpoint`), `rkd_cifar.dfy` (module `RkdBaseline`
with the class `RkdCifar`).

## Model

| member | source | states |
|---|---|---|
| `StrFlags.Lower` | distill_archive/research_seed/baselines/rkd_baseline/rkd_baseline.py:29 | `v.lower()` keeps the length, folds each character on its own, leaves no capital letter and keeps every non-capital character |
| `StrFlags.LowerIdempotent` | distill_archive/research_seed/baselines/rkd_baseline/rkd_baseline.py:29 | lower-casing an already lower-cased string changes nothing |
| `StrFlags.Str2Bool` | distill_archive/research_seed/baselines/rkd_baseline/rkd_baseline.py:28-32 | `str2bool(v)`: a string can be accepted only if it has one, three or four characters, each of which lower-cases to a letter of "yes", "true" or to "1" |
| `StrFlags.Str2BoolCases` | distill_archive/research_seed/baselines/rkd_baseline/rkd_baseline.py:28-32 | `str2bool(v)` is true exactly for "1" and every capitalisation of "t", "y", "yes", "true"; every other string, the empty one included, gives false |
| `StrFlags.Str2BoolIgnoresCase` | distill_archive/research_seed/baselines/rkd_baseline/rkd_baseline.py:28-32 | `str2bool` gives the same result for `v` and `v.lower()` |
| `StrFlags.ExactTrueNarrowerThanStr2Bool` | distill_archive/research_seed/baselines/rkd_baseline/rkd_baseline.py:47 | the exact comparison with "true" accepts only strings `str2bool` accepts, and refuses "True", which `str2bool` accepts |
| `StrFlags.IsExactlyTrue` | distill_archive/research_seed/baselines/rkd_baseline/rkd_baseline.py:47 | the comparison `hparams.l2normalize == 'true'`: anything it accepts `str2bool` accepts too, and it accepts no string with a capital letter |
| `RkdBaseline.AddEmbedding` | distill_archive/research_seed/baselines/rkd_baseline/rkd_baseline.py:43-49 | the head gets the configured sizes, and `normalize` holds iff `l2normalize` is exactly "true" (which implies `str2bool` of it) |
| `Checkpoint.StripPrefix` | distill_archive/research_seed/baselines/rkd_baseline/rkd_baseline.py:38 | the new name is the suffix of the key after its first six characters; a key shorter than six becomes "" |
| `Checkpoint.StripModelPrefix` | distill_archive/research_seed/baselines/rkd_baseline/rkd_baseline.py:38 | stripping undoes prefixing with "model.": `StripPrefix("model." + n) == n` |
| `Checkpoint.Empty` | distill_archive/research_seed/baselines/rkd_baseline/rkd_baseline.py:36 | `OrderedDict()` starts well formed, with no keys and no values |
| `Checkpoint.Set` | distill_archive/research_seed/baselines/rkd_baseline/rkd_baseline.py:39 | `OrderedDict` assignment keeps the dictionary well formed, sets the value, appends a new key at the end and leaves an existing key in its place |
| `Checkpoint.Renamed` | distill_archive/research_seed/baselines/rkd_baseline/rkd_baseline.py:36-39 | the dictionary the loop builds is well formed: every key listed once, and the listed keys are exactly the keys with a value |
| `Checkpoint.LoadModelChk` | distill_archive/research_seed/baselines/rkd_baseline/rkd_baseline.py:36-39 | the loop visits the items in input order and builds exactly `Renamed(state_dict)` |
| `Checkpoint.RenamedDomain` | distill_archive/research_seed/baselines/rkd_baseline/rkd_baseline.py:37-39 | a name is a key of the result iff some input key strips to it |
| `Checkpoint.RenamedLastWins` | distill_archive/research_seed/baselines/rkd_baseline/rkd_baseline.py:37-39 | when several keys strip to one name, the value of the last of them is kept |
| `Checkpoint.RenamedKeyOrder` | distill_archive/research_seed/baselines/rkd_baseline/rkd_baseline.py:36-39 | the result's keys are stripped input keys, ordered by where each name first appears in the input |
| `Checkpoint.RenamedInjective` | distill_archive/research_seed/baselines/rkd_baseline/rkd_baseline.py:37-39 | if no two keys strip to the same name, the result lists every stripped key in input order with its value unchanged |
| `RkdBaseline.RkdCifar.Teacher` | distill_archive/research_seed/baselines/rkd_baseline/rkd_baseline.py:62-80 | TEACHER construction: all four counters 0, both accumulators empty, `K` is the configured recall cutoffs, the head is `addEmbedding`'s |
| `RkdBaseline.RkdCifar.Create` | distill_archive/research_seed/baselines/rkd_baseline/rkd_baseline.py:54-80 | STUDENT mode always fails with the not-implemented error; TEACHER mode always succeeds with the initial state above |
| `RkdBaseline.ForwardRoute` | distill_archive/research_seed/baselines/rkd_baseline/rkd_baseline.py:101-107 | "student" routes to the student, "teacher" to the teacher, and every other string, and only those, is an invalid-mode error |
| `RkdBaseline.RkdCifar.Forward` | distill_archive/research_seed/baselines/rkd_baseline/rkd_baseline.py:101-107 | "student" returns the student's embeddings; "teacher" fails because no teacher is ever assigned; any other mode is an invalid-mode error |
| `RkdBaseline.RkdCifar.TrainingStep` | distill_archive/research_seed/baselines/rkd_baseline/rkd_baseline.py:109-125 | the loss is the criterion on the student's embeddings of the batch, and no field changes (the step counters stay as they are) |
| `RkdBaseline.Dataloader` | distill_archive/research_seed/baselines/rkd_baseline/rkd_baseline.py:172-234 | a loader is built iff the dataset is "cifar10" or "cifar100", else the not-supported error; it is always CIFAR10, uses the training split and augmentation only for training, and a distributed sampler iff more than one GPU |
| `RkdBaseline.DatasetSupported` | distill_archive/research_seed/baselines/rkd_baseline/rkd_baseline.py:175 | the guard repeated at lines 175, 199 and 219: every accepted name is "cifar10", optionally followed by one "0" |
| `RkdBaseline.ValAndTestLoadersAgree` | distill_archive/research_seed/baselines/rkd_baseline/rkd_baseline.py:196-234 | the validation and test loaders are configured identically |
| `RkdBaseline.Concat` | distill_archive/research_seed/baselines/rkd_baseline/rkd_baseline.py:147-148 | `torch.cat` of the accumulated batches: as many rows as all batches hold together, and every row of every batch is among them |
| `RkdBaseline.ConcatAppend` | distill_archive/research_seed/baselines/rkd_baseline/rkd_baseline.py:147-148 | concatenating after appending one batch is the old concatenation followed by that batch's rows |
| `RkdBaseline.RkdCifar.ValidationStep` | distill_archive/research_seed/baselines/rkd_baseline/rkd_baseline.py:128-140 | each accumulator grows by exactly one entry at the end, earlier entries unchanged, the two stay the same length, and the returned loss is the criterion on this batch |
| `RkdBaseline.RkdCifar.ValidationEnd` | distill_archive/research_seed/baselines/rkd_baseline/rkd_baseline.py:142-158 | reports `rec[0]` of the recall over all accumulated rows in append order, after which both accumulators are empty; with no step outputs or nothing accumulated it fails and changes nothing; with an empty recall result it fails after the lists were replaced by their concatenation |
| `RkdBaseline.ValidationPass` | distill_archive/research_seed/baselines/rkd_baseline/rkd_baseline.py:128-158 | a pass of steps followed by the end, from empty accumulators, reports the first-cutoff recall of all batches concatenated in order, and leaves the accumulators empty |

## Left out

- `StrFlags.Lower`: folds only the ASCII letters A-Z. Python's `str.lower` also folds other scripts; the only non-ASCII characters it turns into ASCII letters are U+212A (to "k") and U+0130 (to "i" plus a combining dot), and neither spelling occurs in the words `str2bool` accepts, so `str2bool`'s result is the same.
- `loss_fn_kd` (lines 83-99) and the averaging of `val_loss` in `validation_end` (line 144): floating-point softmax, KL divergence and cross-entropy. Only the emptiness error of `torch.stack` at line 144 is modelled; `ValMetrics` holds the recall and not the average loss.
- `losses.L2Triplet`, the `pairs` miners, `metrics.recall`, `pdist` and `LinearEmbedding`: defined in modules that are not part of this model; used as uninterpreted functions (`criterion`, `recall`, `student`).
- `torch.load` and `load_state_dict` in `load_model_chk` (lines 35, 40-41): file I/O and the framework's own key matching, including its error when keys do not match.
- Setting `requires_grad` on the student's modules and calling `train()` / `eval()` (lines 63-66, 129): side effects on framework objects.
- `configure_optimizers` (lines 161-170): Adam and MultiStepLR are library calls on floating-point learning rates.
- `add_model_specific_args` (lines 237-309): argparse configuration; `HParams` holds only the fields this layer reads.
- Dataset download, transforms, `DataLoader` and `DistributedSampler` construction (lines 176-194, 200-214, 220-234): I/O and framework plumbing; `LoaderConfig` records the choices made.
- `RkdBaseline.RkdCifar.ValidationEnd`: after an empty recall result the Python fields already hold tensors, on which a later `validation_step` would fail to `append`; the model keeps them as one-entry lists and does not capture that later failure.
- `RkdBaseline.RkdCifar.Forward`: the teacher branch is modelled only as the failure to find `self.teacher`; the STUDENT-mode branches of `training_step`, `validation_step` and `validation_end` are unreachable because construction refuses STUDENT mode, and `Valid()` records that the mode is TEACHER.
- `RkdBaseline.ValidationPass`: stands for the Lightning trainer's calling sequence, which is not in this file; it is stated only for a pass that starts from empty accumulators.
- `RkdBaseline.RkdCifar.TrainingStep`: `student` and `criterion` are constants of the class, so they stand for the network and the loss as they are during one call, or during one validation pass in `eval()` mode with no optimizer step in between. Between training steps the optimizer configured at line 165 changes the student's weights, and a criterion built with a random sampler (`--sample random` or `distance`, lines 279-286) draws different samples on each call; the model claims no equality of losses or embeddings across training steps.
- `RkdBaseline.RkdCifar.Create`: the constructor's default `hparams=None` (line 54) is not modelled, since `HParams` is a value that cannot be absent; in Python TEACHER construction with that default raises AttributeError in `addEmbedding` when it reads `hparams.output_size`.
