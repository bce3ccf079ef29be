# AVDNet training control and data shaping, in Dafny

AVDNet trains a deep-fake audio detector. It tunes hyperparameters over Optuna trials, stops each trial early when the validation loss stalls, and keeps the best checkpoint across trials. This project models the deterministic core of that pipeline and proves properties of it.

- **Training control** (`optimization_old.py`):
  - the `EarlyStopping` monitor;
  - the per-trial best-loss and checkpoint bookkeeping of `objective`;
  - the cross-trial best kept by `save_best_model_callback`;
  - the rows of `save_all_trials_csv`.
- **Evaluation** (`data_methods.py`):
  - binarisation of scores at the strict `> 0.5` threshold;
  - accuracy, recall, precision and F1 from confusion counts (`calculate_metrics`, `calculate_metrics_4`);
  - the EER operating point of `calculate_eer`.
- **Data shaping** (`data_methods.py`):
  - pad/truncate to four seconds at 16 kHz;
  - the in-place time mask;
  - entry collection and the parallel `file_list`/`labels` lists of both dataset classes;
  - the index window of `create_tensors_from_csv`.

Modules:

| file | module | contents |
|---|---|---|
| `common.dfy` | `Common` | `Option`, extended reals for `float('inf')`, minimum of a sequence, Python prefix slicing, decimal rendering |
| `earlystop.dfy` | `EarlyStop` | `Monitor` value, `Step`/`Run` specification, class `EarlyStopping` |
| `trialselection.dfy` | `TrialSelection` | the epoch loop of `objective`, `Reduce` over trials, class `BestModelTracker` |
| `resultstable.dfy` | `ResultsTable` | the header and the rows of the results table |
| `metrics.dfy` | `Metrics` | binarisation, confusion counts, the four scores |
| `eer.dfy` | `Eer` | FNR, first arg-min, EER |
| `waveform.dfy` | `Waveform` | `FixLength`, `TimeMaskWaveform` on an `array2` |
| `filetree.dfy` | `FileTree` | the directory tree the loaders scan, as a value |
| `datasets.dfy` | `Datasets` | the two dataset classes, their collection loops and the functions that specify them |
| `tensorblocks.dfy` | `TensorBlocks` | `create_tensors_from_csv` |

Where a stateful class has a method, the method is proved against a function of the old state:
- `EarlyStopping.Call` against `Step`;
- `SaveBestModelCallback` against `Consider`;
- the constructor loops against `RawItems` and `FakeItems`.

The lemmas are stated about those functions.

Two behaviours of the code are easy to misread:
- **Calls after stopping still update.** Once `early_stop` is set, further calls still update `counter` and `best_loss`; only the flag stays latched.
- **Seed of the global best.** The cross-trial best starts at `1000000` (optimization_old.py:312), not at infinity. A trial whose best loss is at least 1000000 therefore never becomes the best.

## Model

| member | source | states |
|---|---|---|
| EarlyStop.Step | optimization_old.py:22-31 | patience and delta never change; the stop flag is a latch; the first call only records the loss; otherwise the counter is reset exactly when the loss improves (is at most best minus delta) |
| EarlyStop.StaleStep | optimization_old.py:25-28 | a non-improving call keeps the best loss, adds one to the counter, and sets the flag once the counter reaches patience |
| EarlyStop.ImprovingStep | optimization_old.py:29-31 | an improving call sets the best loss to the new loss and resets the counter, nothing else |
| EarlyStop.RunAppend | optimization_old.py:22-31 | feeding two batches of losses in turn equals feeding their concatenation |
| EarlyStop.RunKeepsConfigAndLatch | optimization_old.py:15-31 | over any call sequence patience and delta are unchanged, a set flag stays set, and a best loss exists after the first call |
| EarlyStop.RunBestNonIncreasing | optimization_old.py:25-31 | with delta >= 0 the best loss never increases over any call sequence |
| EarlyStop.RunBestIsSeen | optimization_old.py:23-31 | the best loss is one of the losses fed, and with delta >= 0 is at most the first |
| EarlyStop.StaleRun | optimization_old.py:25-28 | a run of non-improving calls keeps the best loss, adds its length to the counter and stops exactly when the counter reaches patience |
| EarlyStop.CounterSinceLastReset | optimization_old.py:25-31 | the counter equals the number of calls since the last reset while none of them improves |
| EarlyStop.StopsAfterPatienceStaleCalls | optimization_old.py:23-28 | from a fresh monitor, after the first loss and k non-improving ones, the counter is k and the flag is set iff k >= patience |
| EarlyStop.ImprovingNeverStops | optimization_old.py:29-31 | when every loss improves on the previous one the monitor never stops, the counter stays 0 and the best loss is the last loss |
| EarlyStop.EqualLossesNeverStop | optimization_old.py:25-31 | with delta 0 an equal loss counts as an improvement: three equal losses leave counter 0 and no stop |
| EarlyStop.ConfiguredPatienceScenario | optimization_old.py:73 | with the configured patience 4 the monitor stops on the fourth non-improving loss and not before |
| EarlyStop.EarlyStopping.constructor | optimization_old.py:15-20 | the new object has the given patience and delta (defaults 5 and 0), no best loss, counter 0 and the flag clear |
| EarlyStop.EarlyStopping.Call | optimization_old.py:22-31 | the new state is `Step` of the old state and the loss |
| TrialSelection.CheckpointPath | optimization_old.py:124 | the temporary checkpoint path starts with `checkpoints/tmp_model_trial_` and ends in `.pth` |
| Common.NatToStringInjective | optimization_old.py:124 | `str` of a trial number determines the number: equal renderings come from equal numbers |
| TrialSelection.CheckpointPathsDistinct | optimization_old.py:124 | different trial numbers give different checkpoint paths, so no trial overwrites another's checkpoint |
| TrialSelection.Records | optimization_old.py:121-126 | the epochs that save a checkpoint are exactly those whose loss is strictly below all earlier losses, in increasing order, starting with epoch 0 |
| TrialSelection.LastRecordIsFirstMinimum | optimization_old.py:121-126 | the last checkpointed epoch holds the minimum loss and is the first epoch reaching it |
| TrialSelection.FirstStop | optimization_old.py:128-131 | the epoch count is the first prefix after which the monitor has stopped, or all epochs |
| TrialSelection.Objective | optimization_old.py:121-136 | the epoch loop stops after the first stopping epoch; `best_trial_loss` (infinity at line 38) becomes the minimum loss of the epochs run; checkpoints are the strict running minima; the path attribute is set iff an epoch ran |
| TrialSelection.Consider | optimization_old.py:297-303 | a trial replaces the best iff both attributes exist and its loss is strictly lower; loss and path are replaced together; a missing attribute is the KeyError outcome with nothing changed |
| TrialSelection.ReduceIsRunningMinimum | optimization_old.py:296-303 | after any sequence of trials with attributes, the best loss is the minimum of the seed and all trial losses, and the path is that of the earliest trial reaching it, or the initial one |
| TrialSelection.ReduceFailsIffMissing | optimization_old.py:297-298 | the callback sequence raises iff some trial lacks an attribute |
| TrialSelection.FourTrialScenario | optimization_old.py:300-303 | losses 0.5, 0.3, 0.4, 0.2 replace, replace, keep, replace |
| TrialSelection.BestModelTracker.constructor | optimization_old.py:311-312 | the global best starts at loss 1000000 with no path |
| TrialSelection.BestModelTracker.SaveBestModelCallback | optimization_old.py:295-305 | the new globals and the outcome are `Consider` of the old ones; the study attribute changes only on a replacement |
| ResultsTable.RowMatchesHeader | optimization_old.py:250-290 | each row has exactly the header's 8 fields; each column holds the parameter or attribute the header names, or None when it is missing |
| ResultsTable.SaveAllTrialsTable | optimization_old.py:262-290 | the table is the header followed by one row per trial, in trial order, all 8 wide |
| Metrics.Binarize | data_methods.py:388 | a score is labelled 1 iff it is strictly above 0.5, else 0 |
| Metrics.BinarizeAll | data_methods.py:405 | elementwise binarisation; the result is binary and equally long |
| Metrics.BinarizeIdempotent | data_methods.py:388 | binarising already-binarised labels gives them back |
| Metrics.ThresholdIsStrict | data_methods.py:388 | a score of exactly 0.5 is negative, so a lone positive scored 0.5 has accuracy, recall and F1 of 0 |
| Metrics.ConfusionPartition | data_methods.py:389-391 | TP+TN+FP+FN = n, matches = TP+TN, positives = TP+FN and predicted positives = TP+FP |
| Metrics.Accuracy | data_methods.py:389 | accuracy lies in [0, 1] |
| Metrics.Recall | data_methods.py:390 | recall lies in [0, 1] |
| Metrics.Precision | data_methods.py:409 | precision lies in [0, 1] |
| Metrics.F1 | data_methods.py:391 | F1 lies in [0, 1] |
| Metrics.AccuracyFromConfusion | data_methods.py:389 | accuracy equals (TP + TN) / n |
| Metrics.F1IsHarmonicMean | data_methods.py:391 | with a true positive, F1 = 2PR/(P+R) |
| Metrics.CalculateMetrics | data_methods.py:387-392 | the three metrics of the binarised scores lie in [0, 1] |
| Metrics.CalculateMetricsFromConfusion | data_methods.py:387-392 | accuracy = (TP+TN)/n, recall = TP/(TP+FN), F1 = 2TP/(2TP+FP+FN) on the binarised scores |
| Metrics.CalculateMetrics4 | data_methods.py:396-416 | accuracy, recall and F1 equal those of `calculate_metrics`; precision is TP/(TP+FP) and lies in [0, 1] |
| Metrics.PerfectScoresScenario | data_methods.py:405-416 | labels 0, 0, 1, 1 with scores 0.1, 0.4, 0.6, 0.9, separated at 0.5, give all four metrics equal to 1 |
| Eer.Fnr | data_methods.py:427 | FNR and TPR add up to 1 at every point, and rates in [0, 1] give rates in [0, 1] |
| Eer.FnrInvolutive | data_methods.py:427 | complementing the rates twice gives the true-positive rates back |
| Eer.Gaps | data_methods.py:428 | every gap is non-negative and is zero exactly where FPR equals FNR |
| Eer.ArgMin | data_methods.py:428 | the index is the first position of the minimum |
| Eer.EerIndex | data_methods.py:428 | the operating point is the first index minimising \|FNR − FPR\| |
| Eer.CalculateEer | data_methods.py:427-430 | the EER is (FPR + FNR)/2 at the first index minimising \|FNR − FPR\| |
| Eer.EerInUnitInterval | data_methods.py:427-430 | with all rates in [0, 1] the EER is in [0, 1] |
| Eer.EerAtCrossing | data_methods.py:428-429 | if some point has FPR = FNR, the operating point is such a point and the EER is that rate |
| Eer.EerWithinHalfGap | data_methods.py:428-429 | the chosen gap is the smallest, and the EER lies exactly half that gap from each rate |
| Eer.EerZeroThroughCorner | data_methods.py:426-430 | a curve with FPR in [0, 1] and non-decreasing that passes through FPR 0, TPR 1 has EER 0 |
| Eer.PerfectSeparationScenario | data_methods.py:426-430 | the ROC points (0, 0), (0, 1), (1, 1) give EER 0 |
| Eer.MaximallyWrongScenario | data_methods.py:426-430 | a curve whose best point has FPR = FNR = 1 gives EER 1 |
| Waveform.FixLength | data_methods.py:196-200 | every channel has exactly the expected length; samples that fit are kept, padding is zeros, and an input of the expected length is unchanged |
| Waveform.FixLengthIdempotent | data_methods.py:196-200 | fixing the length of an already fixed waveform changes nothing |
| Waveform.FixLengthByCase | data_methods.py:274-278 | a shorter channel becomes itself followed by zeros; a longer one becomes its first expected samples |
| Waveform.TimeMaskWaveform | data_methods.py:71-80 | when the mask is at least as long as the signal nothing changes; otherwise exactly samples start .. start+duration−1 of every channel become 0 and all others are untouched |
| Datasets.ClassLabel | data_methods.py:143 | `Real` is label 0, every other class 1 |
| Datasets.ShufflePermutes | data_methods.py:167 | the shuffle is a permutation: the multiset of entries is unchanged |
| Datasets.KeptEntriesAreCollected | data_methods.py:166-169 | after shuffling and slicing, the entries are a sub-multiset of the collected ones, and all of them when there is no slicing |
| Datasets.LoadSample | data_methods.py:184-200 | the item is the joined audio path, the waveform padded or truncated to the expected length, and the label as a float |
| Datasets.PyIndex | data_methods.py:179 | a Python index in [−n, n) names a position in range: idx itself, or idx + n for a negative idx |
| Datasets.RowItems | data_methods.py:158-164 | a CSV row yields an entry iff its audio file exists; the entry's label is the row's last column, or the class label for a one-column CSV |
| Datasets.SourceItems | data_methods.py:149-164 | the entries of a source folder lie in its `<type>` sub-folder, and their files exist |
| Datasets.FolderItems | data_methods.py:149-164 | the entries of a class folder lie below it, and their files exist; with one-column CSVs they carry the class label |
| Datasets.ClassItems | data_methods.py:142-164 | the same for `<root>/<class>`, which yields nothing when missing |
| Datasets.ClassesItems | data_methods.py:142-164 | every collected audio file exists |
| Datasets.RawLabelsFollowClassFolders | data_methods.py:142-159 | with one-column CSVs the collected entries are the `Real` ones, all labelled 0, followed by the `Fake` ones, all labelled 1 |
| Datasets.RawEntriesExist | data_methods.py:163-169 | every entry a raw loader keeps names an existing audio file |
| Datasets.ReadCsvRows | data_methods.py:158-164 | the row loop appends exactly `RowItems` of the CSV |
| Datasets.ScanClassFolder | data_methods.py:149-164 | the source-folder loop appends exactly `FolderItems` of the class folder |
| Datasets.RawAudioDatasetLoader.constructor | data_methods.py:129-173 | `data` is the collected entries shuffled and sliced; `file_list` and `labels` are its two projections |
| Datasets.RawAudioDatasetLoader.Length | data_methods.py:175-176 | `__len__` is the number of entries of `data` and of `labels` |
| Datasets.RawAudioDatasetLoader.GetItem | data_methods.py:178-207 | item idx (negative allowed) has the path and label of entry idx of `data` and a waveform of the expected length |
| Datasets.WavItems | data_methods.py:239-241 | a technique folder yields exactly its listed names ending in `.wav`, each labelled 1 |
| Datasets.TechniqueItems | data_methods.py:233-241 | a language folder yields only listed `.wav` files of its technique directories, labelled 1 |
| Datasets.LanguageItems | data_methods.py:228-241 | the root yields only listed `.wav` files below it, labelled 1 |
| Datasets.FakeEntriesSound | data_methods.py:239-250 | every entry a fake dataset keeps is a listed `.wav` file labelled 1 |
| Datasets.ScanTechniqueFolder | data_methods.py:239-241 | the file loop appends exactly `WavItems` |
| Datasets.ScanLanguageFolder | data_methods.py:233-241 | the technique loop appends exactly `TechniqueItems` |
| Datasets.RecursiveFakeAudioDataset.constructor | data_methods.py:211-250 | `data` is the collected `.wav` entries shuffled and sliced; `file_list` and `labels` are its projections |
| Datasets.RecursiveFakeAudioDataset.Length | data_methods.py:254-255 | `__len__` is the number of entries |
| Datasets.RecursiveFakeAudioDataset.GetItem | data_methods.py:257-285 | as for the raw loader |
| TensorBlocks.WindowInBounds | data_methods.py:363 | every visited index is inside `x_paths`; at most `block_num` are visited; none iff block_num <= 0 or start >= len |
| TensorBlocks.ConsecutiveBlocksTile | data_methods.py:363 | two consecutive blocks visit exactly the indices of one block of twice the size |
| TensorBlocks.CreateTensorsFromCsv | data_methods.py:347-384 | the result is None (stacking an empty list raises) iff the window is empty; otherwise the block holds the paths, features and float labels at the visited indices, in order |

## Left out

- File system access (`os.listdir`, `os.path.exists`, `pd.read_csv`, `torchaudio.load`, `np.load`) is a `FileSystem` value or a parameter. `os.path.join` is modelled as joining with `/`; absolute components and trailing separators are not modelled.
- CSV label columns are integers in the model; pandas may hand back any cell type.
- `random.shuffle` is the permutation parameter `order`. `int(len(data) * fraction)` is the parameter `keep`. The `torch.randint` start of the time mask is the parameter `startIdx`. `random.random` and the `torch.rand` augmentation gates are not modelled. `GetItem` receives the waveform after any augmentation.
- Augmentation is not modelled: `augment_audio`, the volume, noise and frequency-mask steps of `augment_audio_fixed`, and `frequency_mask_waveform`, which is STFT/ISTFT floating point.
- `extract_lfcc_torchaudio` is not modelled (library signal processing). `__getitem__` returns `(lfcc_input, wav2vec_input, label)`; the model's `Sample` drops the LFCC result, keeps the fixed-length waveform (`wav2vec_input`) and the float label, and adds the audio path the item was loaded from, which the source does not return.
- The millisecond-to-sample conversion `int((ms / 1000.0) * sample_rate)` is not modelled; the mask length in samples is an input.
- Datasets.RawAudioDatasetLoader.constructor: requires `RawReadable` (built from `ClassReadable` and `SourceReadable`): an existing `<root>/Real` or `<root>/Fake` must be a directory, and every existing `<source>/<type>.csv` must parse with at least one column. Otherwise `os.listdir` (data_methods.py:149) or `pd.read_csv` (data_methods.py:155) raises; those exceptions are not modelled.
- Datasets.RawAudioDatasetLoader.GetItem: requires `-len(file_list) <= idx < len(file_list)`; the IndexError `self.file_list[idx]` (data_methods.py:179) raises for any other index is not modelled, since the DataLoader only passes indices in range.
- Datasets.RecursiveFakeAudioDataset.GetItem: requires the same index range; the IndexError of `self.file_list[idx]` (data_methods.py:258) outside it is not modelled.
- Datasets.RecursiveFakeAudioDataset.constructor: requires `IsDir(fs, rootDir)`. A missing or non-directory root makes `os.listdir(root_dir)` (data_methods.py:228) raise; that exception is not modelled.
- TimeMaskWaveform: requires a non-negative mask length. A negative one would make the Python slice count from the end, which the millisecond conversion never produces. The method returns nothing, because the source returns the same tensor it modified in place.
- Floating point is modelled as real numbers: losses, scores and rates are `real`, and NaN is not modelled (`np.nanargmin` becomes a plain first arg-min).
- `roc_curve` (threshold construction, `drop_intermediate` pruning) is library code. `CalculateEer` takes its `fpr`/`tpr` arrays as inputs.
- Metrics.CalculateMetrics: zero denominators and mismatched or non-binary label arrays are preconditions, not sklearn's zero-division warnings and value errors.
- Metrics.CalculateMetrics4: also requires at least one predicted positive, for precision.
- CreateTensorsFromCsv: `np.load` and `torch.stack` of the loaded matrices are not modelled (the block holds the paths visited), and neither are shape errors. `xFeatures` and `labels` are required to cover every visited index; otherwise `Xfeatures[i]` or `labels[i]` (data_methods.py:372, 375) raises IndexError, which is not modelled. A negative `start_idx` is excluded by precondition because Python's negative indexing would then apply. The `DEBUGMODE` prints are not modelled.
- The training and evaluation loops are not modelled: model forward and backward passes, losses, optimiser, DataLoader workers and `get_dataloader`. Objective takes the per-epoch validation losses as input.
- Optuna study creation, `suggest_*`, the pruner and the trial database are not modelled.
- `torch.save` of checkpoints, `save_best_model` with its float-formatted file name, and `load_best_model` are not modelled.
- The timestamped file name and the CSV encoding of `save_all_trials_csv` are not modelled. The model returns the rows as values.
- The `print` calls (including the count printed by `RecursiveFakeAudioDataset`) are not modelled.
- `Wav2VecDataset`, `additional/test.py` and `constants.py` are not part of this model. The configured patience 4 (`PATIENCE`) appears as the constant `EarlyStop.Patience`.
