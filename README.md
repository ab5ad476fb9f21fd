# simplecv core, modelled in Dafny

This project models two parts of simplecv, a PyTorch toolbox for computer vision.

**The training logger's smoothed metric trackers** (`simplecv/util/logger.py`).
- A `SmoothedValue` keeps four things:
  - a bounded window of the latest values (a `deque` with `maxlen`);
  - the full series of values;
  - a running total;
  - a running count.
- `add_value` updates all four. The three queries report the window's median, the window's mean, and the mean over the whole series.
- At construction, a `Logger` refuses to turn on its visualisation writer without a log directory. (`Logger.on` later sets the flag without that check; it is left out.)
- `create_or_get_smoothvalues` keeps one tracker per metric name. It creates a tracker of window 100 the first time a name appears, feeds every named value to its tracker, and returns the windowed average of every name registered so far.

**The configuration rules of `ResNetEncoder`** (`simplecv/module/resnet.py`).
- The accepted output strides are 8, 16 and 32.
- `_freeze_at` is a threshold rule over the five stages (`conv1`/`bn1` and `layer1` to `layer4`).
- The dilation plan trades the stride of `layer3`/`layer4` for dilation, and `_nostride_dilate` rewrites each convolution to do it.
- `forward` returns three or four feature maps.

Files:
- `wrappers.dfy`: `Option`, `Result`, and Python's `ValueError`.
- `stats.dfy`: `numpy.mean` and `numpy.median` over exact reals, with their order-free meaning.
- `logging.dfy`: the classes `SmoothedValue` and `Logger`.
- `resnet.dfy`: the convolution records, the dilation plan, freezing, the forward pass, and the class `Encoder`.

How the state is modelled:
- `SmoothedValue` is a class whose `window` and `series` fields are sequences the methods reassign.
- Its invariant `Valid` says three things:
  - `count` is the length of `series`;
  - `total` is the sum of `series`;
  - `window` is the last `min(windowSize, count)` elements of `series`, in order.
- The logger's registry is a field `smoothvalues: map<string, SmoothedValue>`. A loop updates it, one name of the input dictionary at a time.
- The encoder holds its backbone's submodules in an array of convolution records. It keeps the frozen flag of each stage in an array of five booleans.

## Model

| member | source | states |
|---|---|---|
| Logging.SmoothedValue.constructor | simplecv/util/logger.py:155-159 | a new tracker has an empty window and series, total 0.0 and count 0, and satisfies the invariant |
| Logging.SmoothedValue.AddValue | simplecv/util/logger.py:161-165 | the window becomes the deque append of the value, the series gains exactly the value at its end, count grows by 1 and total by the value, and the invariant (count = length, total = sum, window = latest values) is kept |
| Logging.DequeAppend | simplecv/util/logger.py:161-162 | after an append the deque holds at most `maxlen` values and, for a positive capacity, the appended value is last |
| Logging.DequeAppendFull | simplecv/util/logger.py:156-162 | on a full deque the append evicts exactly the oldest value: the result is the old contents without its first element, plus the new value |
| Logging.LatestAppend | simplecv/util/logger.py:156-163 | appending to the window of the last n values of a series gives the window of the last n values of the extended series |
| Logging.SmoothedValue.MedianValue | simplecv/util/logger.py:167-168 | the median query is the median of the latest `windowSize` values, and at least half of the window lies at or below it and at least half at or above it |
| Logging.SmoothedValue.AverageValue | simplecv/util/logger.py:170-171 | the average query is the mean of the latest `windowSize` values, and equals the global average while the window has not yet overflowed |
| Logging.SmoothedValue.GlobalAverageValue | simplecv/util/logger.py:173-174 | total over count is the mean of the whole series |
| Logging.FirstValueQueries | simplecv/util/logger.py:155-174 | a tracker fed one value reports that value as its median, average and global average |
| Logging.Logger.Create | simplecv/util/logger.py:17-30 | construction fails with `ValueError('logdir is not None if you use tensorboard')` exactly when the writer is on and no directory is given; otherwise the logger starts with an empty registry |
| Logging.RecordAllEffect | simplecv/util/logger.py:32-36 | after one call, a name absent from the input keeps its history, a registered name of the input gets exactly its value appended, and a new name starts a history of its value alone |
| Logging.RecordAllStep | simplecv/util/logger.py:33-36 | feeding one more name extends the partial effect of the call by exactly that name, so the loop order does not matter |
| Logging.RecordAllNothing | simplecv/util/logger.py:32-33 | before any name is processed the registry's histories are unchanged |
| Logging.Logger.TracksHistories | simplecv/util/logger.py:30-36 | the per-name tracking predicate holds exactly when the registry's histories equal the given map |
| Logging.Logger.NewTracker | simplecv/util/logger.py:34-36 | a tracker created for a new name is fresh, has window 100, and has been fed exactly the one value |
| Logging.Logger.FeedTracker | simplecv/util/logger.py:36 | feeding a registered name appends the value to that name's history only, and keeps the registry map itself |
| Logging.Logger.RegisterTracker | simplecv/util/logger.py:34-35 | a new name is bound to its new tracker, all other names keep their trackers, and the histories gain exactly the new name's one value |
| Logging.Logger.AddToRegistry | simplecv/util/logger.py:34-36 | one turn of the loop appends the value to the name's history, keeps every registered tracker object, and creates a fresh tracker only for a new name |
| Logging.Logger.FeedAll | simplecv/util/logger.py:33-36 | after the loop every history is the old one extended by exactly the input's value for its name; trackers of earlier names are the same objects, and trackers of new names are fresh |
| Logging.Logger.Averages | simplecv/util/logger.py:38 | the snapshot has exactly the registered names, each mapped to the mean of its latest 100 values |
| Logging.Logger.CreateOrGetSmoothValues | simplecv/util/logger.py:32-38 | the whole call records the input as above and returns the windowed averages of all names ever seen (old registry plus input), not only this call's |
| Stats.Mean | simplecv/util/logger.py:170-171 | `numpy.mean` of a non-empty window times its length is the window's sum |
| Stats.Median | simplecv/util/logger.py:167-168 | `numpy.median` lies between the least and greatest observation, and for an odd count it is one of the observations |
| Stats.SumAppend | simplecv/util/logger.py:163-165 | appending a value to a series adds exactly that value to its sum |
| Stats.MeanBounds | simplecv/util/logger.py:170-171 | the mean of a non-empty window lies between any lower and any upper bound of its values |
| Stats.Sort | simplecv/util/logger.py:167-168 | the sorted arrangement `numpy.median` works on is sorted and a permutation of the window |
| Stats.Insert | simplecv/util/logger.py:167-168 | inserting into a sorted sequence keeps it sorted and adds exactly that value to its multiset |
| Stats.SortedPermutationsEqual | simplecv/util/logger.py:167-168 | two sorted permutations of the same values are equal, so the sorted window is unique |
| Stats.MedianOfPermutation | simplecv/util/logger.py:167-168 | the median depends only on the multiset of window values, not on their order |
| Stats.MedianBounds | simplecv/util/logger.py:167-168 | the median lies between any lower and any upper bound of the window |
| Stats.CountWherePermutation | simplecv/util/logger.py:167-168 | how many window values satisfy a test does not depend on their order |
| Stats.MiddleSplitsInHalves | simplecv/util/logger.py:167-168 | the middle of a sorted sequence has at least half of the values at or below it and at least half at or above it |
| Stats.MedianSplitsInHalves | simplecv/util/logger.py:167-168 | the median of any non-empty window meets the order-free definition of a median |
| ResNet.Find | simplecv/module/resnet.py:120-121 | `str.find` gives -1 exactly when the substring occurs nowhere, and otherwise its lowest occurrence |
| ResNet.FindFrom | simplecv/module/resnet.py:121 | the search from a position returns an occurrence at or after it, with none between it and the result, or -1 when there is none |
| ResNet.ClassNames | simplecv/module/resnet.py:120-121 | `Conv2d` is treated as a convolution; `BatchNorm2d` and `Bottleneck` are not |
| ResNet.NoCapitalC | simplecv/module/resnet.py:121 | a class name without a capital C is never treated as a convolution |
| ResNet.NoStrideDilate | simplecv/module/resnet.py:117-132 | a non-convolution is unchanged; a stride-(2,2) convolution gets stride (1,1); a 3x3 one then gets dilation and padding `dilate // 2`, another 3x3 convolution gets `dilate`; a non-3x3 kernel keeps dilation and padding |
| ResNet.Floor | simplecv/module/resnet.py:80-95 | floor division by a positive divisor brackets the dividend, as in PyTorch's convolution output-size formula behind the output strides 4, 8, 16 and 32 noted there |
| ResNet.StridedConvHalves | simplecv/module/resnet.py:80-95 | a stride-2 3x3 convolution padded by its dilation halves the resolution (rounding up), which is how each undilated stage doubles the output stride noted there |
| ResNet.RewrittenConvKeepsResolution | simplecv/module/resnet.py:117-132 | after the rewrite, a 3x3 convolution and an unpadded 1x1 convolution keep the input's resolution |
| ResNet.DilationPlan | simplecv/module/resnet.py:24-41 | the plan exists iff the output stride is 8, 16 or 32, otherwise `ValueError('output_stride must be 8, 16 or 32.')`; the planned downsampling equals the output stride, `layer3` is dilated by 2 only with `layer4`, and `layer4`'s dilation is twice `layer3`'s rate |
| ResNet.Planned | simplecv/module/resnet.py:37-41 | a module of an undilated stage is kept, one of a dilated stage is rewritten with that stage's dilation |
| ResNet.RatesContinue | simplecv/module/resnet.py:37-132 | in a dilated stage the strided 3x3 convolution runs at the previous stage's rate and every other 3x3 convolution at twice that rate |
| ResNet.EarlyStagesUntouched | simplecv/module/resnet.py:37-41 | the stem, `layer1` and `layer2` are never rewritten |
| ResNet.Stride32Untouched | simplecv/module/resnet.py:37-41 | with output stride 32 no module is rewritten |
| ResNet.DilatedStagesLoseStride | simplecv/module/resnet.py:37-41 | no convolution of a dilated stage keeps stride (2,2) |
| ResNet.StageIndex | simplecv/module/resnet.py:49-63 | stages are numbered 0 to 4 in forward order |
| ResNet.StageAt | simplecv/module/resnet.py:49-63 | each position 0 to 4 names the stage with that number |
| ResNet.FreezesMonotone | simplecv/module/resnet.py:49-63 | the frozen set grows with `at` and is always a prefix of the stages |
| ResNet.FreezesBounds | simplecv/module/resnet.py:49-63 | `at <= 0` freezes nothing and `at >= 5` freezes every stage |
| ResNet.FrozenCount | simplecv/module/resnet.py:49-63 | `_freeze_at(at)` freezes exactly the first `n` stages, with `n = min(max(at, 0), 5)` |
| ResNet.Encoder.FreezeAt | simplecv/module/resnet.py:49-63 | stage i becomes frozen iff `at >= i + 1`; already frozen stages stay frozen |
| ResNet.Encoder.DilateStage | simplecv/module/resnet.py:38-41 | every module of the stage is rewritten by `_nostride_dilate` and every other module is kept |
| ResNet.Encoder.constructor | simplecv/module/resnet.py:21-29 | a new encoder holds the backbone's modules and has no frozen stage |
| ResNet.Encoder.Create | simplecv/module/resnet.py:21-41 | construction fails with the output-stride `ValueError` exactly for strides other than 8, 16 and 32; otherwise the frozen flags follow the freeze rule and each module is the planned rewrite of the backbone's |
| ResNet.DefaultConfigIsPlain | simplecv/module/resnet.py:105-115 | the default configuration is accepted, freezes no stage and rewrites no module |
| ResNet.Forward | simplecv/module/resnet.py:73-103 | the forward pass returns 4 maps (the outputs of `layer1` to `layer4`, chained) with `include_conv5`, and 3 otherwise |
| ResNet.Encoder.FeatureMaps | simplecv/module/resnet.py:96-103 | an encoder returns 4 maps when its own `includeConv5` field (set by `Create` from the configuration) is true and 3 otherwise, the first three being the 3-map result |
| ResNet.ForwardWithoutConv5 | simplecv/module/resnet.py:96-103 | without `include_conv5` the result is the first three maps of the full result |

## Left out

- Printing, the `logging` module, wall-clock time, and the tensorboardX writer are left out. These cover `train_log`, `eval_log`, the `*_summary` methods and `Logger.on`/`off`. They are output and logging-level side effects; the model keeps only whether the writer is on and its directory.
- `simplecv/train.py` is left out. It is argument parsing and distributed-training setup.
- Floating point is not modelled. Values are exact reals, with no rounding and no NaN.
- Logging.SmoothedValue.MedianValue: requires a non-empty window, because `numpy.median` of an empty deque is NaN with a warning.
- Logging.SmoothedValue.AverageValue: requires a non-empty window, for the same reason with `numpy.mean`.
- Logging.SmoothedValue.GlobalAverageValue: requires `count > 0`, because Python raises `ZeroDivisionError` there.
- The window capacity is a natural number. The model does not cover `window_size=None` (unbounded) or a negative size (a `ValueError` in `deque`); only 100 is ever passed.
- Python iterates a dictionary in insertion order. The model's loop takes the names in any order, and the histories it leaves are proved to be the same for every order. The order of the returned snapshot's keys (the order in which names were first registered) is not modelled: Dafny maps have no order, and that order only affects the log formatting, which is left out.
- `Logger.create_or_get_smoothvalues` is specified through the ghost histories of the trackers. Python's aliasing of the returned trackers is reflected only in the guarantee that existing trackers stay the same objects.
- The ResNet backbone itself is not modelled. This covers `registry.MODEL`, pretrained weights, `resnet_type`, and the `fc` pop. These are foreign library calls; the model takes the backbone's submodules as a given sequence of records.
- `_frozen_res_bn` and `batchnorm_trainable` are not modelled. Neither are the parameter freezing inside `param_util`, `requires_grad`, or `eval()` modes. A stage's frozen state is a flag.
- The recursive `.apply` over a stage's submodule tree is not modelled. It is flattened to a visit of every module tagged with that stage.
- Tensors are not modelled. `forward` is modelled over an abstract feature type with one function per stage (`conv1`, `bn1`, `relu` and `maxpool` composed as the stem).
- Gradient checkpointing (`with_cp`, `cp.checkpoint`) is left out. It gives the same values as calling the stage directly. Nothing in `resnet.py` sets `self.with_cp`; the model assumes that `CVModule`, which is not part of this model, sets it from the `with_cp` configuration key (`simplecv/module/resnet.py:114`).
- ResNet.NoStrideDilate: `dilate` is a natural number. Only 2 and 4 are passed, so negative dilations are not covered.
