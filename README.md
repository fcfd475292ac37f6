# Verified model of the classification wrapper and the PyTorch launcher

This project models two pieces of a backend-agnostic inference library in
Dafny and proves properties of them:

- the **classification model wrapper**: it parses a labels file, checks that
  the output layer is `[batch, classes]` or `[batch, classes, 1, 1]`,
  reconciles the labels with the class count (putting a synthetic `"other"`
  label first when exactly one label is missing), and turns a raw score vector
  into the `topk` best `(index, label, score)` triples, best first;
- the **PyTorch launcher**: it chooses between state-dict loading and
  whole-model loading, compiles the network in `"baseline"` or `"scripted"`
  mode, builds the name-to-`Metadata` tables of inputs and outputs from the
  configured shapes (layout `"NCHW"` exactly for 4-D inputs), and runs one
  synchronous inference that converts the caller's inputs in place and pairs
  output names with network outputs positionally.

Files and modules:

| file | module | contents |
|---|---|---|
| `wrappers.dfy` | `Wrappers` | `Option`, `Result` (the source's `None` and raised exceptions) and `Min` (Python's `min`) |
| `dicts.dfy` | `Dicts` | insertion-ordered Python dictionaries: `Dict`, `Get`, `Put`, `MapEntries` |
| `base_adapter.dfy` | `BaseAdapter` | the `Metadata` record with its defaults (the launcher imports `Metadata` from `base_launcher`, which is not part of this model; the model takes it to be this same record); `NetworkInfo`, a stand-in for the class of the library's `common` module, which is not part of this model |
| `ranking.dfy` | `Ranking` | top-`k` selection (the `argpartition`/`argsort`/reverse step) and the reference predicate `IsTopK` |
| `classification.dfy` | `Classification` | labels parsing, topology check and label reconciliation, `topk` parameter, postprocessing, the `ClassificationModel` class |
| `pytorch.dfy` | `PyTorch` | configuration, load-mode choice, the `PyTorchLauncher` class, in-place input conversion and output pairing |

Python dictionaries keep insertion order and the source relies on it (the
first output layer, `zip` of output names with outputs, the positional call
with the input values), so a dictionary is a sequence of `(key, value)`
entries with distinct keys, and `d[k] = v` is `Dicts.Put`: an existing key
keeps its place, a new one goes last.

State that the source changes in place is kept in classes: the wrapper's
`labels` (`insert(0, 'other')`) in `Classification.ClassificationModel`, the
launcher's `model`, `model_configuration`, `device` and `model_info` in
`PyTorch.PyTorchLauncher`, and the caller's `dict_data` in `PyTorch.TensorDict`.
The loops of `_load_labels`, `get_input_layers`, `get_output_layers` and
`infer_sync` are `for` loops proved against specification functions
(`ParsedLabels`, `InputLayers`, `OutputLayers`, `ConvertedInputs`,
`PairOutputs`), and the properties are proved about those functions.
Postprocessing is an expression pipeline in the source and is a function here.

Foreign parts are parameters: the file's contents are given as its lines
(each with its newline), `softmax` is a function argument, the outcome of the
probability test `np.isclose(np.sum(outputs), 1.0, atol=0.01)` is a boolean
argument, and the network's forward pass is a function argument of `InferSync`.
The network is an abstract value (`TorchModel`) that records how it was
obtained: from a class and a state dict, from a whole-model file, or by
scripting another network.

The model follows the code on these points:

- ties between equal scores are not broken by lower index first; NumPy gives
  no guarantee, and the model claims none;
- the probability test sums the whole output vector, not only the selected
  scores, and the rescale is applied to the selected scores only;
- every line of the labels file must contain a space, empty lines included;
- the launcher's input and output tables come from the configuration, and it
  performs no shape check of the inference inputs;
- a missing `"model_name"` or `"model_path"` is read as `""` rather than
  rejected; an unknown compilation mode raises `ValueError`.

## Model

| member | source | states |
|---|---|---|
| `Classification.Find` | visual_api_lib/visual_api/models/classification.py:27-30 | `str.find`: -1 exactly when the character is absent, otherwise the position of its first occurrence |
| `Classification.SliceBound` | visual_api_lib/visual_api/models/classification.py:31 | a slice bound in `[0, n]`: a bound in `[0, n]` is kept, one above `n` becomes `n`, a negative one counts from the end and stops at 0 (so `find`'s -1 means one before the end) |
| `Classification.Slice` | visual_api_lib/visual_api/models/classification.py:31 | `s[i:j]`: the characters of `s` from the clamped start bound up to the clamped end bound, in order, and empty when the end is not past the start |
| `Classification.LineLabel` | visual_api_lib/visual_api/models/classification.py:27-31 | the label of one line is shorter than the line; `Classification.LineLabelMeaning` states which characters it holds |
| `Classification.ParsedLabels` | visual_api_lib/visual_api/models/classification.py:23-32 | the whole file fails with the format error iff some line has no space; otherwise one label per line |
| `Classification.LoadLabels` | visual_api_lib/visual_api/models/classification.py:23-32 | a line without a space is an error and no list is returned; otherwise exactly one label per line, in file order, each `s[first_space+1 : first_comma]` |
| `Classification.LineLabelMeaning` | visual_api_lib/visual_api/models/classification.py:27-31 | the label is the text between the first space and the first comma (empty if the comma comes first); without a comma it runs to one character before the line's end; it never holds a comma |
| `Classification.FormattedLineLabel` | visual_api_lib/visual_api/models/classification.py:26-31 | a line `<id> <label>,<rest>` yields exactly `<label>` |
| `Classification.CommaFreeLineLabel` | visual_api_lib/visual_api/models/classification.py:30-31 | a comma-free line `<id> <label><c>` yields `<label>`: the last character (normally the newline) is dropped |
| `Classification.OutputsOutcome` | visual_api_lib/visual_api/models/classification.py:38-49 | the decision of `_get_outputs`: accepted only for an empty, 2-D or `[_, _, 1, 1]` shape; accepted non-empty labels have the class count; the result is the labels or `"other"` followed by them; without labels only a topology error is possible |
| `Classification.RejectsUnsupportedRank` | visual_api_lib/visual_api/models/classification.py:38-39 | a non-empty output shape whose rank is neither 2 nor 4 is rejected |
| `Classification.RejectsWideTrailingDims` | visual_api_lib/visual_api/models/classification.py:40-42 | a rank-4 shape is accepted only if its last two dimensions are 1 |
| `Classification.AcceptsWithoutLabels` | visual_api_lib/visual_api/models/classification.py:38-43 | without labels every supported shape, the empty one included, is accepted and nothing changes |
| `Classification.ReconcileLabels` | visual_api_lib/visual_api/models/classification.py:43-49 | with labels: accepted iff class count is `L` or `L + 1`; for `L + 1`, `"other"` comes first and the labels shift up by one in order; for `L` they are unchanged; otherwise a count-mismatch error with both counts |
| `Classification.EmptyShapeWithLabels` | visual_api_lib/visual_api/models/classification.py:43-44 | labels with an output of no dimensions fail on `shape[1]` |
| `Classification.ReconciledIsStable` | visual_api_lib/visual_api/models/classification.py:43-49 | accepted non-empty labels have exactly the class count, and reconciling them again changes nothing |
| `Classification.TrailingOnesLikeRank2` | visual_api_lib/visual_api/models/classification.py:38-49 | `[b, c, 1, 1]` is treated exactly like `[b, c]` |
| `Classification.TopkParameter` | visual_api_lib/visual_api/models/classification.py:57 | `topk` defaults to 1; a configured value is kept when at least 1 and rejected below 1 |
| `Classification.Gather` | visual_api_lib/visual_api/models/classification.py:68-72 | `outputs[indices]`: one score per listed index, the score at that index, in list order |
| `Classification.LabelFor` | visual_api_lib/visual_api/models/classification.py:75 | the label of class `i` is `labels[i]` when labels are configured, and `""` when there are none |
| `Classification.Zip3` | visual_api_lib/visual_api/models/classification.py:76 | `list(zip(...))`: as long as the shortest argument, the `j`-th triple made of the `j`-th elements |
| `Classification.PostprocessScores` | visual_api_lib/visual_api/models/classification.py:65-76 | `postprocess` on the score vector: succeeds iff `topk` is at most the class count and every ranked index has a label (when there are labels); at most `topk` triples, with distinct in-range indices and each class's own label or `""` |
| `Classification.PostprocessRejectsLargeTopk` | visual_api_lib/visual_api/models/classification.py:67 | `topk` above the number of scores is an error |
| `Classification.PostprocessRanks` | visual_api_lib/visual_api/models/classification.py:65-76 | for `1 <= topk <= C`: the triples follow a top-`topk` ranking (distinct indices in `[0, C)`, non-increasing scores, nothing left out scores higher), each with `labels[i]` or `""` and its own score or the rescaled score at its position; without a rescale exactly `topk` triples |
| `Classification.PostprocessCount` | visual_api_lib/visual_api/models/classification.py:67-76 | when the rescale keeps lengths, exactly `topk` triples are reported with or without it, their indices a top-`topk` ranking with their labels |
| `Classification.PostprocessShortLabels` | visual_api_lib/visual_api/models/classification.py:75 | labels shorter than the score vector fail with an index error once every class is requested |
| `Classification.ClassificationModel.GetOutputs` | visual_api_lib/visual_api/models/classification.py:34-50 | returns the first output's name; the labels become the reconciled list, or stay as they were on an error; no outputs is an error |
| `Classification.ClassificationModel.Create` | visual_api_lib/visual_api/models/classification.py:16-21 | a bad `topk`, a malformed labels file, no outputs or a rejected topology or label count fail with that error; otherwise the object is fresh and valid and its labels are the file's (or the configured) labels reconciled with the first output's shape |
| `Classification.ClassificationModel.Postprocess` | visual_api_lib/visual_api/models/classification.py:66 | a missing raw output for the layer, or an empty score vector, is an error |
| `Ranking.MaxPos` | visual_api_lib/visual_api/models/classification.py:67 | a position of a highest-scoring candidate |
| `Ranking.Select` | visual_api_lib/visual_api/models/classification.py:67-72 | `k` distinct candidates, non-increasing in score, none left out scoring higher than any chosen |
| `Ranking.TopK` | visual_api_lib/visual_api/models/classification.py:67-72 | the ranking used by postprocessing satisfies the reference predicate `IsTopK` |
| `Ranking.RankedScoresAgree` | visual_api_lib/visual_api/models/classification.py:70-72 | any two top-`k` rankings report the same scores position by position, so the unspecified tie order cannot change the reported scores |
| `Ranking.FullRankingCovers` | visual_api_lib/visual_api/models/classification.py:67 | a ranking of all `C` classes lists every class |
| `BaseAdapter.DefaultMetadata` | visual_api_lib/visual_api/launchers/base_adapter.py:11-18 | every field at its declared default: empty names, shape, layout, precision, type and meta |
| `BaseAdapter.NamedMetadata` | visual_api_lib/visual_api/launchers/base_adapter.py:11-18 | the given name, shape and layout, everything else at its default |
| `Wrappers.Min` | visual_api_lib/visual_api/launchers/pytorch.py:86 | `min(a, b)`, the length `zip` stops at: no larger than either argument and equal to one of them |
| `Dicts.Get` | visual_api_lib/visual_api/launchers/pytorch.py:81 | `d[k]`: a value exactly when `k` is a key, and then the value stored under `k`; `None` where Python raises `KeyError` |
| `Dicts.Put` | visual_api_lib/visual_api/launchers/pytorch.py:67 | `d[k] = v`: `k` now maps to `v`, other keys unchanged; an existing key keeps its place, a new key is appended |
| `Dicts.GetMapEntries` | visual_api_lib/visual_api/launchers/pytorch.py:63-67 | a dictionary built entry by entry from another is looked up through the original |
| `PyTorch.LoadModel` | visual_api_lib/visual_api/launchers/pytorch.py:32-42 | class-plus-state-dict loading iff `"module_name"` is present, whole-model loading otherwise; absent names and paths read as `""` |
| `PyTorch.InputMetadata` | visual_api_lib/visual_api/launchers/pytorch.py:64-67 | the descriptor of one input: its name and shape, layout `"NCHW"` exactly when the shape has four dimensions and `""` otherwise, other fields at their defaults |
| `PyTorch.OutputMetadata` | visual_api_lib/visual_api/launchers/pytorch.py:74 | the descriptor of one output: its name and shape, and every other field, layout included, at its default |
| `PyTorch.ToTorch` | visual_api_lib/visual_api/launchers/pytorch.py:81 | `torch.Tensor(a.astype(dtype))`: a tensor with the array's data that records the `astype` type |
| `PyTorch.ToNumpy` | visual_api_lib/visual_api/launchers/pytorch.py:87 | `detach().numpy()`: an array with the tensor's data |
| `PyTorch.InputLayers` | visual_api_lib/visual_api/launchers/pytorch.py:61-69 | the input table: the configured names in order, each entry with its configured shape and its own name |
| `PyTorch.OutputLayers` | visual_api_lib/visual_api/launchers/pytorch.py:71-76 | the output table: the configured names in order, each entry with its configured shape and its own name |
| `PyTorch.InputLayersByName` | visual_api_lib/visual_api/launchers/pytorch.py:61-69 | one entry per configured input, keyed by its name, with the configured shape; layout `"NCHW"` iff the shape has 4 dimensions, `""` otherwise |
| `PyTorch.OutputLayersByName` | visual_api_lib/visual_api/launchers/pytorch.py:71-76 | one entry per configured output, keyed by its name, with the configured shape and the default layout |
| `PyTorch.PairOutputs` | visual_api_lib/visual_api/launchers/pytorch.py:85-87 | `zip` of output names with outputs: `min(#names, #outputs)` entries, output `j` converted back under name `j` |
| `PyTorch.PairOutputsKeys` | visual_api_lib/visual_api/launchers/pytorch.py:85-87 | the results are keyed by the first `min(#names, #outputs)` output names, output `j` under name `j` |
| `PyTorch.ConvertedInputs` | visual_api_lib/visual_api/launchers/pytorch.py:80-81 | converting inputs in place keeps the keys and their order |
| `PyTorch.PyTorchLauncher.Load` | visual_api_lib/visual_api/launchers/pytorch.py:32-44 | loading half of `__init__`: the network is loaded in the mode `LoadModel` selects, the configuration is kept and the device is `"cpu"`; the descriptor tables start empty |
| `PyTorch.PyTorchLauncher.CompileModel` | visual_api_lib/visual_api/launchers/pytorch.py:49-56 | `"baseline"` keeps the network, `"scripted"` replaces it by its scripted form, any other mode fails and changes nothing |
| `PyTorch.PyTorchLauncher.GetInputLayers` | visual_api_lib/visual_api/launchers/pytorch.py:61-69 | the loop builds exactly `InputLayers` of the configured inputs; no `"inputs"` key is an error |
| `PyTorch.PyTorchLauncher.GetOutputLayers` | visual_api_lib/visual_api/launchers/pytorch.py:71-76 | the loop builds exactly `OutputLayers` of the configured outputs; no `"outputs"` key is an error |
| `PyTorch.PyTorchLauncher.Create` | visual_api_lib/visual_api/launchers/pytorch.py:30-47 | fails exactly when `"inputs"` or `"outputs"` is missing; otherwise the network is loaded in the selected mode on `"cpu"` and `model_info` holds the current input and output tables |
| `PyTorch.PyTorchLauncher.InferSync` | visual_api_lib/visual_api/launchers/pytorch.py:78-89 | succeeds iff every input name has a descriptor; inputs are converted in place in order (up to the first unknown name, which is the error); the result pairs output names with the network's outputs positionally |

## Left out

- Softmax and the probability test are floating-point numerics: the test's outcome is a boolean argument and `softmax` a function argument, so nothing is claimed about rescaled values.
- The order among equal scores: NumPy's `argpartition` and `argsort` fix none; `Ranking.Select` takes the earliest candidate on a tie, and the lemmas claim only tie-independent facts (`Ranking.RankedScoresAgree` shows the reported scores do not depend on it). `Classification.PostprocessScores` itself follows that one tie order, so when there are fewer labels than scores its success can depend on it: for scores `[1.0, 1.0]`, labels `["a"]` and `topk` 1 the model picks index 0 and succeeds, where `argpartition` may pick index 1 and raise `IndexError`.
- `squeeze` and batches above 1: postprocessing takes the already squeezed 1-D score vector; how `squeeze` treats other shapes (a single class, batch > 1) is not modelled.
- `Classification.PostprocessScores` requires `topk >= 1`, which the parameter schema guarantees (`TopkParameter`); the behaviour of `argpartition` for `topk` of 0 is not modelled.
- File reading and logging: the labels file is given as its lines; the warning logged on the `"other"` insertion and the `log.info` calls are dropped.
- `super().__init__`, the parameter-schema classes (`NumericalValue`, `ListValue`, `StringValue`), `_check_io_number`, `raise_error`, `ImageModel` and `NetworkInfo` are not part of this model: `raise_error` is taken to raise, the `topk` bound to reject values below its minimum of 1, `NetworkInfo` to be the pair of its two tables, an empty `path_to_labels` and an unset `labels` parameter to be `None` and `[]`; the I/O-count check is not modelled.
- Torch and loading machinery (`importlib`, `prepend_to_path`, `Path` handling of the module name, `torch.load`, `load_state_dict`, `torch.jit.script`, `.to(device)`, `.eval()`, `astype`, `torch.Tensor`, `.detach().numpy()`): the network is an abstract value, conversions keep the payload and record the requested type, and failures of these calls are not modelled.
- `PyTorch.PyTorchLauncher.InferSync`: a network that returns one tensor rather than a sequence (which `zip` would iterate over) is not modelled; the outputs are always a sequence.
- `BaseAdapter.DefaultMetadata`: the source's untyped `meta` dictionary is modelled as `map<string, string>`; nothing in the modelled code sets it.
- `BaseAdapter.NamedMetadata`: the source passes the tensor name itself as `names`, where the field is declared a set; the model records the singleton set holding the name.
- `reshape_model` and the other abstract `BaseLauncher` methods have no behaviour in the source and the PyTorch launcher does not implement reshaping, so no reshape property is modelled.
