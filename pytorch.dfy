/**
  The PyTorch launcher: picks how to load the network from its configuration,
  compiles it in one of two modes, describes its inputs and outputs from the
  configured shapes, and runs one synchronous forward pass. The network itself
  and every torch call are abstract: the network is a value recording how it was
  obtained, and its forward pass is a function given to `InferSync`.
*/
module PyTorch {
  import opened Wrappers
  import opened Dicts
  import opened BaseAdapter

  /** The launcher's `model_configuration`; `None` is a key that is absent. */
  datatype Configuration = Configuration(
    moduleName: Option<string>,
    modelName: Option<string>,
    modelPath: Option<string>,
    inputs: Option<Dict<seq<int>>>,
    outputs: Option<Dict<seq<int>>>)

  /** The loaded network, identified by how it was obtained. */
  datatype TorchModel =
    | FromStateDict(moduleName: string, className: string, weightsPath: string)
    | WholeModel(path: string)
    | Scripted(original: TorchModel)

  /** The exceptions the launcher raises. */
  datatype Error =
    | MissingKey(key: string)       // `KeyError` on a dictionary lookup
    | UnsupportedMode(mode: string) // the `ValueError` of `compile_model`

  /** Tensor data on either side of the backend boundary. */
  datatype Tensor =
    | NumpyArray(payload: seq<real>)
    | TorchTensor(payload: seq<real>, dtype: string)

  /**
    `torch.Tensor(a.astype(dtype))`; `dtype` records the `astype` argument, not
    the tensor's own element type.
  */
  function ToTorch(a: Tensor, dtype: string): (t: Tensor)
    ensures t.TorchTensor? && t.payload == a.payload && t.dtype == dtype
  {
    TorchTensor(a.payload, dtype)
  }

  /** `t.detach().numpy()`. */
  function ToNumpy(t: Tensor): (a: Tensor)
    ensures a.NumpyArray? && a.payload == t.payload
  {
    NumpyArray(t.payload)
  }

  /**
    The constructor's choice of loading mode: a model class plus a state dict
    exactly when the key "module_name" is present, the whole serialized model
    otherwise. Missing names and paths read as "".
  */
  function LoadModel(config: Configuration): (m: TorchModel)
    ensures m.FromStateDict? <==> config.moduleName.Some?
    ensures m.WholeModel? <==> config.moduleName.None?
    ensures m.FromStateDict? ==>
      m.moduleName == config.moduleName.value && m.className == config.modelName.GetOr("")
      && m.weightsPath == config.modelPath.GetOr("")
    ensures m.WholeModel? ==> m.path == config.modelPath.GetOr("")
  {
    if config.moduleName.Some? then
      FromStateDict(config.moduleName.value, config.modelName.GetOr(""), config.modelPath.GetOr(""))
    else
      WholeModel(config.modelPath.GetOr(""))
  }

  /** The descriptor of a configured input: channel-first layout for a 4-D shape. */
  function InputMetadata(name: string, shape: seq<int>): (m: Metadata)
    ensures m.names == {name} && m.shape == shape
    ensures (m.layout == "NCHW" <==> |shape| == 4) && (|shape| != 4 ==> m.layout == "")
    ensures m.precision == "" && m.tensorType == "" && m.meta == map[]
  {
    NamedMetadata(name, shape, if |shape| == 4 then "NCHW" else "")
  }

  /** The descriptor of a configured output: the default (empty) layout. */
  function OutputMetadata(name: string, shape: seq<int>): (m: Metadata)
    ensures m.names == {name} && m.shape == shape && m.layout == ""
    ensures m.precision == "" && m.tensorType == "" && m.meta == map[]
  {
    NamedMetadata(name, shape, "")
  }

  /** What `get_input_layers` returns for the configured inputs. */
  function InputLayers(inputs: seq<(string, seq<int>)>): (r: seq<(string, Metadata)>)
    ensures Keys(r) == Keys(inputs)
    ensures forall i :: 0 <= i < |r| ==> r[i].1.shape == inputs[i].1 && r[i].1.names == {inputs[i].0}
  {
    MapEntries(inputs, InputMetadata)
  }

  /** What `get_output_layers` returns for the configured outputs. */
  function OutputLayers(outputs: seq<(string, seq<int>)>): (r: seq<(string, Metadata)>)
    ensures Keys(r) == Keys(outputs)
    ensures forall i :: 0 <= i < |r| ==> r[i].1.shape == outputs[i].1 && r[i].1.names == {outputs[i].0}
  {
    MapEntries(outputs, OutputMetadata)
  }

  /**
    One input descriptor per configured input, in configuration order and keyed
    by its name; each has the configured shape, layout "NCHW" exactly when that
    shape has four dimensions and "" otherwise, and defaults elsewhere.
  */
  lemma InputLayersByName(inputs: Dict<seq<int>>, k: string)
    ensures Keys(InputLayers(inputs)) == Keys(inputs) && Distinct(Keys(InputLayers(inputs)))
    ensures k !in Keys(inputs) ==> Get(InputLayers(inputs), k) == None
    ensures k in Keys(inputs) ==>
      var shape := Get(inputs, k).value;
      var m := Get(InputLayers(inputs), k);
      && m.Some? && m.value.names == {k} && m.value.shape == shape
      && (m.value.layout == "NCHW" <==> |shape| == 4)
      && (|shape| != 4 ==> m.value.layout == "")
      && m.value.precision == "" && m.value.tensorType == "" && m.value.meta == map[]
  {
    GetMapEntries(inputs, InputMetadata, k);
  }

  /**
    One output descriptor per configured output, in configuration order and
    keyed by its name, with the configured shape and every other field at its
    default.
  */
  lemma OutputLayersByName(outputs: Dict<seq<int>>, k: string)
    ensures Keys(OutputLayers(outputs)) == Keys(outputs) && Distinct(Keys(OutputLayers(outputs)))
    ensures k !in Keys(outputs) ==> Get(OutputLayers(outputs), k) == None
    ensures k in Keys(outputs) ==>
      Get(OutputLayers(outputs), k) == Some(NamedMetadata(k, Get(outputs, k).value, ""))
  {
    GetMapEntries(outputs, OutputMetadata, k);
  }

  /**
    The caller's inputs after the first `n` have been converted in place: each
    cast with `astype` to the type its descriptor names, then made a tensor
    (`TorchTensor.dtype` records that `astype` argument).
  */
  function ConvertedInputs(entries: Dict<Tensor>, info: Dict<Metadata>, n: nat): (r: Dict<Tensor>)
    requires n <= |entries|
    requires forall q :: 0 <= q < n ==> entries[q].0 in Keys(info)
    ensures Keys(r) == Keys(entries)
  {
    var r := seq(|entries|, q requires 0 <= q < |entries| =>
      if q < n then (entries[q].0, ToTorch(entries[q].1, Get(info, entries[q].0).value.tensorType))
      else entries[q]);
    assert Keys(r) == Keys(entries);
    r
  }

  /**
    `zip(names, outputs)` into a fresh dictionary: output `j` under name `j`, as
    many entries as the shorter of the two has.
  */
  function PairOutputs(names: seq<string>, outs: seq<Tensor>): (r: seq<(string, Tensor)>)
    ensures |r| == Min(|names|, |outs|)
    ensures forall j :: 0 <= j < |r| ==> r[j] == (names[j], ToNumpy(outs[j]))
  {
    var n := Min(|names|, |outs|);
    seq(n, j requires 0 <= j < n => (names[j], ToNumpy(outs[j])))
  }

  /** Pairing distinct names gives a dictionary whose keys are the first names. */
  lemma PairOutputsKeys(names: seq<string>, outs: seq<Tensor>)
    requires Distinct(names)
    ensures var r := PairOutputs(names, outs);
      && Keys(r) == names[..|r|] && Distinct(Keys(r))
      && forall j :: 0 <= j < |r| ==> Get(r, names[j]) == Some(ToNumpy(outs[j]))
  {
    var r := PairOutputs(names, outs);
    assert Keys(r) == names[..|r|];
    forall j | 0 <= j < |r| ensures Get(r, names[j]) == Some(ToNumpy(outs[j])) {
      IndexOfAt(r, j);
    }
  }

  /** The caller's input dictionary, which inference rewrites in place. */
  class TensorDict {
    var entries: Dict<Tensor>

    constructor (entries: Dict<Tensor>)
      ensures this.entries == entries
    {
      this.entries := entries;
    }
  }

  class PyTorchLauncher {
    var model: TorchModel
    var modelConfiguration: Configuration
    var device: string
    var modelInfo: NetworkInfo

    /** The loading half of the constructor; the descriptors are filled in by `Create`. */
    constructor Load(config: Configuration)
      ensures model == LoadModel(config) && modelConfiguration == config && device == "cpu"
      ensures modelInfo == NetworkInfo([], [])
    {
      model := LoadModel(config);
      modelConfiguration := config;
      device := "cpu";
      modelInfo := NetworkInfo([], []);
    }

    /**
      `compile_model`: "baseline" keeps the network, "scripted" replaces it by
      its scripted form, any other mode fails and changes nothing.
    */
    method CompileModel(modelType: string) returns (r: Result<(), Error>)
      modifies this`model
      ensures modelType == "baseline" ==> r.Ok? && model == old(model)
      ensures modelType == "scripted" ==> r.Ok? && model == Scripted(old(model))
      ensures modelType != "baseline" && modelType != "scripted" ==>
        r == Err(UnsupportedMode(modelType)) && model == old(model)
    {
      if modelType == "baseline" {
      } else if modelType == "scripted" {
        model := Scripted(model);
      } else {
        return Err(UnsupportedMode(modelType));
      }
      return Ok(());
    }

    /** `get_input_layers`: fails when the configuration has no "inputs". */
    method GetInputLayers() returns (r: Result<Dict<Metadata>, Error>)
      ensures modelConfiguration.inputs.None? ==> r == Err(MissingKey("inputs"))
      ensures modelConfiguration.inputs.Some? ==> r == Ok(InputLayers(modelConfiguration.inputs.value))
    {
      if modelConfiguration.inputs.None? {
        return Err(MissingKey("inputs"));
      }
      var inputs := modelConfiguration.inputs.value;
      var inputInfo: Dict<Metadata> := [];
      for i := 0 to |inputs|
        invariant inputInfo == InputLayers(inputs[..i])
      {
        var (inputNode, inputShape) := inputs[i];
        var layout := "";
        if |inputShape| == 4 {
          layout := "NCHW";
        }
        assert Keys(inputs[..i + 1]) == Keys(inputs)[..i + 1];
        assert inputNode !in Keys(inputInfo);
        inputInfo := Put(inputInfo, inputNode, NamedMetadata(inputNode, inputShape, layout));
        assert inputs[..i + 1] == inputs[..i] + [inputs[i]];
      }
      assert inputs[..|inputs|] == inputs;
      return Ok(inputInfo);
    }

    /** `get_output_layers`: fails when the configuration has no "outputs". */
    method GetOutputLayers() returns (r: Result<Dict<Metadata>, Error>)
      ensures modelConfiguration.outputs.None? ==> r == Err(MissingKey("outputs"))
      ensures modelConfiguration.outputs.Some? ==> r == Ok(OutputLayers(modelConfiguration.outputs.value))
    {
      if modelConfiguration.outputs.None? {
        return Err(MissingKey("outputs"));
      }
      var outputs := modelConfiguration.outputs.value;
      var outputInfo: Dict<Metadata> := [];
      for i := 0 to |outputs|
        invariant outputInfo == OutputLayers(outputs[..i])
      {
        var (outputNode, outputShape) := outputs[i];
        assert Keys(outputs[..i + 1]) == Keys(outputs)[..i + 1];
        assert outputNode !in Keys(outputInfo);
        outputInfo := Put(outputInfo, outputNode, NamedMetadata(outputNode, outputShape, ""));
        assert outputs[..i + 1] == outputs[..i] + [outputs[i]];
      }
      assert outputs[..|outputs|] == outputs;
      return Ok(outputInfo);
    }

    /**
      `__init__`: loads the network in the mode the configuration selects,
      compiles it as "baseline" on "cpu", and records the descriptors of its
      inputs and outputs.
    */
    static method Create(config: Configuration) returns (r: Result<PyTorchLauncher, Error>)
      ensures config.inputs.None? ==> r == Err(MissingKey("inputs"))
      ensures config.inputs.Some? && config.outputs.None? ==> r == Err(MissingKey("outputs"))
      ensures config.inputs.Some? && config.outputs.Some? ==> r.Ok?
      ensures r.Ok? ==>
        && fresh(r.value)
        && r.value.model == LoadModel(config)
        && r.value.modelConfiguration == config
        && r.value.device == "cpu"
        && config.inputs.Some? && config.outputs.Some?
        && r.value.modelInfo == NetworkInfo(InputLayers(config.inputs.value), OutputLayers(config.outputs.value))
    {
      var launcher := new PyTorchLauncher.Load(config);
      var compiled := launcher.CompileModel("baseline");
      var inputs := launcher.GetInputLayers();
      if inputs.Err? {
        return Err(inputs.error);
      }
      var outputs := launcher.GetOutputLayers();
      if outputs.Err? {
        return Err(outputs.error);
      }
      launcher.modelInfo := NetworkInfo(inputs.value, outputs.value);
      return Ok(launcher);
    }

    /**
      `infer_sync`: converts every caller input in place, in the dictionary's
      order, casting it with `astype` to the type its input descriptor names and
      making it a tensor, failing at the first input that has no descriptor (the
      earlier ones stay converted); then runs `forward` on the converted values
      in order and pairs its outputs with the output names positionally.
    */
    method InferSync(data: TensorDict, forward: (TorchModel, seq<Tensor>) -> seq<Tensor>)
      returns (r: Result<Dict<Tensor>, Error>)
      modifies data
      ensures var before := old(data.entries);
        var info := modelInfo.inputsInfo;
        && (r.Ok? <==> forall q :: 0 <= q < |before| ==> before[q].0 in Keys(info))
        && (r.Ok? ==>
              && data.entries == ConvertedInputs(before, info, |before|)
              && r.value == PairOutputs(Keys(modelInfo.outputsInfo), forward(model, Values(data.entries))))
        && (r.Err? ==> exists p ::
              && 0 <= p < |before| && before[p].0 !in Keys(info)
              && (forall q :: 0 <= q < p ==> before[q].0 in Keys(info))
              && r.error == MissingKey(before[p].0)
              && data.entries == ConvertedInputs(before, info, p))
    {
      ghost var before := data.entries;
      var info := modelInfo.inputsInfo;
      for i := 0 to |data.entries|
        invariant |data.entries| == |before|
        invariant forall q :: 0 <= q < i ==> before[q].0 in Keys(info)
        invariant data.entries == ConvertedInputs(before, info, i)
      {
        var (key, inputTensor) := data.entries[i];
        var meta := Get(info, key);
        if meta.None? {
          return Err(MissingKey(key));
        }
        IndexOfAt(data.entries, i);
        data.entries := Put(data.entries, key, ToTorch(inputTensor, meta.value.tensorType));
      }
      var outputs := forward(model, Values(data.entries));
      var names := Keys(modelInfo.outputsInfo);
      var outputDict: Dict<Tensor> := [];
      var n := Min(|names|, |outputs|);
      for j := 0 to n
        invariant outputDict == PairOutputs(names, outputs)[..j]
      {
        assert Keys(PairOutputs(names, outputs)[..j]) == names[..j];
        outputDict := Put(outputDict, names[j], ToNumpy(outputs[j]));
      }
      assert PairOutputs(names, outputs)[..n] == PairOutputs(names, outputs);
      return Ok(outputDict);
    }
  }
}
