/**
  The classification model wrapper: it parses an optional labels file, checks
  the output topology and reconciles the labels with the class count when it is
  built, and turns a raw score vector into ranked (index, label, score) triples.
*/
module Classification {
  import opened Wrappers
  import opened Dicts
  import opened BaseAdapter
  import opened Ranking

  /** The exceptions the wrapper raises. */
  datatype Error =
    | LabelFormat                                      // a labels line without a space
    | NoOutputLayer                                    // `next(iter(...))` on no outputs
    | UnsupportedRank(rank: nat)                       // output neither 2-D nor 4-D
    | UnsupportedTrailingDims(shape: seq<int>)         // 4-D output not [_, _, 1, 1]
    | ShapeIndexOutOfRange                             // `shape[1]` of an empty shape
    | LabelCountMismatch(classes: int, labels: nat)    // class count and labels differ
    | TopkBelowMinimum(topk: int)                      // `topk` under its bound of 1
    | TopkExceedsClasses(topk: int, scores: nat)      // `argpartition` kth out of bounds
    | LabelIndexOutOfRange                             // `labels[i]` past the label list
    | MissingOutput(name: string)                      // no raw output for the layer

  // ---------------------------------------------------------------------------
  // Labels file

  /** Python's `s.find(c)`: the first position of `c` in `s`, or -1. */
  function Find(s: string, c: char): (r: int)
    ensures -1 <= r < |s|
    ensures r == -1 <==> c !in s
    ensures r >= 0 ==> s[r] == c && c !in s[..r]
  {
    if |s| == 0 then -1
    else if s[0] == c then 0
    else
      var t := Find(s[1..], c);
      if t == -1 then -1
      else
        assert s[..t + 1] == [s[0]] + s[1..][..t];
        t + 1
  }

  /** A Python slice bound: negative counts from the end, then clamped to [0, n]. */
  function SliceBound(i: int, n: nat): (r: nat)
    ensures r <= n
    ensures 0 <= i <= n ==> r == i
    ensures -(n as int) <= i < 0 ==> r == i + n
    ensures i > n ==> r == n
    ensures i < -(n as int) ==> r == 0
  {
    if i < 0 then (if i + n < 0 then 0 else i + n)
    else if i > n then n
    else i
  }

  /** Python's `s[i:j]`. */
  function Slice(s: string, i: int, j: int): (r: string)
    ensures |r| <= |s|
    ensures var lo, hi := SliceBound(i, |s|), SliceBound(j, |s|);
      && |r| == (if lo < hi then hi - lo else 0)
      && forall k :: 0 <= k < |r| ==> r[k] == s[lo + k]
  {
    var lo, hi := SliceBound(i, |s|), SliceBound(j, |s|);
    if lo < hi then s[lo..hi] else []
  }

  /** The label a well-formed line yields: `s[s.find(' ') + 1 : s.find(',')]`. */
  function LineLabel(s: string): (r: string)
    requires ' ' in s
    ensures |r| < |s|
  {
    Slice(s, Find(s, ' ') + 1, Find(s, ','))
  }

  /**
    What a line yields, in plain terms: the text after the first space up to the
    first comma (nothing when the comma comes first); without a comma, the text
    after the first space minus the line's last character. Either way the label
    holds no comma.
  */
  lemma LineLabelMeaning(s: string)
    requires ' ' in s
    ensures var sp := Find(s, ' ');
      && (',' in s ==> LineLabel(s) == (if sp < Find(s, ',') then s[sp + 1..Find(s, ',')] else []))
      && (',' !in s ==> LineLabel(s) == (if sp + 1 <= |s| - 1 then s[sp + 1..|s| - 1] else []))
    ensures ',' !in LineLabel(s)
  {
    if ',' in s {
      LabelBeforeComma(s);
    } else {
      LabelWithoutComma(s);
    }
  }

  /** With a comma in the line, the label ends just before the first comma. */
  lemma LabelBeforeComma(s: string)
    requires ' ' in s && ',' in s
    ensures var sp, cm := Find(s, ' '), Find(s, ',');
      LineLabel(s) == (if sp < cm then s[sp + 1..cm] else [])
    ensures ',' !in LineLabel(s)
  {
    var sp, cm := Find(s, ' '), Find(s, ',');
    assert SliceBound(sp + 1, |s|) == sp + 1;
    assert SliceBound(cm, |s|) == cm;
    assert sp < cm ==> s[sp + 1..cm] == s[..cm][sp + 1..];
  }

  /** Without a comma, the line's last character is cut off the label. */
  lemma LabelWithoutComma(s: string)
    requires ' ' in s && ',' !in s
    ensures var sp := Find(s, ' ');
      LineLabel(s) == (if sp + 1 <= |s| - 1 then s[sp + 1..|s| - 1] else [])
    ensures ',' !in LineLabel(s)
  {
    var sp := Find(s, ' ');
    assert Find(s, ',') == -1;
    assert SliceBound(sp + 1, |s|) == sp + 1;
    assert SliceBound(-1, |s|) == |s| - 1;
  }

  /** A position holding the character, with none before it, is what `find` returns. */
  lemma FindAt(s: string, c: char, i: nat)
    requires i < |s| && s[i] == c && c !in s[..i]
    ensures Find(s, c) == i
  {
    var r := Find(s, c);
    assert s[i] in s;
    assert forall j :: 0 <= j < i ==> s[..i][j] == s[j];
    assert forall j :: 0 <= j < r ==> s[..r][j] == s[j];
  }

  /**
    A line of the form `<id> <label>,<rest>` yields exactly
    `<label>`, provided the id holds no space or comma and the label no comma.
  */
  lemma FormattedLineLabel(id: string, name: string, rest: string)
    requires ' ' !in id && ',' !in id && ',' !in name
    ensures ' ' in id + " " + name + "," + rest
    ensures LineLabel(id + " " + name + "," + rest) == name
  {
    var s := id + " " + name + "," + rest;
    var p := |id| + 1 + |name|;
    assert s[..|id|] == id;
    FindAt(s, ' ', |id|);
    assert s[..p] == id + " " + name;
    assert ',' !in s[..p];
    FindAt(s, ',', p);
    assert s[|id| + 1..p] == name;
  }

  /**
    A line `<id> <label><last>` without any comma yields `<label>`: its last
    character is dropped, which removes the newline of a line read from a file,
    and the real last character of a final line that has no newline.
  */
  lemma CommaFreeLineLabel(id: string, name: string, last: char)
    requires ' ' !in id && ',' !in id + name && last != ','
    ensures ' ' in id + " " + name + [last]
    ensures LineLabel(id + " " + name + [last]) == name
  {
    var s := id + " " + name + [last];
    assert s[..|id|] == id;
    FindAt(s, ' ', |id|);
    assert ',' !in s by {
      forall i | 0 <= i < |s| ensures s[i] != ',' {
        if i < |id| {
          assert s[i] == (id + name)[i];
        } else if |id| < i < |s| - 1 {
          assert s[i] == (id + name)[i - 1];
        }
      }
    }
    assert s[|id| + 1..|s| - 1] == name;
  }

  /** The label list a labels file yields, or the error it raises. */
  ghost function ParsedLabels(lines: seq<string>): (r: Result<seq<string>, Error>)
    ensures r.Err? <==> exists k :: 0 <= k < |lines| && ' ' !in lines[k]
    ensures r.Err? ==> r.error == LabelFormat
    ensures r.Ok? ==> |r.value| == |lines|
  {
    if exists k :: 0 <= k < |lines| && ' ' !in lines[k] then Err(LabelFormat)
    else Ok(seq(|lines|, k requires 0 <= k < |lines| => LineLabel(lines[k])))
  }

  /**
    `_load_labels`, with the file given as its lines (each with its newline).
    A line without a space stops the parse with an error and no list; otherwise
    every line yields one label, in file order.
  */
  method LoadLabels(lines: seq<string>) returns (r: Result<seq<string>, Error>)
    ensures r.Err? <==> exists k :: 0 <= k < |lines| && ' ' !in lines[k]
    ensures r.Err? ==> r.error == LabelFormat
    ensures r.Ok? ==>
      && |r.value| == |lines|
      && forall k :: 0 <= k < |lines| ==> ' ' in lines[k] && r.value[k] == LineLabel(lines[k])
    ensures r == ParsedLabels(lines)
  {
    var labels := [];
    for i := 0 to |lines|
      invariant |labels| == i
      invariant forall k :: 0 <= k < i ==> ' ' in lines[k] && labels[k] == LineLabel(lines[k])
    {
      var s := lines[i];
      var beginIdx := Find(s, ' ');
      if beginIdx == -1 {
        return Err(LabelFormat);
      }
      var endIdx := Find(s, ',');
      labels := labels + [Slice(s, beginIdx + 1, endIdx)];
    }
    assert labels == seq(|lines|, k requires 0 <= k < |lines| => LineLabel(lines[k]));
    return Ok(labels);
  }

  // ---------------------------------------------------------------------------
  // Output topology and label reconciliation

  /**
    What `_get_outputs` decides for an output of shape `shape` and the current
    labels: an error, or the label list it leaves behind.
  */
  function OutputsOutcome(shape: seq<int>, labels: seq<string>): (r: Result<seq<string>, Error>)
    ensures r.Ok? ==> |shape| == 0 || |shape| == 2 || (|shape| == 4 && shape[2] == 1 && shape[3] == 1)
    ensures r.Ok? && r.value != [] ==> |shape| >= 2 && shape[1] == |r.value|
    ensures r.Ok? ==> r.value == labels || r.value == ["other"] + labels
    ensures labels == [] ==> r.Ok? || r.error.UnsupportedRank? || r.error.UnsupportedTrailingDims?
  {
    if |shape| != 0 && |shape| != 2 && |shape| != 4 then Err(UnsupportedRank(|shape|))
    else if |shape| == 4 && (shape[2] != 1 || shape[3] != 1) then Err(UnsupportedTrailingDims(shape))
    else if labels == [] then Ok(labels)
    else if |shape| < 2 then Err(ShapeIndexOutOfRange)
    else
      var ls := if shape[1] == |labels| + 1 then ["other"] + labels else labels;
      if shape[1] != |ls| then Err(LabelCountMismatch(shape[1], |ls|)) else Ok(ls)
  }

  /** A non-empty output shape of any rank but 2 and 4 is rejected. */
  lemma RejectsUnsupportedRank(shape: seq<int>, labels: seq<string>)
    requires |shape| != 0 && |shape| != 2 && |shape| != 4
    ensures OutputsOutcome(shape, labels) == Err(UnsupportedRank(|shape|))
  {
  }

  /** A 4-D output shape is rejected unless its last two dimensions are 1. */
  lemma RejectsWideTrailingDims(shape: seq<int>, labels: seq<string>)
    requires |shape| == 4
    ensures OutputsOutcome(shape, labels).Ok? ==> shape[2] == 1 && shape[3] == 1
    ensures shape[2] != 1 || shape[3] != 1 ==> OutputsOutcome(shape, labels) == Err(UnsupportedTrailingDims(shape))
  {
  }

  /** Without labels every supported shape (the empty one included) is accepted as it is. */
  lemma AcceptsWithoutLabels(shape: seq<int>)
    requires |shape| == 0 || |shape| == 2 || (|shape| == 4 && shape[2] == 1 && shape[3] == 1)
    ensures OutputsOutcome(shape, []) == Ok([])
  {
  }

  /**
    Reconciliation on a supported 2-D or 4-D shape with labels: accepted exactly
    when the class count equals the label count or exceeds it by one; in the
    second case "other" is put first and the labels follow in their order;
    otherwise the error reports both counts.
  */
  lemma ReconcileLabels(shape: seq<int>, labels: seq<string>)
    requires |shape| == 2 || (|shape| == 4 && shape[2] == 1 && shape[3] == 1)
    requires labels != []
    ensures var r := OutputsOutcome(shape, labels);
      && (r.Ok? <==> shape[1] == |labels| || shape[1] == |labels| + 1)
      && (shape[1] == |labels| ==> r == Ok(labels))
      && (shape[1] == |labels| + 1 ==>
            && r.Ok? && |r.value| == |labels| + 1 && r.value[0] == "other"
            && forall k :: 0 <= k < |labels| ==> r.value[k + 1] == labels[k])
      && (r.Err? ==> r.error == LabelCountMismatch(shape[1], |labels|))
  {
  }

  /** Labels with an output of no dimensions fail on `shape[1]`. */
  lemma EmptyShapeWithLabels(labels: seq<string>)
    requires labels != []
    ensures OutputsOutcome([], labels) == Err(ShapeIndexOutOfRange)
  {
  }

  /**
    Accepted labels match the class count, and a second reconciliation leaves
    them as they are.
  */
  lemma ReconciledIsStable(shape: seq<int>, labels: seq<string>)
    requires OutputsOutcome(shape, labels).Ok?
    ensures var ls := OutputsOutcome(shape, labels).value;
      && (ls != [] ==> |shape| >= 2 && shape[1] == |ls|)
      && OutputsOutcome(shape, ls) == Ok(ls)
  {
  }

  /** An output `[b, c, 1, 1]` is treated exactly like `[b, c]`. */
  lemma TrailingOnesLikeRank2(b: int, c: int, labels: seq<string>)
    ensures OutputsOutcome([b, c, 1, 1], labels) == OutputsOutcome([b, c], labels)
  {
  }

  /** The `topk` parameter: default 1, values below its minimum of 1 rejected. */
  function TopkParameter(setting: Option<int>): (r: Result<int, Error>)
    ensures setting.None? ==> r == Ok(1)
    ensures setting.Some? && setting.value >= 1 ==> r == Ok(setting.value)
    ensures setting.Some? && setting.value < 1 ==> r == Err(TopkBelowMinimum(setting.value))
  {
    match setting
    case None => Ok(1)
    case Some(k) => if k < 1 then Err(TopkBelowMinimum(k)) else Ok(k)
  }

  // ---------------------------------------------------------------------------
  // Postprocessing

  /** One reported class. */
  datatype Prediction = Prediction(index: nat, name: string, score: real)

  /** The scores of the listed indices, in list order (`outputs[indices]`). */
  function Gather(s: seq<real>, ids: seq<nat>): (r: seq<real>)
    requires InRange(s, ids)
    ensures |r| == |ids| && forall j :: 0 <= j < |ids| ==> r[j] == s[ids[j]]
  {
    seq(|ids|, j requires 0 <= j < |ids| => s[ids[j]])
  }

  /** The label of class `i`: the configured one, or "" when there are none. */
  function LabelFor(labels: seq<string>, i: nat): (name: string)
    requires labels == [] || i < |labels|
    ensures labels != [] ==> name == labels[i]
    ensures labels == [] ==> name == ""
  {
    if labels != [] then labels[i] else ""
  }

  /** Python's `list(zip(...))`: as long as the shortest argument. */
  function Zip3(ids: seq<nat>, names: seq<string>, scores: seq<real>): (r: seq<Prediction>)
    ensures |r| == Min(Min(|ids|, |names|), |scores|)
    ensures forall j :: 0 <= j < |r| ==> r[j] == Prediction(ids[j], names[j], scores[j])
  {
    var n := Min(Min(|ids|, |names|), |scores|);
    seq(n, j requires 0 <= j < n => Prediction(ids[j], names[j], scores[j]))
  }

  /** The indices of the reported triples, in order. */
  function IndicesOf(ps: seq<Prediction>): (r: seq<nat>)
    ensures |r| == |ps| && forall j :: 0 <= j < |ps| ==> r[j] == ps[j].index
  {
    seq(|ps|, j requires 0 <= j < |ps| => ps[j].index)
  }

  /**
    `postprocess` on the squeezed score vector of the output layer. The
    probability test (`np.isclose(np.sum(outputs), 1.0, atol=0.01)` on the
    whole vector) is given as its outcome `sumCloseToOne`, and `softmax` stands
    for the rescale applied to the ranked scores when the test fails.
  */
  function PostprocessScores(scores: seq<real>, labels: seq<string>, topk: int,
                             sumCloseToOne: bool, softmax: seq<real> -> seq<real>)
    : (r: Result<seq<Prediction>, Error>)
    requires topk >= 1
    ensures r.Ok? <==>
      && topk <= |scores|
      && (labels == [] || forall j :: 0 <= j < topk ==> TopK(scores, topk)[j] < |labels|)
    ensures r.Ok? ==> |r.value| <= topk
    ensures r.Ok? ==> DistinctIds(IndicesOf(r.value)) && InRange(scores, IndicesOf(r.value))
    ensures r.Ok? && labels != [] ==> forall j :: 0 <= j < |r.value| ==> r.value[j].index < |labels|
    ensures r.Ok? ==> forall j :: 0 <= j < |r.value| ==>
      r.value[j].name == (if labels == [] then "" else labels[r.value[j].index])
  {
    if topk > |scores| then Err(TopkExceedsClasses(topk, |scores|))
    else
      var indices := TopK(scores, topk);
      var ranked := Gather(scores, indices);
      var reported := if sumCloseToOne then ranked else softmax(ranked);
      if labels != [] && exists j :: 0 <= j < topk && indices[j] >= |labels| then
        Err(LabelIndexOutOfRange)
      else
        var names := seq(topk, j requires 0 <= j < topk => LabelFor(labels, indices[j]));
        Ok(Zip3(indices, names, reported))
  }

  /** A `topk` above the number of classes is an error. */
  lemma PostprocessRejectsLargeTopk(scores: seq<real>, labels: seq<string>, topk: int,
                                    sumCloseToOne: bool, softmax: seq<real> -> seq<real>)
    requires topk > |scores| && topk >= 1
    ensures PostprocessScores(scores, labels, topk, sumCloseToOne, softmax)
         == Err(TopkExceedsClasses(topk, |scores|))
  {
  }

  /**
    The ranking guarantee. For `1 <= topk <= C` and labels that are absent or
    cover every class, there is a top-`topk` ranking of the scores (`topk`
    distinct classes, best first, none left out scoring higher) whose classes
    are reported in order, each with its own label and with its raw score, or
    with the rescaled score in the same position. Without a rescale exactly
    `topk` triples are reported, their indices themselves a top-`topk` ranking,
    and each score is the reported class's own score.
  */
  lemma PostprocessRanks(scores: seq<real>, labels: seq<string>, topk: int,
                         sumCloseToOne: bool, softmax: seq<real> -> seq<real>)
    requires 1 <= topk <= |scores|
    requires labels == [] || |labels| >= |scores|
    ensures var r := PostprocessScores(scores, labels, topk, sumCloseToOne, softmax);
      && r.Ok?
      && (exists ids :: IsTopK(scores, topk, ids) &&
            var reported := if sumCloseToOne then Gather(scores, ids) else softmax(Gather(scores, ids));
            && |r.value| == Min(topk, |reported|)
            && forall j :: 0 <= j < |r.value| ==>
                 r.value[j] == Prediction(ids[j], LabelFor(labels, ids[j]), reported[j]))
      && (sumCloseToOne ==>
            && |r.value| == topk
            && IsTopK(scores, topk, IndicesOf(r.value))
            && forall j :: 0 <= j < topk ==>
                 r.value[j].score == scores[r.value[j].index]
                 && r.value[j].name == LabelFor(labels, r.value[j].index))
  {
    var ids := TopK(scores, topk);
    var r := PostprocessScores(scores, labels, topk, sumCloseToOne, softmax);
    assert r.Ok?;
    if sumCloseToOne {
      assert IndicesOf(r.value) == ids;
    }
  }

  /**
    With a rescale that keeps the length of what it is given, exactly `topk`
    triples are reported in both cases, their indices a top-`topk` ranking.
  */
  lemma PostprocessCount(scores: seq<real>, labels: seq<string>, topk: int,
                         sumCloseToOne: bool, softmax: seq<real> -> seq<real>)
    requires 1 <= topk <= |scores|
    requires labels == [] || |labels| >= |scores|
    requires forall v :: |softmax(v)| == |v|
    ensures var r := PostprocessScores(scores, labels, topk, sumCloseToOne, softmax);
      && r.Ok? && |r.value| == topk
      && IsTopK(scores, topk, IndicesOf(r.value))
      && forall j :: 0 <= j < topk ==> r.value[j].name == LabelFor(labels, r.value[j].index)
  {
    var ids := TopK(scores, topk);
    var r := PostprocessScores(scores, labels, topk, sumCloseToOne, softmax);
    assert |softmax(Gather(scores, ids))| == topk;
    assert IndicesOf(r.value) == ids;
  }

  /**
    Labels shorter than the score vector fail as soon as every class is
    requested: some reported index has no label.
  */
  lemma PostprocessShortLabels(scores: seq<real>, labels: seq<string>,
                               sumCloseToOne: bool, softmax: seq<real> -> seq<real>)
    requires 0 < |labels| < |scores|
    ensures PostprocessScores(scores, labels, |scores|, sumCloseToOne, softmax) == Err(LabelIndexOutOfRange)
  {
    var ids := TopK(scores, |scores|);
    FullRankingCovers(scores, ids, |labels|);
  }

  // ---------------------------------------------------------------------------
  // The model object

  class ClassificationModel {
    /** The network's output descriptors, in the network's order. */
    const outputs: Dict<Metadata>
    const topk: int
    var labels: seq<string>
    var outLayerName: string

    /**
      A fully built wrapper: a legal `topk`, the first output as its layer,
      and labels already reconciled with that layer's shape.
    */
    ghost predicate Valid()
      reads this
    {
      && topk >= 1
      && |outputs| > 0
      && outLayerName == outputs[0].0
      && OutputsOutcome(outputs[0].1.shape, labels) == Ok(labels)
    }

    constructor (outputs: Dict<Metadata>, topk: int, labels: seq<string>)
      ensures this.outputs == outputs && this.topk == topk
      ensures this.labels == labels && outLayerName == ""
    {
      this.outputs := outputs;
      this.topk := topk;
      this.labels := labels;
      outLayerName := "";
    }

    /**
      `_get_outputs`: returns the first output layer's name after checking its
      topology and reconciling the labels in place; on an error the labels are
      left as they were.
    */
    method GetOutputs() returns (r: Result<string, Error>)
      modifies this`labels
      ensures |outputs| == 0 ==> r == Err(NoOutputLayer) && labels == old(labels)
      ensures |outputs| > 0 ==>
        match OutputsOutcome(outputs[0].1.shape, old(labels))
        case Ok(ls) => r == Ok(outputs[0].0) && labels == ls
        case Err(e) => r == Err(e) && labels == old(labels)
    {
      if |outputs| == 0 {
        return Err(NoOutputLayer);
      }
      var layerName := outputs[0].0;
      IndexOfAt(outputs, 0);
      var layerShape := Get(outputs, layerName).value.shape;
      if |layerShape| != 0 && |layerShape| != 2 && |layerShape| != 4 {
        return Err(UnsupportedRank(|layerShape|));
      }
      if |layerShape| == 4 && (layerShape[2] != 1 || layerShape[3] != 1) {
        return Err(UnsupportedTrailingDims(layerShape));
      }
      if labels != [] {
        if |layerShape| < 2 {
          return Err(ShapeIndexOutOfRange);
        }
        if layerShape[1] == |labels| + 1 {
          labels := ["other"] + labels;
        }
        if layerShape[1] != |labels| {
          return Err(LabelCountMismatch(layerShape[1], |labels|));
        }
      }
      return Ok(layerName);
    }

    /**
      `__init__`: resolves `topk`, replaces the configured labels by those of
      the labels file when one is given, then resolves the output layer.
    */
    static method Create(outputs: Dict<Metadata>, topkSetting: Option<int>,
                         labelsSetting: seq<string>, labelLines: Option<seq<string>>)
      returns (r: Result<ClassificationModel, Error>)
      ensures TopkParameter(topkSetting).Err? ==> r == Err(TopkParameter(topkSetting).error)
      ensures TopkParameter(topkSetting).Ok? && labelLines.Some? && ParsedLabels(labelLines.value).Err? ==>
        r == Err(LabelFormat)
      ensures var initial := if labelLines.Some? then ParsedLabels(labelLines.value) else Ok(labelsSetting);
        TopkParameter(topkSetting).Ok? && initial.Ok? ==>
          && (|outputs| == 0 ==> r == Err(NoOutputLayer))
          && (|outputs| > 0 && OutputsOutcome(outputs[0].1.shape, initial.value).Err? ==>
                r == Err(OutputsOutcome(outputs[0].1.shape, initial.value).error))
          && (|outputs| > 0 && OutputsOutcome(outputs[0].1.shape, initial.value).Ok? ==>
                && r.Ok? && fresh(r.value) && r.value.Valid()
                && r.value.outputs == outputs
                && r.value.topk == TopkParameter(topkSetting).value
                && r.value.labels == OutputsOutcome(outputs[0].1.shape, initial.value).value)
      ensures r.Ok? ==> TopkParameter(topkSetting).Ok? && |outputs| > 0
    {
      var topk := TopkParameter(topkSetting);
      if topk.Err? {
        return Err(topk.error);
      }
      var labels := labelsSetting;
      if labelLines.Some? {
        var loaded := LoadLabels(labelLines.value);
        if loaded.Err? {
          return Err(loaded.error);
        }
        labels := loaded.value;
      }
      var m := new ClassificationModel(outputs, topk.value, labels);
      var name := m.GetOutputs();
      if name.Err? {
        return Err(name.error);
      }
      m.outLayerName := name.value;
      ReconciledIsStable(outputs[0].1.shape, labels);
      return Ok(m);
    }

    /**
      `postprocess` for this wrapper: the raw output of its layer, ranked. The
      layer's output is looked up by name among the raw outputs.
    */
    function Postprocess(rawOutputs: Dict<seq<real>>, sumCloseToOne: bool,
                         softmax: seq<real> -> seq<real>): (r: Result<seq<Prediction>, Error>)
      reads this
      requires Valid()
      ensures outLayerName !in Keys(rawOutputs) ==> r == Err(MissingOutput(outLayerName))
      ensures outLayerName in Keys(rawOutputs) && Get(rawOutputs, outLayerName).value == [] ==> r.Err?
    {
      match Get(rawOutputs, outLayerName)
      case None => Err(MissingOutput(outLayerName))
      case Some(scores) => PostprocessScores(scores, labels, topk, sumCloseToOne, softmax)
    }
  }
}
