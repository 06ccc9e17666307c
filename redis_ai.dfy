/** The argument lists of the AI.* commands (tensors, models, scripts and
    graphs of the RedisAI module). */
module RedisAI {
  import opened Tokens

  // ---------------------------------------------------------------------
  // AI.TENSORSET

  datatype TensorType = Float | Double | Int8 | Int16 | Int32 | Int64 | Uint8 | Uint16
  {
    function Name(): string {
      match this
      case Float => "FLOAT"
      case Double => "DOUBLE"
      case Int8 => "INT8"
      case Int16 => "INT16"
      case Int32 => "INT32"
      case Int64 => "INT64"
      case Uint8 => "UINT8"
      case Uint16 => "UINT16"
    }
  }

  /** The tensor data: a string, or a buffer of bytes. */
  datatype TensorData = Values(text: string) | Blob(bytes: seq<bv8>)

  /** A buffer is sent as its text after `BLOB`; a string is sent as one
      element after `VALUES`. */
  function TensorSetCommand(key: string, tensorType: TensorType, data: TensorData): Command {
    var head := [Str(key), Str(tensorType.Name())];
    Command("AI.TENSORSET",
      match data
      case Blob(bytes) => head + [Str("BLOB"), BufferText(bytes)]
      case Values(text) => head + ([Str("VALUES")] + [Str(text)]))
  }

  method TensorSet(key: string, tensorType: TensorType, data: TensorData) returns (cmd: Command)
    ensures cmd == TensorSetCommand(key, tensorType, data)
  {
    var args := [Str(key), Str(tensorType.Name())];
    if data.Blob? {
      args := args + [Str("BLOB"), BufferText(data.bytes)];
    } else {
      args := args + ([Str("VALUES")] + [Str(data.text)]);
    }
    cmd := Command("AI.TENSORSET", args);
  }

  /** Always four arguments: key, type, then `BLOB` and the buffer's text
      for a buffer, `VALUES` and the string otherwise; as long as neither
      the key nor the string is a marker, the two markers never both occur. */
  lemma TensorSetShape(key: string, tensorType: TensorType, data: TensorData)
    ensures var args := TensorSetCommand(key, tensorType, data).args;
      && |args| == 4
      && args[..2] == [Str(key), Str(tensorType.Name())]
      && (args[2] == Str("BLOB") <==> data.Blob?)
      && (args[2] == Str("VALUES") <==> data.Values?)
      && (data.Blob? ==> args[3] == BufferText(data.bytes))
      && (data.Values? ==> args[3] == Str(data.text))
      && ((key !in {"BLOB", "VALUES"} && (data.Values? ==> data.text != "BLOB"))
          ==> !(Str("BLOB") in args && Str("VALUES") in args))
  {
    var args := TensorSetCommand(key, tensorType, data).args;
    var name := tensorType.Name();
    assert name != "BLOB" && name != "VALUES";
    if data.Blob? {
      assert args == [Str(key), Str(name), Str("BLOB"), BufferText(data.bytes)];
    } else {
      assert args == [Str(key), Str(name), Str("VALUES"), Str(data.text)];
    }
  }

  // ---------------------------------------------------------------------
  // AI.TENSORGET

  datatype TensorFormat = BlobFormat | ValuesFormat
  {
    function Name(): string {
      match this
      case BlobFormat => "BLOB"
      case ValuesFormat => "VALUES"
    }
  }

  /** `META` only when `meta` is exactly `true`; the format when given. */
  function TensorGetCommand(key: string, meta: Option<bool>, format: Option<TensorFormat>): Command {
    Command("AI.TENSORGET", [Str(key)] + Flag(IsTrue(meta), "META")
      + (if format.Some? then [Str(format.value.Name())] else []))
  }

  method TensorGet(key: string, meta: Option<bool>, format: Option<TensorFormat>) returns (cmd: Command)
    ensures cmd == TensorGetCommand(key, meta, format)
  {
    var args := PushFlag([Str(key)], IsTrue(meta), "META");
    if format.Some? {
      args := args + [Str(format.value.Name())];
    }
    cmd := Command("AI.TENSORGET", args);
  }

  function FormatOf(t: Token): Option<TensorFormat> {
    if t == Str("BLOB") then Some(BlobFormat)
    else if t == Str("VALUES") then Some(ValuesFormat)
    else None
  }

  /** What a server reads from the arguments after the key: whether `META`
      is asked for, and the format. */
  function TensorGetRead(args: seq<Token>): (bool, Option<TensorFormat>) {
    var rest := if |args| > 0 then args[1..] else [];
    var meta := |rest| > 0 && rest[0] == Str("META");
    var tail := if meta then rest[1..] else rest;
    (meta, if |tail| == 1 then FormatOf(tail[0]) else None)
  }

  /** The request is read back exactly: `META` when `meta` is `true`, and
      the format given. */
  lemma TensorGetRoundTrip(key: string, meta: Option<bool>, format: Option<TensorFormat>)
    ensures TensorGetRead(TensorGetCommand(key, meta, format).args) == (IsTrue(meta), format)
    ensures |TensorGetCommand(key, meta, format).args|
         == 1 + (if IsTrue(meta) then 1 else 0) + (if format.Some? then 1 else 0)
  {
    var args := TensorGetCommand(key, meta, format).args;
    var tail := if format.Some? then [Str(format.value.Name())] else [];
    assert args[1..] == Flag(IsTrue(meta), "META") + tail;
    if format.Some? {
      assert FormatOf(Str(format.value.Name())) == format by {
        match format.value
        case BlobFormat =>
        case ValuesFormat =>
      }
    }
  }

  // ---------------------------------------------------------------------
  // AI.MODELSET

  datatype Backend = TF | TFLite | Torch | Onnx
  {
    function Name(): string {
      match this
      case TF => "TF"
      case TFLite => "TFLITE"
      case Torch => "TORCH"
      case Onnx => "ONNX"
    }
  }

  datatype Batch = Batch(size: string, minSize: Option<string>)

  datatype ModelSetOptions = ModelSetOptions(
    tag: Option<string>,
    batch: Option<Batch>,
    inputs: Option<seq<string>>,
    outputs: Option<seq<string>>)
  {
    predicate Avoids(ks: set<string>) {
      && Outside(tag, ks)
      && (batch.Some? ==> batch.value.size !in ks && Outside(batch.value.minSize, ks))
      && (inputs.Some? ==> forall i :: 0 <= i < |inputs.value| ==> inputs.value[i] !in ks)
      && (outputs.Some? ==> forall i :: 0 <= i < |outputs.value| ==> outputs.value[i] !in ks)
    }
  }

  const NoModelOptions := ModelSetOptions(None, None, None, None)

  function BatchTokens(o: Option<Batch>): seq<Token> {
    if o.None? then [] else [Str("BATCHSIZE"), Str(o.value.size)] + Pair("MINBATCHSIZE", o.value.minSize)
  }

  /** A marker followed by a list, when the list is given. */
  function ListTokens(k: string, o: Option<seq<string>>): seq<Token> {
    if o.None? then [] else [Str(k)] + Strs(o.value)
  }

  /** Everything before the final `BLOB` and model. */
  function ModelSetHead(key: string, backend: Backend, device: string, options: Option<ModelSetOptions>): seq<Token> {
    var o := options.GetOr(NoModelOptions);
    [Str(key), Str(backend.Name()), Str(device)]
    + Pair("TAG", o.tag)
    + BatchTokens(o.batch)
    + ListTokens("INPUTS", o.inputs)
    + ListTokens("OUTPUTS", o.outputs)
  }

  function ModelSetCommand(key: string, backend: Backend, device: string, model: string, options: Option<ModelSetOptions>): Command {
    Command("AI.MODELSET", ModelSetHead(key, backend, device, options) + [Str("BLOB"), Str(model)])
  }

  method ModelSet(key: string, backend: Backend, device: string, model: string, options: Option<ModelSetOptions>) returns (cmd: Command)
    ensures cmd == ModelSetCommand(key, backend, device, model, options)
  {
    var o := options.GetOr(NoModelOptions);
    var args := [Str(key), Str(backend.Name()), Str(device)];
    args := PushPair(args, "TAG", o.tag);
    args := PushBatch(args, o.batch);
    args := PushList(args, "INPUTS", o.inputs);
    args := PushList(args, "OUTPUTS", o.outputs);
    cmd := Command("AI.MODELSET", args + [Str("BLOB"), Str(model)]);
  }

  method PushBatch(args0: seq<Token>, o: Option<Batch>) returns (args: seq<Token>)
    ensures args == args0 + BatchTokens(o)
  {
    args := args0;
    if o.Some? {
      args := args + [Str("BATCHSIZE"), Str(o.value.size)];
      args := PushPair(args, "MINBATCHSIZE", o.value.minSize);
    }
  }

  method PushList(args0: seq<Token>, k: string, o: Option<seq<string>>) returns (args: seq<Token>)
    ensures args == args0 + ListTokens(k, o)
  {
    args := args0;
    if o.Some? {
      args := args + ([Str(k)] + Strs(o.value));
    }
  }

  function TagLength(o: ModelSetOptions): nat {
    if o.tag.Some? then 2 else 0
  }

  function BatchLength(o: ModelSetOptions): nat {
    if o.batch.None? then 0 else if o.batch.value.minSize.Some? then 4 else 2
  }

  function InputsLength(o: ModelSetOptions): nat {
    if o.inputs.None? then 0 else 1 + |o.inputs.value|
  }

  /** The argument lists AI.MODELSET builds up, group by group. */
  lemma ModelSetStages(key: string, backend: Backend, device: string, model: string, options: Option<ModelSetOptions>)
    returns (s0: seq<Token>, s1: seq<Token>, s2: seq<Token>, s3: seq<Token>, s4: seq<Token>)
    ensures var o := options.GetOr(NoModelOptions);
      && s0 == [Str(key), Str(backend.Name()), Str(device)]
      && s1 == s0 + Pair("TAG", o.tag)
      && s2 == s1 + BatchTokens(o.batch)
      && s3 == s2 + ListTokens("INPUTS", o.inputs)
      && s4 == s3 + ListTokens("OUTPUTS", o.outputs)
      && ModelSetCommand(key, backend, device, model, options).args == s4 + [Str("BLOB"), Str(model)]
      && |s1| == 3 + TagLength(o)
      && |s2| == |s1| + BatchLength(o)
      && |s3| == |s2| + InputsLength(o)
      && Extends(s4 + [Str("BLOB"), Str(model)], s1)
      && Extends(s4 + [Str("BLOB"), Str(model)], s2)
      && Extends(s4 + [Str("BLOB"), Str(model)], s3)
      && Extends(s4 + [Str("BLOB"), Str(model)], s4)
  {
    var o := options.GetOr(NoModelOptions);
    s0 := [Str(key), Str(backend.Name()), Str(device)];
    s1 := s0 + Pair("TAG", o.tag);
    s2 := s1 + BatchTokens(o.batch);
    s3 := s2 + ListTokens("INPUTS", o.inputs);
    s4 := s3 + ListTokens("OUTPUTS", o.outputs);
    var args := s4 + [Str("BLOB"), Str(model)];
    ExtendsAppend(s4, [Str("BLOB"), Str(model)]);
    ExtendsAppend(s3, ListTokens("OUTPUTS", o.outputs));
    ExtendsAppend(s2, ListTokens("INPUTS", o.inputs));
    ExtendsAppend(s1, BatchTokens(o.batch));
    ExtendsTrans(s3, s4, args);
    ExtendsTrans(s2, s3, args);
    ExtendsTrans(s1, s2, args);
  }

  /** AI.MODELSET starts with the key, the backend and the device, and
      always ends with `BLOB` and the model. */
  lemma ModelSetEnds(key: string, backend: Backend, device: string, model: string, options: Option<ModelSetOptions>)
    ensures var args := ModelSetCommand(key, backend, device, model, options).args;
      && |args| >= 5
      && args[..3] == [Str(key), Str(backend.Name()), Str(device)]
      && args[|args| - 2..] == [Str("BLOB"), Str(model)]
  {
    var s0, s1, s2, s3, s4 := ModelSetStages(key, backend, device, model, options);
    var args := s4 + [Str("BLOB"), Str(model)];
    PieceAt(args, [], s1);
    assert s1[..3] == s0;
  }

  /** The tag comes right after the device, then the batch size, with
      `MINBATCHSIZE` and the minimum right after it. */
  lemma ModelSetBatchLayout(key: string, backend: Backend, device: string, model: string, options: Option<ModelSetOptions>)
    ensures var args := ModelSetCommand(key, backend, device, model, options).args;
      var o := options.GetOr(NoModelOptions);
      var b := 3 + TagLength(o);
      && |args| >= b + BatchLength(o)
      && (o.tag.Some? ==> args[3..5] == [Str("TAG"), Str(o.tag.value)])
      && (o.batch.Some? ==> args[b..b + 2] == [Str("BATCHSIZE"), Str(o.batch.value.size)])
      && (o.batch.Some? && o.batch.value.minSize.Some? ==>
            args[b + 2..b + 4] == [Str("MINBATCHSIZE"), Str(o.batch.value.minSize.value)])
  {
    var o := options.GetOr(NoModelOptions);
    var s0, s1, s2, s3, s4 := ModelSetStages(key, backend, device, model, options);
    var args := s4 + [Str("BLOB"), Str(model)];
    PieceAt(args, s0, Pair("TAG", o.tag));
    PieceAt(args, s1, BatchTokens(o.batch));
    if o.batch.Some? && o.batch.value.minSize.Some? {
      var b := |s1|;
      assert args[b + 2..b + 4] == args[b..b + 4][2..];
    } else if o.batch.Some? {
      var b := |s1|;
      assert args[b..b + 2] == args[b..b + |BatchTokens(o.batch)|][..2];
    }
  }

  /** The inputs follow `INPUTS` and the outputs follow `OUTPUTS`, each in
      caller order, after the tag and batch groups. */
  lemma ModelSetListLayout(key: string, backend: Backend, device: string, model: string, options: Option<ModelSetOptions>)
    ensures var args := ModelSetCommand(key, backend, device, model, options).args;
      var o := options.GetOr(NoModelOptions);
      var i := 3 + TagLength(o) + BatchLength(o);
      var j := i + InputsLength(o);
      && (o.inputs.Some? ==> |args| > j && args[i] == Str("INPUTS") && args[i + 1..j] == Strs(o.inputs.value))
      && (o.outputs.Some? ==>
            |args| > j + 1 + |o.outputs.value|
            && args[j] == Str("OUTPUTS") && args[j + 1..j + 1 + |o.outputs.value|] == Strs(o.outputs.value))
  {
    var o := options.GetOr(NoModelOptions);
    var s0, s1, s2, s3, s4 := ModelSetStages(key, backend, device, model, options);
    var args := s4 + [Str("BLOB"), Str(model)];
    if o.inputs.Some? {
      MarkedAt(args, s2, Str("INPUTS"), Strs(o.inputs.value));
    }
    if o.outputs.Some? {
      MarkedAt(args, s3, Str("OUTPUTS"), Strs(o.outputs.value));
    }
  }

  const ModelSetKeywords: set<string> := {"TAG", "BATCHSIZE", "MINBATCHSIZE", "INPUTS", "OUTPUTS", "BLOB"}

  /** The keywords of AI.MODELSET in order, as long as no caller string is
      one of them. */
  function ModelSetSkeleton(o: ModelSetOptions): seq<string> {
    AddModelSetKeywords([], o) + ["BLOB"]
  }

  function AddModelSetKeywords(acc: seq<string>, o: ModelSetOptions): seq<string> {
    acc
    + Present(o.tag.Some?, "TAG")
    + BatchKeywords(o.batch)
    + Present(o.inputs.Some?, "INPUTS")
    + Present(o.outputs.Some?, "OUTPUTS")
  }

  function BatchKeywords(o: Option<Batch>): seq<string> {
    if o.Some? then ["BATCHSIZE"] + Present(o.value.minSize.Some?, "MINBATCHSIZE") else []
  }

  lemma ModelSetSkeletonHolds(key: string, backend: Backend, device: string, model: string, options: Option<ModelSetOptions>)
    requires key !in ModelSetKeywords && device !in ModelSetKeywords && model !in ModelSetKeywords
    requires backend.Name() !in ModelSetKeywords
    requires options.GetOr(NoModelOptions).Avoids(ModelSetKeywords)
    ensures Keywords(ModelSetCommand(key, backend, device, model, options).args, ModelSetKeywords)
         == ModelSetSkeleton(options.GetOr(NoModelOptions))
  {
    var o := options.GetOr(NoModelOptions);
    var ks := ModelSetKeywords;
    var s0 := [Str(key), Str(backend.Name()), Str(device)];
    KeywordsQuiet(s0, ks);
    ModelOptionKeywords(s0, o, ks);
    var head := ModelSetHead(key, backend, device, options);
    KeywordsAfterPair(head, "BLOB", Some(model), ks);
    assert Pair("BLOB", Some(model)) == [Str("BLOB"), Str(model)];
  }

  lemma ModelOptionKeywords(s0: seq<Token>, o: ModelSetOptions, ks: set<string>)
    requires ModelSetKeywords <= ks
    requires o.Avoids(ks)
    ensures Keywords(s0 + Pair("TAG", o.tag) + BatchTokens(o.batch) + ListTokens("INPUTS", o.inputs) + ListTokens("OUTPUTS", o.outputs), ks)
         == AddModelSetKeywords(Keywords(s0, ks), o)
  {
    var s1 := s0 + Pair("TAG", o.tag);
    KeywordsAfterPair(s0, "TAG", o.tag, ks);
    var s2 := s1 + BatchTokens(o.batch);
    KeywordsAfterBatch(s1, o.batch, ks);
    var s3 := s2 + ListTokens("INPUTS", o.inputs);
    KeywordsAfterList(s2, "INPUTS", o.inputs, ks);
    KeywordsAfterList(s3, "OUTPUTS", o.outputs, ks);
  }

  lemma KeywordsAfterBatch(args: seq<Token>, o: Option<Batch>, ks: set<string>)
    requires "BATCHSIZE" in ks && "MINBATCHSIZE" in ks
    requires o.Some? ==> o.value.size !in ks && Outside(o.value.minSize, ks)
    ensures Keywords(args + BatchTokens(o), ks)
         == Keywords(args, ks) + BatchKeywords(o)
  {
    if o.Some? {
      KeywordsQuiet([Str(o.value.size)], ks);
      assert BatchTokens(o) == [Str("BATCHSIZE")] + [Str(o.value.size)] + Pair("MINBATCHSIZE", o.value.minSize);
      KeywordsAfterStep(args, "BATCHSIZE", [Str(o.value.size)], "MINBATCHSIZE", o.value.minSize, ks);
    } else {
      assert args + BatchTokens(o) == args;
    }
  }

  lemma KeywordsAfterList(args: seq<Token>, k: string, o: Option<seq<string>>, ks: set<string>)
    requires k in ks
    requires o.Some? ==> forall i :: 0 <= i < |o.value| ==> o.value[i] !in ks
    ensures Keywords(args + ListTokens(k, o), ks) == Keywords(args, ks) + Present(o.Some?, k)
  {
    if o.Some? {
      KeywordsStrs(o.value, ks);
      KeywordsAfterMarked(args, true, k, Strs(o.value), ks);
    } else {
      assert args + ListTokens(k, o) == args;
    }
  }

  /** `MINBATCHSIZE` is sent exactly when a batch with a minimum size is
      given, so never without `BATCHSIZE`. */
  lemma ModelSetMinBatch(key: string, backend: Backend, device: string, model: string, options: Option<ModelSetOptions>)
    requires key !in ModelSetKeywords && device !in ModelSetKeywords && model !in ModelSetKeywords
    requires backend.Name() !in ModelSetKeywords
    requires options.GetOr(NoModelOptions).Avoids(ModelSetKeywords)
    ensures var args := ModelSetCommand(key, backend, device, model, options).args;
      var o := options.GetOr(NoModelOptions);
      && (Str("MINBATCHSIZE") in args <==> o.batch.Some? && o.batch.value.minSize.Some?)
      && (Str("MINBATCHSIZE") in args ==> Str("BATCHSIZE") in args)
  {
    var args := ModelSetCommand(key, backend, device, model, options).args;
    var o := options.GetOr(NoModelOptions);
    ModelSetSkeletonHolds(key, backend, device, model, options);
    KeywordsIn(args, ModelSetKeywords, "MINBATCHSIZE");
    KeywordsIn(args, ModelSetKeywords, "BATCHSIZE");
    SkeletonBatchWords(o);
  }

  lemma SkeletonBatchWords(o: ModelSetOptions)
    ensures "MINBATCHSIZE" in ModelSetSkeleton(o) <==> o.batch.Some? && o.batch.value.minSize.Some?
    ensures "BATCHSIZE" in ModelSetSkeleton(o) <==> o.batch.Some?
  {
    PresentIn(o.tag.Some?, "TAG", "MINBATCHSIZE");
    PresentIn(o.tag.Some?, "TAG", "BATCHSIZE");
    PresentIn(o.inputs.Some?, "INPUTS", "MINBATCHSIZE");
    PresentIn(o.inputs.Some?, "INPUTS", "BATCHSIZE");
    PresentIn(o.outputs.Some?, "OUTPUTS", "MINBATCHSIZE");
    PresentIn(o.outputs.Some?, "OUTPUTS", "BATCHSIZE");
    if o.batch.Some? {
      PresentIn(o.batch.value.minSize.Some?, "MINBATCHSIZE", "MINBATCHSIZE");
      PresentIn(o.batch.value.minSize.Some?, "MINBATCHSIZE", "BATCHSIZE");
    }
  }

  // ---------------------------------------------------------------------
  // AI.MODELGET, AI.SCRIPTGET

  /** `META` and `BLOB` are sent when their arguments are present, whatever
      their value. */
  function ModelGetCommand(key: string, meta: Option<string>, blob: Option<string>): Command {
    Command("AI.MODELGET", [Str(key)] + Flag(meta.Some?, "META") + Flag(blob.Some?, "BLOB"))
  }

  method ModelGet(key: string, meta: Option<string>, blob: Option<string>) returns (cmd: Command)
    ensures cmd == ModelGetCommand(key, meta, blob)
  {
    var args := PushFlag([Str(key)], meta.Some?, "META");
    args := PushFlag(args, blob.Some?, "BLOB");
    cmd := Command("AI.MODELGET", args);
  }

  function ScriptGetCommand(key: string, meta: Option<string>, source: Option<string>): Command {
    Command("AI.SCRIPTGET", [Str(key)] + Flag(meta.Some?, "META") + Flag(source.Some?, "SOURCE"))
  }

  method ScriptGet(key: string, meta: Option<string>, source: Option<string>) returns (cmd: Command)
    ensures cmd == ScriptGetCommand(key, meta, source)
  {
    var args := PushFlag([Str(key)], meta.Some?, "META");
    args := PushFlag(args, source.Some?, "SOURCE");
    cmd := Command("AI.SCRIPTGET", args);
  }

  /** Which of the two markers follow the key. */
  function MarkersRead(args: seq<Token>, k: string): (bool, bool) {
    var rest := if |args| > 0 then args[1..] else [];
    (Str("META") in rest, Str(k) in rest)
  }

  /** The markers are read back as the presence of the two arguments. */
  lemma GetMarkersRoundTrip(key: string, meta: Option<string>, other: Option<string>)
    ensures MarkersRead(ModelGetCommand(key, meta, other).args, "BLOB") == (meta.Some?, other.Some?)
    ensures MarkersRead(ScriptGetCommand(key, meta, other).args, "SOURCE") == (meta.Some?, other.Some?)
  {
    assert ModelGetCommand(key, meta, other).args[1..] == Flag(meta.Some?, "META") + Flag(other.Some?, "BLOB");
    assert ScriptGetCommand(key, meta, other).args[1..] == Flag(meta.Some?, "META") + Flag(other.Some?, "SOURCE");
  }

  // ---------------------------------------------------------------------
  // AI.MODELRUN, AI.SCRIPTRUN

  function ModelRunCommand(key: string, inputs: seq<string>, outputs: seq<string>): Command {
    Command("AI.MODELRUN", [Str(key), Str("INPUTS")] + Strs(inputs) + [Str("OUTPUTS")] + Strs(outputs))
  }

  /** The elements before the first `t`, and those after it. */
  function SplitAt(r: seq<Token>, t: Token): Option<(seq<Token>, seq<Token>)> {
    if r == [] then None
    else if r[0] == t then Some(([], r[1..]))
    else match SplitAt(r[1..], t)
      case None => None
      case Some(parts) => Some(([r[0]] + parts.0, parts.1))
  }

  /** How a server reads AI.MODELRUN: the key, the inputs up to the first
      `OUTPUTS`, and the outputs after it. */
  function ModelRunRead(args: seq<Token>): Option<(string, seq<string>, seq<string>)> {
    if |args| < 2 || !args[0].Str? || args[1] != Str("INPUTS") then None
    else match SplitAt(args[2..], Str("OUTPUTS"))
      case None => None
      case Some(parts) =>
        match (Texts(parts.0), Texts(parts.1))
        case (Some(ins), Some(outs)) => Some((args[0].s, ins, outs))
        case _ => None
  }

  lemma {:induction false} SplitAtStrs(a: seq<string>, t: string, rest: seq<Token>)
    requires t !in a
    ensures SplitAt(Strs(a) + [Str(t)] + rest, Str(t)) == Some((Strs(a), rest))
  {
    var r := Strs(a) + [Str(t)] + rest;
    if a != [] {
      assert r[0] == Str(a[0]);
      assert r[1..] == Strs(a[1..]) + [Str(t)] + rest;
      SplitAtStrs(a[1..], t, rest);
      assert Strs(a) == [Str(a[0])] + Strs(a[1..]);
    } else {
      assert r == [Str(t)] + rest;
    }
  }

  /** As long as no input is `OUTPUTS`, the key, the inputs and the outputs
      are read back exactly. */
  lemma ModelRunRoundTrip(key: string, inputs: seq<string>, outputs: seq<string>)
    requires "OUTPUTS" !in inputs
    ensures ModelRunRead(ModelRunCommand(key, inputs, outputs).args) == Some((key, inputs, outputs))
  {
    var args := ModelRunCommand(key, inputs, outputs).args;
    assert args[2..] == Strs(inputs) + [Str("OUTPUTS")] + Strs(outputs);
    SplitAtStrs(inputs, "OUTPUTS", Strs(outputs));
    TextsOfStrs(inputs);
    TextsOfStrs(outputs);
  }

  /** An input named `OUTPUTS` cannot be told from the marker. */
  lemma ModelRunAmbiguous(key: string)
    ensures ModelRunCommand(key, ["OUTPUTS"], []) == ModelRunCommand(key, [], ["OUTPUTS"])
  {
  }

  /** No marker separates the inputs from the outputs. */
  function ScriptRunCommand(key: string, functionName: string, inputs: seq<string>, outputs: seq<string>): Command {
    Command("AI.SCRIPTRUN", [Str(key), Str(functionName)] + Strs(inputs) + Strs(outputs))
  }

  /** AI.SCRIPTRUN sends the key, the function and all the names in order. */
  lemma ScriptRunTexts(key: string, functionName: string, inputs: seq<string>, outputs: seq<string>)
    ensures Texts(ScriptRunCommand(key, functionName, inputs, outputs).args) == Some([key, functionName] + inputs + outputs)
  {
    var head := [key, functionName];
    StrsAppend(head, inputs);
    StrsAppend(head + inputs, outputs);
    assert Strs(head) == [Str(key), Str(functionName)];
    assert Strs(head + inputs + outputs) == ScriptRunCommand(key, functionName, inputs, outputs).args;
    TextsOfStrs(head + inputs + outputs);
  }

  /** Where the inputs of AI.SCRIPTRUN end is lost: moving a name across
      the boundary gives the same command. */
  lemma ScriptRunBoundaryLost(key: string, functionName: string, inputs: seq<string>, outputs: seq<string>, x: string)
    ensures ScriptRunCommand(key, functionName, inputs + [x], outputs)
         == ScriptRunCommand(key, functionName, inputs, [x] + outputs)
  {
    var head := [Str(key), Str(functionName)];
    StrsAppend(inputs, [x]);
    StrsAppend([x], outputs);
    assert Strs([x]) == [Str(x)];
    assert head + (Strs(inputs) + [Str(x)]) + Strs(outputs) == head + Strs(inputs) + ([Str(x)] + Strs(outputs));
  }

  // ---------------------------------------------------------------------
  // AI.SCRIPTSET

  datatype ScriptSetParameters = ScriptSetParameters(device: string, tag: Option<string>, script: string)

  function ScriptSetCommand(key: string, parameters: ScriptSetParameters): Command {
    Command("AI.SCRIPTSET", [Str(key), Str(parameters.device)] + Pair("TAG", parameters.tag)
      + [Str("SOURCE"), Str(parameters.script)])
  }

  method ScriptSet(key: string, parameters: ScriptSetParameters) returns (cmd: Command)
    ensures cmd == ScriptSetCommand(key, parameters)
  {
    var args := PushPair([Str(key), Str(parameters.device)], "TAG", parameters.tag);
    cmd := Command("AI.SCRIPTSET", args + [Str("SOURCE"), Str(parameters.script)]);
  }

  /** Key and device, the tag pair exactly when a tag is given, and always
      `SOURCE` and the script last. */
  lemma ScriptSetShape(key: string, parameters: ScriptSetParameters)
    ensures var args := ScriptSetCommand(key, parameters).args;
      && args[..2] == [Str(key), Str(parameters.device)]
      && args[|args| - 2..] == [Str("SOURCE"), Str(parameters.script)]
      && (|args| == 6 <==> parameters.tag.Some?)
      && (|args| == 4 <==> parameters.tag.None?)
      && (parameters.tag.Some? ==> args[2..4] == [Str("TAG"), Str(parameters.tag.value)])
  {
  }

  // ---------------------------------------------------------------------
  // AI.DAGRUN, AI.DAGRUN_RO

  /** `keyCount` is sent as given; it is not compared with `keys`. */
  datatype DagKeys = DagKeys(keyCount: Number, keys: seq<string>)

  function DagKeyTokens(k: string, o: Option<DagKeys>): seq<Token> {
    if o.None? then [] else [Str(k), NumText(o.value.keyCount)] + Strs(o.value.keys)
  }

  function DagRunCommand(commands: seq<string>, load: Option<DagKeys>, persist: Option<DagKeys>): Command {
    Command("AI.DAGRUN", DagKeyTokens("LOAD", load) + DagKeyTokens("PERSIST", persist) + Strs(commands))
  }

  function DagRunReadOnlyCommand(commands: seq<string>, load: Option<DagKeys>): Command {
    Command("AI.DAGRUN_RO", DagKeyTokens("LOAD", load) + Strs(commands))
  }

  method PushDagKeys(args0: seq<Token>, k: string, o: Option<DagKeys>) returns (args: seq<Token>)
    ensures args == args0 + DagKeyTokens(k, o)
  {
    args := args0;
    if o.Some? {
      args := args + ([Str(k), NumText(o.value.keyCount)] + Strs(o.value.keys));
    }
  }

  method DagRun(commands: seq<string>, load: Option<DagKeys>, persist: Option<DagKeys>) returns (cmd: Command)
    ensures cmd == DagRunCommand(commands, load, persist)
  {
    var args := PushDagKeys([], "LOAD", load);
    assert args == DagKeyTokens("LOAD", load);
    args := PushDagKeys(args, "PERSIST", persist);
    cmd := Command("AI.DAGRUN", args + Strs(commands));
  }

  method DagRunReadOnly(commands: seq<string>, load: Option<DagKeys>) returns (cmd: Command)
    ensures cmd == DagRunReadOnlyCommand(commands, load)
  {
    var args := PushDagKeys([], "LOAD", load);
    assert args == DagKeyTokens("LOAD", load);
    cmd := Command("AI.DAGRUN_RO", args + Strs(commands));
  }

  function DagKeysLength(o: Option<DagKeys>): nat {
    if o.None? then 0 else 2 + |o.value.keys|
  }

  /** The LOAD group, then the PERSIST group, then the commands; each group
      is its marker, the count as given and the keys in order. */
  lemma DagRunLayout(commands: seq<string>, load: Option<DagKeys>, persist: Option<DagKeys>)
    ensures var args := DagRunCommand(commands, load, persist).args;
      var p := DagKeysLength(load);
      && |args| == p + DagKeysLength(persist) + |commands|
      && args[|args| - |commands|..] == Strs(commands)
      && (load.Some? ==> args[..2] == [Str("LOAD"), NumText(load.value.keyCount)]
                         && args[2..p] == Strs(load.value.keys))
      && (persist.Some? ==> args[p..p + 2] == [Str("PERSIST"), NumText(persist.value.keyCount)]
                            && args[p + 2..p + DagKeysLength(persist)] == Strs(persist.value.keys))
  {
    var a := DagKeyTokens("LOAD", load);
    var b := DagKeyTokens("PERSIST", persist);
    DagKeysShape("LOAD", load);
    DagKeysShape("PERSIST", persist);
    Slices3(a, b, Strs(commands));
  }

  lemma DagKeysShape(k: string, o: Option<DagKeys>)
    ensures var t := DagKeyTokens(k, o);
      && |t| == DagKeysLength(o)
      && (o.Some? ==> t[..2] == [Str(k), NumText(o.value.keyCount)] && t[2..] == Strs(o.value.keys))
  {
  }

  /** Slices of a sequence made of three pieces. */
  lemma Slices3(a: seq<Token>, b: seq<Token>, c: seq<Token>)
    ensures (a + b + c)[..|a|] == a
    ensures (a + b + c)[|a|..|a| + |b|] == b
    ensures (a + b + c)[|a| + |b|..] == c
    ensures |a| >= 2 ==> (a + b + c)[..2] == a[..2] && (a + b + c)[2..|a|] == a[2..]
    ensures |b| >= 2 ==> (a + b + c)[|a|..|a| + 2] == b[..2] && (a + b + c)[|a| + 2..|a| + |b|] == b[2..]
  {
  }

  /** AI.DAGRUN_RO sends what AI.DAGRUN sends without a PERSIST group. */
  lemma DagRunReadOnlyIsDagRun(commands: seq<string>, load: Option<DagKeys>)
    ensures DagRunReadOnlyCommand(commands, load).args == DagRunCommand(commands, load, None).args
  {
    assert DagKeyTokens("PERSIST", None) == [];
  }

  // ---------------------------------------------------------------------
  // AI.INFO, AI.CONFIG and the one-argument commands

  function InfoCommand(key: string, resetStat: bool): Command {
    Command("AI.INFO", [Str(key)] + Flag(resetStat, "RESETSTAT"))
  }

  method Info(key: string, resetStat: bool) returns (cmd: Command)
    ensures cmd == InfoCommand(key, resetStat)
  {
    var args := PushFlag([Str(key)], resetStat, "RESETSTAT");
    cmd := Command("AI.INFO", args);
  }

  /** `RESETSTAT` follows the key exactly when the flag is `true`. */
  lemma InfoShape(key: string, resetStat: bool)
    ensures var args := InfoCommand(key, resetStat).args;
      && args[0] == Str(key)
      && (|args| == 2 <==> resetStat)
      && (resetStat ==> args[1] == Str("RESETSTAT"))
      && (key != "RESETSTAT" ==> (Str("RESETSTAT") in args <==> resetStat))
  {
  }

  /** The backends path is sent twice; the backend's own path is not sent. */
  function ConfigCommand(backendsPath: string, loadBackend: string, loadBackendPath: string): Command {
    Command("AI.CONFIG", [Str("BACKENDSPATH"), Str(backendsPath), Str("LOADBACKEND"), Str(loadBackend), Str(backendsPath)])
  }

  /** Always five arguments, the last repeating the second, whatever
      `loadBackendPath` is. */
  lemma ConfigShape(backendsPath: string, loadBackend: string, loadBackendPath: string, other: string)
    ensures var args := ConfigCommand(backendsPath, loadBackend, loadBackendPath).args;
      && |args| == 5
      && Texts(args) == Some(["BACKENDSPATH", backendsPath, "LOADBACKEND", loadBackend, backendsPath])
      && args[4] == args[1]
      && ConfigCommand(backendsPath, loadBackend, other) == ConfigCommand(backendsPath, loadBackend, loadBackendPath)
      && ((loadBackendPath !in {"BACKENDSPATH", "LOADBACKEND", backendsPath, loadBackend})
          ==> Str(loadBackendPath) !in args)
  {
    var ss := ["BACKENDSPATH", backendsPath, "LOADBACKEND", loadBackend, backendsPath];
    TextsOfStrs(ss);
    assert Strs(ss) == ConfigCommand(backendsPath, loadBackend, loadBackendPath).args;
  }

  function ModelDelCommand(key: string): Command { Command("AI.MODELDEL", [Str(key)]) }
  function ScriptDelCommand(key: string): Command { Command("AI.SCRIPTDEL", [Str(key)]) }
  function ModelScanCommand(): Command { Command("AI._MODELSCAN", []) }
  /** Sent with no argument list at all; modelled as an empty one. */
  function ScriptScanCommand(): Command { Command("AI._SCRIPTSCAN", []) }

  /** The one-argument commands send the key alone, the scans nothing. */
  lemma PassThroughTexts(key: string)
    ensures Texts(ModelDelCommand(key).args) == Some([key])
    ensures Texts(ScriptDelCommand(key).args) == Some([key])
    ensures ModelScanCommand().args == [] && ScriptScanCommand().args == []
  {
    TextsOfStrs([key]);
    assert [Str(key)] == Strs([key]);
  }
}
