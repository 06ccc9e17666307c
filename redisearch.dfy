/** The argument lists that the full-text search client (`RediSearch`)
    builds for the FT.* commands.

    Each builder that grows its list step by step is modelled twice: a
    function `XCommand` that says which list is sent, and a method `X`
    that performs the same `push`/`concat` steps in the same order and is
    proved to produce exactly that list. A `concat` whose result is not
    assigned adds nothing to the list; the methods compute it into a
    local (`dropped`) and leave `args` as it was. */
module RediSearch {
  import opened Tokens

  // ---------------------------------------------------------------------
  // FT.CREATE

  datatype PrefixEntry = PrefixEntry(count: Number, name: string)

  datatype Stopwords = Stopwords(num: Number, stopword: string)

  /** The optional index settings. The flag-like settings are switched
      on by being present, whatever their value. */
  datatype CreateParameters = CreateParameters(
    filter: Option<string>,
    payloadField: Option<string>,
    maxTextFields: Option<Number>,
    noOffsets: Option<string>,
    temporary: Option<Number>,
    nohl: Option<string>,
    noFields: Option<string>,
    noFreqs: Option<string>,
    skipInitialScan: Option<bool>,
    prefix: Option<seq<PrefixEntry>>,
    language: Option<string>,
    languageField: Option<string>,
    score: Option<string>,
    scoreField: Option<string>,
    stopwords: Option<Stopwords>)
  {
    /** No caller string these settings send is one of `ks`. The flag
        values and the prefix entries are never sent, and `scoreField`
        only after `score`. */
    predicate Avoids(ks: set<string>) {
      && Outside(filter, ks) && Outside(payloadField, ks)
      && Outside(language, ks) && Outside(languageField, ks)
      && Outside(score, ks) && (score.Some? ==> Outside(scoreField, ks))
      && (stopwords.Some? ==> stopwords.value.stopword !in ks)
    }
  }

  /** The options a schema field shares with FT.ALTER. */
  datatype FieldOptions = FieldOptions(
    sortable: Option<bool>,
    noindex: Option<bool>,
    nostem: Option<bool>,
    phonetic: Option<string>,
    weight: Option<Number>,
    seperator: Option<string>)
  {
    predicate Avoids(ks: set<string>) {
      Outside(phonetic, ks) && Outside(seperator, ks)
    }
  }

  /** Only the options of a field are sent; its name and type are not. */
  datatype SchemaField = SchemaField(name: string, fieldType: string, options: FieldOptions)
  {
    predicate Avoids(ks: set<string>) {
      options.Avoids(ks)
    }
  }

  /** No caller string of an FT.CREATE call is one of `ks`. */
  predicate CreateAvoids(index: string, fields: seq<SchemaField>, parameters: Option<CreateParameters>, ks: set<string>) {
    && index !in ks
    && (forall i :: 0 <= i < |fields| ==> fields[i].Avoids(ks))
    && (parameters.Some? ==> parameters.value.Avoids(ks))
  }

  function StopwordsTokens(o: Option<Stopwords>): seq<Token> {
    if o.Some? then [Str("STOPWORDS"), NumText(o.value.num), Str(o.value.stopword)] else []
  }

  /** `args` followed by the tokens of the index settings. `PREFIX` comes
      without its entries, and `SCORE_FIELD` is guarded by `score`, so it
      is sent, with `undefined` after it, when only `score` is given. */
  function AddCreateParams(args: seq<Token>, p: CreateParameters): seq<Token> {
    AddSettingFlags(AddSettingValues(args, p), p)
  }

  /** The settings up to `MAXTEXTFIELDS`: those that carry a value. */
  function AddSettingValues(args: seq<Token>, p: CreateParameters): seq<Token> {
    args
    + Flag(p.prefix.Some?, "PREFIX")
    + Pair("FILTER", p.filter)
    + Pair("LANGUAGE", p.language)
    + Pair("LANGUAGE_FIELD", p.languageField)
    + Pair("SCORE", p.score)
    + (if p.score.Some? then [Str("SCORE_FIELD"), OrUndefined(p.scoreField)] else [])
    + Pair("PAYLOAD_FIELD", p.payloadField)
    + NumPair("MAXTEXTFIELDS", p.maxTextFields)
  }

  /** The settings from `NOOFFSETS` on: flags, and `STOPWORDS`. */
  function AddSettingFlags(args: seq<Token>, p: CreateParameters): seq<Token> {
    args
    + Flag(p.noOffsets.Some?, "NOOFFSETS")
    + Flag(p.temporary.Some?, "TEMPORARY")
    + Flag(p.nohl.Some?, "NOHL")
    + Flag(p.noFields.Some?, "NOFIELDS")
    + Flag(p.noFreqs.Some?, "NOFREQS")
    + StopwordsTokens(p.stopwords)
    + Flag(p.skipInitialScan.Some?, "SKIPINITIALSCAN")
  }

  /** `args` followed by the tokens the per-field options contribute;
      shared by FT.CREATE and FT.ALTER (FT.ALTER adds `WEIGHT` after them). */
  function AddFieldOptions(args: seq<Token>, o: FieldOptions): seq<Token> {
    args
    + Flag(o.sortable.Some?, "SORTABLE")
    + Flag(o.noindex.Some?, "NOINDEX")
    + Flag(o.nostem.Some?, "NOSTEM")
    + Pair("PHONETIC", o.phonetic)
    + Pair("SEPERATOR", o.seperator)
  }

  /** `args` followed by each field's option tokens, field by field. */
  function AddSchema(args: seq<Token>, fields: seq<SchemaField>): seq<Token> {
    if fields == [] then args
    else AddFieldOptions(AddSchema(args, fields[..|fields| - 1]), fields[|fields| - 1].options)
  }

  function CreateCommand(index: string, fields: seq<SchemaField>, parameters: Option<CreateParameters>): Command {
    var head := [Str(index), Str("ON"), Str("HASH")];
    var settings := if parameters.Some? then AddCreateParams(head, parameters.value) else head;
    Command("FT.CREATE", AddSchema(settings + [Str("SCHEMA")], fields))
  }

  method Create(index: string, schemaFields: seq<SchemaField>, parameters: Option<CreateParameters>) returns (cmd: Command)
    ensures cmd == CreateCommand(index, schemaFields, parameters)
  {
    var args := [Str(index)];
    args := args + [Str("ON"), Str("HASH")];
    assert args == [Str(index), Str("ON"), Str("HASH")];
    if parameters.Some? {
      args := PushCreateParams(args, parameters.value);
    }
    args := args + [Str("SCHEMA")];
    ghost var schemaHead := args;
    for i := 0 to |schemaFields|
      invariant args == AddSchema(schemaHead, schemaFields[..i])
    {
      var field := schemaFields[i];
      var dropped := args + [Str(field.name), Str(field.fieldType)];
      args := PushFieldOptions(args, field.options);
      if field.options.weight.Some? {
        var droppedWeight := args + [Str("WEIGHT"), NumText(field.options.weight.value)];
      }
      assert schemaFields[..i + 1][..i] == schemaFields[..i];
    }
    assert schemaFields[..|schemaFields|] == schemaFields;
    cmd := Command("FT.CREATE", args);
  }

  /** The settings part of `create`: one step per optional setting. */
  method PushCreateParams(args0: seq<Token>, p: CreateParameters) returns (args: seq<Token>)
    ensures args == AddCreateParams(args0, p)
  {
    args := PushPrefix(args0, p.prefix);
    args := PushPair(args, "FILTER", p.filter);
    args := PushPair(args, "LANGUAGE", p.language);
    args := PushPair(args, "LANGUAGE_FIELD", p.languageField);
    args := PushPair(args, "SCORE", p.score);
    args := PushWhen(args, p.score.Some?, [Str("SCORE_FIELD"), OrUndefined(p.scoreField)]);
    args := PushPair(args, "PAYLOAD_FIELD", p.payloadField);
    args := PushNumPair(args, "MAXTEXTFIELDS", p.maxTextFields);
    args := PushFlag(args, p.noOffsets.Some?, "NOOFFSETS");
    args := PushFlag(args, p.temporary.Some?, "TEMPORARY");
    args := PushFlag(args, p.nohl.Some?, "NOHL");
    args := PushFlag(args, p.noFields.Some?, "NOFIELDS");
    args := PushFlag(args, p.noFreqs.Some?, "NOFREQS");
    args := PushStopwords(args, p.stopwords);
    args := PushFlag(args, p.skipInitialScan.Some?, "SKIPINITIALSCAN");
  }

  /** The `prefix` step: `PREFIX` is pushed, but each entry's `concat`
      is discarded, so no entry reaches the list. */
  method PushPrefix(args0: seq<Token>, prefix: Option<seq<PrefixEntry>>) returns (args: seq<Token>)
    ensures args == args0 + Flag(prefix.Some?, "PREFIX")
  {
    args := args0;
    if prefix.Some? {
      args := args + [Str("PREFIX")];
      for i := 0 to |prefix.value| {
        var entry := prefix.value[i];
        var dropped := args + [NumText(entry.count), Str(entry.name)];
      }
    }
  }

  method PushStopwords(args0: seq<Token>, stopwords: Option<Stopwords>) returns (args: seq<Token>)
    ensures args == args0 + StopwordsTokens(stopwords)
  {
    args := args0;
    if stopwords.Some? {
      args := args + [Str("STOPWORDS"), NumText(stopwords.value.num), Str(stopwords.value.stopword)];
    }
  }

  /** The per-field part of `create`'s schema loop, and the body of `alter`
      before its `WEIGHT` step. */
  method PushFieldOptions(args0: seq<Token>, o: FieldOptions) returns (args: seq<Token>)
    ensures args == AddFieldOptions(args0, o)
  {
    args := PushFlag(args0, o.sortable.Some?, "SORTABLE");
    args := PushFlag(args, o.noindex.Some?, "NOINDEX");
    args := PushFlag(args, o.nostem.Some?, "NOSTEM");
    args := PushPair(args, "PHONETIC", o.phonetic);
    args := PushPair(args, "SEPERATOR", o.seperator);
  }

  // Properties of FT.CREATE

  /** The keywords FT.CREATE can send. */
  const CreateKeywords: set<string> := {
    "ON", "HASH", "PREFIX", "FILTER", "LANGUAGE", "LANGUAGE_FIELD", "SCORE", "SCORE_FIELD",
    "PAYLOAD_FIELD", "MAXTEXTFIELDS", "NOOFFSETS", "TEMPORARY", "NOHL", "NOFIELDS", "NOFREQS",
    "STOPWORDS", "SKIPINITIALSCAN", "SCHEMA", "SORTABLE", "NOINDEX", "NOSTEM", "PHONETIC", "SEPERATOR"}

  /** `acc` followed by the keywords the index settings contribute, in
      the order they are sent. */
  function AddSettingsKeywords(acc: seq<string>, p: CreateParameters): seq<string> {
    AddFlagKeywords(AddValueKeywords(acc, p), p)
  }

  function AddValueKeywords(acc: seq<string>, p: CreateParameters): seq<string> {
    acc
    + Present(p.prefix.Some?, "PREFIX")
    + Present(p.filter.Some?, "FILTER")
    + Present(p.language.Some?, "LANGUAGE")
    + Present(p.languageField.Some?, "LANGUAGE_FIELD")
    + Present(p.score.Some?, "SCORE")
    + Present(p.score.Some?, "SCORE_FIELD")
    + Present(p.payloadField.Some?, "PAYLOAD_FIELD")
    + Present(p.maxTextFields.Some?, "MAXTEXTFIELDS")
  }

  function AddFlagKeywords(acc: seq<string>, p: CreateParameters): seq<string> {
    acc
    + Present(p.noOffsets.Some?, "NOOFFSETS")
    + Present(p.temporary.Some?, "TEMPORARY")
    + Present(p.nohl.Some?, "NOHL")
    + Present(p.noFields.Some?, "NOFIELDS")
    + Present(p.noFreqs.Some?, "NOFREQS")
    + Present(p.stopwords.Some?, "STOPWORDS")
    + Present(p.skipInitialScan.Some?, "SKIPINITIALSCAN")
  }

  /** The keywords before `SCHEMA`. */
  function HeadSkeleton(parameters: Option<CreateParameters>): seq<string> {
    if parameters.Some? then AddSettingsKeywords(["ON", "HASH"], parameters.value) else ["ON", "HASH"]
  }

  /** `acc` followed by the keywords a field's options contribute. */
  function AddFieldKeywords(acc: seq<string>, o: FieldOptions): seq<string> {
    acc
    + Present(o.sortable.Some?, "SORTABLE")
    + Present(o.noindex.Some?, "NOINDEX")
    + Present(o.nostem.Some?, "NOSTEM")
    + Present(o.phonetic.Some?, "PHONETIC")
    + Present(o.seperator.Some?, "SEPERATOR")
  }

  function AddSchemaKeywords(acc: seq<string>, fields: seq<SchemaField>): seq<string> {
    if fields == [] then acc
    else AddFieldKeywords(AddSchemaKeywords(acc, fields[..|fields| - 1]), fields[|fields| - 1].options)
  }

  lemma SettingsKeywords(args: seq<Token>, p: CreateParameters, ks: set<string>)
    requires CreateKeywords <= ks
    requires p.Avoids(ks)
    ensures Keywords(AddCreateParams(args, p), ks) == AddSettingsKeywords(Keywords(args, ks), p)
  {
    ValueKeywords(args, p, ks);
    FlagKeywords(AddSettingValues(args, p), p, ks);
  }

  lemma ValueKeywords(args: seq<Token>, p: CreateParameters, ks: set<string>)
    requires CreateKeywords <= ks
    requires p.Avoids(ks)
    ensures Keywords(AddSettingValues(args, p), ks) == AddValueKeywords(Keywords(args, ks), p)
  {
    var s1 := args + Flag(p.prefix.Some?, "PREFIX");
    KeywordsAfterFlag(args, p.prefix.Some?, "PREFIX", ks);
    var s2 := s1 + Pair("FILTER", p.filter);
    KeywordsAfterPair(s1, "FILTER", p.filter, ks);
    var s3 := s2 + Pair("LANGUAGE", p.language);
    KeywordsAfterPair(s2, "LANGUAGE", p.language, ks);
    var s4 := s3 + Pair("LANGUAGE_FIELD", p.languageField);
    KeywordsAfterPair(s3, "LANGUAGE_FIELD", p.languageField, ks);
    var s5 := s4 + Pair("SCORE", p.score);
    KeywordsAfterPair(s4, "SCORE", p.score, ks);
    var s6 := s5 + (if p.score.Some? then [Str("SCORE_FIELD"), OrUndefined(p.scoreField)] else []);
    KeywordsAfterScoreField(s5, p, ks);
    var s7 := s6 + Pair("PAYLOAD_FIELD", p.payloadField);
    KeywordsAfterPair(s6, "PAYLOAD_FIELD", p.payloadField, ks);
    KeywordsAfterNumPair(s7, "MAXTEXTFIELDS", p.maxTextFields, ks);
  }

  lemma KeywordsAfterScoreField(args: seq<Token>, p: CreateParameters, ks: set<string>)
    requires "SCORE_FIELD" in ks && (p.score.Some? ==> Outside(p.scoreField, ks))
    ensures Keywords(args + (if p.score.Some? then [Str("SCORE_FIELD"), OrUndefined(p.scoreField)] else []), ks)
      == Keywords(args, ks) + Present(p.score.Some?, "SCORE_FIELD")
  {
    if p.score.Some? {
      KeywordsSingle(OrUndefined(p.scoreField), ks);
      assert [Str("SCORE_FIELD"), OrUndefined(p.scoreField)] == Marked(true, "SCORE_FIELD", [OrUndefined(p.scoreField)]);
      KeywordsAfterMarked(args, true, "SCORE_FIELD", [OrUndefined(p.scoreField)], ks);
    } else {
      assert args + [] == args;
    }
  }

  lemma FlagKeywords(args: seq<Token>, p: CreateParameters, ks: set<string>)
    requires CreateKeywords <= ks
    requires p.Avoids(ks)
    ensures Keywords(AddSettingFlags(args, p), ks) == AddFlagKeywords(Keywords(args, ks), p)
  {
    var s1 := args + Flag(p.noOffsets.Some?, "NOOFFSETS");
    KeywordsAfterFlag(args, p.noOffsets.Some?, "NOOFFSETS", ks);
    var s2 := s1 + Flag(p.temporary.Some?, "TEMPORARY");
    KeywordsAfterFlag(s1, p.temporary.Some?, "TEMPORARY", ks);
    var s3 := s2 + Flag(p.nohl.Some?, "NOHL");
    KeywordsAfterFlag(s2, p.nohl.Some?, "NOHL", ks);
    var s4 := s3 + Flag(p.noFields.Some?, "NOFIELDS");
    KeywordsAfterFlag(s3, p.noFields.Some?, "NOFIELDS", ks);
    var s5 := s4 + Flag(p.noFreqs.Some?, "NOFREQS");
    KeywordsAfterFlag(s4, p.noFreqs.Some?, "NOFREQS", ks);
    var s6 := s5 + StopwordsTokens(p.stopwords);
    KeywordsAfterStopwords(s5, p.stopwords, ks);
    KeywordsAfterFlag(s6, p.skipInitialScan.Some?, "SKIPINITIALSCAN", ks);
  }

  lemma KeywordsAfterStopwords(args: seq<Token>, o: Option<Stopwords>, ks: set<string>)
    requires "STOPWORDS" in ks
    requires o.Some? ==> o.value.stopword !in ks
    ensures Keywords(args + StopwordsTokens(o), ks) == Keywords(args, ks) + Present(o.Some?, "STOPWORDS")
  {
    if o.Some? {
      var w := o.value;
      KeywordsAppend([NumText(w.num)], [Str(w.stopword)], ks);
      KeywordsSingle(NumText(w.num), ks);
      KeywordsSingle(Str(w.stopword), ks);
      assert StopwordsTokens(o) == Marked(true, "STOPWORDS", [NumText(w.num)] + [Str(w.stopword)]);
      KeywordsAfterMarked(args, true, "STOPWORDS", [NumText(w.num)] + [Str(w.stopword)], ks);
    } else {
      assert args + StopwordsTokens(o) == args;
    }
  }

  lemma FieldKeywords(args: seq<Token>, o: FieldOptions, ks: set<string>)
    requires CreateKeywords <= ks
    requires o.Avoids(ks)
    ensures Keywords(AddFieldOptions(args, o), ks) == AddFieldKeywords(Keywords(args, ks), o)
  {
    var s1 := args + Flag(o.sortable.Some?, "SORTABLE");
    KeywordsAfterFlag(args, o.sortable.Some?, "SORTABLE", ks);
    var s2 := s1 + Flag(o.noindex.Some?, "NOINDEX");
    KeywordsAfterFlag(s1, o.noindex.Some?, "NOINDEX", ks);
    var s3 := s2 + Flag(o.nostem.Some?, "NOSTEM");
    KeywordsAfterFlag(s2, o.nostem.Some?, "NOSTEM", ks);
    var s4 := s3 + Pair("PHONETIC", o.phonetic);
    KeywordsAfterPair(s3, "PHONETIC", o.phonetic, ks);
    KeywordsAfterPair(s4, "SEPERATOR", o.seperator, ks);
  }

  lemma {:induction false} SchemaKeywords(args: seq<Token>, fields: seq<SchemaField>, ks: set<string>)
    requires CreateKeywords <= ks
    requires forall i :: 0 <= i < |fields| ==> fields[i].Avoids(ks)
    ensures Keywords(AddSchema(args, fields), ks) == AddSchemaKeywords(Keywords(args, ks), fields)
  {
    if fields != [] {
      var init := fields[..|fields| - 1];
      SchemaKeywords(args, init, ks);
      FieldKeywords(AddSchema(args, init), fields[|fields| - 1].options, ks);
    }
  }

  lemma HeadKeywords(index: string, ks: set<string>)
    requires "ON" in ks && "HASH" in ks && index !in ks
    ensures Keywords([Str(index), Str("ON"), Str("HASH")], ks) == ["ON", "HASH"]
  {
    assert [Str(index), Str("ON"), Str("HASH")] == [Str(index)] + [Str("ON")] + [Str("HASH")];
    KeywordsAppend([Str(index)] + [Str("ON")], [Str("HASH")], ks);
    KeywordsAppend([Str(index)], [Str("ON")], ks);
    KeywordsSingle(Str(index), ks);
    KeywordsSingle(Str("ON"), ks);
    KeywordsSingle(Str("HASH"), ks);
  }

  /** The keyword skeleton of FT.CREATE: `ON HASH`, then the keywords of
      the settings given, `SCHEMA`, and each field's option keywords.
      `SCORE_FIELD` follows `SCORE` whether or not `scoreField` is given,
      and no prefix entry, field name, field type or weight is sent. */
  lemma CreateSkeleton(index: string, fields: seq<SchemaField>, parameters: Option<CreateParameters>, ks: set<string>)
    requires CreateKeywords <= ks
    requires CreateAvoids(index, fields, parameters, ks)
    ensures Keywords(CreateCommand(index, fields, parameters).args, ks)
      == AddSchemaKeywords(HeadSkeleton(parameters) + ["SCHEMA"], fields)
  {
    var head := [Str(index), Str("ON"), Str("HASH")];
    HeadKeywords(index, ks);
    var settings := if parameters.Some? then AddCreateParams(head, parameters.value) else head;
    if parameters.Some? {
      SettingsKeywords(head, parameters.value, ks);
    }
    KeywordsAfterFlag(settings, true, "SCHEMA", ks);
    assert settings + [Str("SCHEMA")] == settings + Flag(true, "SCHEMA");
    SchemaKeywords(settings + [Str("SCHEMA")], fields, ks);
  }

  /** The keys a field's options can add. */
  const FieldKeywordSet: set<string> := {"SORTABLE", "NOINDEX", "NOSTEM", "PHONETIC", "SEPERATOR"}

  lemma {:induction false} SchemaKeywordsKeep(acc: seq<string>, fields: seq<SchemaField>, k: string)
    requires k !in FieldKeywordSet
    ensures k in AddSchemaKeywords(acc, fields) <==> k in acc
  {
    if fields != [] {
      SchemaKeywordsKeep(acc, fields[..|fields| - 1], k);
    }
  }

  lemma {:induction false} SchemaKeywordsCount(acc: seq<string>, fields: seq<SchemaField>, k: string)
    requires k !in FieldKeywordSet
    ensures multiset(AddSchemaKeywords(acc, fields))[k] == multiset(acc)[k]
  {
    if fields != [] {
      SchemaKeywordsCount(acc, fields[..|fields| - 1], k);
    }
  }

  /** No setting sends `SCHEMA`. */
  lemma HeadSkeletonLacksSchema(parameters: Option<CreateParameters>)
    ensures "SCHEMA" !in HeadSkeleton(parameters)
  {
    if parameters.Some? {
      var p := parameters.value;
      ValueWordsIn(["ON", "HASH"], p, "SCHEMA");
      FlagKeywordsKeep(AddValueKeywords(["ON", "HASH"], p), p, "SCHEMA");
    }
  }

  /** FT.CREATE sends `SCHEMA` exactly once (as long as no caller string
      the command sends is `SCHEMA` or another keyword). */
  lemma CreateOneSchema(index: string, fields: seq<SchemaField>, parameters: Option<CreateParameters>, ks: set<string>)
    requires CreateKeywords <= ks
    requires CreateAvoids(index, fields, parameters, ks)
    ensures multiset(CreateCommand(index, fields, parameters).args)[Str("SCHEMA")] == 1
  {
    assert "SCHEMA" !in FieldKeywordSet && "SCHEMA" in ks;
    CreateSkeleton(index, fields, parameters, ks);
    HeadSkeletonLacksSchema(parameters);
    OneSchema(CreateCommand(index, fields, parameters).args, HeadSkeleton(parameters), fields, ks, "SCHEMA");
  }

  /** An argument list whose skeleton is `head`, `k` and the fields'
      keywords holds `k` once when `head` lacks it and no field option
      sends it. */
  lemma OneSchema(args: seq<Token>, head: seq<string>, fields: seq<SchemaField>, ks: set<string>, k: string)
    requires k in ks && k !in head && k !in FieldKeywordSet
    requires Keywords(args, ks) == AddSchemaKeywords(head + [k], fields)
    ensures multiset(args)[Str(k)] == 1
  {
    KeywordsCount(args, ks, k);
    SchemaKeywordsCount(head + [k], fields, k);
    AppendedOnce(head, k);
  }

  /** `SCORE_FIELD` is sent exactly when `SCORE` is, and both exactly when a
      `score` setting is given: a `scoreField` alone sends nothing. */
  lemma CreateScoreField(index: string, fields: seq<SchemaField>, parameters: Option<CreateParameters>, ks: set<string>)
    requires CreateKeywords <= ks
    requires CreateAvoids(index, fields, parameters, ks)
    ensures Str("SCORE") in CreateCommand(index, fields, parameters).args
        <==> parameters.Some? && parameters.value.score.Some?
    ensures Str("SCORE_FIELD") in CreateCommand(index, fields, parameters).args
        <==> parameters.Some? && parameters.value.score.Some?
  {
    CreateSkeleton(index, fields, parameters, ks);
    SkeletonScore(CreateCommand(index, fields, parameters).args, fields, parameters, ks);
  }

  lemma SkeletonScore(args: seq<Token>, fields: seq<SchemaField>, parameters: Option<CreateParameters>, ks: set<string>)
    requires CreateKeywords <= ks
    requires Keywords(args, ks) == AddSchemaKeywords(HeadSkeleton(parameters) + ["SCHEMA"], fields)
    ensures Str("SCORE") in args <==> parameters.Some? && parameters.value.score.Some?
    ensures Str("SCORE_FIELD") in args <==> parameters.Some? && parameters.value.score.Some?
  {
    HeadSkeletonScore(parameters);
    KeywordsIn(args, ks, "SCORE");
    KeywordsIn(args, ks, "SCORE_FIELD");
    SchemaKeywordsKeep(HeadSkeleton(parameters) + ["SCHEMA"], fields, "SCORE");
    SchemaKeywordsKeep(HeadSkeleton(parameters) + ["SCHEMA"], fields, "SCORE_FIELD");
  }

  lemma HeadSkeletonScore(parameters: Option<CreateParameters>)
    ensures "SCORE" in HeadSkeleton(parameters) <==> parameters.Some? && parameters.value.score.Some?
    ensures "SCORE_FIELD" in HeadSkeleton(parameters) <==> parameters.Some? && parameters.value.score.Some?
  {
    if parameters.Some? {
      var p := parameters.value;
      ValueKeywordsScore(["ON", "HASH"], p);
      FlagKeywordsKeep(AddValueKeywords(["ON", "HASH"], p), p, "SCORE");
      FlagKeywordsKeep(AddValueKeywords(["ON", "HASH"], p), p, "SCORE_FIELD");
    }
  }

  /** The list starts `index ON HASH`; with no settings `SCHEMA` comes next. */
  lemma CreateLayout(index: string, fields: seq<SchemaField>, parameters: Option<CreateParameters>)
    ensures |CreateCommand(index, fields, parameters).args| >= 4
    ensures CreateCommand(index, fields, parameters).args[..3] == [Str(index), Str("ON"), Str("HASH")]
    ensures parameters.None? ==> CreateCommand(index, fields, parameters).args[3] == Str("SCHEMA")
  {
    var head := [Str(index), Str("ON"), Str("HASH")];
    var settings := if parameters.Some? then AddCreateParams(head, parameters.value) else head;
    var args := CreateCommand(index, fields, parameters).args;
    if parameters.Some? {
      CreateParamsExtend(head, parameters.value);
    }
    SchemaExtends(settings + [Str("SCHEMA")], fields);
    ExtendsAppend(settings, [Str("SCHEMA")]);
    ExtendsTrans(settings, settings + [Str("SCHEMA")], args);
    if parameters.Some? {
      ExtendsTrans(head, settings, args);
    } else {
      PieceAt(args, head, [Str("SCHEMA")]);
    }
  }

  lemma CreateParamsExtend(args: seq<Token>, p: CreateParameters)
    ensures Extends(AddCreateParams(args, p), args)
  {
    var a := AddSettingValues(args, p);
    assert a[..|args|] == args;
    assert AddSettingFlags(a, p)[..|a|] == a;
    ExtendsTrans(args, a, AddSettingFlags(a, p));
  }

  lemma {:induction false} SchemaExtends(args: seq<Token>, fields: seq<SchemaField>)
    ensures |AddSchema(args, fields)| >= |args|
    ensures AddSchema(args, fields)[..|args|] == args
  {
    if fields != [] {
      var init := AddSchema(args, fields[..|fields| - 1]);
      SchemaExtends(args, fields[..|fields| - 1]);
      var o := fields[|fields| - 1].options;
      assert AddFieldOptions(init, o)[..|init|] == init;
      assert AddFieldOptions(init, o)[..|args|] == init[..|args|];
    }
  }

  /** An `undefined` is sent exactly when `score` is given without
      `scoreField`. */
  lemma {:induction false} CreateUndefined(index: string, fields: seq<SchemaField>, parameters: Option<CreateParameters>)
    ensures Undefined in CreateCommand(index, fields, parameters).args
        <==> parameters.Some? && parameters.value.score.Some? && parameters.value.scoreField.None?
  {
    var head := [Str(index), Str("ON"), Str("HASH")];
    var settings := if parameters.Some? then AddCreateParams(head, parameters.value) else head;
    if parameters.Some? {
      ValuesUndefined(head, parameters.value);
      FlagsUndefined(AddSettingValues(head, parameters.value), parameters.value);
    }
    SchemaUndefined(settings + [Str("SCHEMA")], fields);
  }

  lemma {:induction false} SchemaUndefined(args: seq<Token>, fields: seq<SchemaField>)
    ensures Undefined in AddSchema(args, fields) <==> Undefined in args
  {
    if fields != [] {
      SchemaUndefined(args, fields[..|fields| - 1]);
    }
  }

  /** The options a field sends: all but its weight. */
  function SentOptions(o: FieldOptions): FieldOptions {
    o.(weight := None)
  }

  /** Neither the name, the type nor the weight of a field is sent: two
      schemas alike in the rest give the same argument list. */
  lemma {:induction false} SchemaOnlyOptions(args: seq<Token>, fields1: seq<SchemaField>, fields2: seq<SchemaField>)
    requires |fields1| == |fields2|
    requires forall i :: 0 <= i < |fields1| ==> SentOptions(fields1[i].options) == SentOptions(fields2[i].options)
    ensures AddSchema(args, fields1) == AddSchema(args, fields2)
  {
    if fields1 != [] {
      var n := |fields1| - 1;
      SchemaOnlyOptions(args, fields1[..n], fields2[..n]);
      assert SentOptions(fields1[n].options) == SentOptions(fields2[n].options);
    }
  }

  /** FT.CREATE sends the same list for any two calls that differ only in
      prefix entries, field names, field types and weights. */
  lemma CreateIgnoresDropped(index: string, fields1: seq<SchemaField>, fields2: seq<SchemaField>, parameters1: Option<CreateParameters>, parameters2: Option<CreateParameters>)
    requires |fields1| == |fields2|
    requires forall i :: 0 <= i < |fields1| ==> SentOptions(fields1[i].options) == SentOptions(fields2[i].options)
    requires parameters1.Some? <==> parameters2.Some?
    requires parameters1.Some? ==>
      && (parameters1.value.prefix.Some? <==> parameters2.value.prefix.Some?)
      && parameters1.value.(prefix := None) == parameters2.value.(prefix := None)
    ensures CreateCommand(index, fields1, parameters1) == CreateCommand(index, fields2, parameters2)
  {
    var head := [Str(index), Str("ON"), Str("HASH")];
    if parameters1.Some? {
      var p1, p2 := parameters1.value, parameters2.value;
      assert p1.filter == p1.(prefix := None).filter;
      assert AddCreateParams(head, p1) == AddCreateParams(head, p2);
    }
    var settings := if parameters1.Some? then AddCreateParams(head, parameters1.value) else head;
    SchemaOnlyOptions(settings + [Str("SCHEMA")], fields1, fields2);
  }

  lemma ValueKeywordsScore(acc: seq<string>, p: CreateParameters)
    ensures "SCORE" in AddValueKeywords(acc, p) <==> "SCORE" in acc || p.score.Some?
    ensures "SCORE_FIELD" in AddValueKeywords(acc, p) <==> "SCORE_FIELD" in acc || p.score.Some?
  {
    ValueWordsIn(acc, p, "SCORE");
    ValueWordsIn(acc, p, "SCORE_FIELD");
  }

  /** `x` is in the value keywords when it is in `acc` or is sent by one of
      the value settings. */
  lemma ValueWordsIn(acc: seq<string>, p: CreateParameters, x: string)
    ensures x in AddValueKeywords(acc, p) <==>
      || x in acc
      || (p.prefix.Some? && x == "PREFIX")
      || (p.filter.Some? && x == "FILTER")
      || (p.language.Some? && x == "LANGUAGE")
      || (p.languageField.Some? && x == "LANGUAGE_FIELD")
      || (p.score.Some? && (x == "SCORE" || x == "SCORE_FIELD"))
      || (p.payloadField.Some? && x == "PAYLOAD_FIELD")
      || (p.maxTextFields.Some? && x == "MAXTEXTFIELDS")
  {
    PresentIn(p.prefix.Some?, "PREFIX", x);
    PresentIn(p.filter.Some?, "FILTER", x);
    PresentIn(p.language.Some?, "LANGUAGE", x);
    PresentIn(p.languageField.Some?, "LANGUAGE_FIELD", x);
    PresentIn(p.score.Some?, "SCORE", x);
    PresentIn(p.score.Some?, "SCORE_FIELD", x);
    PresentIn(p.payloadField.Some?, "PAYLOAD_FIELD", x);
    PresentIn(p.maxTextFields.Some?, "MAXTEXTFIELDS", x);
  }

  lemma FlagKeywordsKeep(acc: seq<string>, p: CreateParameters, k: string)
    requires k !in {"NOOFFSETS", "TEMPORARY", "NOHL", "NOFIELDS", "NOFREQS", "STOPWORDS", "SKIPINITIALSCAN"}
    ensures k in AddFlagKeywords(acc, p) <==> k in acc
  {}

  lemma ValuesUndefined(args: seq<Token>, p: CreateParameters)
    ensures Undefined in AddSettingValues(args, p) <==> Undefined in args || (p.score.Some? && p.scoreField.None?)
  {}

  lemma FlagsUndefined(args: seq<Token>, p: CreateParameters)
    ensures Undefined in AddSettingFlags(args, p) <==> Undefined in args
  {}

  // ---------------------------------------------------------------------
  // FT.SEARCH

  datatype FieldCount = FieldCount(num: Number, field: string)

  datatype NumericFilter = NumericFilter(field: string, min: Number, max: Number)

  datatype GeoUnit = Meters | Kilometers | Miles | Feet
  {
    function Name(): string {
      match this
      case Meters => "m"
      case Kilometers => "km"
      case Miles => "mi"
      case Feet => "ft"
    }
  }

  datatype GeoFilter = GeoFilter(field: string, lon: Number, lat: Number, radius: Number, measurement: GeoUnit)

  datatype Summarize = Summarize(fields: Option<seq<FieldCount>>, frags: Option<Number>, len: Option<Number>, seperator: Option<string>)

  datatype HighlightTag = HighlightTag(open: string, close: string)

  datatype Highlight = Highlight(fields: Option<seq<FieldCount>>, tags: Option<seq<HighlightTag>>)

  datatype SortOrder = Asc | Desc
  {
    function Name(): string {
      if Asc? then "ASC" else "DESC"
    }
  }

  datatype SearchSortBy = SearchSortBy(field: string, sort: SortOrder)

  datatype SearchLimit = SearchLimit(first: Number, num: Number)

  /** The optional search settings (`return` is named `returnFields`). */
  datatype SearchParameters = SearchParameters(
    noContent: Option<bool>,
    verbatim: Option<bool>,
    nonStopWords: Option<bool>,
    withScores: Option<bool>,
    withPayloads: Option<bool>,
    withSortKeys: Option<bool>,
    filter: Option<NumericFilter>,
    geoFilter: Option<GeoFilter>,
    inKeys: Option<FieldCount>,
    inFields: Option<FieldCount>,
    returnFields: Option<FieldCount>,
    summarize: Option<Summarize>,
    highlight: Option<Highlight>,
    slop: Option<Number>,
    inOrder: Option<bool>,
    language: Option<string>,
    expander: Option<string>,
    scorer: Option<string>,
    explainScore: Option<bool>,
    payload: Option<string>,
    sortBy: Option<SearchSortBy>,
    limit: Option<SearchLimit>)
  {
    /** No caller string sent by these settings is one of `ks`. */
    predicate Avoids(ks: set<string>) {
      && (filter.Some? ==> filter.value.field !in ks)
      && (inKeys.Some? ==> inKeys.value.field !in ks)
      && (inFields.Some? ==> inFields.value.field !in ks)
      && (returnFields.Some? ==> returnFields.value.field !in ks)
      && (summarize.Some? ==> Outside(summarize.value.seperator, ks))
      && (highlight.Some? && highlight.value.fields.Some? ==>
            forall i :: 0 <= i < |highlight.value.fields.value| ==> highlight.value.fields.value[i].field !in ks)
      && (highlight.Some? && highlight.value.tags.Some? ==>
            forall i :: 0 <= i < |highlight.value.tags.value| ==>
              highlight.value.tags.value[i].open !in ks && highlight.value.tags.value[i].close !in ks)
      && Outside(language, ks) && Outside(expander, ks) && Outside(scorer, ks) && Outside(payload, ks)
      && (sortBy.Some? ==> sortBy.value.field !in ks && sortBy.value.sort.Name() !in ks)
    }
  }

  /** The six flags, each sent when it is `true`; `verbatim` is sent as
      `VERBARIM`. */
  function AddSearchFlags(args: seq<Token>, p: SearchParameters): seq<Token> {
    args
    + Flag(IsTrue(p.noContent), "NOCONTENT")
    + Flag(IsTrue(p.verbatim), "VERBARIM")
    + Flag(IsTrue(p.nonStopWords), "NOSTOPWORDS")
    + Flag(IsTrue(p.withScores), "WITHSCORES")
    + Flag(IsTrue(p.withPayloads), "WITHPAYLOADS")
    + Flag(IsTrue(p.withSortKeys), "WITHSORTKEYS")
  }

  function FilterTokens(o: Option<NumericFilter>): seq<Token> {
    if o.Some? then [Str("FILTER"), Str(o.value.field), NumText(o.value.min), NumText(o.value.max)] else []
  }

  function CountTokens(k: string, o: Option<FieldCount>): seq<Token> {
    if o.Some? then [Str(k), NumText(o.value.num), Str(o.value.field)] else []
  }

  /** `FILTER`, `INKEYS`, `INFIELDS` and `RETURN`; the geographic filter's
      `concat` is discarded, so it adds nothing. */
  function AddSearchFilters(args: seq<Token>, p: SearchParameters): seq<Token> {
    args
    + FilterTokens(p.filter)
    + CountTokens("INKEYS", p.inKeys)
    + CountTokens("INFIELDS", p.inFields)
    + CountTokens("RETURN", p.returnFields)
  }

  /** `SUMMARIZE`, then `FIELDS` without its entries (their `concat` is
      discarded), `FRAGS`, `LEN` and `SEPARATOR`. */
  function AddSummarize(args: seq<Token>, o: Option<Summarize>): seq<Token> {
    if o.None? then args
    else
      args
      + [Str("SUMMARIZE")]
      + Flag(o.value.fields.Some?, "FIELDS")
      + NumPair("FRAGS", o.value.frags)
      + NumPair("LEN", o.value.len)
      + Pair("SEPARATOR", o.value.seperator)
  }

  /** The highlight fields, as `num field` pairs. */
  function FieldCountList(fields: seq<FieldCount>): seq<Token> {
    if fields == [] then []
    else
      var last := fields[|fields| - 1];
      FieldCountList(fields[..|fields| - 1]) + [NumText(last.num), Str(last.field)]
  }

  /** The highlight tags, as `open close` pairs. */
  function TagList(tags: seq<HighlightTag>): seq<Token> {
    if tags == [] then []
    else
      var last := tags[|tags| - 1];
      TagList(tags[..|tags| - 1]) + [Str(last.open), Str(last.close)]
  }

  /** The highlight settings: `FIELDS` with its pairs and `TAGS` with its
      pairs, with no `HIGHLIGHT` keyword before them. */
  function AddHighlight(args: seq<Token>, o: Option<Highlight>): seq<Token> {
    if o.None? then args
    else
      args
      + (if o.value.fields.Some? then [Str("FIELDS")] + FieldCountList(o.value.fields.value) else [])
      + (if o.value.tags.Some? then [Str("TAGS")] + TagList(o.value.tags.value) else [])
  }

  function AddSearchOptions(args: seq<Token>, p: SearchParameters): seq<Token> {
    args
    + NumPair("SLOP", p.slop)
    + Flag(p.inOrder.Some?, "INORDER")
    + Pair("LANGUAGE", p.language)
    + Pair("EXPANDER", p.expander)
    + Pair("SCORER", p.scorer)
  }

  /** `PAYLOAD` is guarded by the payload's truth value: an empty payload is
      not sent. */
  function PayloadTokens(o: Option<string>): seq<Token> {
    if o.Some? && o.value != "" then [Str("PAYLOAD"), Str(o.value)] else []
  }

  function SortByTokens(o: Option<SearchSortBy>): seq<Token> {
    if o.Some? then [Str("SORTBY"), Str(o.value.field), Str(o.value.sort.Name())] else []
  }

  function LimitTokens(o: Option<SearchLimit>): seq<Token> {
    if o.Some? then [Str("LIMIT"), NumText(o.value.first), NumText(o.value.num)] else []
  }

  function AddSearchTail(args: seq<Token>, p: SearchParameters): seq<Token> {
    args
    + Flag(p.explainScore.Some?, "EXPLAINSCORE")
    + PayloadTokens(p.payload)
    + SortByTokens(p.sortBy)
    + LimitTokens(p.limit)
  }

  function AddSearchParams(args: seq<Token>, p: SearchParameters): seq<Token> {
    var filtered := AddSearchFilters(AddSearchFlags(args, p), p);
    var highlighted := AddHighlight(AddSummarize(filtered, p.summarize), p.highlight);
    AddSearchTail(AddSearchOptions(highlighted, p), p)
  }

  function SearchCommand(index: string, query: string, parameters: Option<SearchParameters>): Command {
    var head := [Str(index), Str(query)];
    Command("FT.SEARCH", if parameters.Some? then AddSearchParams(head, parameters.value) else head)
  }

  method Search(index: string, query: string, parameters: Option<SearchParameters>) returns (cmd: Command)
    ensures cmd == SearchCommand(index, query, parameters)
  {
    var args := [Str(index), Str(query)];
    if parameters.Some? {
      var p := parameters.value;
      args := PushSearchFlags(args, p);
      args := PushSearchFilters(args, p);
      args := PushSummarize(args, p.summarize);
      args := PushHighlight(args, p.highlight);
      args := PushSearchOptions(args, p);
      args := PushSearchTail(args, p);
    }
    cmd := Command("FT.SEARCH", args);
  }

  method PushSearchFlags(args0: seq<Token>, p: SearchParameters) returns (args: seq<Token>)
    ensures args == AddSearchFlags(args0, p)
  {
    args := PushFlag(args0, IsTrue(p.noContent), "NOCONTENT");
    args := PushFlag(args, IsTrue(p.verbatim), "VERBARIM");
    args := PushFlag(args, IsTrue(p.nonStopWords), "NOSTOPWORDS");
    args := PushFlag(args, IsTrue(p.withScores), "WITHSCORES");
    args := PushFlag(args, IsTrue(p.withPayloads), "WITHPAYLOADS");
    args := PushFlag(args, IsTrue(p.withSortKeys), "WITHSORTKEYS");
  }

  method PushSearchFilters(args0: seq<Token>, p: SearchParameters) returns (args: seq<Token>)
    ensures args == AddSearchFilters(args0, p)
  {
    args := args0;
    if p.filter.Some? {
      var f := p.filter.value;
      args := args + [Str("FILTER"), Str(f.field), NumText(f.min), NumText(f.max)];
    }
    ghost var filtered := args;
    if p.geoFilter.Some? {
      var g := p.geoFilter.value;
      var dropped := args + [Str("GEOFILTER"), Str(g.field), NumText(g.lon), NumText(g.lat), NumText(g.radius), Str(g.measurement.Name())];
    }
    assert args == filtered;
    if p.inKeys.Some? {
      args := args + [Str("INKEYS"), NumText(p.inKeys.value.num), Str(p.inKeys.value.field)];
    }
    if p.inFields.Some? {
      args := args + [Str("INFIELDS"), NumText(p.inFields.value.num), Str(p.inFields.value.field)];
    }
    if p.returnFields.Some? {
      args := args + [Str("RETURN"), NumText(p.returnFields.value.num), Str(p.returnFields.value.field)];
    }
  }

  method PushSummarize(args0: seq<Token>, o: Option<Summarize>) returns (args: seq<Token>)
    ensures args == AddSummarize(args0, o)
  {
    args := args0;
    if o.Some? {
      var s := o.value;
      args := args + [Str("SUMMARIZE")];
      if s.fields.Some? {
        args := args + [Str("FIELDS")];
        for i := 0 to |s.fields.value| {
          var field := s.fields.value[i];
          var dropped := args + [NumText(field.num), Str(field.field)];
        }
      }
      args := PushNumPair(args, "FRAGS", s.frags);
      args := PushNumPair(args, "LEN", s.len);
      args := PushPair(args, "SEPARATOR", s.seperator);
    }
  }

  method PushHighlight(args0: seq<Token>, o: Option<Highlight>) returns (args: seq<Token>)
    ensures args == AddHighlight(args0, o)
  {
    args := args0;
    if o.Some? {
      args := PushHighlightFields(args, o.value.fields);
      args := PushHighlightTags(args, o.value.tags);
    }
  }

  method PushHighlightFields(args0: seq<Token>, o: Option<seq<FieldCount>>) returns (args: seq<Token>)
    ensures args == args0 + (if o.Some? then [Str("FIELDS")] + FieldCountList(o.value) else [])
  {
    args := args0;
    if o.Some? {
      args := args + [Str("FIELDS")];
      ghost var start := args;
      var fields := o.value;
      for i := 0 to |fields|
        invariant args == start + FieldCountList(fields[..i])
      {
        args := args + [NumText(fields[i].num), Str(fields[i].field)];
        assert fields[..i + 1][..i] == fields[..i];
      }
      assert fields[..|fields|] == fields;
    }
  }

  method PushHighlightTags(args0: seq<Token>, o: Option<seq<HighlightTag>>) returns (args: seq<Token>)
    ensures args == args0 + (if o.Some? then [Str("TAGS")] + TagList(o.value) else [])
  {
    args := args0;
    if o.Some? {
      args := args + [Str("TAGS")];
      ghost var start := args;
      var tags := o.value;
      for i := 0 to |tags|
        invariant args == start + TagList(tags[..i])
      {
        args := args + [Str(tags[i].open), Str(tags[i].close)];
        assert tags[..i + 1][..i] == tags[..i];
      }
      assert tags[..|tags|] == tags;
    }
  }

  method PushSearchOptions(args0: seq<Token>, p: SearchParameters) returns (args: seq<Token>)
    ensures args == AddSearchOptions(args0, p)
  {
    args := PushNumPair(args0, "SLOP", p.slop);
    args := PushFlag(args, p.inOrder.Some?, "INORDER");
    args := PushPair(args, "LANGUAGE", p.language);
    args := PushPair(args, "EXPANDER", p.expander);
    args := PushPair(args, "SCORER", p.scorer);
  }

  method PushSearchTail(args0: seq<Token>, p: SearchParameters) returns (args: seq<Token>)
    ensures args == AddSearchTail(args0, p)
  {
    args := PushFlag(args0, p.explainScore.Some?, "EXPLAINSCORE");
    if p.payload.Some? && p.payload.value != "" {
      args := args + [Str("PAYLOAD"), Str(p.payload.value)];
    }
    if p.sortBy.Some? {
      args := args + [Str("SORTBY"), Str(p.sortBy.value.field), Str(p.sortBy.value.sort.Name())];
    }
    if p.limit.Some? {
      args := args + [Str("LIMIT"), NumText(p.limit.value.first), NumText(p.limit.value.num)];
    }
  }

  // Properties of FT.SEARCH

  /** The highlight fields are sent in the caller's order, each as its
      count's text followed by its name. */
  lemma {:induction false} FieldCountListLayout(fields: seq<FieldCount>)
    ensures |FieldCountList(fields)| == 2 * |fields|
    ensures forall i :: 0 <= i < |fields| ==>
      FieldCountList(fields)[2 * i] == NumText(fields[i].num) && FieldCountList(fields)[2 * i + 1] == Str(fields[i].field)
  {
    if fields != [] {
      FieldCountListLayout(fields[..|fields| - 1]);
    }
  }

  /** The highlight tags are sent in the caller's order, each as its
      opening tag followed by its closing tag. */
  lemma {:induction false} TagListLayout(tags: seq<HighlightTag>)
    ensures |TagList(tags)| == 2 * |tags|
    ensures forall i :: 0 <= i < |tags| ==>
      TagList(tags)[2 * i] == Str(tags[i].open) && TagList(tags)[2 * i + 1] == Str(tags[i].close)
  {
    if tags != [] {
      TagListLayout(tags[..|tags| - 1]);
    }
  }

  lemma SearchParamsExtend(args: seq<Token>, p: SearchParameters)
    ensures Extends(AddSearchParams(args, p), args)
  {
    var a1 := AddSearchFlags(args, p);
    SearchFlagsExtend(args, p);
    var a2 := AddSearchFilters(a1, p);
    SearchFiltersExtend(a1, p);
    ExtendsTrans(args, a1, a2);
    var a3 := AddSummarize(a2, p.summarize);
    var a4 := AddHighlight(a3, p.highlight);
    SummarizeHighlightExtend(a2, p);
    ExtendsTrans(args, a2, a4);
    var a5 := AddSearchOptions(a4, p);
    var a6 := AddSearchTail(a5, p);
    OptionsTailExtend(a4, p);
    ExtendsTrans(args, a4, a6);
  }

  lemma SearchFlagsExtend(args: seq<Token>, p: SearchParameters)
    ensures Extends(AddSearchFlags(args, p), args)
  {
    assert AddSearchFlags(args, p)[..|args|] == args;
  }

  lemma SearchFiltersExtend(args: seq<Token>, p: SearchParameters)
    ensures Extends(AddSearchFilters(args, p), args)
  {
    assert AddSearchFilters(args, p)[..|args|] == args;
  }

  lemma SummarizeHighlightExtend(args: seq<Token>, p: SearchParameters)
    ensures Extends(AddHighlight(AddSummarize(args, p.summarize), p.highlight), args)
  {
    var a := AddSummarize(args, p.summarize);
    assert a[..|args|] == args;
    assert AddHighlight(a, p.highlight)[..|a|] == a;
    ExtendsTrans(args, a, AddHighlight(a, p.highlight));
  }

  lemma OptionsTailExtend(args: seq<Token>, p: SearchParameters)
    ensures Extends(AddSearchTail(AddSearchOptions(args, p), p), args)
  {
    var a := AddSearchOptions(args, p);
    assert a[..|args|] == args;
    assert AddSearchTail(a, p)[..|a|] == a;
    ExtendsTrans(args, a, AddSearchTail(a, p));
  }

  /** The list starts with the index and the query; with no settings,
      nothing follows them. */
  lemma SearchLayout(index: string, query: string, parameters: Option<SearchParameters>)
    ensures |SearchCommand(index, query, parameters).args| >= 2
    ensures SearchCommand(index, query, parameters).args[..2] == [Str(index), Str(query)]
    ensures parameters.None? ==> SearchCommand(index, query, parameters).args == [Str(index), Str(query)]
  {
    if parameters.Some? {
      SearchParamsExtend([Str(index), Str(query)], parameters.value);
      assert SearchCommand(index, query, parameters).args[..2] == [Str(index), Str(query)];
    }
  }

  /** `LIMIT` with its two numbers closes the list whenever it is given. */
  lemma SearchLimitLast(index: string, query: string, p: SearchParameters)
    requires p.limit.Some?
    ensures var args := SearchCommand(index, query, Some(p)).args;
      |args| >= 5 && args[|args| - 3..] == [Str("LIMIT"), NumText(p.limit.value.first), NumText(p.limit.value.num)]
  {
    var head := [Str(index), Str(query)];
    var a5 := AddSearchOptions(AddHighlight(AddSummarize(AddSearchFilters(AddSearchFlags(head, p), p), p.summarize), p.highlight), p);
    SearchParamsExtend(head, p);
    var a6 := AddSearchTail(a5, p);
    assert a6 == a5 + Flag(p.explainScore.Some?, "EXPLAINSCORE") + PayloadTokens(p.payload) + SortByTokens(p.sortBy)
      + [Str("LIMIT"), NumText(p.limit.value.first), NumText(p.limit.value.num)];
  }

  /** The geographic filter is never sent: the list is the same whatever it is. */
  lemma SearchIgnoresGeoFilter(index: string, query: string, p: SearchParameters, g: Option<GeoFilter>)
    ensures SearchCommand(index, query, Some(p.(geoFilter := g))) == SearchCommand(index, query, Some(p))
  {}

  /** The summarize fields are never sent: only whether they are given matters. */
  lemma SearchIgnoresSummarizeFields(index: string, query: string, p: SearchParameters, fields: seq<FieldCount>)
    requires p.summarize.Some? && p.summarize.value.fields.Some?
    ensures SearchCommand(index, query, Some(p.(summarize := Some(p.summarize.value.(fields := Some(fields))))))
         == SearchCommand(index, query, Some(p))
  {}

  /** An empty payload is sent as if none was given. */
  lemma SearchEmptyPayload(index: string, query: string, p: SearchParameters)
    requires p.payload == Some("")
    ensures SearchCommand(index, query, Some(p)) == SearchCommand(index, query, Some(p.(payload := None)))
  {}

  /** The keywords FT.SEARCH sends, and three it never sends: `VERBATIM`,
      `GEOFILTER` and `HIGHLIGHT`. */
  const SearchKeywords: set<string> := {
    "NOCONTENT", "VERBARIM", "VERBATIM", "NOSTOPWORDS", "WITHSCORES", "WITHPAYLOADS", "WITHSORTKEYS",
    "FILTER", "GEOFILTER", "INKEYS", "INFIELDS", "RETURN", "SUMMARIZE", "FIELDS", "FRAGS", "LEN",
    "SEPARATOR", "HIGHLIGHT", "TAGS", "SLOP", "INORDER", "LANGUAGE", "EXPANDER", "SCORER",
    "EXPLAINSCORE", "PAYLOAD", "SORTBY", "LIMIT"}

  function AddSearchFlagKeywords(acc: seq<string>, p: SearchParameters): seq<string> {
    acc
    + Present(IsTrue(p.noContent), "NOCONTENT")
    + Present(IsTrue(p.verbatim), "VERBARIM")
    + Present(IsTrue(p.nonStopWords), "NOSTOPWORDS")
    + Present(IsTrue(p.withScores), "WITHSCORES")
    + Present(IsTrue(p.withPayloads), "WITHPAYLOADS")
    + Present(IsTrue(p.withSortKeys), "WITHSORTKEYS")
  }

  function AddSearchFilterKeywords(acc: seq<string>, p: SearchParameters): seq<string> {
    acc
    + Present(p.filter.Some?, "FILTER")
    + Present(p.inKeys.Some?, "INKEYS")
    + Present(p.inFields.Some?, "INFIELDS")
    + Present(p.returnFields.Some?, "RETURN")
  }

  function AddSummarizeKeywords(acc: seq<string>, o: Option<Summarize>): seq<string> {
    if o.None? then acc
    else
      acc
      + ["SUMMARIZE"]
      + Present(o.value.fields.Some?, "FIELDS")
      + Present(o.value.frags.Some?, "FRAGS")
      + Present(o.value.len.Some?, "LEN")
      + Present(o.value.seperator.Some?, "SEPARATOR")
  }

  function AddHighlightKeywords(acc: seq<string>, o: Option<Highlight>): seq<string> {
    if o.None? then acc
    else acc + Present(o.value.fields.Some?, "FIELDS") + Present(o.value.tags.Some?, "TAGS")
  }

  function AddSearchOptionKeywords(acc: seq<string>, p: SearchParameters): seq<string> {
    acc
    + Present(p.slop.Some?, "SLOP")
    + Present(p.inOrder.Some?, "INORDER")
    + Present(p.language.Some?, "LANGUAGE")
    + Present(p.expander.Some?, "EXPANDER")
    + Present(p.scorer.Some?, "SCORER")
  }

  function AddSearchTailKeywords(acc: seq<string>, p: SearchParameters): seq<string> {
    acc
    + Present(p.explainScore.Some?, "EXPLAINSCORE")
    + Present(p.payload.Some? && p.payload.value != "", "PAYLOAD")
    + Present(p.sortBy.Some?, "SORTBY")
    + Present(p.limit.Some?, "LIMIT")
  }

  /** The keywords of FT.SEARCH, in the order they are sent. */
  function SearchSkeleton(parameters: Option<SearchParameters>): seq<string> {
    if parameters.None? then []
    else
      var p := parameters.value;
      var filtered := AddSearchFilterKeywords(AddSearchFlagKeywords([], p), p);
      var highlighted := AddHighlightKeywords(AddSummarizeKeywords(filtered, p.summarize), p.highlight);
      AddSearchTailKeywords(AddSearchOptionKeywords(highlighted, p), p)
  }

  lemma SearchFlagKeywords(args: seq<Token>, p: SearchParameters, ks: set<string>)
    requires SearchKeywords <= ks
    ensures Keywords(AddSearchFlags(args, p), ks) == AddSearchFlagKeywords(Keywords(args, ks), p)
  {
    var s1 := args + Flag(IsTrue(p.noContent), "NOCONTENT");
    KeywordsAfterFlag(args, IsTrue(p.noContent), "NOCONTENT", ks);
    var s2 := s1 + Flag(IsTrue(p.verbatim), "VERBARIM");
    KeywordsAfterFlag(s1, IsTrue(p.verbatim), "VERBARIM", ks);
    var s3 := s2 + Flag(IsTrue(p.nonStopWords), "NOSTOPWORDS");
    KeywordsAfterFlag(s2, IsTrue(p.nonStopWords), "NOSTOPWORDS", ks);
    var s4 := s3 + Flag(IsTrue(p.withScores), "WITHSCORES");
    KeywordsAfterFlag(s3, IsTrue(p.withScores), "WITHSCORES", ks);
    var s5 := s4 + Flag(IsTrue(p.withPayloads), "WITHPAYLOADS");
    KeywordsAfterFlag(s4, IsTrue(p.withPayloads), "WITHPAYLOADS", ks);
    KeywordsAfterFlag(s5, IsTrue(p.withSortKeys), "WITHSORTKEYS", ks);
  }

  lemma KeywordsAfterFilter(args: seq<Token>, o: Option<NumericFilter>, ks: set<string>)
    requires "FILTER" in ks
    requires o.Some? ==> o.value.field !in ks
    ensures Keywords(args + FilterTokens(o), ks) == Keywords(args, ks) + Present(o.Some?, "FILTER")
  {
    if o.Some? {
      var payload := [Str(o.value.field), NumText(o.value.min), NumText(o.value.max)];
      KeywordsQuiet(payload, ks);
      assert FilterTokens(o) == Marked(true, "FILTER", payload);
      KeywordsAfterMarked(args, true, "FILTER", payload, ks);
    } else {
      assert args + FilterTokens(o) == args;
    }
  }

  lemma KeywordsAfterCount(args: seq<Token>, k: string, o: Option<FieldCount>, ks: set<string>)
    requires k in ks
    requires o.Some? ==> o.value.field !in ks
    ensures Keywords(args + CountTokens(k, o), ks) == Keywords(args, ks) + Present(o.Some?, k)
  {
    if o.Some? {
      var payload := [NumText(o.value.num), Str(o.value.field)];
      KeywordsQuiet(payload, ks);
      assert CountTokens(k, o) == Marked(true, k, payload);
      KeywordsAfterMarked(args, true, k, payload, ks);
    } else {
      assert args + CountTokens(k, o) == args;
    }
  }

  lemma SearchFilterKeywords(args: seq<Token>, p: SearchParameters, ks: set<string>)
    requires SearchKeywords <= ks
    requires p.Avoids(ks)
    ensures Keywords(AddSearchFilters(args, p), ks) == AddSearchFilterKeywords(Keywords(args, ks), p)
  {
    var s1 := args + FilterTokens(p.filter);
    KeywordsAfterFilter(args, p.filter, ks);
    var s2 := s1 + CountTokens("INKEYS", p.inKeys);
    KeywordsAfterCount(s1, "INKEYS", p.inKeys, ks);
    var s3 := s2 + CountTokens("INFIELDS", p.inFields);
    KeywordsAfterCount(s2, "INFIELDS", p.inFields, ks);
    KeywordsAfterCount(s3, "RETURN", p.returnFields, ks);
  }

  lemma SummarizeKeywords(args: seq<Token>, o: Option<Summarize>, ks: set<string>)
    requires SearchKeywords <= ks
    requires o.Some? ==> Outside(o.value.seperator, ks)
    ensures Keywords(AddSummarize(args, o), ks) == AddSummarizeKeywords(Keywords(args, ks), o)
  {
    if o.Some? {
      var v := o.value;
      var s1 := args + [Str("SUMMARIZE")];
      KeywordsAfterFlag(args, true, "SUMMARIZE", ks);
      var s2 := s1 + Flag(v.fields.Some?, "FIELDS");
      KeywordsAfterFlag(s1, v.fields.Some?, "FIELDS", ks);
      var s3 := s2 + NumPair("FRAGS", v.frags);
      KeywordsAfterNumPair(s2, "FRAGS", v.frags, ks);
      var s4 := s3 + NumPair("LEN", v.len);
      KeywordsAfterNumPair(s3, "LEN", v.len, ks);
      KeywordsAfterPair(s4, "SEPARATOR", v.seperator, ks);
    }
  }

  lemma {:induction false} KeywordsFieldCountList(fields: seq<FieldCount>, ks: set<string>)
    requires forall i :: 0 <= i < |fields| ==> fields[i].field !in ks
    ensures Keywords(FieldCountList(fields), ks) == []
  {
    if fields != [] {
      var last := fields[|fields| - 1];
      KeywordsFieldCountList(fields[..|fields| - 1], ks);
      KeywordsQuiet([NumText(last.num), Str(last.field)], ks);
      KeywordsAppend(FieldCountList(fields[..|fields| - 1]), [NumText(last.num), Str(last.field)], ks);
    }
  }

  lemma {:induction false} KeywordsTagList(tags: seq<HighlightTag>, ks: set<string>)
    requires forall i :: 0 <= i < |tags| ==> tags[i].open !in ks && tags[i].close !in ks
    ensures Keywords(TagList(tags), ks) == []
  {
    if tags != [] {
      var last := tags[|tags| - 1];
      KeywordsTagList(tags[..|tags| - 1], ks);
      KeywordsQuiet([Str(last.open), Str(last.close)], ks);
      KeywordsAppend(TagList(tags[..|tags| - 1]), [Str(last.open), Str(last.close)], ks);
    }
  }

  lemma HighlightKeywords(args: seq<Token>, o: Option<Highlight>, ks: set<string>)
    requires SearchKeywords <= ks
    requires o.Some? && o.value.fields.Some? ==>
      forall i :: 0 <= i < |o.value.fields.value| ==> o.value.fields.value[i].field !in ks
    requires o.Some? && o.value.tags.Some? ==>
      forall i :: 0 <= i < |o.value.tags.value| ==> o.value.tags.value[i].open !in ks && o.value.tags.value[i].close !in ks
    ensures Keywords(AddHighlight(args, o), ks) == AddHighlightKeywords(Keywords(args, ks), o)
  {
    if o.Some? {
      var h := o.value;
      var fieldTokens := if h.fields.Some? then [Str("FIELDS")] + FieldCountList(h.fields.value) else [];
      var tagTokens := if h.tags.Some? then [Str("TAGS")] + TagList(h.tags.value) else [];
      if h.fields.Some? {
        KeywordsFieldCountList(h.fields.value, ks);
        assert fieldTokens == Marked(true, "FIELDS", FieldCountList(h.fields.value));
        KeywordsAfterMarked(args, true, "FIELDS", FieldCountList(h.fields.value), ks);
      } else {
        assert args + fieldTokens == args;
      }
      if h.tags.Some? {
        KeywordsTagList(h.tags.value, ks);
        assert tagTokens == Marked(true, "TAGS", TagList(h.tags.value));
        KeywordsAfterMarked(args + fieldTokens, true, "TAGS", TagList(h.tags.value), ks);
      } else {
        assert args + fieldTokens + tagTokens == args + fieldTokens;
      }
    }
  }

  lemma SearchOptionKeywords(args: seq<Token>, p: SearchParameters, ks: set<string>)
    requires SearchKeywords <= ks
    requires p.Avoids(ks)
    ensures Keywords(AddSearchOptions(args, p), ks) == AddSearchOptionKeywords(Keywords(args, ks), p)
  {
    var s1 := args + NumPair("SLOP", p.slop);
    KeywordsAfterNumPair(args, "SLOP", p.slop, ks);
    var s2 := s1 + Flag(p.inOrder.Some?, "INORDER");
    KeywordsAfterFlag(s1, p.inOrder.Some?, "INORDER", ks);
    var s3 := s2 + Pair("LANGUAGE", p.language);
    KeywordsAfterPair(s2, "LANGUAGE", p.language, ks);
    var s4 := s3 + Pair("EXPANDER", p.expander);
    KeywordsAfterPair(s3, "EXPANDER", p.expander, ks);
    KeywordsAfterPair(s4, "SCORER", p.scorer, ks);
  }

  lemma KeywordsAfterPayload(args: seq<Token>, o: Option<string>, ks: set<string>)
    requires "PAYLOAD" in ks && Outside(o, ks)
    ensures Keywords(args + PayloadTokens(o), ks) == Keywords(args, ks) + Present(o.Some? && o.value != "", "PAYLOAD")
  {
    if o.Some? && o.value != "" {
      assert PayloadTokens(o) == Pair("PAYLOAD", o);
      KeywordsAfterPair(args, "PAYLOAD", o, ks);
    } else {
      assert args + PayloadTokens(o) == args;
    }
  }

  lemma KeywordsAfterSortBy(args: seq<Token>, o: Option<SearchSortBy>, ks: set<string>)
    requires "SORTBY" in ks
    requires o.Some? ==> o.value.field !in ks && o.value.sort.Name() !in ks
    ensures Keywords(args + SortByTokens(o), ks) == Keywords(args, ks) + Present(o.Some?, "SORTBY")
  {
    if o.Some? {
      var payload := [Str(o.value.field), Str(o.value.sort.Name())];
      KeywordsQuiet(payload, ks);
      assert SortByTokens(o) == Marked(true, "SORTBY", payload);
      KeywordsAfterMarked(args, true, "SORTBY", payload, ks);
    } else {
      assert args + SortByTokens(o) == args;
    }
  }

  lemma KeywordsAfterLimit(args: seq<Token>, o: Option<SearchLimit>, ks: set<string>)
    requires "LIMIT" in ks
    ensures Keywords(args + LimitTokens(o), ks) == Keywords(args, ks) + Present(o.Some?, "LIMIT")
  {
    if o.Some? {
      var payload := [NumText(o.value.first), NumText(o.value.num)];
      KeywordsQuiet(payload, ks);
      assert LimitTokens(o) == Marked(true, "LIMIT", payload);
      KeywordsAfterMarked(args, true, "LIMIT", payload, ks);
    } else {
      assert args + LimitTokens(o) == args;
    }
  }

  lemma SearchTailKeywords(args: seq<Token>, p: SearchParameters, ks: set<string>)
    requires SearchKeywords <= ks
    requires p.Avoids(ks)
    ensures Keywords(AddSearchTail(args, p), ks) == AddSearchTailKeywords(Keywords(args, ks), p)
  {
    var s1 := args + Flag(p.explainScore.Some?, "EXPLAINSCORE");
    KeywordsAfterFlag(args, p.explainScore.Some?, "EXPLAINSCORE", ks);
    var s2 := s1 + PayloadTokens(p.payload);
    KeywordsAfterPayload(s1, p.payload, ks);
    var s3 := s2 + SortByTokens(p.sortBy);
    KeywordsAfterSortBy(s2, p.sortBy, ks);
    KeywordsAfterLimit(s3, p.limit, ks);
  }

  /** The keyword skeleton of FT.SEARCH: as long as no caller string is a
      keyword, the keywords are exactly those of the settings given, in
      the order of `SearchSkeleton`. */
  lemma SearchSkeletonHolds(index: string, query: string, parameters: Option<SearchParameters>, ks: set<string>)
    requires SearchKeywords <= ks
    requires index !in ks && query !in ks
    requires parameters.Some? ==> parameters.value.Avoids(ks)
    ensures Keywords(SearchCommand(index, query, parameters).args, ks) == SearchSkeleton(parameters)
  {
    var head := [Str(index), Str(query)];
    KeywordsQuiet(head, ks);
    if parameters.Some? {
      var p := parameters.value;
      var a1 := AddSearchFlags(head, p);
      SearchFlagKeywords(head, p, ks);
      var a2 := AddSearchFilters(a1, p);
      SearchFilterKeywords(a1, p, ks);
      var a3 := AddSummarize(a2, p.summarize);
      SummarizeKeywords(a2, p.summarize, ks);
      var a4 := AddHighlight(a3, p.highlight);
      HighlightKeywords(a3, p.highlight, ks);
      var a5 := AddSearchOptions(a4, p);
      SearchOptionKeywords(a4, p, ks);
      SearchTailKeywords(a5, p, ks);
    }
  }

  lemma SearchSkeletonWords(parameters: Option<SearchParameters>)
    ensures "VERBATIM" !in SearchSkeleton(parameters)
    ensures "GEOFILTER" !in SearchSkeleton(parameters)
    ensures "HIGHLIGHT" !in SearchSkeleton(parameters)
    ensures "VERBARIM" in SearchSkeleton(parameters) <==> parameters.Some? && IsTrue(parameters.value.verbatim)
  {
    if parameters.Some? {
      SkeletonLacks(parameters.value, "VERBATIM", "GEOFILTER");
      SkeletonLacks(parameters.value, "HIGHLIGHT", "HIGHLIGHT");
      FlagWordsVerbarim(parameters.value);
      AfterFlagsKeep(AddSearchFlagKeywords([], parameters.value), parameters.value, "VERBARIM");
    }
  }

  lemma SkeletonLacks(p: SearchParameters, k1: string, k2: string)
    requires k1 !in SearchKeywords - {"VERBATIM", "GEOFILTER", "HIGHLIGHT"}
    requires k2 !in SearchKeywords - {"VERBATIM", "GEOFILTER", "HIGHLIGHT"}
    ensures k1 !in SearchSkeleton(Some(p)) && k2 !in SearchSkeleton(Some(p))
  {
    FlagWordsKeep([], p, k1);
    FlagWordsKeep([], p, k2);
    AfterFlagsKeep(AddSearchFlagKeywords([], p), p, k1);
    AfterFlagsKeep(AddSearchFlagKeywords([], p), p, k2);
  }

  lemma FlagWordsKeep(acc: seq<string>, p: SearchParameters, k: string)
    requires k !in {"NOCONTENT", "VERBARIM", "NOSTOPWORDS", "WITHSCORES", "WITHPAYLOADS", "WITHSORTKEYS"}
    ensures k in AddSearchFlagKeywords(acc, p) <==> k in acc
  {}

  lemma FlagWordsVerbarim(p: SearchParameters)
    ensures "VERBARIM" in AddSearchFlagKeywords([], p) <==> IsTrue(p.verbatim)
  {
    var k := "VERBARIM";
    PresentIn(IsTrue(p.noContent), "NOCONTENT", k);
    PresentIn(IsTrue(p.verbatim), "VERBARIM", k);
    PresentIn(IsTrue(p.nonStopWords), "NOSTOPWORDS", k);
    PresentIn(IsTrue(p.withScores), "WITHSCORES", k);
    PresentIn(IsTrue(p.withPayloads), "WITHPAYLOADS", k);
    PresentIn(IsTrue(p.withSortKeys), "WITHSORTKEYS", k);
  }

  /** The keywords sent after the six flags. */
  const LaterSearchKeywords: set<string> := {
    "FILTER", "INKEYS", "INFIELDS", "RETURN", "SUMMARIZE", "FIELDS", "FRAGS", "LEN", "SEPARATOR",
    "TAGS", "SLOP", "INORDER", "LANGUAGE", "EXPANDER", "SCORER", "EXPLAINSCORE", "PAYLOAD", "SORTBY", "LIMIT"}

  lemma AfterFlagsKeep(acc: seq<string>, p: SearchParameters, k: string)
    requires k !in LaterSearchKeywords
    ensures var filtered := AddSearchFilterKeywords(acc, p);
      var highlighted := AddHighlightKeywords(AddSummarizeKeywords(filtered, p.summarize), p.highlight);
      k in AddSearchTailKeywords(AddSearchOptionKeywords(highlighted, p), p) <==> k in acc
  {
    var a2 := AddSearchFilterKeywords(acc, p);
    assert k in a2 <==> k in acc;
    var a3 := AddSummarizeKeywords(a2, p.summarize);
    assert k in a3 <==> k in a2;
    var a4 := AddHighlightKeywords(a3, p.highlight);
    assert k in a4 <==> k in a3;
    var a5 := AddSearchOptionKeywords(a4, p);
    assert k in a5 <==> k in a4;
  }

  /** FT.SEARCH never sends `VERBATIM`, `GEOFILTER` or `HIGHLIGHT`; a
      `verbatim: true` setting sends `VERBARIM` instead. */
  lemma SearchMisnamedKeywords(index: string, query: string, parameters: Option<SearchParameters>, ks: set<string>)
    requires SearchKeywords <= ks
    requires index !in ks && query !in ks
    requires parameters.Some? ==> parameters.value.Avoids(ks)
    ensures Str("VERBATIM") !in SearchCommand(index, query, parameters).args
    ensures Str("GEOFILTER") !in SearchCommand(index, query, parameters).args
    ensures Str("HIGHLIGHT") !in SearchCommand(index, query, parameters).args
    ensures Str("VERBARIM") in SearchCommand(index, query, parameters).args
        <==> parameters.Some? && IsTrue(parameters.value.verbatim)
  {
    SearchSkeletonHolds(index, query, parameters, ks);
    SkeletonWordsSent(SearchCommand(index, query, parameters).args, parameters, ks);
  }

  lemma SkeletonWordsSent(args: seq<Token>, parameters: Option<SearchParameters>, ks: set<string>)
    requires SearchKeywords <= ks
    requires Keywords(args, ks) == SearchSkeleton(parameters)
    ensures Str("VERBATIM") !in args && Str("GEOFILTER") !in args && Str("HIGHLIGHT") !in args
    ensures Str("VERBARIM") in args <==> parameters.Some? && IsTrue(parameters.value.verbatim)
  {
    SearchSkeletonWords(parameters);
    KeywordsIn(args, ks, "VERBATIM");
    KeywordsIn(args, ks, "GEOFILTER");
    KeywordsIn(args, ks, "HIGHLIGHT");
    KeywordsIn(args, ks, "VERBARIM");
  }

  // ---------------------------------------------------------------------
  // FT.AGGREGATE

  /** A `LOAD` or `GROUPBY` step. Each part is checked for presence before
      it is pushed, so each is optional here. */
  datatype PropertyList = PropertyList(nargs: Option<string>, property: Option<string>)

  /** A `REDUCE` step (`function` is named `func`, `as` is named `alias`). */
  datatype Reducer = Reducer(func: Option<string>, nargs: Option<string>, arg: Option<string>, alias: Option<string>)

  datatype AggregateSortBy = AggregateSortBy(nargs: Option<string>, property: Option<string>, sort: Option<SortOrder>, max: Option<Number>)

  datatype Apply = Apply(expression: Option<string>, alias: Option<string>)

  datatype AggregateLimit = AggregateLimit(offset: Option<string>, numberOfResults: Option<Number>)

  datatype AggregateParameters = AggregateParameters(
    load: Option<PropertyList>,
    groupBy: Option<PropertyList>,
    reduce: Option<Reducer>,
    sortby: Option<AggregateSortBy>,
    apply: Option<Apply>,
    limit: Option<AggregateLimit>,
    filter: Option<string>)
  {
    /** No caller string sent by these settings is one of `ks`. */
    predicate Avoids(ks: set<string>) {
      && (load.Some? ==> Outside(load.value.nargs, ks) && Outside(load.value.property, ks))
      && (groupBy.Some? ==> Outside(groupBy.value.nargs, ks) && Outside(groupBy.value.property, ks))
      && (reduce.Some? ==> Outside(reduce.value.func, ks) && Outside(reduce.value.nargs, ks)
                           && Outside(reduce.value.arg, ks) && Outside(reduce.value.alias, ks))
      && (sortby.Some? ==> Outside(sortby.value.nargs, ks) && Outside(sortby.value.property, ks)
                           && (sortby.value.sort.Some? ==> sortby.value.sort.value.Name() !in ks))
      && (apply.Some? ==> Outside(apply.value.expression, ks) && Outside(apply.value.alias, ks))
      && (limit.Some? ==> Outside(limit.value.offset, ks))
    }
  }

  function SortName(o: Option<SortOrder>): Option<string> {
    if o.Some? then Some(o.value.Name()) else None
  }

  /** `k`, then whichever of the step's two strings are given. */
  function PropertyTokens(k: string, o: Option<PropertyList>): seq<Token> {
    if o.None? then [] else [Str(k)] + Pushed(o.value.nargs) + Pushed(o.value.property)
  }

  function ReduceTokens(o: Option<Reducer>): seq<Token> {
    if o.None? then []
    else [Str("REDUCE")] + (Pushed(o.value.func) + Pushed(o.value.nargs) + Pushed(o.value.arg)) + Pair("AS", o.value.alias)
  }

  function AggregateSortTokens(o: Option<AggregateSortBy>): seq<Token> {
    if o.None? then []
    else [Str("SORTBY")] + (Pushed(o.value.nargs) + Pushed(o.value.property) + Pushed(SortName(o.value.sort))) + NumPair("MAX", o.value.max)
  }

  function ApplyTokens(o: Option<Apply>): seq<Token> {
    if o.None? then [] else [Str("APPLY")] + Pushed(o.value.expression) + Pushed(o.value.alias)
  }

  function AggregateLimitTokens(o: Option<AggregateLimit>): seq<Token> {
    if o.None? then [] else [Str("LIMIT")] + Pushed(o.value.offset) + PushedNum(o.value.numberOfResults)
  }

  /** The steps in their fixed order; `filter` is never sent. */
  function AddAggregateParams(args: seq<Token>, p: AggregateParameters): seq<Token> {
    args
    + PropertyTokens("LOAD", p.load)
    + PropertyTokens("GROUPBY", p.groupBy)
    + ReduceTokens(p.reduce)
    + AggregateSortTokens(p.sortby)
    + ApplyTokens(p.apply)
    + AggregateLimitTokens(p.limit)
  }

  function AggregateCommand(index: string, query: string, parameters: Option<AggregateParameters>): Command {
    var head := [Str(index), Str(query)];
    Command("FT.AGGREGATE", if parameters.Some? then AddAggregateParams(head, parameters.value) else head)
  }

  method Aggregate(index: string, query: string, parameters: Option<AggregateParameters>) returns (cmd: Command)
    ensures cmd == AggregateCommand(index, query, parameters)
  {
    var args := [Str(index), Str(query)];
    if parameters.Some? {
      var p := parameters.value;
      args := PushProperties(args, "LOAD", p.load);
      args := PushProperties(args, "GROUPBY", p.groupBy);
      args := PushReduce(args, p.reduce);
      args := PushAggregateSortBy(args, p.sortby);
      args := PushApply(args, p.apply);
      args := PushAggregateLimit(args, p.limit);
    }
    cmd := Command("FT.AGGREGATE", args);
  }

  method PushProperties(args0: seq<Token>, k: string, o: Option<PropertyList>) returns (args: seq<Token>)
    ensures args == args0 + PropertyTokens(k, o)
  {
    args := args0;
    if o.Some? {
      args := args + [Str(k)];
      args := PushValue(args, o.value.nargs);
      args := PushValue(args, o.value.property);
    }
  }

  method PushReduce(args0: seq<Token>, o: Option<Reducer>) returns (args: seq<Token>)
    ensures args == args0 + ReduceTokens(o)
  {
    args := args0;
    if o.Some? {
      args := args + [Str("REDUCE")];
      args := PushValues3(args, o.value.func, o.value.nargs, o.value.arg);
      args := PushPair(args, "AS", o.value.alias);
    }
  }

  method PushAggregateSortBy(args0: seq<Token>, o: Option<AggregateSortBy>) returns (args: seq<Token>)
    ensures args == args0 + AggregateSortTokens(o)
  {
    args := args0;
    if o.Some? {
      args := args + [Str("SORTBY")];
      args := PushValues3(args, o.value.nargs, o.value.property, SortName(o.value.sort));
      args := PushNumPair(args, "MAX", o.value.max);
    }
  }

  method PushApply(args0: seq<Token>, o: Option<Apply>) returns (args: seq<Token>)
    ensures args == args0 + ApplyTokens(o)
  {
    args := args0;
    if o.Some? {
      args := args + [Str("APPLY")];
      args := PushValue(args, o.value.expression);
      args := PushValue(args, o.value.alias);
    }
  }

  method PushAggregateLimit(args0: seq<Token>, o: Option<AggregateLimit>) returns (args: seq<Token>)
    ensures args == args0 + AggregateLimitTokens(o)
  {
    args := args0;
    if o.Some? {
      args := args + [Str("LIMIT")];
      args := PushValue(args, o.value.offset);
      args := PushNumValue(args, o.value.numberOfResults);
    }
  }

  /** The command, for steps that only move text from given sub-fields:
      the filter is not part of what is sent. */
  lemma AggregateIgnoresFilter(index: string, query: string, p: AggregateParameters, filter: Option<string>)
    ensures AggregateCommand(index, query, Some(p)) == AggregateCommand(index, query, Some(p.(filter := filter)))
  {
  }

  /** Both sub-fields of a `LOAD`/`GROUPBY` step are pushed bare, so a step
      that has only `nargs` and one that has only `property` with the same
      text produce the same command. */
  lemma AggregateLoadAmbiguous(index: string, query: string, x: string)
    ensures AggregateCommand(index, query, Some(AggregateParameters(Some(PropertyList(Some(x), None)), None, None, None, None, None, None)))
         == AggregateCommand(index, query, Some(AggregateParameters(Some(PropertyList(None, Some(x))), None, None, None, None, None, None)))
  {
  }

  /** The command starts with the index and the query, and is no more than
      those two when no step is given. */
  lemma AggregateLayout(index: string, query: string, parameters: Option<AggregateParameters>)
    ensures var args := AggregateCommand(index, query, parameters).args;
      && |args| >= 2 && args[..2] == [Str(index), Str(query)]
      && (parameters.None? ==> args == [Str(index), Str(query)])
      && ((parameters.Some? && parameters.value.(filter := None) == AggregateParameters(None, None, None, None, None, None, None))
          ==> args == [Str(index), Str(query)])
  {
    var head := [Str(index), Str(query)];
    if parameters.Some? {
      var p := parameters.value;
      assert AddAggregateParams(head, p) == head + (AddAggregateParams(head, p)[2..]);
    }
  }

  const AggregateKeywords: set<string> :=
    {"LOAD", "GROUPBY", "REDUCE", "AS", "SORTBY", "MAX", "APPLY", "LIMIT", "FILTER"}

  /** The keywords of FT.AGGREGATE in order: one per step given, plus `AS`
      in a reducer with an alias and `MAX` in a sort step with a maximum. */
  function AggregateSkeleton(parameters: Option<AggregateParameters>): seq<string> {
    if parameters.None? then [] else AddAggregateKeywords([], parameters.value)
  }

  function AddAggregateKeywords(acc: seq<string>, p: AggregateParameters): seq<string> {
    acc
    + Present(p.load.Some?, "LOAD")
    + Present(p.groupBy.Some?, "GROUPBY")
    + ReduceKeywords(p.reduce)
    + AggregateSortKeywords(p.sortby)
    + Present(p.apply.Some?, "APPLY")
    + Present(p.limit.Some?, "LIMIT")
  }

  function ReduceKeywords(o: Option<Reducer>): seq<string> {
    if o.Some? then ["REDUCE"] + Present(o.value.alias.Some?, "AS") else []
  }

  function AggregateSortKeywords(o: Option<AggregateSortBy>): seq<string> {
    if o.Some? then ["SORTBY"] + Present(o.value.max.Some?, "MAX") else []
  }

  lemma KeywordsAfterProperties(args: seq<Token>, k: string, o: Option<PropertyList>, ks: set<string>)
    requires k in ks
    requires o.Some? ==> Outside(o.value.nargs, ks) && Outside(o.value.property, ks)
    ensures Keywords(args + PropertyTokens(k, o), ks) == Keywords(args, ks) + Present(o.Some?, k)
  {
    if o.Some? {
      var payload := Pushed(o.value.nargs) + Pushed(o.value.property);
      KeywordsPushed(o.value.nargs, ks);
      KeywordsPushed(o.value.property, ks);
      KeywordsAppend(Pushed(o.value.nargs), Pushed(o.value.property), ks);
      assert PropertyTokens(k, o) == Marked(true, k, payload);
      KeywordsAfterMarked(args, true, k, payload, ks);
    } else {
      assert args + PropertyTokens(k, o) == args;
    }
  }

  lemma KeywordsAfterReduce(args: seq<Token>, o: Option<Reducer>, ks: set<string>)
    requires "REDUCE" in ks && "AS" in ks
    requires o.Some? ==> Outside(o.value.func, ks) && Outside(o.value.nargs, ks) && Outside(o.value.arg, ks) && Outside(o.value.alias, ks)
    ensures Keywords(args + ReduceTokens(o), ks)
         == Keywords(args, ks) + ReduceKeywords(o)
  {
    if o.Some? {
      KeywordsAfterReduceStep(args, o.value, ks);
    } else {
      assert args + ReduceTokens(o) == args;
    }
  }

  lemma KeywordsAfterReduceStep(args: seq<Token>, r: Reducer, ks: set<string>)
    requires "REDUCE" in ks && "AS" in ks
    requires Outside(r.func, ks) && Outside(r.nargs, ks) && Outside(r.arg, ks) && Outside(r.alias, ks)
    ensures Keywords(args + ReduceTokens(Some(r)), ks) == Keywords(args, ks) + ["REDUCE"] + Present(r.alias.Some?, "AS")
  {
    var payload := Pushed(r.func) + Pushed(r.nargs) + Pushed(r.arg);
    KeywordsPushed3(r.func, r.nargs, r.arg, ks);
    assert ReduceTokens(Some(r)) == [Str("REDUCE")] + payload + Pair("AS", r.alias);
    KeywordsAfterStep(args, "REDUCE", payload, "AS", r.alias, ks);
  }

  lemma KeywordsAfterAggregateSort(args: seq<Token>, o: Option<AggregateSortBy>, ks: set<string>)
    requires "SORTBY" in ks && "MAX" in ks
    requires o.Some? ==> Outside(o.value.nargs, ks) && Outside(o.value.property, ks)
                         && (o.value.sort.Some? ==> o.value.sort.value.Name() !in ks)
    ensures Keywords(args + AggregateSortTokens(o), ks)
         == Keywords(args, ks) + AggregateSortKeywords(o)
  {
    if o.Some? {
      KeywordsAfterSortStep(args, o.value, ks);
    } else {
      assert args + AggregateSortTokens(o) == args;
    }
  }

  lemma KeywordsAfterSortStep(args: seq<Token>, r: AggregateSortBy, ks: set<string>)
    requires "SORTBY" in ks && "MAX" in ks
    requires Outside(r.nargs, ks) && Outside(r.property, ks) && Outside(SortName(r.sort), ks)
    ensures Keywords(args + AggregateSortTokens(Some(r)), ks) == Keywords(args, ks) + ["SORTBY"] + Present(r.max.Some?, "MAX")
  {
    var payload := Pushed(r.nargs) + Pushed(r.property) + Pushed(SortName(r.sort));
    KeywordsPushed3(r.nargs, r.property, SortName(r.sort), ks);
    assert AggregateSortTokens(Some(r)) == [Str("SORTBY")] + payload + NumPair("MAX", r.max);
    KeywordsAfterNumStep(args, "SORTBY", payload, "MAX", r.max, ks);
  }

  lemma KeywordsAfterApply(args: seq<Token>, o: Option<Apply>, ks: set<string>)
    requires "APPLY" in ks
    requires o.Some? ==> Outside(o.value.expression, ks) && Outside(o.value.alias, ks)
    ensures Keywords(args + ApplyTokens(o), ks) == Keywords(args, ks) + Present(o.Some?, "APPLY")
  {
    if o.Some? {
      var payload := Pushed(o.value.expression) + Pushed(o.value.alias);
      KeywordsPushed(o.value.expression, ks);
      KeywordsPushed(o.value.alias, ks);
      KeywordsAppend(Pushed(o.value.expression), Pushed(o.value.alias), ks);
      assert ApplyTokens(o) == Marked(true, "APPLY", payload);
      KeywordsAfterMarked(args, true, "APPLY", payload, ks);
    } else {
      assert args + ApplyTokens(o) == args;
    }
  }

  lemma KeywordsAfterAggregateLimit(args: seq<Token>, o: Option<AggregateLimit>, ks: set<string>)
    requires "LIMIT" in ks
    requires o.Some? ==> Outside(o.value.offset, ks)
    ensures Keywords(args + AggregateLimitTokens(o), ks) == Keywords(args, ks) + Present(o.Some?, "LIMIT")
  {
    if o.Some? {
      var payload := Pushed(o.value.offset) + PushedNum(o.value.numberOfResults);
      KeywordsPushed(o.value.offset, ks);
      KeywordsPushedNum(o.value.numberOfResults, ks);
      KeywordsAppend(Pushed(o.value.offset), PushedNum(o.value.numberOfResults), ks);
      assert AggregateLimitTokens(o) == Marked(true, "LIMIT", payload);
      KeywordsAfterMarked(args, true, "LIMIT", payload, ks);
    } else {
      assert args + AggregateLimitTokens(o) == args;
    }
  }

  /** The keyword skeleton of FT.AGGREGATE: as long as no caller string is
      a keyword, the keywords sent are exactly `AggregateSkeleton`. */
  lemma AggregateSkeletonHolds(index: string, query: string, parameters: Option<AggregateParameters>, ks: set<string>)
    requires AggregateKeywords <= ks
    requires index !in ks && query !in ks
    requires parameters.Some? ==> parameters.value.Avoids(ks)
    ensures Keywords(AggregateCommand(index, query, parameters).args, ks) == AggregateSkeleton(parameters)
  {
    var head := [Str(index), Str(query)];
    KeywordsQuiet(head, ks);
    if parameters.Some? {
      AggregateStepKeywords(head, parameters.value, ks);
    }
  }

  lemma AggregateStepKeywords(args: seq<Token>, p: AggregateParameters, ks: set<string>)
    requires AggregateKeywords <= ks
    requires p.Avoids(ks)
    ensures Keywords(AddAggregateParams(args, p), ks) == AddAggregateKeywords(Keywords(args, ks), p)
  {
    var a1 := args + PropertyTokens("LOAD", p.load);
    KeywordsAfterProperties(args, "LOAD", p.load, ks);
    var a2 := a1 + PropertyTokens("GROUPBY", p.groupBy);
    KeywordsAfterProperties(a1, "GROUPBY", p.groupBy, ks);
    var a3 := a2 + ReduceTokens(p.reduce);
    KeywordsAfterReduce(a2, p.reduce, ks);
    var a4 := a3 + AggregateSortTokens(p.sortby);
    KeywordsAfterAggregateSort(a3, p.sortby, ks);
    var a5 := a4 + ApplyTokens(p.apply);
    KeywordsAfterApply(a4, p.apply, ks);
    KeywordsAfterAggregateLimit(a5, p.limit, ks);
  }

  /** Which of the conditional keywords the skeleton holds. */
  lemma AggregateSkeletonWords(parameters: Option<AggregateParameters>)
    ensures "FILTER" !in AggregateSkeleton(parameters)
    ensures "AS" in AggregateSkeleton(parameters)
        <==> parameters.Some? && parameters.value.reduce.Some? && parameters.value.reduce.value.alias.Some?
    ensures "MAX" in AggregateSkeleton(parameters)
        <==> parameters.Some? && parameters.value.sortby.Some? && parameters.value.sortby.value.max.Some?
  {
    if parameters.Some? {
      var p := parameters.value;
      AggregateKeywordsKeep(p, "FILTER");
      AggregateKeywordsKeep(p, "AS");
      AggregateKeywordsKeep(p, "MAX");
      StepKeywordsIn(p, "FILTER");
      StepKeywordsIn(p, "AS");
      StepKeywordsIn(p, "MAX");
    }
  }

  /** A word that is not a step keyword is in the skeleton only through a
      reducer or a sort step. */
  lemma AggregateKeywordsKeep(p: AggregateParameters, k: string)
    requires k !in {"LOAD", "GROUPBY", "APPLY", "LIMIT"}
    ensures k in AddAggregateKeywords([], p) <==> k in ReduceKeywords(p.reduce) || k in AggregateSortKeywords(p.sortby)
  {
    PresentIn(p.load.Some?, "LOAD", k);
    PresentIn(p.groupBy.Some?, "GROUPBY", k);
    PresentIn(p.apply.Some?, "APPLY", k);
    PresentIn(p.limit.Some?, "LIMIT", k);
  }

  lemma StepKeywordsIn(p: AggregateParameters, k: string)
    requires k !in {"REDUCE", "SORTBY"}
    ensures k in ReduceKeywords(p.reduce) <==> p.reduce.Some? && p.reduce.value.alias.Some? && k == "AS"
    ensures k in AggregateSortKeywords(p.sortby) <==> p.sortby.Some? && p.sortby.value.max.Some? && k == "MAX"
  {
    if p.reduce.Some? {
      PresentIn(p.reduce.value.alias.Some?, "AS", k);
    }
    if p.sortby.Some? {
      PresentIn(p.sortby.value.max.Some?, "MAX", k);
    }
  }

  /** FT.AGGREGATE never sends `FILTER`, sends `AS` exactly when a reducer
      with an alias is given and `MAX` exactly when a sort step with a
      maximum is given (as long as no caller string is a keyword). */
  lemma AggregateWordsSent(index: string, query: string, parameters: Option<AggregateParameters>)
    requires index !in AggregateKeywords && query !in AggregateKeywords
    requires parameters.Some? ==> parameters.value.Avoids(AggregateKeywords)
    ensures var args := AggregateCommand(index, query, parameters).args;
      && Str("FILTER") !in args
      && (Str("AS") in args <==> parameters.Some? && parameters.value.reduce.Some? && parameters.value.reduce.value.alias.Some?)
      && (Str("MAX") in args <==> parameters.Some? && parameters.value.sortby.Some? && parameters.value.sortby.value.max.Some?)
  {
    var args := AggregateCommand(index, query, parameters).args;
    AggregateSkeletonHolds(index, query, parameters, AggregateKeywords);
    AggregateSkeletonWords(parameters);
    KeywordsIn(args, AggregateKeywords, "FILTER");
    KeywordsIn(args, AggregateKeywords, "AS");
    KeywordsIn(args, AggregateKeywords, "MAX");
  }

  // ---------------------------------------------------------------------
  // FT.ALTER

  /** The options of FT.ALTER: a field type beside the usual field options. */
  datatype AlterOptions = AlterOptions(fieldType: Option<string>, options: FieldOptions)

  /** `None` when no options are given: the builder reads `options.type`
      before anything is sent, which throws. Otherwise the field's tokens
      are those FT.CREATE sends for a field, followed by the weight. */
  function AlterCommand(index: string, field: string, options: Option<AlterOptions>): Option<Command> {
    if options.None? then None
    else
      var o := options.value;
      var head := [Str(index), Str(field), OrUndefined(o.fieldType)];
      Some(Command("FT.ALTER", AddFieldOptions(head, o.options) + NumPair("WEIGHT", o.options.weight)))
  }

  method Alter(index: string, field: string, options: Option<AlterOptions>) returns (cmd: Option<Command>)
    ensures cmd == AlterCommand(index, field, options)
  {
    if options.None? {
      return None;
    }
    var o := options.value;
    var args := [Str(index), Str(field), OrUndefined(o.fieldType)];
    args := PushFieldOptions(args, o.options);
    args := PushNumPair(args, "WEIGHT", o.options.weight);
    cmd := Some(Command("FT.ALTER", args));
  }

  lemma FieldOptionsShift(args: seq<Token>, o: FieldOptions)
    ensures AddFieldOptions(args, o) == args + AddFieldOptions([], o)
  {
    var f1, f2, f3 := Flag(o.sortable.Some?, "SORTABLE"), Flag(o.noindex.Some?, "NOINDEX"), Flag(o.nostem.Some?, "NOSTEM");
    var f4, f5 := Pair("PHONETIC", o.phonetic), Pair("SEPERATOR", o.seperator);
    AppendAssoc(args, f1, f2);
    AppendAssoc(args, f1 + f2, f3);
    AppendAssoc(args, f1 + f2 + f3, f4);
    AppendAssoc(args, f1 + f2 + f3 + f4, f5);
  }

  /** FT.ALTER fails exactly when no options are given; otherwise it sends
      the index, the field, the type (`undefined` when none is given), the
      tokens FT.CREATE sends for a schema field with the same options, and
      then the weight, which FT.CREATE does not send. */
  lemma AlterMatchesCreate(index: string, field: string, options: Option<AlterOptions>, name: string, fieldType: string)
    ensures AlterCommand(index, field, options).None? <==> options.None?
    ensures options.Some? ==>
      var o := options.value;
      AlterCommand(index, field, options).value.args
        == [Str(index), Str(field), OrUndefined(o.fieldType)]
           + AddSchema([], [SchemaField(name, fieldType, o.options)])
           + NumPair("WEIGHT", o.options.weight)
  {
    if options.Some? {
      var o := options.value;
      FieldOptionsShift([Str(index), Str(field), OrUndefined(o.fieldType)], o.options);
      assert [SchemaField(name, fieldType, o.options)][..0] == [];
    }
  }

  const AlterKeywords: set<string> := {"SORTABLE", "NOINDEX", "NOSTEM", "PHONETIC", "SEPERATOR", "WEIGHT"}

  /** The keywords FT.ALTER sends, as long as no caller string is one of
      them: one per option given, whatever its value. */
  lemma AlterKeywordsHold(index: string, field: string, o: AlterOptions)
    requires index !in AlterKeywords && field !in AlterKeywords && Outside(o.fieldType, AlterKeywords)
    requires o.options.Avoids(AlterKeywords)
    ensures Keywords(AlterCommand(index, field, Some(o)).value.args, AlterKeywords)
         == AddFieldKeywords([], o.options) + Present(o.options.weight.Some?, "WEIGHT")
  {
    var ks := AlterKeywords;
    var head := [Str(index), Str(field), OrUndefined(o.fieldType)];
    KeywordsQuiet(head, ks);
    AlterFieldKeywords(head, o.options, ks);
    KeywordsAfterNumPair(AddFieldOptions(head, o.options), "WEIGHT", o.options.weight, ks);
  }

  lemma AlterFieldKeywords(args: seq<Token>, o: FieldOptions, ks: set<string>)
    requires AlterKeywords <= ks
    requires o.Avoids(ks)
    ensures Keywords(AddFieldOptions(args, o), ks) == AddFieldKeywords(Keywords(args, ks), o)
  {
    var s1 := args + Flag(o.sortable.Some?, "SORTABLE");
    KeywordsAfterFlag(args, o.sortable.Some?, "SORTABLE", ks);
    var s2 := s1 + Flag(o.noindex.Some?, "NOINDEX");
    KeywordsAfterFlag(s1, o.noindex.Some?, "NOINDEX", ks);
    var s3 := s2 + Flag(o.nostem.Some?, "NOSTEM");
    KeywordsAfterFlag(s2, o.nostem.Some?, "NOSTEM", ks);
    var s4 := s3 + Pair("PHONETIC", o.phonetic);
    KeywordsAfterPair(s3, "PHONETIC", o.phonetic, ks);
    KeywordsAfterPair(s4, "SEPERATOR", o.seperator, ks);
  }

  /** A flag option is sent whenever it is given, even as `false`. */
  lemma AlterFlagsOnPresence(index: string, field: string, o: AlterOptions)
    requires index !in AlterKeywords && field !in AlterKeywords && Outside(o.fieldType, AlterKeywords)
    requires o.options.Avoids(AlterKeywords)
    ensures var args := AlterCommand(index, field, Some(o)).value.args;
      && (Str("SORTABLE") in args <==> o.options.sortable.Some?)
      && (Str("NOINDEX") in args <==> o.options.noindex.Some?)
      && (Str("NOSTEM") in args <==> o.options.nostem.Some?)
      && (Str("WEIGHT") in args <==> o.options.weight.Some?)
  {
    var args := AlterCommand(index, field, Some(o)).value.args;
    var oo := o.options;
    AlterKeywordsHold(index, field, o);
    forall k | k in {"SORTABLE", "NOINDEX", "NOSTEM", "WEIGHT"}
      ensures Str(k) in args <==> k in AddFieldKeywords([], oo) + Present(oo.weight.Some?, "WEIGHT")
    {
      KeywordsIn(args, AlterKeywords, k);
    }
    AlterWordsIn(oo);
  }

  lemma AlterWordsIn(o: FieldOptions)
    ensures "SORTABLE" in AddFieldKeywords([], o) + Present(o.weight.Some?, "WEIGHT") <==> o.sortable.Some?
    ensures "NOINDEX" in AddFieldKeywords([], o) + Present(o.weight.Some?, "WEIGHT") <==> o.noindex.Some?
    ensures "NOSTEM" in AddFieldKeywords([], o) + Present(o.weight.Some?, "WEIGHT") <==> o.nostem.Some?
    ensures "WEIGHT" in AddFieldKeywords([], o) + Present(o.weight.Some?, "WEIGHT") <==> o.weight.Some?
  {
    PresentIn(o.sortable.Some?, "SORTABLE", "NOINDEX");
    PresentIn(o.sortable.Some?, "SORTABLE", "NOSTEM");
    PresentIn(o.sortable.Some?, "SORTABLE", "WEIGHT");
    PresentIn(o.noindex.Some?, "NOINDEX", "SORTABLE");
    PresentIn(o.noindex.Some?, "NOINDEX", "NOSTEM");
    PresentIn(o.noindex.Some?, "NOINDEX", "WEIGHT");
    PresentIn(o.nostem.Some?, "NOSTEM", "SORTABLE");
    PresentIn(o.nostem.Some?, "NOSTEM", "NOINDEX");
    PresentIn(o.nostem.Some?, "NOSTEM", "WEIGHT");
    PresentIn(o.weight.Some?, "WEIGHT", "SORTABLE");
    PresentIn(o.weight.Some?, "WEIGHT", "NOINDEX");
    PresentIn(o.weight.Some?, "WEIGHT", "NOSTEM");
  }

  /** The only `undefined` FT.ALTER can send is the missing type, third. */
  lemma AlterUndefined(index: string, field: string, o: AlterOptions)
    ensures var args := AlterCommand(index, field, Some(o)).value.args;
      && |args| >= 3
      && (args[2] == Undefined <==> o.fieldType.None?)
      && Undefined !in args[3..]
  {
    var head := [Str(index), Str(field), OrUndefined(o.fieldType)];
    var tail := AddFieldOptions([], o.options) + NumPair("WEIGHT", o.options.weight);
    FieldOptionsShift(head, o.options);
    assert AlterCommand(index, field, Some(o)).value.args == head + tail;
    assert (head + tail)[3..] == tail;
    FieldOptionsDefined(o.options);
  }

  lemma FieldOptionsDefined(o: FieldOptions)
    ensures Undefined !in AddFieldOptions([], o) + NumPair("WEIGHT", o.weight)
  {
  }

  // ---------------------------------------------------------------------
  // FT.DROPINDEX

  /** `deleteHash` defaults to `false` when the caller leaves it out. */
  function DropIndexCommand(index: string, deleteHash: bool): Command {
    Command("FT.DROPINDEX", [Str(index)] + Flag(deleteHash, "DD"))
  }

  method DropIndex(index: string, deleteHash: bool) returns (cmd: Command)
    ensures cmd == DropIndexCommand(index, deleteHash)
  {
    var args := PushFlag([Str(index)], deleteHash, "DD");
    cmd := Command("FT.DROPINDEX", args);
  }

  /** The index alone, or the index and `DD` exactly when `deleteHash` holds. */
  lemma DropIndexShape(index: string, deleteHash: bool)
    ensures var args := DropIndexCommand(index, deleteHash).args;
      && args[0] == Str(index)
      && (|args| == 2 <==> deleteHash)
      && (|args| == 1 <==> !deleteHash)
      && (index != "DD" ==> (Str("DD") in args <==> deleteHash))
  {
  }

  // ---------------------------------------------------------------------
  // FT.SUGADD

  datatype SugAddParameters = SugAddParameters(incr: Option<Number>, payload: Option<string>)

  const NoSugAdd := SugAddParameters(None, None)

  /** The score is put into the arguments as a number, not as text. */
  function SugAddCommand(key: string, text: string, score: Number, options: Option<SugAddParameters>): Command {
    var o := options.GetOr(NoSugAdd);
    Command("FT.SUGADD", [Str(key), Str(text), Num(score)] + Flag(o.incr.Some?, "INCR") + Pair("PAYLOAD", o.payload))
  }

  method SugAdd(key: string, text: string, score: Number, options: Option<SugAddParameters>) returns (cmd: Command)
    ensures cmd == SugAddCommand(key, text, score, options)
  {
    var args := [Str(key), Str(text), Num(score)];
    if options.Some? {
      args := PushFlag(args, options.value.incr.Some?, "INCR");
      args := PushPair(args, "PAYLOAD", options.value.payload);
    }
    cmd := Command("FT.SUGADD", args);
  }

  /** Key, text and raw score come first; `INCR` is sent whenever an
      increment is given (whatever its value, even 0); a payload, when
      given, ends the command. */
  lemma SugAddShape(key: string, text: string, score: Number, options: Option<SugAddParameters>)
    requires key != "INCR" && text != "INCR"
    requires options.Some? ==> Outside(options.value.payload, {"INCR"})
    ensures var args := SugAddCommand(key, text, score, options).args;
      && |args| >= 3 && args[..3] == [Str(key), Str(text), Num(score)]
      && (Str("INCR") in args <==> options.Some? && options.value.incr.Some?)
      && (options.Some? && options.value.payload.Some? ==>
            args[|args| - 2..] == [Str("PAYLOAD"), Str(options.value.payload.value)])
      && (options.None? ==> |args| == 3)
  {
    var o := options.GetOr(NoSugAdd);
    var args := SugAddCommand(key, text, score, options).args;
    assert args == [Str(key), Str(text), Num(score)] + Flag(o.incr.Some?, "INCR") + Pair("PAYLOAD", o.payload);
  }

  // ---------------------------------------------------------------------
  // FT.SUGGET

  datatype SugGetParameters = SugGetParameters(fuzzy: Option<string>, max: Option<Number>, withScores: Option<bool>, withPayloads: Option<bool>)

  const NoSugGet := SugGetParameters(None, None, None, None)

  /** Every flag is sent when its field is present, whatever its value. */
  function SugGetCommand(key: string, prefix: string, options: Option<SugGetParameters>): Command {
    var o := options.GetOr(NoSugGet);
    Command("FT.SUGGET", [Str(key), Str(prefix)]
      + Flag(o.fuzzy.Some?, "FUZZY")
      + NumPair("MAX", o.max)
      + Flag(o.withScores.Some?, "WITHSCORES")
      + Flag(o.withPayloads.Some?, "WITHPAYLOADS"))
  }

  method SugGet(key: string, prefix: string, options: Option<SugGetParameters>) returns (cmd: Command)
    ensures cmd == SugGetCommand(key, prefix, options)
  {
    var o := options.GetOr(NoSugGet);
    var args := PushFlag([Str(key), Str(prefix)], o.fuzzy.Some?, "FUZZY");
    args := PushNumPair(args, "MAX", o.max);
    args := PushFlag(args, o.withScores.Some?, "WITHSCORES");
    args := PushFlag(args, o.withPayloads.Some?, "WITHPAYLOADS");
    cmd := Command("FT.SUGGET", args);
  }

  const SugGetKeywords: set<string> := {"FUZZY", "MAX", "WITHSCORES", "WITHPAYLOADS"}

  /** The keywords sent, in order, one per option present. */
  lemma SugGetKeywordsHold(key: string, prefix: string, options: Option<SugGetParameters>)
    requires key !in SugGetKeywords && prefix !in SugGetKeywords
    ensures var o := options.GetOr(NoSugGet);
      Keywords(SugGetCommand(key, prefix, options).args, SugGetKeywords)
        == Present(o.fuzzy.Some?, "FUZZY") + Present(o.max.Some?, "MAX")
           + Present(o.withScores.Some?, "WITHSCORES") + Present(o.withPayloads.Some?, "WITHPAYLOADS")
  {
    var s0 := [Str(key), Str(prefix)];
    KeywordsQuiet(s0, SugGetKeywords);
    SugGetOptionKeywords(s0, options.GetOr(NoSugGet), SugGetKeywords);
  }

  lemma SugGetOptionKeywords(s0: seq<Token>, o: SugGetParameters, ks: set<string>)
    requires SugGetKeywords <= ks
    ensures Keywords(s0 + Flag(o.fuzzy.Some?, "FUZZY") + NumPair("MAX", o.max)
                     + Flag(o.withScores.Some?, "WITHSCORES") + Flag(o.withPayloads.Some?, "WITHPAYLOADS"), ks)
         == Keywords(s0, ks) + Present(o.fuzzy.Some?, "FUZZY") + Present(o.max.Some?, "MAX")
            + Present(o.withScores.Some?, "WITHSCORES") + Present(o.withPayloads.Some?, "WITHPAYLOADS")
  {
    var s1 := s0 + Flag(o.fuzzy.Some?, "FUZZY");
    KeywordsAfterFlag(s0, o.fuzzy.Some?, "FUZZY", ks);
    var s2 := s1 + NumPair("MAX", o.max);
    KeywordsAfterNumPair(s1, "MAX", o.max, ks);
    var s3 := s2 + Flag(o.withScores.Some?, "WITHSCORES");
    KeywordsAfterFlag(s2, o.withScores.Some?, "WITHSCORES", ks);
    KeywordsAfterFlag(s3, o.withPayloads.Some?, "WITHPAYLOADS", ks);
  }

  /** Asking for `withScores: false` still sends `WITHSCORES`. */
  lemma SugGetScoresOnPresence(key: string, prefix: string, o: SugGetParameters)
    requires key !in SugGetKeywords && prefix !in SugGetKeywords
    requires o.withScores == Some(false)
    ensures Str("WITHSCORES") in SugGetCommand(key, prefix, Some(o)).args
  {
    SugGetKeywordsHold(key, prefix, Some(o));
    KeywordsIn(SugGetCommand(key, prefix, Some(o)).args, SugGetKeywords, "WITHSCORES");
  }

  // ---------------------------------------------------------------------
  // FT.SYNUPDATE

  /** The group id is put into the arguments as a number, not as text;
      `skipInitialScan` defaults to `false`. */
  function SynUpdateCommand(index: string, groupId: Number, terms: seq<string>, skipInitialScan: bool): Command {
    Command("FT.SYNUPDATE", [Str(index), Num(groupId)] + Strs(terms) + Flag(skipInitialScan, "SKIPINITIALSCAN"))
  }

  method SynUpdate(index: string, groupId: Number, terms: seq<string>, skipInitialScan: bool) returns (cmd: Command)
    ensures cmd == SynUpdateCommand(index, groupId, terms, skipInitialScan)
  {
    var args := [Str(index), Num(groupId)] + Strs(terms);
    args := PushFlag(args, skipInitialScan, "SKIPINITIALSCAN");
    cmd := Command("FT.SYNUPDATE", args);
  }

  /** The terms that follow the index and group id, read back. */
  function SynUpdateTerms(args: seq<Token>, skipInitialScan: bool): Option<seq<string>> {
    var n := if skipInitialScan then 3 else 2;
    if |args| < n then None else Texts(args[2..|args| - n + 2])
  }

  /** The terms are sent in order between the group id and the optional
      `SKIPINITIALSCAN`, and can be read back from the arguments. */
  lemma SynUpdateRoundTrip(index: string, groupId: Number, terms: seq<string>, skipInitialScan: bool)
    ensures var args := SynUpdateCommand(index, groupId, terms, skipInitialScan).args;
      && |args| == 2 + |terms| + (if skipInitialScan then 1 else 0)
      && args[..2] == [Str(index), Num(groupId)]
      && (skipInitialScan ==> args[|args| - 1] == Str("SKIPINITIALSCAN"))
      && SynUpdateTerms(args, skipInitialScan) == Some(terms)
  {
    var args := SynUpdateCommand(index, groupId, terms, skipInitialScan).args;
    assert args[2..2 + |terms|] == Strs(terms);
    TextsOfStrs(terms);
  }

  /** A last term `SKIPINITIALSCAN` cannot be told from the flag. */
  lemma SynUpdateAmbiguous(index: string, groupId: Number, terms: seq<string>)
    ensures SynUpdateCommand(index, groupId, terms + ["SKIPINITIALSCAN"], false)
         == SynUpdateCommand(index, groupId, terms, true)
  {
    StrsAppend(terms, ["SKIPINITIALSCAN"]);
  }

  // ---------------------------------------------------------------------
  // FT.SPELLCHECK

  datatype TermType = Include | Exclude
  {
    function Name(): string {
      match this
      case Include => "INCLUDE"
      case Exclude => "EXCLUDE"
    }
  }

  datatype SpellTerm = SpellTerm(termType: TermType, dict: Option<string>)

  datatype SpellCheckParameters = SpellCheckParameters(terms: Option<seq<SpellTerm>>, distance: Option<string>)

  /** The distance and the terms are concatenated into values that are
      then dropped, so only the bare `TERMS` marker is ever sent. */
  function SpellCheckCommand(index: string, query: string, options: Option<SpellCheckParameters>): Command {
    Command("FT.SPELLCHECK", [Str(index), Str(query)] + Flag(options.Some? && options.value.terms.Some?, "TERMS"))
  }

  method SpellCheck(index: string, query: string, options: Option<SpellCheckParameters>) returns (cmd: Command)
    ensures cmd == SpellCheckCommand(index, query, options)
  {
    var args := [Str(index), Str(query)];
    if options.Some? && options.value.distance.Some? {
      var dropped := args + [Str("DISTANCE"), Str(options.value.distance.value)];
    }
    if options.Some? && options.value.terms.Some? {
      args := args + [Str("TERMS")];
      var terms := options.value.terms.value;
      for i := 0 to |terms| {
        var dropped := args + [Str(terms[i].termType.Name()), OrUndefined(terms[i].dict)];
      }
    }
    cmd := Command("FT.SPELLCHECK", args);
  }

  /** Only whether terms are given matters: the distance and the terms
      themselves never reach the command. */
  lemma SpellCheckIgnoresContents(index: string, query: string, p1: SpellCheckParameters, p2: SpellCheckParameters)
    requires p1.terms.Some? == p2.terms.Some?
    ensures SpellCheckCommand(index, query, Some(p1)) == SpellCheckCommand(index, query, Some(p2))
  {
  }

  lemma SpellCheckShape(index: string, query: string, options: Option<SpellCheckParameters>)
    ensures var args := SpellCheckCommand(index, query, options).args;
      && args[..2] == [Str(index), Str(query)]
      && (|args| == 3 <==> options.Some? && options.value.terms.Some?)
      && (|args| == 3 ==> args[2] == Str("TERMS"))
      && (index != "DISTANCE" && query != "DISTANCE" ==> Str("DISTANCE") !in args)
  {
  }

  // ---------------------------------------------------------------------
  // FT.CONFIG

  datatype ConfigAction = Get | Set | Help
  {
    function Name(): string {
      match this
      case Get => "GET"
      case Set => "SET"
      case Help => "HELP"
    }
  }

  /** The value is pushed only for `SET`, as `undefined` when missing. */
  function ConfigCommand(command: ConfigAction, option: string, value: Option<string>): Command {
    Command("FT.CONFIG", [Str(command.Name()), Str(option)] + (if command == Set then [OrUndefined(value)] else []))
  }

  method Config(command: ConfigAction, option: string, value: Option<string>) returns (cmd: Command)
    ensures cmd == ConfigCommand(command, option, value)
  {
    var args := [Str(command.Name()), Str(option)];
    if command == Set {
      args := args + [OrUndefined(value)];
    }
    cmd := Command("FT.CONFIG", args);
  }

  /** Three arguments exactly for `SET`, whose third is the value or
      `undefined`; for `GET` and `HELP` the value is ignored. */
  lemma ConfigShape(command: ConfigAction, option: string, value: Option<string>, other: Option<string>)
    ensures var args := ConfigCommand(command, option, value).args;
      && args[..2] == [Str(command.Name()), Str(option)]
      && (|args| == 3 <==> command == Set)
      && (|args| == 2 <==> command != Set)
      && (command == Set ==> (args[2] == Undefined <==> value.None?))
      && (command != Set ==> ConfigCommand(command, option, other) == ConfigCommand(command, option, value))
  {
  }

  // ---------------------------------------------------------------------
  // The one-line commands

  function ExplainCommand(index: string, query: string): Command { Command("FT.EXPLAIN", [Str(index), Str(query)]) }
  function ExplainCliCommand(index: string, query: string): Command { Command("FT.EXPLAINCLI", [Str(index), Str(query)]) }
  function AliasAddCommand(name: string, index: string): Command { Command("FT.ALIASADD", [Str(name), Str(index)]) }
  function AliasUpdateCommand(name: string, index: string): Command { Command("FT.ALIASUPDATE", [Str(name), Str(index)]) }
  function AliasDelCommand(name: string): Command { Command("FT.ALIASDEL", [Str(name)]) }
  function TagValsCommand(index: string, field: string): Command { Command("FT.TAGVALS", [Str(index), Str(field)]) }
  function SugDelCommand(key: string, text: string): Command { Command("FT.SUGDEL", [Str(key), Str(text)]) }
  /** The key is passed bare rather than in an array; it is sent as one argument. */
  function SugLenCommand(key: string): Command { Command("FT.SUGLEN", [Str(key)]) }
  function SynDumpCommand(index: string): Command { Command("FT.SYNDUMP", [Str(index)]) }
  function DictAddCommand(dict: string, terms: seq<string>): Command { Command("FT.DICTADD", [Str(dict)] + Strs(terms)) }
  function DictDelCommand(dict: string, terms: seq<string>): Command { Command("FT.DICTDEL", [Str(dict)] + Strs(terms)) }
  function DictDumpCommand(dict: string): Command { Command("FT.DICTDUMP", [Str(dict)]) }
  function InfoCommand(index: string): Command { Command("FT.INFO", [Str(index)]) }

  /** Each one-line command sends its caller's strings, in order and as
      text, and nothing else. */
  lemma PassThroughTexts(a: string, b: string)
    ensures Texts(ExplainCommand(a, b).args) == Some([a, b])
    ensures Texts(ExplainCliCommand(a, b).args) == Some([a, b])
    ensures Texts(AliasAddCommand(a, b).args) == Some([a, b])
    ensures Texts(AliasUpdateCommand(a, b).args) == Some([a, b])
    ensures Texts(AliasDelCommand(a).args) == Some([a])
    ensures Texts(TagValsCommand(a, b).args) == Some([a, b])
    ensures Texts(SugDelCommand(a, b).args) == Some([a, b])
    ensures Texts(SugLenCommand(a).args) == Some([a])
    ensures Texts(SynDumpCommand(a).args) == Some([a])
    ensures Texts(DictDumpCommand(a).args) == Some([a])
    ensures Texts(InfoCommand(a).args) == Some([a])
  {
    TextsOfStrs([a, b]);
    TextsOfStrs([a]);
    assert [Str(a), Str(b)] == Strs([a, b]);
    assert [Str(a)] == Strs([a]);
  }

  /** The dictionary, then the terms in caller order. */
  lemma DictTermsRoundTrip(dict: string, terms: seq<string>)
    ensures Texts(DictAddCommand(dict, terms).args) == Some([dict] + terms)
    ensures Texts(DictDelCommand(dict, terms).args) == Some([dict] + terms)
  {
    StrsAppend([dict], terms);
    assert [Str(dict)] == Strs([dict]);
    TextsOfStrs([dict] + terms);
  }
}
