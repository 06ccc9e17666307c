# redis-modules-sdk command builders, in Dafny

redis-modules-sdk is a TypeScript client for Redis modules. For each
module command it has a method that takes typed parameters, builds the
command's argument list and sends it with `send_command`. This project
models two of those builders: the RediSearch one (`FT.*` commands,
`modules/redisearch.ts`) and the RedisAI one (`AI.*` commands,
`modules/redis-ai.ts`). For every command it proves what argument list
the command sends.

## How it is modelled

- `tokens.dfy` (module `Tokens`) holds the shared vocabulary.
  - A `Token` is one element of the argument array:
    - `Str(s)`: a string;
    - `Num(n)`: a number placed in the array as it is (the FT.SUGADD
      score, the FT.SYNUPDATE group id);
    - `NumText(n)`: the text of `n.toString()`;
    - `BufferText(bytes)`: the text of `Buffer.toString()`;
    - `Undefined`: a JavaScript `undefined` placed in the array.
  - The formatting of numbers and buffers is not modelled. The two
    constructors keep the converted value, so in the model different
    values always give different tokens; the text the source sends need
    not (see "## Left out").
  - A `Command` is the command name plus its argument list.
  - `Keywords(args, ks)` lists, in order, the tokens of `args` that are
    strings in `ks`. The keyword-skeleton lemmas are stated with it.
  - The small `Push*` methods append one optional group. Each builder
    method is a sequence of pushes, calls to these helpers and loops.
- `redisearch.dfy` (module `RediSearch`) and `redis_ai.dfy` (module
  `RedisAI`) model the builders. Each builder that grows its list step
  by step is modelled twice:
  - a specification function `XCommand`, stating the arguments the
    builder sends;
  - a method `X` that builds the list step by step, as the source does,
    and is proved to produce `XCommand`.
  A builder whose list is a single expression, such as AI.MODELRUN,
  AI.SCRIPTRUN, AI.CONFIG and the one-line commands, is modelled by its
  function alone.
  Lemmas state what the list contains: layout, keyword skeleton,
  presence of each flag, round trips back to the caller's values, and
  the cases where two different calls cannot be told apart.
- A TypeScript optional parameter or field is an `Option`; `None` means
  `undefined`. Fields the TypeScript types declare required but the code
  still checks with `!== undefined` are `Option` too: the tests are part
  of the code's behaviour.

The model follows the code as it is written, including where it departs
from the RediSearch and RedisAI command syntax.

Discarded `concat`. `args.concat([...])` does not assign its result, so
those tokens are never sent. This happens for:
- the FT.CREATE prefix entries (`modules/redisearch.ts:41`);
- the FT.CREATE field name and type (`:74`);
- the FT.CREATE field weight (`:80`);
- the FT.SEARCH geo filter (`:111`);
- the FT.SEARCH summarize fields (`:130`);
- the FT.SPELLCHECK distance and terms (`:350`, `:354`).
The model computes these values and drops them.

Spellings of keywords, kept as written:
- FT.SEARCH sends `VERBARIM` for `verbatim: true`.
- FT.CREATE and FT.ALTER send `SEPERATOR`.

`SCORE_FIELD` is guarded by `score`, not by `scoreField`. So a
`scoreField` alone sends nothing, and a `score` alone sends
`SCORE_FIELD undefined`.

Flags sent whenever the option is present, even when it is `false`:
- the FT.CREATE settings `noOffsets`, `temporary`, `nohl`, `noFields`,
  `noFreqs` and `skipInitialScan` (`modules/redisearch.ts:57-69`);
- FT.SEARCH's `inOrder` and `explainScore` (`:156`, `:164`);
- the field options of FT.CREATE and FT.ALTER;
- every option of FT.SUGGET;
- the increment of FT.SUGADD;
- `meta`/`blob`/`source` of AI.MODELGET and AI.SCRIPTGET.

By contrast, these need the value `true`:
- FT.SEARCH's `NOCONTENT`, `VERBARIM`, `NOSTOPWORDS`, `WITHSCORES`,
  `WITHPAYLOADS` and `WITHSORTKEYS` (`:96-107`);
- FT.DROPINDEX's `DD`;
- FT.SYNUPDATE's `SKIPINITIALSCAN` (`:340`);
- AI.TENSORGET's `META`;
- AI.INFO's `RESETSTAT`.

Other details:
- FT.ALTER reads `options.type` first. With `options` undefined it
  throws before anything is sent, so `AlterCommand` returns `None`.
- FT.SUGLEN passes its key bare, not in an array; it is modelled as a
  one-element list.
- AI._SCRIPTSCAN passes no list at all; it is modelled as an empty one.

## Model

| member | source | states |
|---|---|---|
| RediSearch.Create | modules/redisearch.ts:34-84 | the step-by-step FT.CREATE builder produces exactly `CreateCommand` |
| RediSearch.PushPrefix | modules/redisearch.ts:38-42 | `PREFIX` is appended alone; the loop over the prefixes leaves the list unchanged |
| RediSearch.PushFieldOptions | modules/redisearch.ts:73-81 | one schema field adds exactly its option group; name, type and weight are not added |
| RediSearch.CreateLayout | modules/redisearch.ts:35-36 | the list starts `index ON HASH`; with no settings `SCHEMA` follows directly |
| RediSearch.CreateSkeleton | modules/redisearch.ts:37-81 | when no caller string is a keyword, the keywords sent are exactly the settings' keywords in source order, then `SCHEMA`, then each field's option keywords |
| RediSearch.CreateOneSchema | modules/redisearch.ts:72 | when no caller string is a keyword, `SCHEMA` occurs exactly once among the arguments sent |
| RediSearch.CreateScoreField | modules/redisearch.ts:49-52 | `SCORE` and `SCORE_FIELD` are each sent iff a `score` setting is given; a `scoreField` alone sends neither |
| RediSearch.CreateUndefined | modules/redisearch.ts:51-52 | an `undefined` is sent iff `score` is given without `scoreField` |
| RediSearch.CreateIgnoresDropped | modules/redisearch.ts:38-81 | two calls that differ only in prefix entries, field names, field types and weights send the same command |
| RediSearch.SchemaOnlyOptions | modules/redisearch.ts:72-81 | the schema part of the list depends only on the options each field sends |
| RediSearch.Search | modules/redisearch.ts:93-174 | the step-by-step FT.SEARCH builder produces exactly `SearchCommand` |
| RediSearch.PushSummarize | modules/redisearch.ts:125-139 | `SUMMARIZE`, then `FIELDS` without the dropped field counts, then `FRAGS`/`LEN`/`SEPARATOR` pairs |
| RediSearch.PushHighlightFields | modules/redisearch.ts:141-146 | the highlight loop appends `FIELDS` and then every field's count and name |
| RediSearch.PushHighlightTags | modules/redisearch.ts:147-152 | the highlight loop appends `TAGS` and then every tag's open and close strings |
| RediSearch.FieldCountListLayout | modules/redisearch.ts:143-145 | the highlight fields are sent in caller order as (count text, name) pairs, 2n tokens |
| RediSearch.TagListLayout | modules/redisearch.ts:149-151 | the highlight tags are sent in caller order as (open, close) pairs, 2n tokens |
| RediSearch.SearchLayout | modules/redisearch.ts:94-95 | the list starts with the index and the query, and is just those with no settings |
| RediSearch.SearchLimitLast | modules/redisearch.ts:170-171 | when a limit is given, `LIMIT first num` are the last three tokens |
| RediSearch.SearchIgnoresGeoFilter | modules/redisearch.ts:110-118 | the geo filter never changes the command |
| RediSearch.SearchIgnoresSummarizeFields | modules/redisearch.ts:127-131 | the contents of the summarize fields never change the command |
| RediSearch.SearchEmptyPayload | modules/redisearch.ts:166-167 | an empty-string payload sends the same command as no payload |
| RediSearch.SearchSkeletonHolds | modules/redisearch.ts:95-172 | when no caller string is a keyword, the keywords sent are exactly those of the settings given, in source order |
| RediSearch.SearchSkeletonWords | modules/redisearch.ts:98-153 | the skeleton never holds `VERBATIM`, `GEOFILTER` or `HIGHLIGHT`; it holds `VERBARIM` iff `verbatim` is `true` |
| RediSearch.SearchMisnamedKeywords | modules/redisearch.ts:98-153 | FT.SEARCH never sends `VERBATIM`, `GEOFILTER` or `HIGHLIGHT`, and sends `VERBARIM` iff `verbatim` is `true` |
| RediSearch.Aggregate | modules/redisearch.ts:183-238 | the step-by-step FT.AGGREGATE builder produces exactly `AggregateCommand` |
| RediSearch.PushReduce | modules/redisearch.ts:200-209 | `REDUCE`, function, nargs and arg included when given, then `AS alias` |
| RediSearch.PushAggregateSortBy | modules/redisearch.ts:210-219 | `SORTBY`, its given parts, then `MAX` and the maximum's text |
| RediSearch.AggregateIgnoresFilter | modules/redisearch.ts:183-238 | the `filter` parameter is never read: the command is the same whatever it is |
| RediSearch.AggregateLoadAmbiguous | modules/redisearch.ts:186-192 | a `LOAD` with only nargs `x` and one with only property `x` send the same command |
| RediSearch.AggregateLayout | modules/redisearch.ts:184 | the list starts with the index and the query, and is just those when no step is given |
| RediSearch.AggregateSkeletonHolds | modules/redisearch.ts:185-236 | when no caller string is a keyword, the keywords sent are one per step given, in source order, plus `AS` and `MAX` for an alias and a maximum |
| RediSearch.AggregateSkeletonWords | modules/redisearch.ts:207-218 | the skeleton never holds `FILTER`; it holds `AS` iff a reducer alias is given and `MAX` iff a sort maximum is given |
| RediSearch.AggregateWordsSent | modules/redisearch.ts:183-238 | FT.AGGREGATE never sends `FILTER`, sends `AS` iff a reducer alias is given and `MAX` iff a sort maximum is given |
| RediSearch.Alter | modules/redisearch.ts:266-275 | the step-by-step FT.ALTER builder produces exactly `AlterCommand` (`None` when it throws) |
| RediSearch.AlterMatchesCreate | modules/redisearch.ts:266-275 | FT.ALTER fails iff no options are given; otherwise it sends index, field and type (`undefined` if missing), the option tokens FT.CREATE sends for a field with these options, then `WEIGHT` |
| RediSearch.AlterKeywordsHold | modules/redisearch.ts:268-273 | when no caller string is a keyword, the keywords sent are the options given in source order |
| RediSearch.AlterFlagsOnPresence | modules/redisearch.ts:268-273 | `SORTABLE`, `NOINDEX`, `NOSTEM` and `WEIGHT` are each sent iff the option is present, `false` included |
| RediSearch.AlterUndefined | modules/redisearch.ts:267 | the third argument is `undefined` iff no type is given, and no later argument is `undefined` |
| RediSearch.DropIndex | modules/redisearch.ts:283-287 | the FT.DROPINDEX builder produces exactly `DropIndexCommand` |
| RediSearch.DropIndexShape | modules/redisearch.ts:283-287 | the index alone, or the index and `DD` iff `deleteHash` is `true` (default `false`) |
| RediSearch.SugAdd | modules/redisearch.ts:312-319 | the FT.SUGADD builder produces exactly `SugAddCommand` |
| RediSearch.SugAddShape | modules/redisearch.ts:312-319 | key, text and the raw score come first; `INCR` is sent iff an increment is present; a payload ends the list; no options gives three arguments |
| RediSearch.SugGet | modules/redisearch.ts:320-331 | the FT.SUGGET builder produces exactly `SugGetCommand` |
| RediSearch.SugGetKeywordsHold | modules/redisearch.ts:322-329 | the keywords sent are one per option present, in source order |
| RediSearch.SugGetScoresOnPresence | modules/redisearch.ts:326-327 | `withScores: false` still sends `WITHSCORES` |
| RediSearch.SynUpdate | modules/redisearch.ts:338-343 | the FT.SYNUPDATE builder produces exactly `SynUpdateCommand` |
| RediSearch.SynUpdateRoundTrip | modules/redisearch.ts:338-343 | index and raw group id, the terms in order, `SKIPINITIALSCAN` last iff requested; decoding gives back the terms |
| RediSearch.SynUpdateAmbiguous | modules/redisearch.ts:339-341 | a last term `SKIPINITIALSCAN` cannot be told apart from the flag |
| RediSearch.SpellCheck | modules/redisearch.ts:347-358 | the FT.SPELLCHECK builder produces exactly `SpellCheckCommand` |
| RediSearch.SpellCheckIgnoresContents | modules/redisearch.ts:349-356 | only whether terms are given matters: distance and term contents never change the command |
| RediSearch.SpellCheckShape | modules/redisearch.ts:347-358 | index and query, then `TERMS` iff terms are given; `DISTANCE` is never sent |
| RediSearch.Config | modules/redisearch.ts:371-376 | the FT.CONFIG builder produces exactly `ConfigCommand` |
| RediSearch.ConfigShape | modules/redisearch.ts:371-376 | three arguments iff `SET`, the third being the value or `undefined`; for `GET` and `HELP` the value is ignored |
| RediSearch.PassThroughTexts | modules/redisearch.ts:246-370 | each one-line command sends its caller's strings in order; FT.SUGLEN sends only the key |
| RediSearch.DictTermsRoundTrip | modules/redisearch.ts:359-364 | FT.DICTADD and FT.DICTDEL send the dictionary and then the terms in caller order |
| RedisAI.TensorSet | modules/redis-ai.ts:16-28 | the AI.TENSORSET builder produces exactly `TensorSetCommand` |
| RedisAI.TensorSetShape | modules/redis-ai.ts:18-22 | four arguments: key, type, then `BLOB` and the buffer text iff the data is a buffer, `VALUES` and the string iff it is a string; the markers never occur together |
| RedisAI.TensorGet | modules/redis-ai.ts:36-48 | the AI.TENSORGET builder produces exactly `TensorGetCommand` |
| RedisAI.TensorGetRoundTrip | modules/redis-ai.ts:38-42 | reading the arguments gives back whether `meta` was `true`, and the format |
| RedisAI.ModelSet | modules/redis-ai.ts:49-70 | the AI.MODELSET builder produces exactly `ModelSetCommand` |
| RedisAI.ModelSetEnds | modules/redis-ai.ts:51-65 | key, backend and device come first; `BLOB` and the model come last |
| RedisAI.ModelSetBatchLayout | modules/redis-ai.ts:53-59 | the tag pair follows the device, then `BATCHSIZE size`, then `MINBATCHSIZE min` |
| RedisAI.ModelSetListLayout | modules/redis-ai.ts:60-63 | `INPUTS` and then the inputs in order, `OUTPUTS` and then the outputs in order, after the tag and batch groups |
| RedisAI.ModelSetSkeletonHolds | modules/redis-ai.ts:51-65 | when no caller string is a keyword, the keywords sent are those of the options given, in source order, then `BLOB` |
| RedisAI.ModelSetMinBatch | modules/redis-ai.ts:55-59 | `MINBATCHSIZE` is sent iff a batch with a minimum is given, and never without `BATCHSIZE` |
| RedisAI.ModelGet | modules/redis-ai.ts:71-83 | the AI.MODELGET builder produces exactly `ModelGetCommand` |
| RedisAI.ScriptGet | modules/redis-ai.ts:120-132 | the AI.SCRIPTGET builder produces exactly `ScriptGetCommand` |
| RedisAI.GetMarkersRoundTrip | modules/redis-ai.ts:71-132 | the two markers read back as the presence of the two arguments, whatever their values |
| RedisAI.ModelRunRoundTrip | modules/redis-ai.ts:94 | if no input is `OUTPUTS`, reading the arguments gives back the key, the inputs and the outputs |
| RedisAI.ModelRunAmbiguous | modules/redis-ai.ts:94 | an input named `OUTPUTS` and an output named `OUTPUTS` send the same command |
| RedisAI.ScriptRunTexts | modules/redis-ai.ts:143 | AI.SCRIPTRUN sends the key, the function, the inputs and the outputs, in order |
| RedisAI.ScriptRunBoundaryLost | modules/redis-ai.ts:143 | the last input moved to the front of the outputs sends the same command |
| RedisAI.ScriptSet | modules/redis-ai.ts:109-119 | the AI.SCRIPTSET builder produces exactly `ScriptSetCommand` |
| RedisAI.ScriptSetShape | modules/redis-ai.ts:111-114 | key and device, then the tag pair iff a tag is given, then `SOURCE` and the script last |
| RedisAI.DagRun | modules/redis-ai.ts:157-171 | the AI.DAGRUN builder produces exactly `DagRunCommand` |
| RedisAI.DagRunReadOnly | modules/redis-ai.ts:172-183 | the AI.DAGRUN_RO builder produces exactly `DagRunReadOnlyCommand` |
| RedisAI.DagRunLayout | modules/redis-ai.ts:159-166 | the `LOAD` group, then the `PERSIST` group, each with the count as given and the keys in order, then the commands |
| RedisAI.DagRunReadOnlyIsDagRun | modules/redis-ai.ts:174-178 | AI.DAGRUN_RO sends what AI.DAGRUN sends with no `PERSIST` group |
| RedisAI.Info | modules/redis-ai.ts:184-193 | the AI.INFO builder produces exactly `InfoCommand` |
| RedisAI.InfoShape | modules/redis-ai.ts:186-187 | the key, then `RESETSTAT` iff the flag is `true` |
| RedisAI.ConfigShape | modules/redis-ai.ts:194-204 | five strings: `BACKENDSPATH` path `LOADBACKEND` backend path; `loadBackendPath` is never read |
| RedisAI.PassThroughTexts | modules/redis-ai.ts:84-156 | AI.MODELDEL and AI.SCRIPTDEL send the key alone; the two scans send nothing |

## Left out

- `send_command` and the ioredis connection are left out. The model
  stops at the command the builder hands over; sending it is I/O.
- `connect` and `disconnect` are left out for the same reason.
- The replies are left out: what each command returns, and its shaping,
  belong to the server.
- `handleError` and the `try`/`catch` around each RedisAI builder are
  left out. A builder can only throw from inside `send_command`, which is
  not modelled.
- The text of `number.toString()` and `Buffer.toString()` is opaque:
  `NumText` and `BufferText` keep the value, not its digits or bytes.
  JavaScript number formatting is floating-point behaviour.
- That two different values give two different tokens is a modelling
  choice, not a property of the source. `Buffer.toString()` decodes UTF-8
  and replaces each invalid byte with U+FFFD, so buffers such as `[0xFF]`
  and `[0xFE]` send the same text. Two numbers that round to the same
  double also send the same text. So the model tells apart some calls
  that the server receives as equal.
- `Number` is a `real`, so the JavaScript numbers `NaN`, `Infinity` and
  `-Infinity` cannot be passed. The source accepts them for every
  `number` parameter and sends their text; the model does not cover
  those calls.
- The model assumes the TypeScript static types hold. A closed string
  literal union is a closed datatype:
  - `SortOrder` (`'ASC' | 'DESC'`);
  - `GeoUnit` (`'m' | 'km' | 'mi' | 'ft'`);
  - `TermType` (`'INCLUDE' | 'EXCLUDE'`);
  - `ConfigAction` (`'GET' | 'SET' | 'HELP'`);
  - `TensorType`, `TensorFormat` and `Backend`.
  A string outside such a union, which the source would send as it is,
  cannot be written in the model. A sub-object field the types declare
  required is required here too, for example `Batch.size`,
  `PrefixEntry.name` and `DagKeys.keys`. A required field the code still
  tests for `undefined` is an `Option`, so the model follows the test.
  The open unions `'TEXT' | 'NUMERIC' | 'TAG' | string` (the field type)
  and `'CPU' | 'GPU' | string` (the device) stay plain strings.
- The repository's tests and the other modules (RedisJSON, RedisTimeSeries,
  RedisGraph and the rest) are not part of this model.
