/** The definitions workflow (`generate_definitions` in
    services/gemini_handler.py): the keywords are cut into batches; each
    batch is defined by one call that answers with a JSON array, and a batch
    whose call or decoding fails is redone one keyword at a time, where a
    failing keyword yields an error row instead of stopping the run. */
module Definitions {
  import opened Wrappers
  import opened Text
  import opened Chunking
  import opened Prompts
  import opened ResponseParsing
  import opened OrderedMaps
  import opened Calls
  import opened HandlerPrompts

  /** The definition of the row recorded for a keyword that failed. */
  const ErrorPrefix: string := "Error generating definition: "

  /** How `_generate_single_definition` wraps the message of a failed call. */
  const ApiErrorPrefix: string := "Gemini API error: "

  /** The row recorded for `keyword` given the outcome of building its
      prompt and, when that succeeded, the outcome of its call: a failed
      build gives an error row with the builder's message, unwrapped; a
      failed call an error row with the wrapped API message; a reply the
      keyword and definition parsed from it. */
  function DefinitionRow(built: Result<string, string>, outcome: Result<string, string>, keyword: string): Record {
    match built
    case Failure(message) => CardRecord(Card(keyword, ErrorPrefix + message))
    case Success(_) =>
      match outcome
      case Failure(message) => CardRecord(Card(keyword, ErrorPrefix + (ApiErrorPrefix + message)))
      case Success(reply) =>
        var parsed := ParseKeywordDefinition(Strip(reply), keyword);
        CardRecord(Card(parsed.0, parsed.1))
  }

  /** `_generate_single_definition` under the orchestrator's handler: the row
      for one keyword and the prompts sent. An unknown prompt type fails
      before any call, and its message is not wrapped. */
  function SingleDefinition(prompts: DefinitionBuilders, tape: Tape, log: seq<string>, promptType: string, keyword: string): (Record, seq<string>) {
    var built := prompts.single(promptType, keyword);
    (DefinitionRow(built, tape(|log|), keyword), if built.Success? then log + [built.value] else log)
  }

  /** How many of `keywords` have a prompt that can be built: the calls their
      individual processing makes. */
  function Buildable(prompts: DefinitionBuilders, promptType: string, keywords: seq<string>): (n: nat)
    ensures n <= |keywords|
    decreases |keywords|
  {
    if |keywords| == 0 then 0
    else (if prompts.single(promptType, keywords[0]).Success? then 1 else 0) + Buildable(prompts, promptType, keywords[1..])
  }

  /** The individual processing of a batch whose batch call failed: one row
      per keyword, in order, and one call per keyword whose prompt can be
      built. */
  function DefinitionsFallback(prompts: DefinitionBuilders, tape: Tape, log: seq<string>, promptType: string, batch: seq<string>): (r: Run)
    ensures |r.records| == |batch|
    ensures |log| <= |r.log| <= |log| + |batch|
    ensures r.log[..|log|] == log
    ensures |r.log| == |log| + Buildable(prompts, promptType, batch)
    ensures (forall k :: prompts.single(promptType, k).Success?) ==> |r.log| == |log| + |batch|
    decreases |batch|
  {
    if |batch| == 0 then Run([], log)
    else
      var first := SingleDefinition(prompts, tape, log, promptType, batch[0]);
      var rest := DefinitionsFallback(prompts, tape, first.1, promptType, batch[1..]);
      assert first.1[..|log|] == log;
      assert rest.log[..|log|] == rest.log[..|first.1|][..|log|];
      Run([first.0] + rest.records, rest.log)
  }

  /** One iteration of the batch loop: the batch call, and the individual
      processing when it fails. */
  function DefinitionsBatch(prompts: DefinitionBuilders, tape: Tape, decode: Decoder, log: seq<string>, promptType: string, batch: seq<string>): Run {
    var prompt := prompts.batchDefinition(batch, promptType);
    match BatchCall(tape, decode, log)
    case Some(records) => Run(records, log + [prompt])
    case None => DefinitionsFallback(prompts, tape, log + [prompt], promptType, batch)
  }

  /** The batch loop over the remaining batches. */
  function DefinitionsChunks(prompts: DefinitionBuilders, tape: Tape, decode: Decoder, log: seq<string>, promptType: string, chunks: seq<seq<string>>): Run
    decreases |chunks|
  {
    if |chunks| == 0 then Run([], log)
    else
      var first := DefinitionsBatch(prompts, tape, decode, log, promptType, chunks[0]);
      var rest := DefinitionsChunks(prompts, tape, decode, first.log, promptType, chunks[1..]);
      Run(first.records + rest.records, rest.log)
  }

  /** `generate_definitions`: no keywords means no call and no row. */
  function GenerateDefinitions(prompts: DefinitionBuilders, tape: Tape, decode: Decoder, batchSize: nat, promptType: string, keywords: seq<string>): (r: Run)
    requires batchSize >= 1
    ensures keywords == [] ==> r == Run([], [])
  {
    if |keywords| == 0 then Run([], [])
    else DefinitionsChunks(prompts, tape, decode, [], promptType, Chunks(keywords, batchSize))
  }

  // ---------------------------------------------------------------------------
  // How many calls a run makes

  /** Each batch costs one call, and at most one more per keyword. */
  lemma {:induction false} ChunksCalls(prompts: DefinitionBuilders, tape: Tape, decode: Decoder, log: seq<string>, promptType: string, chunks: seq<seq<string>>)
    ensures |log| + |chunks| <= |DefinitionsChunks(prompts, tape, decode, log, promptType, chunks).log|
                             <= |log| + |chunks| + |Flatten(chunks)|
    decreases |chunks|
  {
    if |chunks| > 0 {
      var first := DefinitionsBatch(prompts, tape, decode, log, promptType, chunks[0]);
      ChunksCalls(prompts, tape, decode, first.log, promptType, chunks[1..]);
    }
  }

  /** A run makes one call per batch, plus at most one per keyword for the
      batches that fall back. */
  lemma DefinitionsCallBounds(prompts: DefinitionBuilders, tape: Tape, decode: Decoder, batchSize: nat, promptType: string, keywords: seq<string>)
    requires batchSize >= 1
    ensures NumChunks(|keywords|, batchSize) <= |GenerateDefinitions(prompts, tape, decode, batchSize, promptType, keywords).log|
            <= NumChunks(|keywords|, batchSize) + |keywords|
  {
    if |keywords| > 0 {
      ChunksCalls(prompts, tape, decode, [], promptType, Chunks(keywords, batchSize));
      FlattenChunks(keywords, batchSize);
    }
  }

  // ---------------------------------------------------------------------------
  // One keyword of a failed batch

  /** The fallback over a non-empty batch: the first keyword, then the rest. */
  lemma {:induction false} FallbackUnfold(prompts: DefinitionBuilders, tape: Tape, log: seq<string>, promptType: string, batch: seq<string>)
    requires |batch| > 0
    ensures var first := SingleDefinition(prompts, tape, log, promptType, batch[0]);
            DefinitionsFallback(prompts, tape, log, promptType, batch).records
            == [first.0] + DefinitionsFallback(prompts, tape, first.1, promptType, batch[1..]).records
  {
  }

  /** The row of the `i`-th keyword of a failed batch is what its own call
      gives; that call comes after one call for each keyword before it whose
      prompt could be built. */
  lemma {:induction false} FallbackRow(prompts: DefinitionBuilders, tape: Tape, log: seq<string>, promptType: string, batch: seq<string>, i: nat)
    requires i < |batch|
    ensures DefinitionsFallback(prompts, tape, log, promptType, batch).records[i]
            == DefinitionRow(prompts.single(promptType, batch[i]), tape(|log| + Buildable(prompts, promptType, batch[..i])), batch[i])
    decreases i
  {
    if i == 0 {
      FallbackRowHead(prompts, tape, log, promptType, batch);
    } else {
      FallbackRow(prompts, tape, SingleDefinition(prompts, tape, log, promptType, batch[0]).1, promptType, batch[1..], i - 1);
      FallbackRowStep(prompts, tape, log, promptType, batch, i);
    }
  }

  /** The induction's base: the first row comes from the next call. */
  lemma {:induction false} FallbackRowHead(prompts: DefinitionBuilders, tape: Tape, log: seq<string>, promptType: string, batch: seq<string>)
    requires 0 < |batch|
    ensures DefinitionsFallback(prompts, tape, log, promptType, batch).records[0]
            == DefinitionRow(prompts.single(promptType, batch[0]), tape(|log| + Buildable(prompts, promptType, batch[..0])), batch[0])
  {
    var first := SingleDefinition(prompts, tape, log, promptType, batch[0]);
    FallbackUnfold(prompts, tape, log, promptType, batch);
    assert batch[..0] == [];
    HeadGlue(prompts, promptType, tape, DefinitionsFallback(prompts, tape, log, promptType, batch).records, first.0,
             DefinitionsFallback(prompts, tape, first.1, promptType, batch[1..]).records, batch[0], |log|,
             Buildable(prompts, promptType, batch[..0]));
  }

  /** The induction's step: row `i` is row `i - 1` of the rest of the batch. */
  lemma {:induction false} FallbackRowStep(prompts: DefinitionBuilders, tape: Tape, log: seq<string>, promptType: string, batch: seq<string>, i: nat)
    requires 1 <= i < |batch|
    requires var first := SingleDefinition(prompts, tape, log, promptType, batch[0]);
             DefinitionsFallback(prompts, tape, first.1, promptType, batch[1..]).records[i - 1]
             == DefinitionRow(prompts.single(promptType, batch[1..][i - 1]),
                              tape(|first.1| + Buildable(prompts, promptType, batch[1..][..i - 1])), batch[1..][i - 1])
    ensures DefinitionsFallback(prompts, tape, log, promptType, batch).records[i]
            == DefinitionRow(prompts.single(promptType, batch[i]), tape(|log| + Buildable(prompts, promptType, batch[..i])), batch[i])
  {
    var first := SingleDefinition(prompts, tape, log, promptType, batch[0]);
    FallbackUnfold(prompts, tape, log, promptType, batch);
    BuildableShift(prompts, promptType, batch, i);
    SingleLog(prompts, tape, log, promptType, batch[0]);
    RowGlue(prompts, promptType, tape, DefinitionsFallback(prompts, tape, log, promptType, batch).records, first.0,
            DefinitionsFallback(prompts, tape, first.1, promptType, batch[1..]).records, i, batch[1..][i - 1], batch[i],
            |first.1|, |log|, if prompts.single(promptType, batch[0]).Success? then 1 else 0,
            Buildable(prompts, promptType, batch[1..][..i - 1]), Buildable(prompts, promptType, batch[..i]));
  }

  /** The first row is the first keyword's, served by the next call. */
  lemma {:induction false} HeadGlue(prompts: DefinitionBuilders, promptType: string, tape: Tape, all: seq<Record>, head: Record, rest: seq<Record>,
                                    k: string, logLen: nat, total: nat)
    requires all == [head] + rest && total == 0
    requires head == DefinitionRow(prompts.single(promptType, k), tape(logLen), k)
    ensures all[0] == DefinitionRow(prompts.single(promptType, k), tape(logLen + total), k)
  {
  }

  /** The row after the first is the rest's row one place earlier, served by
      the call that many calls later. */
  lemma {:induction false} RowGlue(prompts: DefinitionBuilders, promptType: string, tape: Tape, all: seq<Record>, head: Record, rest: seq<Record>,
                                   i: nat, k: string, k': string, firstLogLen: nat, logLen: nat, b0: nat, before: nat, total: nat)
    requires all == [head] + rest && 1 <= i <= |rest| && k == k'
    requires firstLogLen == logLen + b0 && total == b0 + before
    requires rest[i - 1] == DefinitionRow(prompts.single(promptType, k), tape(firstLogLen + before), k)
    ensures all[i] == DefinitionRow(prompts.single(promptType, k'), tape(logLen + total), k')
  {
    assert firstLogLen + before == logLen + total;
  }

  /** One keyword costs one call exactly when its prompt can be built. */
  lemma SingleLog(prompts: DefinitionBuilders, tape: Tape, log: seq<string>, promptType: string, keyword: string)
    ensures |SingleDefinition(prompts, tape, log, promptType, keyword).1|
            == |log| + (if prompts.single(promptType, keyword).Success? then 1 else 0)
  {
  }

  lemma {:induction false} BuildableShift(prompts: DefinitionBuilders, promptType: string, batch: seq<string>, i: nat)
    requires 1 <= i <= |batch|
    ensures Buildable(prompts, promptType, batch[..i])
            == (if prompts.single(promptType, batch[0]).Success? then 1 else 0) + Buildable(prompts, promptType, batch[1..][..i - 1])
  {
    assert batch[..i][0] == batch[0];
    assert batch[..i][1..] == batch[1..][..i - 1];
  }

  /** With a known prompt type, the `i`-th keyword of a failed batch is
      answered by the `i`-th call of the individual processing; when that
      call raises, its row is an error row with the wrapped API message. */
  lemma FallbackRowFails(prompts: DefinitionBuilders, tape: Tape, log: seq<string>, promptType: string, batch: seq<string>, i: nat)
    requires i < |batch|
    requires forall k :: prompts.single(promptType, k).Success?
    requires tape(|log| + i).Failure?
    ensures ErrorFor(DefinitionsFallback(prompts, tape, log, promptType, batch).records[i], batch[i], ErrorPrefix + ApiErrorPrefix)
  {
    KnownRowAt(prompts, tape, log, promptType, batch, i);
    FailedCallRow(prompts.single(promptType, batch[i]), tape(|log| + i), batch[i],
                  DefinitionsFallback(prompts, tape, log, promptType, batch).records[i]);
  }

  /** A keyword whose prompt was built but whose call raised gets an error
      row with the wrapped API message. */
  lemma {:induction false} FailedCallRow(built: Result<string, string>, outcome: Result<string, string>, keyword: string, row: Record)
    requires built.Success? && outcome.Failure? && row == DefinitionRow(built, outcome, keyword)
    ensures ErrorFor(row, keyword, ErrorPrefix + ApiErrorPrefix)
  {
    ErrorCardWrapped(keyword, ErrorPrefix, ApiErrorPrefix, outcome.error);
  }

  /** With a known prompt type, when the `i`-th call of the individual
      processing is answered, the `i`-th row is the card parsed from that
      reply. */
  lemma FallbackRowAnswered(prompts: DefinitionBuilders, tape: Tape, log: seq<string>, promptType: string, batch: seq<string>, i: nat)
    requires i < |batch|
    requires forall k :: prompts.single(promptType, k).Success?
    requires tape(|log| + i).Success?
    ensures var parsed := ParseKeywordDefinition(Strip(tape(|log| + i).value), batch[i]);
            DefinitionsFallback(prompts, tape, log, promptType, batch).records[i] == CardRecord(Card(parsed.0, parsed.1))
  {
    KnownRowAt(prompts, tape, log, promptType, batch, i);
  }

  /** With a known prompt type, the `i`-th keyword of a failed batch is
      answered by the `i`-th call of the individual processing. */
  lemma {:induction false} KnownRowAt(prompts: DefinitionBuilders, tape: Tape, log: seq<string>, promptType: string, batch: seq<string>, i: nat)
    requires i < |batch|
    requires forall k :: prompts.single(promptType, k).Success?
    ensures DefinitionsFallback(prompts, tape, log, promptType, batch).records[i]
            == DefinitionRow(prompts.single(promptType, batch[i]), tape(|log| + i), batch[i])
  {
    BuildableAll(prompts, promptType, batch[..i]);
    RowAtCount(prompts, tape, log, promptType, batch, i);
  }

  /** When every keyword before the `i`-th costs one call, the `i`-th
      keyword is answered by the `i`-th call. */
  lemma {:induction false} RowAtCount(prompts: DefinitionBuilders, tape: Tape, log: seq<string>, promptType: string, batch: seq<string>, i: nat)
    requires i < |batch| && Buildable(prompts, promptType, batch[..i]) == i
    ensures DefinitionsFallback(prompts, tape, log, promptType, batch).records[i]
            == DefinitionRow(prompts.single(promptType, batch[i]), tape(|log| + i), batch[i])
  {
    FallbackRow(prompts, tape, log, promptType, batch, i);
    SameCall(tape, |log|, Buildable(prompts, promptType, batch[..i]), i);
  }

  lemma {:induction false} SameCall(tape: Tape, base: nat, before: nat, i: nat)
    requires before == i
    ensures tape(base + before) == tape(base + i)
  {
  }

  /** Every keyword's prompt can be built, so each costs one call. */
  lemma {:induction false} BuildableAll(prompts: DefinitionBuilders, promptType: string, keywords: seq<string>)
    requires forall k :: prompts.single(promptType, k).Success?
    ensures Buildable(prompts, promptType, keywords) == |keywords|
    decreases |keywords|
  {
    if |keywords| > 0 {
      assert prompts.single(promptType, keywords[0]).Success?;
      BuildableAll(prompts, promptType, keywords[1..]);
    }
  }

  // ---------------------------------------------------------------------------
  // When every call fails

  /** A keyword whose call fails gets an error row carrying the wrapped
      message, at the cost of one call. */
  lemma SingleFails(prompts: DefinitionBuilders, tape: Tape, log: seq<string>, promptType: string, keyword: string)
    requires tape(|log|).Failure? && prompts.single(promptType, keyword).Success?
    ensures ErrorFor(SingleDefinition(prompts, tape, log, promptType, keyword).0, keyword, ErrorPrefix + ApiErrorPrefix)
    ensures |SingleDefinition(prompts, tape, log, promptType, keyword).1| == |log| + 1
  {
    var message := tape(|log|).error;
    ErrorCard(keyword, ErrorPrefix + ApiErrorPrefix, message);
    assert ErrorPrefix + (ApiErrorPrefix + message) == ErrorPrefix + ApiErrorPrefix + message;
  }

  /** Every keyword of a failed batch gets its own call and an error row. */
  lemma {:induction false} FallbackAllFail(prompts: DefinitionBuilders, tape: Tape, log: seq<string>, promptType: string, batch: seq<string>)
    requires forall n :: tape(n).Failure?
    requires forall k :: prompts.single(promptType, k).Success?
    ensures ErrorRows(DefinitionsFallback(prompts, tape, log, promptType, batch).records, batch, ErrorPrefix + ApiErrorPrefix)
    ensures |DefinitionsFallback(prompts, tape, log, promptType, batch).log| == |log| + |batch|
    decreases |batch|
  {
    if |batch| > 0 {
      var first := SingleDefinition(prompts, tape, log, promptType, batch[0]);
      SingleFails(prompts, tape, log, promptType, batch[0]);
      FallbackAllFail(prompts, tape, first.1, promptType, batch[1..]);
      ErrorRowsCons(first.0, batch[0], DefinitionsFallback(prompts, tape, first.1, promptType, batch[1..]).records, batch[1..],
                    ErrorPrefix + ApiErrorPrefix);
      assert [batch[0]] + batch[1..] == batch;
    }
  }

  lemma {:induction false} ChunksAllFail(prompts: DefinitionBuilders, tape: Tape, decode: Decoder, log: seq<string>, promptType: string, chunks: seq<seq<string>>)
    requires forall n :: tape(n).Failure?
    requires forall k :: prompts.single(promptType, k).Success?
    ensures ErrorRows(DefinitionsChunks(prompts, tape, decode, log, promptType, chunks).records, Flatten(chunks), ErrorPrefix + ApiErrorPrefix)
    ensures |DefinitionsChunks(prompts, tape, decode, log, promptType, chunks).log| == |log| + |chunks| + |Flatten(chunks)|
    decreases |chunks|
  {
    if |chunks| > 0 {
      var prompt := prompts.batchDefinition(chunks[0], promptType);
      var first := DefinitionsBatch(prompts, tape, decode, log, promptType, chunks[0]);
      assert first == DefinitionsFallback(prompts, tape, log + [prompt], promptType, chunks[0]);
      FallbackAllFail(prompts, tape, log + [prompt], promptType, chunks[0]);
      ChunksAllFail(prompts, tape, decode, first.log, promptType, chunks[1..]);
      ErrorRowsAppend(first.records, chunks[0], DefinitionsChunks(prompts, tape, decode, first.log, promptType, chunks[1..]).records,
                      Flatten(chunks[1..]), ErrorPrefix + ApiErrorPrefix);
    }
  }

  /** When the service is down and the prompt type is known, the output has
      one error row per keyword, in order, carrying the wrapped API error;
      every batch costs its batch call and one call per keyword. */
  lemma AllCallsFail(prompts: DefinitionBuilders, tape: Tape, decode: Decoder, batchSize: nat, promptType: string, keywords: seq<string>)
    requires batchSize >= 1
    requires forall n :: tape(n).Failure?
    requires forall k :: prompts.single(promptType, k).Success?
    ensures ErrorRows(GenerateDefinitions(prompts, tape, decode, batchSize, promptType, keywords).records, keywords,
                      ErrorPrefix + ApiErrorPrefix)
    ensures |GenerateDefinitions(prompts, tape, decode, batchSize, promptType, keywords).log|
            == NumChunks(|keywords|, batchSize) + |keywords|
  {
    if |keywords| > 0 {
      ChunksAllFail(prompts, tape, decode, [], promptType, Chunks(keywords, batchSize));
      FlattenChunks(keywords, batchSize);
    }
  }

  /** A keyword whose prompt cannot be built gets an error row carrying the
      builder's message, unwrapped, and no call is made. */
  lemma SingleUnbuilt(prompts: DefinitionBuilders, tape: Tape, log: seq<string>, promptType: string, keyword: string, lead: string)
    requires prompts.single(promptType, keyword).Failure?
    requires StartsWith(prompts.single(promptType, keyword).error, lead)
    ensures ErrorFor(SingleDefinition(prompts, tape, log, promptType, keyword).0, keyword, ErrorPrefix + lead)
    ensures SingleDefinition(prompts, tape, log, promptType, keyword).1 == log
  {
    var message := prompts.single(promptType, keyword).error;
    StartsWithPrepend(ErrorPrefix, message, lead);
    ErrorCardPrefix(keyword, ErrorPrefix + lead, ErrorPrefix + message);
  }

  /** With an unknown prompt type the individual processing makes no call:
      when the batch calls fail, each keyword gets an error row carrying the
      unknown-type message, unwrapped. */
  lemma {:induction false} FallbackUnknownType(prompts: DefinitionBuilders, tape: Tape, log: seq<string>, promptType: string, batch: seq<string>)
    requires forall k :: prompts.single(promptType, k).Failure?
                         && StartsWith(prompts.single(promptType, k).error, "Unknown prompt type: " + promptType)
    ensures ErrorRows(DefinitionsFallback(prompts, tape, log, promptType, batch).records, batch,
                      ErrorPrefix + ("Unknown prompt type: " + promptType))
    ensures DefinitionsFallback(prompts, tape, log, promptType, batch).log == log
    decreases |batch|
  {
    if |batch| > 0 {
      SingleUnbuilt(prompts, tape, log, promptType, batch[0], "Unknown prompt type: " + promptType);
      FallbackUnknownType(prompts, tape, log, promptType, batch[1..]);
      ErrorRowsCons(SingleDefinition(prompts, tape, log, promptType, batch[0]).0, batch[0],
                    DefinitionsFallback(prompts, tape, log, promptType, batch[1..]).records, batch[1..],
                    ErrorPrefix + ("Unknown prompt type: " + promptType));
      assert [batch[0]] + batch[1..] == batch;
    }
  }

  // ---------------------------------------------------------------------------
  // When no reply decodes

  lemma {:induction false} ChunksUndecoded(prompts: DefinitionBuilders, tape: Tape, decode: Decoder, log: seq<string>, promptType: string, chunks: seq<seq<string>>)
    requires NeverDecodes(decode)
    ensures |DefinitionsChunks(prompts, tape, decode, log, promptType, chunks).records| == |Flatten(chunks)|
    decreases |chunks|
  {
    if |chunks| > 0 {
      var first := DefinitionsBatch(prompts, tape, decode, log, promptType, chunks[0]);
      UndecodedBatch(tape, decode, log);
      ChunksUndecoded(prompts, tape, decode, first.log, promptType, chunks[1..]);
    }
  }

  /** When no batch reply decodes, whatever the service answers, every batch
      is redone one keyword at a time and the run has exactly one row per
      keyword. */
  lemma UndecodedRowCount(prompts: DefinitionBuilders, tape: Tape, decode: Decoder, batchSize: nat, promptType: string, keywords: seq<string>)
    requires batchSize >= 1
    requires NeverDecodes(decode)
    ensures |GenerateDefinitions(prompts, tape, decode, batchSize, promptType, keywords).records| == |keywords|
  {
    if |keywords| > 0 {
      ChunksUndecoded(prompts, tape, decode, [], promptType, Chunks(keywords, batchSize));
      FlattenChunks(keywords, batchSize);
    }
  }

  // ---------------------------------------------------------------------------
  // Prompts looked up in a template registry

  /** With prompts looked up in a registry (as `HandlerPrompts.HandlerDefinitionBuilders`
      does) and a registered type, a run against a
      service that is down gives one error row per keyword, in order, with
      the wrapped API message, and costs one call per batch and one per
      keyword. */
  lemma RegistryServiceDown(prompts: DefinitionBuilders, registry: Registry, tape: Tape, decode: Decoder, batchSize: nat, promptType: string,
                            keywords: seq<string>)
    requires forall k :: prompts.single(promptType, k) == GetPrompt(registry, promptType, k)
    requires promptType in Keys(registry)
    requires batchSize >= 1
    requires forall n :: tape(n).Failure?
    ensures ErrorRows(GenerateDefinitions(prompts, tape, decode, batchSize, promptType, keywords).records, keywords,
                      ErrorPrefix + ApiErrorPrefix)
    ensures |GenerateDefinitions(prompts, tape, decode, batchSize, promptType, keywords).log|
            == NumChunks(|keywords|, batchSize) + |keywords|
  {
    assert forall k :: prompts.single(promptType, k).Success?;
    AllCallsFail(prompts, tape, decode, batchSize, promptType, keywords);
  }

  /** With prompts looked up in a registry and a type it does not hold, a
      failed batch is redone without any call, each keyword getting an error
      row with the unknown-type message, unwrapped. */
  lemma RegistryUnknownType(prompts: DefinitionBuilders, registry: Registry, tape: Tape, log: seq<string>, promptType: string, batch: seq<string>)
    requires forall k :: prompts.single(promptType, k) == GetPrompt(registry, promptType, k)
    requires promptType !in Keys(registry)
    ensures ErrorRows(DefinitionsFallback(prompts, tape, log, promptType, batch).records, batch,
                      ErrorPrefix + ("Unknown prompt type: " + promptType))
    ensures DefinitionsFallback(prompts, tape, log, promptType, batch).log == log
  {
    FallbackUnknownType(prompts, tape, log, promptType, batch);
  }

  /** A fresh handler (its `PromptTemplates()` registry) asked for one of
      the types `get_available_types` lists, against a service that is down:
      one API error row per keyword, in order, after one call per batch and
      one per keyword. */
  lemma HandlerServiceDown(tape: Tape, decode: Decoder, batchSize: nat, promptType: string, keywords: seq<string>)
    requires promptType in GetAvailableTypes()
    requires batchSize >= 1
    requires forall n :: tape(n).Failure?
    ensures ErrorRows(GenerateDefinitions(HandlerDefinitionBuilders(BuiltinTemplates()), tape, decode, batchSize, promptType, keywords).records,
                      keywords, ErrorPrefix + ApiErrorPrefix)
    ensures |GenerateDefinitions(HandlerDefinitionBuilders(BuiltinTemplates()), tape, decode, batchSize, promptType, keywords).log|
            == NumChunks(|keywords|, batchSize) + |keywords|
  {
    AvailableTypes();
    RegistryServiceDown(HandlerDefinitionBuilders(BuiltinTemplates()), BuiltinTemplates(), tape, decode, batchSize, promptType, keywords);
  }

  /** A fresh handler asked for a type `get_available_types` does not list:
      a failed batch is redone without any call, each keyword getting the
      unknown-type error row. */
  lemma HandlerUnknownType(tape: Tape, log: seq<string>, promptType: string, batch: seq<string>)
    requires promptType !in GetAvailableTypes()
    ensures ErrorRows(DefinitionsFallback(HandlerDefinitionBuilders(BuiltinTemplates()), tape, log, promptType, batch).records, batch,
                      ErrorPrefix + ("Unknown prompt type: " + promptType))
    ensures DefinitionsFallback(HandlerDefinitionBuilders(BuiltinTemplates()), tape, log, promptType, batch).log == log
  {
    AvailableTypes();
    RegistryUnknownType(HandlerDefinitionBuilders(BuiltinTemplates()), BuiltinTemplates(), tape, log, promptType, batch);
  }

  // ---------------------------------------------------------------------------
  // When every batch call succeeds

  /** The decoded arrays answering `count` consecutive calls from call `n`
      on, concatenated (an unanswered call contributes nothing). */
  function Answers(tape: Tape, decode: Decoder, n: nat, count: nat): seq<Record>
    decreases count
  {
    if count == 0 then []
    else
      var answer := match tape(n)
        case Failure(_) => []
        case Success(reply) => (match decode(CleanJsonReply(reply)) case None => [] case Some(records) => records);
      answer + Answers(tape, decode, n + 1, count - 1)
  }

  /** A batch whose call is answered with a JSON array costs that one call
      and contributes the decoded array. */
  lemma BatchAnswered(prompts: DefinitionBuilders, tape: Tape, decode: Decoder, log: seq<string>, promptType: string, batch: seq<string>)
    requires tape(|log|).Success? && decode(CleanJsonReply(tape(|log|).value)).Some?
    ensures DefinitionsBatch(prompts, tape, decode, log, promptType, batch)
            == Run(decode(CleanJsonReply(tape(|log|).value)).value, log + [prompts.batchDefinition(batch, promptType)])
  {
  }

  /** The batch prompts sent from `log` on, one per batch. */
  function BatchPrompts(prompts: DefinitionBuilders, promptType: string, chunks: seq<seq<string>>): (r: seq<string>)
    ensures |r| == |chunks|
  {
    seq(|chunks|, j requires 0 <= j < |chunks| => prompts.batchDefinition(chunks[j], promptType))
  }

  lemma {:induction false} ChunksBatchedLog(prompts: DefinitionBuilders, tape: Tape, decode: Decoder, log: seq<string>, promptType: string, chunks: seq<seq<string>>)
    requires forall n :: tape(n).Success?
    requires forall s :: decode(s).Some?
    ensures DefinitionsChunks(prompts, tape, decode, log, promptType, chunks).log == log + BatchPrompts(prompts, promptType, chunks)
    decreases |chunks|
  {
    if |chunks| > 0 {
      var log' := log + [prompts.batchDefinition(chunks[0], promptType)];
      assert tape(|log|).Success? && decode(CleanJsonReply(tape(|log|).value)).Some?;
      BatchedLogStep(prompts, tape, decode, log, promptType, chunks);
      ChunksBatchedLog(prompts, tape, decode, log', promptType, chunks[1..]);
      BatchPromptsCons(prompts, promptType, chunks);
      LogGlue(log, prompts.batchDefinition(chunks[0], promptType), BatchPrompts(prompts, promptType, chunks[1..]),
              BatchPrompts(prompts, promptType, chunks));
    }
  }

  /** One answered batch, then the rest: its prompt goes first in the log. */
  lemma BatchedLogStep(prompts: DefinitionBuilders, tape: Tape, decode: Decoder, log: seq<string>, promptType: string, chunks: seq<seq<string>>)
    requires |chunks| > 0
    requires tape(|log|).Success? && decode(CleanJsonReply(tape(|log|).value)).Some?
    ensures DefinitionsChunks(prompts, tape, decode, log, promptType, chunks).log
            == DefinitionsChunks(prompts, tape, decode, log + [prompts.batchDefinition(chunks[0], promptType)], promptType, chunks[1..]).log
  {
    BatchAnswered(prompts, tape, decode, log, promptType, chunks[0]);
  }

  lemma BatchPromptsCons(prompts: DefinitionBuilders, promptType: string, chunks: seq<seq<string>>)
    requires |chunks| > 0
    ensures BatchPrompts(prompts, promptType, chunks)
            == [prompts.batchDefinition(chunks[0], promptType)] + BatchPrompts(prompts, promptType, chunks[1..])
  {
  }

  lemma LogGlue(log: seq<string>, prompt: string, rest: seq<string>, sent: seq<string>)
    requires sent == [prompt] + rest
    ensures log + [prompt] + rest == log + sent
  {
  }

  lemma {:induction false} ChunksBatchedRecords(prompts: DefinitionBuilders, tape: Tape, decode: Decoder, log: seq<string>, promptType: string, chunks: seq<seq<string>>)
    requires forall n :: tape(n).Success?
    requires forall s :: decode(s).Some?
    ensures DefinitionsChunks(prompts, tape, decode, log, promptType, chunks).records == Answers(tape, decode, |log|, |chunks|)
    decreases |chunks|
  {
    if |chunks| > 0 {
      var log' := log + [prompts.batchDefinition(chunks[0], promptType)];
      assert tape(|log|).Success? && decode(CleanJsonReply(tape(|log|).value)).Some?;
      BatchedStep(prompts, tape, decode, log, promptType, chunks);
      ChunksBatchedRecords(prompts, tape, decode, log', promptType, chunks[1..]);
    }
  }

  /** One answered batch, then the rest. */
  lemma BatchedStep(prompts: DefinitionBuilders, tape: Tape, decode: Decoder, log: seq<string>, promptType: string, chunks: seq<seq<string>>)
    requires |chunks| > 0
    requires tape(|log|).Success? && decode(CleanJsonReply(tape(|log|).value)).Some?
    ensures var log' := log + [prompts.batchDefinition(chunks[0], promptType)];
            && DefinitionsChunks(prompts, tape, decode, log, promptType, chunks).records
               == decode(CleanJsonReply(tape(|log|).value)).value
                  + DefinitionsChunks(prompts, tape, decode, log', promptType, chunks[1..]).records
            && Answers(tape, decode, |log|, |chunks|)
               == decode(CleanJsonReply(tape(|log|).value)).value + Answers(tape, decode, |log'|, |chunks| - 1)
  {
    BatchAnswered(prompts, tape, decode, log, promptType, chunks[0]);
  }

  /** When every batch call is answered with a JSON array, the run makes one
      call per batch, sends the batch prompts in order, and returns the
      decoded arrays concatenated as they are, whatever their length. */
  lemma AllBatched(prompts: DefinitionBuilders, tape: Tape, decode: Decoder, batchSize: nat, promptType: string, keywords: seq<string>)
    requires batchSize >= 1
    requires forall n :: tape(n).Success?
    requires forall s :: decode(s).Some?
    ensures GenerateDefinitions(prompts, tape, decode, batchSize, promptType, keywords).log
            == BatchPrompts(prompts, promptType, Chunks(keywords, batchSize))
    ensures GenerateDefinitions(prompts, tape, decode, batchSize, promptType, keywords).records
            == Answers(tape, decode, 0, NumChunks(|keywords|, batchSize))
  {
    if |keywords| > 0 {
      ChunksBatchedLog(prompts, tape, decode, [], promptType, Chunks(keywords, batchSize));
      ChunksBatchedRecords(prompts, tape, decode, [], promptType, Chunks(keywords, batchSize));
    }
  }

  // ---------------------------------------------------------------------------
  // A single keyword answered in the requested shape

  /** A keyword whose call is answered in the `Keyword:` / `Definition:`
      shape gets exactly the answered keyword and definition. */
  lemma SingleDefinitionAnswer(prompts: DefinitionBuilders, tape: Tape, log: seq<string>, promptType: string, keyword: string, k: string, d: string)
    requires prompts.single(promptType, keyword).Success?
    requires k != [] && NoEdge(k, Whitespace) && '\n' !in k
    requires d != [] && NoEdge(d, Whitespace) && '\n' !in d
    requires tape(|log|) == Success(Answer(k, d))
    ensures SingleDefinition(prompts, tape, log, promptType, keyword).0 == CardRecord(Card(k, d))
    ensures |SingleDefinition(prompts, tape, log, promptType, keyword).1| == |log| + 1
  {
    AnswerRoundTrip(k, d, keyword);
  }
}
