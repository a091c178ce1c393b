/** The algorithm-problem workflow (`generate_algorithm_problems` in
    services/gemini_handler.py). Phase one maps every problem description
    to a generated keyword, batch by batch, redoing a failed batch one
    description at a time. Phase two turns the (keyword, description) pairs
    of that mapping, in its order, into flashcard rows the same way the
    definitions workflow does. */
module AlgorithmProblems {
  import opened Wrappers
  import opened Text
  import opened OrderedMaps
  import opened Chunking
  import opened ResponseParsing
  import opened Calls

  // ---------------------------------------------------------------------------
  // Phase one: keywords for descriptions

  /** `_generate_algorithm_keyword` under the fallback's handler: the keyword
      for one description, and the prompts sent. A failed call maps the
      description to itself. */
  function SingleKeyword(prompts: ProblemBuilders, tape: Tape, log: seq<string>, description: string): (string, seq<string>) {
    (KeywordFor(tape(|log|), description), log + [prompts.keywordGeneration(description)])
  }

  /** The keyword a description gets from the outcome of its own call: the
      cleaned reply, or the description itself when the call raised. */
  function KeywordFor(outcome: Result<string, string>, description: string): string {
    match outcome
    case Failure(_) => description
    case Success(reply) => KeywordFromReply(reply)
  }

  /** The individual processing of a batch of descriptions: each one is
      assigned a keyword, in order, at the cost of one call each. A
      description that occurs more than once keeps the keyword of its last
      call; every other entry is left as it was. */
  function KeywordsFallback(prompts: ProblemBuilders, tape: Tape, mapping: OrderedMap<string>, log: seq<string>, batch: seq<string>)
    : (r: (OrderedMap<string>, seq<string>))
    ensures Keys(r.0) == AddKeys(Keys(mapping), batch)
    ensures Valid(mapping) ==> Valid(r.0)
    ensures |r.1| == |log| + |batch|
    decreases |batch|
  {
    if |batch| == 0 then (mapping, log)
    else
      var keyword := KeywordFor(tape(|log|), batch[0]);
      var log' := log + [prompts.keywordGeneration(batch[0])];
      var mapping' := Put(mapping, batch[0], keyword);
      PutValid(mapping, batch[0], keyword);
      KeywordsFallback(prompts, tape, mapping', log', batch[1..])
  }

  /** The keywords the individual calls of a batch produce, the first call
      being number `start`. */
  function FallbackKeywords(tape: Tape, start: nat, batch: seq<string>): seq<string> {
    seq(|batch|, i requires 0 <= i < |batch| => KeywordFor(tape(start + i), batch[i]))
  }

  /** The individual processing assigns, in batch order, the keyword of each
      description's own call. */
  lemma {:induction false} FallbackAssigns(prompts: ProblemBuilders, tape: Tape, mapping: OrderedMap<string>, log: seq<string>, batch: seq<string>,
                                           start: nat)
    requires start == |log|
    ensures KeywordsFallback(prompts, tape, mapping, log, batch).0 == PutAll(mapping, batch, FallbackKeywords(tape, start, batch))
    decreases |batch|
  {
    if |batch| > 0 {
      var next := start + 1;
      FallbackUnfold(prompts, tape, mapping, log, batch);
      FallbackAssigns(prompts, tape, Put(mapping, batch[0], KeywordFor(tape(start), batch[0])),
                      log + [prompts.keywordGeneration(batch[0])], batch[1..], next);
      KeywordsShift(tape, start, next, batch);
    }
  }

  lemma {:induction false} FallbackUnfold(prompts: ProblemBuilders, tape: Tape, mapping: OrderedMap<string>, log: seq<string>, batch: seq<string>)
    requires |batch| > 0
    ensures KeywordsFallback(prompts, tape, mapping, log, batch)
         == KeywordsFallback(prompts, tape, Put(mapping, batch[0], KeywordFor(tape(|log|), batch[0])),
                             log + [prompts.keywordGeneration(batch[0])], batch[1..])
  {
  }

  lemma {:induction false} KeywordsShift(tape: Tape, start: nat, next: nat, batch: seq<string>)
    requires |batch| > 0 && next == start + 1
    ensures FallbackKeywords(tape, start, batch)[0] == KeywordFor(tape(start), batch[0])
    ensures FallbackKeywords(tape, start, batch)[1..] == FallbackKeywords(tape, next, batch[1..])
  {
    var vs, ws := FallbackKeywords(tape, start, batch), FallbackKeywords(tape, next, batch[1..]);
    forall i | 0 <= i < |ws|
      ensures vs[1..][i] == ws[i]
    {
      assert start + (i + 1) == next + i;
    }
  }

  /** The value each description ends up with after the individual
      processing: the keyword of the call for its last occurrence in the
      batch; every other entry is left as it was. The first call is number
      `start`. */
  lemma {:induction false} FallbackValues(prompts: ProblemBuilders, tape: Tape, mapping: OrderedMap<string>, log: seq<string>, batch: seq<string>,
                       start: nat, d: string)
    requires start == |log|
    ensures Get(KeywordsFallback(prompts, tape, mapping, log, batch).0, d)
            == if d in batch then Some(KeywordFor(tape(start + LastIndexOf(batch, d)), d)) else Get(mapping, d)
  {
    FallbackAssigns(prompts, tape, mapping, log, batch, start);
    GetPutAll(mapping, batch, FallbackKeywords(tape, start, batch), d);
    AssignedValue(tape, mapping, batch, start, d, Get(KeywordsFallback(prompts, tape, mapping, log, batch).0, d));
  }

  /** The assigned keyword of a description, read back from the calls. */
  lemma {:induction false} AssignedValue(tape: Tape, mapping: OrderedMap<string>, batch: seq<string>, start: nat, d: string, got: Option<string>)
    requires got == if d in batch then Some(FallbackKeywords(tape, start, batch)[LastIndexOf(batch, d)]) else Get(mapping, d)
    ensures got == if d in batch then Some(KeywordFor(tape(start + LastIndexOf(batch, d)), d)) else Get(mapping, d)
  {
    if d in batch {
      KeywordAt(tape, start, batch, LastIndexOf(batch, d));
    }
  }

  lemma {:induction false} KeywordAt(tape: Tape, start: nat, batch: seq<string>, i: nat)
    requires i < |batch|
    ensures FallbackKeywords(tape, start, batch)[i] == KeywordFor(tape(start + i), batch[i])
  {
  }

  /** The loop over a decoded keyword array: an object whose `description`
      and `keyword` are both non-empty is recorded; the first element that is
      not an object raises (the second component is then false), keeping what
      was recorded before it. */
  function InsertReturned(mapping: OrderedMap<string>, records: seq<Record>): (r: (OrderedMap<string>, bool))
    ensures Valid(mapping) ==> Valid(r.0)
    ensures r.1 <==> forall i :: 0 <= i < |records| ==> records[i].Object?
    decreases |records|
  {
    if |records| == 0 then (mapping, true)
    else match records[0]
      case NonObject => (mapping, false)
      case Object(fields) =>
        var description := Field(fields, "description");
        var keyword := Field(fields, "keyword");
        PutValid(mapping, description, keyword);
        var mapping' := if description != "" && keyword != "" then Put(mapping, description, keyword) else mapping;
        var rest := InsertReturned(mapping', records[1..]);
        assert forall i :: 1 <= i < |records| ==> records[i] == records[1..][i - 1];
        rest
  }

  /** One iteration of the keyword batch loop. */
  function KeywordsBatch(prompts: ProblemBuilders, tape: Tape, decode: Decoder, mapping: OrderedMap<string>, log: seq<string>, batch: seq<string>)
    : (OrderedMap<string>, seq<string>)
  {
    var log' := log + [prompts.batchKeyword(batch)];
    match BatchCall(tape, decode, log)
    case None => KeywordsFallback(prompts, tape, mapping, log', batch)
    case Some(records) =>
      var inserted := InsertReturned(mapping, records);
      if inserted.1 then (inserted.0, log') else KeywordsFallback(prompts, tape, inserted.0, log', batch)
  }

  function KeywordsChunks(prompts: ProblemBuilders, tape: Tape, decode: Decoder, mapping: OrderedMap<string>, log: seq<string>, chunks: seq<seq<string>>)
    : (r: (OrderedMap<string>, seq<string>))
    ensures Valid(mapping) ==> Valid(r.0)
    decreases |chunks|
  {
    if |chunks| == 0 then (mapping, log)
    else
      var first := KeywordsBatch(prompts, tape, decode, mapping, log, chunks[0]);
      KeywordsChunks(prompts, tape, decode, first.0, first.1, chunks[1..])
  }

  /** `_generate_keywords_batch`: the description-to-keyword dict, and the
      prompts sent. */
  function KeywordMapping(prompts: ProblemBuilders, tape: Tape, decode: Decoder, batchSize: nat, descriptions: seq<string>)
    : (r: (OrderedMap<string>, seq<string>))
    requires batchSize >= 1
    ensures Valid(r.0)
  {
    KeywordsChunks(prompts, tape, decode, [], [], Chunks(descriptions, batchSize))
  }

  // ---------------------------------------------------------------------------
  // Phase two: rows for (keyword, description) pairs

  /** The row recorded for a problem that failed. */
  const ContentErrorPrefix: string := "Error generating content: "

  /** `(keyword, description)` for every entry of the mapping, in its order. */
  function Pairs(mapping: OrderedMap<string>): seq<(string, string)> {
    seq(|mapping|, i requires 0 <= i < |mapping| => (mapping[i].1, mapping[i].0))
  }

  /** The row recorded for a pair whose keyword is `keyword`, given the
      outcome of its call: the parsed card, or the content error. */
  function ProblemRow(outcome: Result<string, string>, keyword: string): Record {
    match outcome
    case Failure(message) => CardRecord(Card(keyword, ContentErrorPrefix + message))
    case Success(reply) =>
      var parsed := ParseKeywordDefinition(Strip(reply), keyword);
      CardRecord(Card(parsed.0, parsed.1))
  }

  /** The individual processing of one pair. */
  function SingleProblem(prompts: ProblemBuilders, tape: Tape, log: seq<string>, pair: (string, string)): (Record, seq<string>) {
    (ProblemRow(tape(|log|), pair.0), log + [prompts.withDescription(pair.0, pair.1)])
  }

  function ProblemsFallback(prompts: ProblemBuilders, tape: Tape, log: seq<string>, batch: seq<(string, string)>): (r: Run)
    ensures |r.records| == |batch|
    ensures |r.log| == |log| + |batch|
    decreases |batch|
  {
    if |batch| == 0 then Run([], log)
    else
      var first := SingleProblem(prompts, tape, log, batch[0]);
      var rest := ProblemsFallback(prompts, tape, first.1, batch[1..]);
      Run([first.0] + rest.records, rest.log)
  }

  function ProblemsBatch(prompts: ProblemBuilders, tape: Tape, decode: Decoder, log: seq<string>, batch: seq<(string, string)>): Run {
    var prompt := prompts.batchWithDescription(batch);
    match BatchCall(tape, decode, log)
    case Some(records) => Run(records, log + [prompt])
    case None => ProblemsFallback(prompts, tape, log + [prompt], batch)
  }

  function ProblemsChunks(prompts: ProblemBuilders, tape: Tape, decode: Decoder, log: seq<string>, chunks: seq<seq<(string, string)>>): Run
    decreases |chunks|
  {
    if |chunks| == 0 then Run([], log)
    else
      var first := ProblemsBatch(prompts, tape, decode, log, chunks[0]);
      var rest := ProblemsChunks(prompts, tape, decode, first.log, chunks[1..]);
      Run(first.records + rest.records, rest.log)
  }

  /** `generate_algorithm_problems`: no descriptions means no call and no
      row; otherwise phase two continues the calls of phase one. */
  function GenerateAlgorithmProblems(prompts: ProblemBuilders, tape: Tape, decode: Decoder, batchSize: nat, descriptions: seq<string>): (r: Run)
    requires batchSize >= 1
    ensures descriptions == [] ==> r == Run([], [])
  {
    if |descriptions| == 0 then Run([], [])
    else
      var phase1 := KeywordMapping(prompts, tape, decode, batchSize, descriptions);
      ProblemsChunks(prompts, tape, decode, phase1.1, Chunks(Pairs(phase1.0), batchSize))
  }

  // ---------------------------------------------------------------------------
  // What a decoded keyword array does to the mapping

  /** `record` is an object answering `description` with `keyword`, both
      non-empty. */
  predicate Answered(record: Record, description: string, keyword: string) {
    && record.Object?
    && Field(record.fields, "description") == description && description != ""
    && Field(record.fields, "keyword") == keyword && keyword != ""
  }

  /** The mapping changes only where the array answers: every entry that the
      loop adds or replaces is a description answered, with that keyword, by
      some object of the array. */
  lemma {:induction false} InsertReturnedChanges(mapping: OrderedMap<string>, records: seq<Record>)
    ensures forall k :: Get(InsertReturned(mapping, records).0, k) != Get(mapping, k) ==>
              Get(InsertReturned(mapping, records).0, k).Some?
              && exists i :: 0 <= i < |records| && Answered(records[i], k, Get(InsertReturned(mapping, records).0, k).value)
    decreases |records|
  {
    if |records| > 0 && records[0].Object? {
      var fields := records[0].fields;
      var description := Field(fields, "description");
      var keyword := Field(fields, "keyword");
      var mapping' := if description != "" && keyword != "" then Put(mapping, description, keyword) else mapping;
      var r := InsertReturned(mapping, records).0;
      assert r == InsertReturned(mapping', records[1..]).0;
      InsertReturnedChanges(mapping', records[1..]);
      forall k | Get(r, k) != Get(mapping, k)
        ensures Get(r, k).Some? && exists i :: 0 <= i < |records| && Answered(records[i], k, Get(r, k).value)
      {
        if Get(r, k) != Get(mapping', k) {
          var i :| 0 <= i < |records[1..]| && Answered(records[1..][i], k, Get(r, k).value);
          assert records[1..][i] == records[i + 1];
        } else {
          assert Answered(records[0], k, Get(r, k).value);
        }
      }
    }
  }

  /** An element that is not an object stops the loop: what the objects
      before it recorded is kept, and nothing after it is looked at. */
  lemma {:induction false} InsertStopsAtNonObject(mapping: OrderedMap<string>, objects: seq<Record>, rest: seq<Record>)
    requires forall i :: 0 <= i < |objects| ==> objects[i].Object?
    ensures InsertReturned(mapping, objects + [NonObject] + rest) == (InsertReturned(mapping, objects).0, false)
    decreases |objects|
  {
    var records := objects + [NonObject] + rest;
    if |objects| == 0 {
      assert records[0] == NonObject;
    } else {
      var fields := objects[0].fields;
      var description := Field(fields, "description");
      var keyword := Field(fields, "keyword");
      var mapping' := if description != "" && keyword != "" then Put(mapping, description, keyword) else mapping;
      assert records[0] == objects[0];
      assert records[1..] == objects[1..] + [NonObject] + rest;
      InsertStopsAtNonObject(mapping', objects[1..], rest);
    }
  }

  /** The number of leading elements that are objects: how far the loop over
      a decoded array gets before it raises. */
  function ObjectRun(records: seq<Record>): (n: nat)
    ensures n <= |records|
    ensures forall i :: 0 <= i < n ==> records[i].Object?
    ensures n < |records| ==> records[n].NonObject?
    decreases |records|
  {
    if |records| == 0 || records[0].NonObject? then 0
    else
      var n := ObjectRun(records[1..]);
      assert forall i :: 1 <= i < n + 1 ==> records[i] == records[1..][i - 1];
      n + 1
  }

  /** `record` is an object that the loop would record under `description`. */
  predicate AnswersDescription(record: Record, description: string) {
    record.Object? && Field(record.fields, "description") == description && Field(record.fields, "keyword") != ""
  }

  /** One iteration of the loop over an object. */
  lemma {:induction false} InsertStep(mapping: OrderedMap<string>, records: seq<Record>)
    requires |records| > 0 && records[0].Object?
    ensures var d := Field(records[0].fields, "description");
            var keyword := Field(records[0].fields, "keyword");
            InsertReturned(mapping, records).0
            == InsertReturned(if d != "" && keyword != "" then Put(mapping, d, keyword) else mapping, records[1..]).0
  {
  }

  /** Where no object before the first non-object answers a description, its
      entry is left as it was. */
  lemma {:induction false} InsertReturnedUnanswered(mapping: OrderedMap<string>, records: seq<Record>, description: string)
    requires forall j :: 0 <= j < ObjectRun(records) ==> !AnswersDescription(records[j], description)
    ensures Get(InsertReturned(mapping, records).0, description) == Get(mapping, description)
    decreases |records|
  {
    if |records| > 0 && records[0].Object? {
      var fields := records[0].fields;
      var d := Field(fields, "description");
      var keyword := Field(fields, "keyword");
      var mapping' := if d != "" && keyword != "" then Put(mapping, d, keyword) else mapping;
      InsertStep(mapping, records);
      assert !AnswersDescription(records[0], description);
      forall j | 0 <= j < ObjectRun(records[1..])
        ensures !AnswersDescription(records[1..][j], description)
      {
        assert records[1..][j] == records[j + 1];
      }
      InsertReturnedUnanswered(mapping', records[1..], description);
    }
  }

  /** Every object before the first non-object that answers a non-empty
      description with a non-empty keyword is recorded, and among several
      answers to one description the last one stands. */
  lemma {:induction false} InsertReturnedAnswered(mapping: OrderedMap<string>, records: seq<Record>, i: nat)
    requires i < ObjectRun(records)
    requires Answered(records[i], Field(records[i].fields, "description"), Field(records[i].fields, "keyword"))
    requires forall j :: i < j < ObjectRun(records) ==> !AnswersDescription(records[j], Field(records[i].fields, "description"))
    ensures Get(InsertReturned(mapping, records).0, Field(records[i].fields, "description"))
            == Some(Field(records[i].fields, "keyword"))
    decreases i
  {
    if i == 0 {
      RestUnanswered(records, i, Field(records[i].fields, "description"));
      InsertAnsweredHead(mapping, records);
    } else {
      var mapping' := Recorded(mapping, records[0]);
      AnsweredShift(records, i);
      InsertReturnedAnswered(mapping', records[1..], i - 1);
      InsertStepRecorded(mapping, records);
    }
  }

  /** The mapping after the loop has passed over one object. */
  function Recorded(mapping: OrderedMap<string>, record: Record): OrderedMap<string>
    requires record.Object?
  {
    var d := Field(record.fields, "description");
    var keyword := Field(record.fields, "keyword");
    if d != "" && keyword != "" then Put(mapping, d, keyword) else mapping
  }

  /** `InsertStep`, with the mapping after the first object named. */
  lemma InsertStepRecorded(mapping: OrderedMap<string>, records: seq<Record>)
    requires |records| > 0 && records[0].Object?
    ensures InsertReturned(mapping, records).0 == InsertReturned(Recorded(mapping, records[0]), records[1..]).0
  {
    InsertStep(mapping, records);
  }

  /** The hypotheses of `InsertReturnedAnswered` at index `i` are its
      hypotheses at index `i - 1` of the records after the first. */
  lemma AnsweredShift(records: seq<Record>, i: nat)
    requires 0 < i < ObjectRun(records)
    requires Answered(records[i], Field(records[i].fields, "description"), Field(records[i].fields, "keyword"))
    requires forall j :: i < j < ObjectRun(records) ==> !AnswersDescription(records[j], Field(records[i].fields, "description"))
    ensures records[0].Object? && records[1..][i - 1] == records[i]
    ensures i - 1 < ObjectRun(records[1..])
    ensures Answered(records[1..][i - 1], Field(records[1..][i - 1].fields, "description"), Field(records[1..][i - 1].fields, "keyword"))
    ensures forall j :: i - 1 < j < ObjectRun(records[1..]) ==> !AnswersDescription(records[1..][j], Field(records[1..][i - 1].fields, "description"))
  {
    assert records[1..][i - 1] == records[i];
    RestUnanswered(records, i, Field(records[i].fields, "description"));
  }

  /** The first object answers its description when no later object before
      the first non-object does. */
  lemma InsertAnsweredHead(mapping: OrderedMap<string>, records: seq<Record>)
    requires 0 < ObjectRun(records)
    requires Answered(records[0], Field(records[0].fields, "description"), Field(records[0].fields, "keyword"))
    requires forall j :: 0 <= j < ObjectRun(records[1..]) ==> !AnswersDescription(records[1..][j], Field(records[0].fields, "description"))
    ensures Get(InsertReturned(mapping, records).0, Field(records[0].fields, "description"))
            == Some(Field(records[0].fields, "keyword"))
  {
    var d := Field(records[0].fields, "description");
    var keyword := Field(records[0].fields, "keyword");
    InsertStep(mapping, records);
    InsertReturnedUnanswered(Put(mapping, d, keyword), records[1..], d);
  }

  /** No object after index `i` answers `target` in the records, so none
      from index `i` on does in the records after the first. */
  lemma RestUnanswered(records: seq<Record>, i: nat, target: string)
    requires i < ObjectRun(records)
    requires forall j :: i < j < ObjectRun(records) ==> !AnswersDescription(records[j], target)
    ensures forall j :: i <= j < ObjectRun(records[1..]) ==> !AnswersDescription(records[1..][j], target)
  {
    forall j | i <= j < ObjectRun(records[1..])
      ensures !AnswersDescription(records[1..][j], target)
    {
      assert records[1..][j] == records[j + 1];
    }
  }

  // ---------------------------------------------------------------------------
  // When every call fails

  /** Every description is its own keyword. */
  predicate SelfMapped(mapping: OrderedMap<string>) {
    forall i :: 0 <= i < |mapping| ==> mapping[i].1 == mapping[i].0
  }

  lemma {:induction false} PutSelf(mapping: OrderedMap<string>, description: string)
    requires SelfMapped(mapping)
    ensures SelfMapped(Put(mapping, description, description))
    decreases |mapping|
  {
    if |mapping| > 0 && mapping[0].0 != description {
      PutSelf(mapping[1..], description);
    }
  }

  lemma {:induction false} KeywordsFallbackAllFail(prompts: ProblemBuilders, tape: Tape, mapping: OrderedMap<string>, log: seq<string>, batch: seq<string>)
    requires forall n :: tape(n).Failure?
    requires SelfMapped(mapping)
    ensures SelfMapped(KeywordsFallback(prompts, tape, mapping, log, batch).0)
    decreases |batch|
  {
    if |batch| > 0 {
      var first := SingleKeyword(prompts, tape, log, batch[0]);
      PutSelf(mapping, batch[0]);
      KeywordsFallbackAllFail(prompts, tape, Put(mapping, batch[0], first.0), first.1, batch[1..]);
    }
  }

  lemma {:induction false} KeywordsChunksAllFail(prompts: ProblemBuilders, tape: Tape, decode: Decoder, mapping: OrderedMap<string>, log: seq<string>,
                                                 chunks: seq<seq<string>>)
    requires forall n :: tape(n).Failure?
    requires SelfMapped(mapping)
    ensures SelfMapped(KeywordsChunks(prompts, tape, decode, mapping, log, chunks).0)
    ensures Keys(KeywordsChunks(prompts, tape, decode, mapping, log, chunks).0) == AddKeys(Keys(mapping), Flatten(chunks))
    ensures |KeywordsChunks(prompts, tape, decode, mapping, log, chunks).1| == |log| + |chunks| + |Flatten(chunks)|
    decreases |chunks|
  {
    if |chunks| > 0 {
      var log' := log + [prompts.batchKeyword(chunks[0])];
      var first := KeywordsBatch(prompts, tape, decode, mapping, log, chunks[0]);
      assert first == KeywordsFallback(prompts, tape, mapping, log', chunks[0]);
      KeywordsFallbackAllFail(prompts, tape, mapping, log', chunks[0]);
      KeywordsChunksAllFail(prompts, tape, decode, first.0, first.1, chunks[1..]);
      AddKeysAppend(Keys(mapping), chunks[0], Flatten(chunks[1..]));
    }
  }

  /** When the service is down, phase one maps every distinct description to
      itself, in order of first occurrence, with one call per batch and one
      per description. */
  lemma KeywordMappingAllFail(prompts: ProblemBuilders, tape: Tape, decode: Decoder, batchSize: nat, descriptions: seq<string>)
    requires batchSize >= 1
    requires forall n :: tape(n).Failure?
    ensures SelfMapped(KeywordMapping(prompts, tape, decode, batchSize, descriptions).0)
    ensures Keys(KeywordMapping(prompts, tape, decode, batchSize, descriptions).0) == Distinct(descriptions)
    ensures |KeywordMapping(prompts, tape, decode, batchSize, descriptions).1| == NumChunks(|descriptions|, batchSize) + |descriptions|
  {
    KeywordsChunksAllFail(prompts, tape, decode, [], [], Chunks(descriptions, batchSize));
    FlattenChunks(descriptions, batchSize);
  }

  lemma {:induction false} KeywordsChunksUndecoded(prompts: ProblemBuilders, tape: Tape, decode: Decoder, mapping: OrderedMap<string>, log: seq<string>,
                                                   descriptions: seq<string>, batchSize: nat, start: nat, d: string)
    requires batchSize >= 1 && start == |log|
    requires NeverDecodes(decode)
    ensures Get(KeywordsChunks(prompts, tape, decode, mapping, log, Chunks(descriptions, batchSize)).0, d)
            == if d in descriptions then Some(KeywordFor(tape(FallbackCall(start, LastIndexOf(descriptions, d), batchSize)), d))
               else Get(mapping, d)
    decreases |descriptions|
  {
    if |descriptions| == 0 {
      NoChunks(descriptions, batchSize);
    } else {
      var head, tail := ChunksStep(prompts, tape, decode, mapping, log, descriptions, batchSize);
      UndecodedBatch(tape, decode, log);
      var next := start + 1;
      var after := next + |head|;
      BatchUndecoded(prompts, tape, decode, mapping, log, head, next, d);
      var first := KeywordsBatch(prompts, tape, decode, mapping, log, head);
      KeywordsChunksUndecoded(prompts, tape, decode, first.0, first.1, tail, batchSize, after, d);
      UndecodedStep(tape, mapping, first.0, KeywordsChunks(prompts, tape, decode, first.0, first.1, Chunks(tail, batchSize)).0,
                    start, next, after, descriptions, head, tail, batchSize, d);
    }
  }

  /** The keyword loop over the batches of a non-empty list: the first batch,
      then the loop over the batches of the rest. */
  lemma {:induction false} ChunksStep(prompts: ProblemBuilders, tape: Tape, decode: Decoder, mapping: OrderedMap<string>, log: seq<string>,
                                      descriptions: seq<string>, batchSize: nat)
    returns (head: seq<string>, tail: seq<string>)
    requires batchSize >= 1 && |descriptions| > 0
    ensures descriptions == head + tail && 1 <= |head| <= batchSize && (tail != [] ==> |head| == batchSize)
    ensures KeywordsChunks(prompts, tape, decode, mapping, log, Chunks(descriptions, batchSize))
         == KeywordsChunks(prompts, tape, decode, KeywordsBatch(prompts, tape, decode, mapping, log, head).0,
                           KeywordsBatch(prompts, tape, decode, mapping, log, head).1, Chunks(tail, batchSize))
  {
    var m := Min(batchSize, |descriptions|);
    head, tail := descriptions[..m], descriptions[m..];
    ChunksUnfold(descriptions, batchSize);
    assert descriptions == head + tail;
    ChunksRunUnfold(prompts, tape, decode, mapping, log, head, Chunks(tail, batchSize));
  }

  lemma {:induction false} ChunksRunUnfold(prompts: ProblemBuilders, tape: Tape, decode: Decoder, mapping: OrderedMap<string>, log: seq<string>,
                        chunk: seq<string>, chunks: seq<seq<string>>)
    ensures KeywordsChunks(prompts, tape, decode, mapping, log, [chunk] + chunks)
         == KeywordsChunks(prompts, tape, decode, KeywordsBatch(prompts, tape, decode, mapping, log, chunk).0,
                           KeywordsBatch(prompts, tape, decode, mapping, log, chunk).1, chunks)
  {
    assert ([chunk] + chunks)[1..] == chunks;
  }

  /** A batch whose reply cannot be used: one batch call, then the
      individual processing of every description. */
  lemma {:induction false} BatchUndecoded(prompts: ProblemBuilders, tape: Tape, decode: Decoder, mapping: OrderedMap<string>, log: seq<string>, batch: seq<string>,
                       next: nat, d: string)
    requires BatchCall(tape, decode, log) == None
    requires next == |log| + 1
    ensures |KeywordsBatch(prompts, tape, decode, mapping, log, batch).1| == next + |batch|
    ensures Get(KeywordsBatch(prompts, tape, decode, mapping, log, batch).0, d)
            == if d in batch then Some(KeywordFor(tape(next + LastIndexOf(batch, d)), d)) else Get(mapping, d)
  {
    var log' := log + [prompts.batchKeyword(batch)];
    assert KeywordsBatch(prompts, tape, decode, mapping, log, batch) == KeywordsFallback(prompts, tape, mapping, log', batch);
    FallbackValues(prompts, tape, mapping, log', batch, next, d);
  }

  /** One batch of the undecoded run: the call index of a description in the
      remaining batches, seen from before the current one. */
  lemma {:induction false} UndecodedStep(tape: Tape, mapping: OrderedMap<string>, first: OrderedMap<string>, rest: OrderedMap<string>,
                      start: nat, next: nat, after: nat, descriptions: seq<string>, head: seq<string>, tail: seq<string>,
                      batchSize: nat, d: string)
    requires batchSize >= 1 && 1 <= |head| <= batchSize && (tail != [] ==> |head| == batchSize)
    requires descriptions == head + tail && next == start + 1 && after == next + |head|
    requires Get(first, d) == if d in head then Some(KeywordFor(tape(next + LastIndexOf(head, d)), d)) else Get(mapping, d)
    requires Get(rest, d) == if d in tail then Some(KeywordFor(tape(FallbackCall(after, LastIndexOf(tail, d), batchSize)), d))
                             else Get(first, d)
    ensures Get(rest, d) == if d in descriptions then Some(KeywordFor(tape(FallbackCall(start, LastIndexOf(descriptions, d), batchSize)), d))
                            else Get(mapping, d)
  {
    if d in descriptions {
      CallSplit(start, next, after, head, tail, batchSize, d);
    } else {
      assert d !in head && d !in tail;
    }
  }

  /** Where the call for a description falls, from where it falls within
      the current batch or the remaining ones. */
  lemma {:induction false} CallSplit(start: nat, next: nat, after: nat, head: seq<string>, tail: seq<string>, batchSize: nat, d: string)
    requires batchSize >= 1 && 1 <= |head| <= batchSize && (tail != [] ==> |head| == batchSize)
    requires next == start + 1 && after == next + |head| && d in head + tail
    ensures d in tail ==> FallbackCall(start, LastIndexOf(head + tail, d), batchSize) == FallbackCall(after, LastIndexOf(tail, d), batchSize)
    ensures d !in tail ==> d in head && FallbackCall(start, LastIndexOf(head + tail, d), batchSize) == next + LastIndexOf(head, d)
  {
    LastIndexOfAppend(head, tail, d);
    var j := LastIndexOf(head + tail, d);
    if d in tail {
      assert j == LastIndexOf(tail, d) + batchSize;
    } else {
      assert j < batchSize;
    }
  }

  /** When no batch reply can be used, every description is mapped to the
      keyword of the individual call for its last occurrence, or to itself
      when that call raised; that call is `FallbackCall(0, i, batchSize)` for
      the description at index `i`. */
  lemma {:induction false} KeywordMappingUndecoded(prompts: ProblemBuilders, tape: Tape, decode: Decoder, batchSize: nat, descriptions: seq<string>, d: string)
    requires batchSize >= 1
    requires NeverDecodes(decode)
    ensures Get(KeywordMapping(prompts, tape, decode, batchSize, descriptions).0, d)
            == if d in descriptions then Some(KeywordFor(tape(FallbackCall(0, LastIndexOf(descriptions, d), batchSize)), d))
               else None
  {
    KeywordsChunksUndecoded(prompts, tape, decode, [], [], descriptions, batchSize, 0, d);
  }

  /** The keywords of a list of pairs. */
  function Firsts(pairs: seq<(string, string)>): seq<string> {
    seq(|pairs|, i requires 0 <= i < |pairs| => pairs[i].0)
  }

  lemma FirstsAppend(a: seq<(string, string)>, b: seq<(string, string)>)
    ensures Firsts(a + b) == Firsts(a) + Firsts(b)
  {
  }

  lemma {:induction false} ProblemsFallbackAllFail(prompts: ProblemBuilders, tape: Tape, log: seq<string>, batch: seq<(string, string)>)
    requires forall n :: tape(n).Failure?
    ensures ErrorRows(ProblemsFallback(prompts, tape, log, batch).records, Firsts(batch), ContentErrorPrefix)
    decreases |batch|
  {
    if |batch| > 0 {
      var first := SingleProblem(prompts, tape, log, batch[0]);
      ErrorCard(batch[0].0, ContentErrorPrefix, tape(|log|).error);
      ProblemsFallbackAllFail(prompts, tape, first.1, batch[1..]);
      ErrorRowsCons(first.0, batch[0].0, ProblemsFallback(prompts, tape, first.1, batch[1..]).records, Firsts(batch[1..]),
                    ContentErrorPrefix);
      assert [batch[0].0] + Firsts(batch[1..]) == Firsts(batch);
    }
  }

  lemma {:induction false} ProblemsChunksAllFail(prompts: ProblemBuilders, tape: Tape, decode: Decoder, log: seq<string>, chunks: seq<seq<(string, string)>>)
    requires forall n :: tape(n).Failure?
    ensures ErrorRows(ProblemsChunks(prompts, tape, decode, log, chunks).records, Firsts(Flatten(chunks)), ContentErrorPrefix)
    ensures |ProblemsChunks(prompts, tape, decode, log, chunks).log| == |log| + |chunks| + |Flatten(chunks)|
    decreases |chunks|
  {
    if |chunks| > 0 {
      var log' := log + [prompts.batchWithDescription(chunks[0])];
      var first := ProblemsBatch(prompts, tape, decode, log, chunks[0]);
      assert first == ProblemsFallback(prompts, tape, log', chunks[0]);
      ProblemsFallbackAllFail(prompts, tape, log', chunks[0]);
      ProblemsChunksAllFail(prompts, tape, decode, first.log, chunks[1..]);
      FirstsAppend(chunks[0], Flatten(chunks[1..]));
      ErrorRowsAppend(first.records, Firsts(chunks[0]), ProblemsChunks(prompts, tape, decode, first.log, chunks[1..]).records,
                      Firsts(Flatten(chunks[1..])), ContentErrorPrefix);
    }
  }

  /** A self-mapped mapping pairs each description with itself. */
  lemma SelfMappedFirsts(mapping: OrderedMap<string>)
    requires SelfMapped(mapping)
    ensures Firsts(Pairs(mapping)) == Keys(mapping)
  {
  }

  /** When the service is down, the output has one error row per distinct
      description, in order of first occurrence, whose keyword is the
      description itself; each phase costs one call per batch and one per
      item. */
  lemma AllCallsFail(prompts: ProblemBuilders, tape: Tape, decode: Decoder, batchSize: nat, descriptions: seq<string>)
    requires batchSize >= 1
    requires forall n :: tape(n).Failure?
    ensures ErrorRows(GenerateAlgorithmProblems(prompts, tape, decode, batchSize, descriptions).records, Distinct(descriptions),
                      ContentErrorPrefix)
    ensures |descriptions| > 0 ==>
              |GenerateAlgorithmProblems(prompts, tape, decode, batchSize, descriptions).log|
              == NumChunks(|descriptions|, batchSize) + |descriptions|
                 + NumChunks(|Distinct(descriptions)|, batchSize) + |Distinct(descriptions)|
  {
    if |descriptions| > 0 {
      var phase1 := KeywordMapping(prompts, tape, decode, batchSize, descriptions);
      KeywordMappingAllFail(prompts, tape, decode, batchSize, descriptions);
      var pairs := Pairs(phase1.0);
      ProblemsChunksAllFail(prompts, tape, decode, phase1.1, Chunks(pairs, batchSize));
      FlattenChunks(pairs, batchSize);
      SelfMappedFirsts(phase1.0);
    }
  }

  // ---------------------------------------------------------------------------
  // Batches that fall back, and answers that are ignored

  /** A keyword batch that fails (the call raises, the reply does not decode,
      or an element is not an object) still gives every one of its
      descriptions an entry, and keeps the entries made before. */
  lemma FallbackCovers(prompts: ProblemBuilders, tape: Tape, decode: Decoder, mapping: OrderedMap<string>, log: seq<string>, batch: seq<string>)
    requires BatchCall(tape, decode, log).None?
             || !InsertReturned(mapping, BatchCall(tape, decode, log).value).1
    ensures forall d :: d in batch || d in Keys(mapping) ==> d in Keys(KeywordsBatch(prompts, tape, decode, mapping, log, batch).0)
  {
    var log' := log + [prompts.batchKeyword(batch)];
    var start := if BatchCall(tape, decode, log).None? then mapping else InsertReturned(mapping, BatchCall(tape, decode, log).value).0;
    assert KeywordsBatch(prompts, tape, decode, mapping, log, batch) == KeywordsFallback(prompts, tape, start, log', batch);
    AddKeysSpec(Keys(start), batch);
    if BatchCall(tape, decode, log).Some? {
      InsertReturnedKeeps(mapping, BatchCall(tape, decode, log).value);
    }
  }

  /** The loop over a decoded array only adds entries. */
  lemma {:induction false} InsertReturnedKeeps(mapping: OrderedMap<string>, records: seq<Record>)
    ensures forall d :: d in Keys(mapping) ==> d in Keys(InsertReturned(mapping, records).0)
    decreases |records|
  {
    if |records| > 0 && records[0].Object? {
      var fields := records[0].fields;
      var description := Field(fields, "description");
      var keyword := Field(fields, "keyword");
      var mapping' := if description != "" && keyword != "" then Put(mapping, description, keyword) else mapping;
      assert InsertReturned(mapping, records).0 == InsertReturned(mapping', records[1..]).0;
      InsertReturnedKeeps(mapping', records[1..]);
      AddKeysSpec(Keys(mapping), [description]);
    }
  }

  lemma {:induction false} KeywordsChunksEmpty(prompts: ProblemBuilders, tape: Tape, decode: Decoder, mapping: OrderedMap<string>, log: seq<string>,
                                               chunks: seq<seq<string>>)
    requires forall n :: tape(n).Success?
    requires forall text :: decode(text) == Some([])
    ensures KeywordsChunks(prompts, tape, decode, mapping, log, chunks).0 == mapping
    ensures |KeywordsChunks(prompts, tape, decode, mapping, log, chunks).1| == |log| + |chunks|
    decreases |chunks|
  {
    if |chunks| > 0 {
      var first := KeywordsBatch(prompts, tape, decode, mapping, log, chunks[0]);
      assert BatchCall(tape, decode, log) == Some([]);
      assert first == (mapping, log + [prompts.batchKeyword(chunks[0])]);
      KeywordsChunksEmpty(prompts, tape, decode, mapping, first.1, chunks[1..]);
    }
  }

  /** Descriptions the keyword batch leaves out are dropped without notice:
      when every reply is an empty array, phase one sends one prompt per
      batch and the workflow returns no row at all. */
  lemma EmptyAnswers(prompts: ProblemBuilders, tape: Tape, decode: Decoder, batchSize: nat, descriptions: seq<string>)
    requires batchSize >= 1
    requires forall n :: tape(n).Success?
    requires forall text :: decode(text) == Some([])
    ensures GenerateAlgorithmProblems(prompts, tape, decode, batchSize, descriptions).records == []
    ensures |GenerateAlgorithmProblems(prompts, tape, decode, batchSize, descriptions).log| == NumChunks(|descriptions|, batchSize)
  {
    if |descriptions| > 0 {
      KeywordsChunksEmpty(prompts, tape, decode, [], [], Chunks(descriptions, batchSize));
      var phase1 := KeywordMapping(prompts, tape, decode, batchSize, descriptions);
      assert Pairs(phase1.0) == [];
      NoChunks(Pairs(phase1.0), batchSize);
    }
  }

  // ---------------------------------------------------------------------------
  // Single calls that succeed

  /** A keyword reply quoted and padded with whitespace gives the bare
      keyword. */
  lemma SingleKeywordQuoted(prompts: ProblemBuilders, tape: Tape, log: seq<string>, description: string, pad: string, keyword: string, quote: char)
    requires forall i :: 0 <= i < |pad| ==> pad[i] in Whitespace
    requires quote in Quotes
    requires keyword != [] && NoEdge(keyword, Quotes)
    requires tape(|log|) == Success(pad + [quote] + keyword + [quote] + pad)
    ensures SingleKeyword(prompts, tape, log, description).0 == keyword
    ensures |SingleKeyword(prompts, tape, log, description).1| == |log| + 1
  {
    QuotedKeywordRoundTrip(pad, keyword, quote);
  }

  // ---------------------------------------------------------------------------
  // One pair of a failed second-phase batch

  lemma ProblemsFallbackUnfold(prompts: ProblemBuilders, tape: Tape, log: seq<string>, batch: seq<(string, string)>)
    requires |batch| > 0
    ensures ProblemsFallback(prompts, tape, log, batch).records
            == [ProblemRow(tape(|log|), batch[0].0)]
               + ProblemsFallback(prompts, tape, log + [prompts.withDescription(batch[0].0, batch[0].1)], batch[1..]).records
  {
  }

  /** `records` holds one row per pair of `batch`, row `i` made from the
      outcome of call `n + i` and pair `i`'s keyword. */
  ghost predicate RowsFrom(tape: Tape, n: nat, batch: seq<(string, string)>, records: seq<Record>) {
    |records| == |batch|
    && forall i :: 0 <= i < |batch| ==> records[i] == ProblemRow(tape(n + i), batch[i].0)
  }

  /** Row `i` of the second-phase fallback is pair `i`'s row, made from the
      outcome of the `i`-th call after those already made: every pair costs
      one call, whatever happens to the others. */
  lemma ProblemsFallbackRow(prompts: ProblemBuilders, tape: Tape, log: seq<string>, batch: seq<(string, string)>, i: nat)
    requires i < |batch|
    ensures ProblemsFallback(prompts, tape, log, batch).records[i] == ProblemRow(tape(|log| + i), batch[i].0)
  {
    ProblemsFallbackRows(prompts, tape, log, batch);
  }

  /** The whole of the second-phase fallback, row by row. */
  lemma {:induction false} ProblemsFallbackRows(prompts: ProblemBuilders, tape: Tape, log: seq<string>, batch: seq<(string, string)>)
    ensures RowsFrom(tape, |log|, batch, ProblemsFallback(prompts, tape, log, batch).records)
    decreases |batch|
  {
    if |batch| > 0 {
      var log' := log + [prompts.withDescription(batch[0].0, batch[0].1)];
      ProblemsFallbackRows(prompts, tape, log', batch[1..]);
      ProblemsFallbackUnfold(prompts, tape, log, batch);
      RowsCons(tape, |log|, |log'|, batch, ProblemsFallback(prompts, tape, log, batch).records,
               ProblemRow(tape(|log|), batch[0].0), ProblemsFallback(prompts, tape, log', batch[1..]).records);
    }
  }

  /** A row in front of the rows of the rest of a batch, one call later,
      makes the rows of the whole batch. */
  lemma RowsCons(tape: Tape, n: nat, next: nat, batch: seq<(string, string)>, records: seq<Record>, head: Record, rest: seq<Record>)
    requires |batch| > 0 && next == n + 1
    requires records == [head] + rest && head == ProblemRow(tape(n), batch[0].0)
    requires RowsFrom(tape, next, batch[1..], rest)
    ensures RowsFrom(tape, n, batch, records)
  {
    forall i | 0 <= i < |batch|
      ensures records[i] == ProblemRow(tape(n + i), batch[i].0)
    {
      RowsConsAt(tape, n, next, batch, records, head, rest, i);
    }
  }

  /** `RowsCons` at one index. */
  lemma RowsConsAt(tape: Tape, n: nat, next: nat, batch: seq<(string, string)>, records: seq<Record>, head: Record, rest: seq<Record>, i: nat)
    requires |batch| > 0 && next == n + 1 && i < |batch|
    requires records == [head] + rest && head == ProblemRow(tape(n), batch[0].0)
    requires |rest| == |batch| - 1
    requires i > 0 ==> rest[i - 1] == ProblemRow(tape(next + (i - 1)), batch[1..][i - 1].0)
    ensures records[i] == ProblemRow(tape(n + i), batch[i].0)
  {
    if i == 0 {
      ShiftedHead(records, head, rest, i);
      SameRow(tape, n, n + i, batch[0].0, batch[i].0);
    } else {
      var row := ProblemRow(tape(next + (i - 1)), batch[1..][i - 1].0);
      ShiftedRow(records, head, rest, i, row);
      SameRow(tape, next + (i - 1), n + i, batch[1..][i - 1].0, batch[i].0);
    }
  }

  /** Index 0 of a sequence with one element in front is that element. */
  lemma ShiftedHead(all: seq<Record>, head: Record, rest: seq<Record>, i: nat)
    requires all == [head] + rest && i == 0
    ensures all[i] == head
  {
  }

  /** Index `i` of a sequence with one more element in front is index
      `i - 1` of the rest. */
  lemma ShiftedRow(all: seq<Record>, head: Record, rest: seq<Record>, i: nat, row: Record)
    requires all == [head] + rest && 1 <= i <= |rest| && rest[i - 1] == row
    ensures all[i] == row
  {
  }

  /** The same call and keyword give the same row. */
  lemma SameRow(tape: Tape, n: nat, m: nat, k: string, k': string)
    requires n == m && k == k'
    ensures ProblemRow(tape(n), k) == ProblemRow(tape(m), k')
  {
  }

  /** A pair whose call fails gets the content error row with the call's
      message, under the pair's own keyword. */
  lemma ProblemsRowFails(prompts: ProblemBuilders, tape: Tape, log: seq<string>, batch: seq<(string, string)>, i: nat)
    requires i < |batch|
    requires tape(|log| + i).Failure?
    ensures ProblemsFallback(prompts, tape, log, batch).records[i]
            == CardRecord(Card(batch[i].0, ContentErrorPrefix + tape(|log| + i).error))
    ensures ErrorFor(ProblemsFallback(prompts, tape, log, batch).records[i], batch[i].0, ContentErrorPrefix)
  {
    ProblemsFallbackRow(prompts, tape, log, batch, i);
    ErrorCard(batch[i].0, ContentErrorPrefix, tape(|log| + i).error);
  }

  /** A pair whose call is answered gets the card parsed from the trimmed
      reply, with the pair's keyword as the fallback keyword. */
  lemma ProblemsRowAnswered(prompts: ProblemBuilders, tape: Tape, log: seq<string>, batch: seq<(string, string)>, i: nat)
    requires i < |batch|
    requires tape(|log| + i).Success?
    ensures var parsed := ParseKeywordDefinition(Strip(tape(|log| + i).value), batch[i].0);
            ProblemsFallback(prompts, tape, log, batch).records[i] == CardRecord(Card(parsed.0, parsed.1))
  {
    ProblemsFallbackRow(prompts, tape, log, batch, i);
  }

  /** A reply in the answer format gives the card it states. */
  lemma SingleProblemAnswer(prompts: ProblemBuilders, tape: Tape, log: seq<string>, pair: (string, string), keyword: string, definition: string)
    requires keyword != [] && NoEdge(keyword, Whitespace) && '\n' !in keyword
    requires definition != [] && NoEdge(definition, Whitespace) && '\n' !in definition
    requires tape(|log|) == Success(Answer(keyword, definition))
    ensures SingleProblem(prompts, tape, log, pair).0 == CardRecord(Card(keyword, definition))
    ensures |SingleProblem(prompts, tape, log, pair).1| == |log| + 1
  {
    AnswerRoundTrip(keyword, definition, pair.0);
  }
}
