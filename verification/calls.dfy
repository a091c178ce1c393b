/** What the handler sees of the outside world: the replies of the model
    service, the decoding of a reply as JSON, and the flashcard rows it
    builds (services/gemini_handler.py). */
module Calls {
  import opened Wrappers
  import opened Text
  import opened ResponseParsing

  /** One element of a decoded JSON array: an object whose fields are
      strings, or any other JSON value. */
  datatype Record = Object(fields: map<string, string>) | NonObject

  /** Python `result.get(key, '')` on an object. */
  function Field(fields: map<string, string>, key: string): string {
    if key in fields then fields[key] else ""
  }

  /** A flashcard row, `{"keyword": ..., "definition": ...}`. */
  datatype Card = Card(keyword: string, definition: string)

  function CardRecord(card: Card): Record {
    Object(map["keyword" := card.keyword, "definition" := card.definition])
  }

  /** The model service: the n-th call of a run gets `tape(n)`, a reply text
      or the message of the exception the call raised. */
  type Tape = nat -> Result<string, string>

  /** `json.loads` on a cleaned reply: the elements of the array it holds, or
      `None` when it raises or the text is not an array. */
  type Decoder = string -> Option<seq<Record>>

  /** No reply decodes: every batch falls back to individual calls. */
  ghost predicate NeverDecodes(decode: Decoder) {
    forall text :: decode(text) == None
  }

  /** The prompts of the definitions workflow, as functions: the handler's
      `get_prompt` and `get_batch_definition_prompt`. */
  datatype DefinitionBuilders = DefinitionBuilders(
    single: (string, string) -> Result<string, string>,
    batchDefinition: (seq<string>, string) -> string)

  /** The prompts of the algorithm workflow, as functions: the keyword
      prompts of `PromptTemplates`, the described-problem prompt, and the
      batch prompt of the second phase, which the handler builds itself. */
  datatype ProblemBuilders = ProblemBuilders(
    keywordGeneration: string -> string,
    batchKeyword: seq<string> -> string,
    withDescription: (string, string) -> string,
    batchWithDescription: seq<(string, string)> -> string)

  /** A run of a workflow: the rows produced and the prompts sent, in order.
      The number of prompts sent so far is the index of the next call. */
  datatype Run = Run(records: seq<Record>, log: seq<string>)

  /** The next batch call after the prompts in `log`: its reply cleaned of
      code fences and decoded; `None` when the call raised or the reply did
      not decode. */
  function BatchCall(tape: Tape, decode: Decoder, log: seq<string>): Option<seq<Record>> {
    match tape(|log|)
    case Failure(_) => None
    case Success(reply) => decode(CleanJsonReply(reply))
  }

  /** When nothing decodes, no batch call yields records. */
  lemma UndecodedBatch(tape: Tape, decode: Decoder, log: seq<string>)
    requires NeverDecodes(decode)
    ensures BatchCall(tape, decode, log) == None
  {
    if tape(|log|).Success? {
      assert decode(CleanJsonReply(tape(|log|).value)) == None;
    }
  }

  /** A row stating that producing the card for `keyword` failed with a
      message starting with `prefix`. */
  predicate ErrorFor(record: Record, keyword: string, prefix: string) {
    && record.Object?
    && Field(record.fields, "keyword") == keyword
    && |prefix| <= |Field(record.fields, "definition")|
    && Field(record.fields, "definition")[..|prefix|] == prefix
  }

  /** One error row per keyword, in order. */
  predicate ErrorRows(records: seq<Record>, keywords: seq<string>, prefix: string) {
    |records| == |keywords| && forall i :: 0 <= i < |records| ==> ErrorFor(records[i], keywords[i], prefix)
  }

  lemma ErrorRowsAppend(a: seq<Record>, ka: seq<string>, b: seq<Record>, kb: seq<string>, prefix: string)
    requires ErrorRows(a, ka, prefix) && ErrorRows(b, kb, prefix)
    ensures ErrorRows(a + b, ka + kb, prefix)
  {
    forall i | 0 <= i < |a + b|
      ensures ErrorFor((a + b)[i], (ka + kb)[i], prefix)
    {
      if i >= |a| {
        assert (a + b)[i] == b[i - |a|] && (ka + kb)[i] == kb[i - |a|];
      }
    }
  }

  lemma ErrorRowsCons(record: Record, keyword: string, rest: seq<Record>, keywords: seq<string>, prefix: string)
    requires ErrorFor(record, keyword, prefix) && ErrorRows(rest, keywords, prefix)
    ensures ErrorRows([record] + rest, [keyword] + keywords, prefix)
  {
    ErrorRowsAppend([record], [keyword], rest, keywords, prefix);
  }

  /** An error card is an error row. */
  lemma ErrorCard(keyword: string, prefix: string, message: string)
    ensures ErrorFor(CardRecord(Card(keyword, prefix + message)), keyword, prefix)
  {
    assert (prefix + message)[..|prefix|] == prefix;
  }

  /** A card whose definition is a message wrapped in two prefixes is an
      error row for the two prefixes together. */
  lemma ErrorCardWrapped(keyword: string, outer: string, inner: string, message: string)
    ensures ErrorFor(CardRecord(Card(keyword, outer + (inner + message))), keyword, outer + inner)
  {
    assert outer + (inner + message) == (outer + inner) + message;
    ErrorCard(keyword, outer + inner, message);
  }

  /** A card whose definition starts with `prefix` is an error row. */
  lemma ErrorCardPrefix(keyword: string, prefix: string, definition: string)
    requires StartsWith(definition, prefix)
    ensures ErrorFor(CardRecord(Card(keyword, definition)), keyword, prefix)
  {
  }
}
