/** The prompt builder (`PromptTemplates` in config/prompts.py): deterministic
    text templates, and the registry that maps a prompt type to the
    single-item template used for it. */
module Prompts {
  import opened Wrappers
  import opened Text
  import opened OrderedMaps

  /** The two labelled lines every single-item prompt ends with, and that the
      response parser scans for. */
  const AnswerShape: string := "Keyword:\nDefinition:"

  /** The instructions every single-item prompt ends with: the item repeated
      after its heading, a blank line, then the answer shape. */
  function Closing(heading: string, item: string): string {
    heading + ": " + item + "\n\n" + AnswerShape
  }

  function Quoted(s: string): string {
    "\"" + s + "\""
  }

  const GeneralGuidance: string :=
    " for a quiz flashcard.\n\n"
    + "Your response should be in this format:\n"
    + "Keyword: [original term] - [brief 3-5 word description]\n"
    + "Definition: [detailed explanation]\n\n"
    + "The definition should be:\n"
    + "- Clear and accurate\n"
    + "- 1-2 sentences maximum\n"
    + "- Perfect for quick study and review\n"
    + "- Easy to memorize for quiz purposes\n\n"
    + "The keyword enhancement should briefly describe what the term is (3-5 words max).\n\n"
    + "IMPORTANT: This will be exported to a CSV file, so:\n"
    + "- Avoid commas in your definition, or the CSV will break\n"
    + "- If you must use commas, use semicolons (;) or dashes (-) instead\n"
    + "- Keep text on a single line (no line breaks)\n"
    + "- Use simple punctuation only\n\n"
    + "Focus on the essential meaning that would help someone answer quiz questions about this term.\n\n"

  const AlgorithmGuidance: string :=
    " for a quiz flashcard.\n\n"
    + "Your response should be in this format:\n"
    + "Keyword: [original term] - [brief description of what it does]\n"
    + "Definition: [detailed explanation]\n\n"
    + "Include in the definition:\n"
    + "1. Brief definition\n"
    + "2. Key approach or steps (2-3 main points)\n"
    + "3. Time/space complexity if relevant\n"
    + "4. Primary use case\n\n"
    + "The keyword enhancement should briefly describe what the algorithm does (4-6 words max).\n\n"
    + "IMPORTANT: This will be exported to a CSV file, so:\n"
    + "- Avoid commas in your explanation, or the CSV will break\n"
    + "- Use semicolons (;) or dashes (-) instead of commas\n"
    + "- Keep all text on a single line (no line breaks)\n"
    + "- Use simple punctuation only\n\n"
    + "Keep it concise and focused - perfect for quick review before a coding interview or algorithm quiz.\n\n"

  const LeetcodeGuidance: string :=
    " for a quiz flashcard.\n\n"
    + "Your response should be in this format:\n"
    + "Keyword: [original problem given] - [brief description of what the problem asks]\n"
    + "Definition: [detailed study guide]\n\n"
    + "Include in the definition:\n"
    + "1. Problem category/type\n"
    + "2. Key solution approach (2-3 steps max)\n"
    + "3. Time/space complexity\n"
    + "4. Important edge cases\n\n"
    + "The keyword enhancement should briefly describe what the problem asks you to do (5-8 words max).\n\n"
    + "IMPORTANT: This will be exported to a CSV file, so:\n"
    + "- Avoid commas in your study guide, or the CSV will break\n"
    + "- Use semicolons (;) or dashes (-) instead of commas\n"
    + "- Keep all text on a single line (no line breaks)\n"
    + "- Use simple punctuation only\n\n"
    + "This is for quick review before coding interviews - keep it focused and memorable.\n\n"

  const WithDescriptionGuidance: string :=
    "\n\n"
    + "Your response should be in this format:\n"
    + "Keyword: [problem name] - [brief description of what the problem asks]\n"
    + "Definition: [detailed study guide]\n\n"
    + "Include in the definition:\n"
    + "1. Problem category/type\n"
    + "2. Key solution approach (2-3 steps max)\n"
    + "3. Time/space complexity\n"
    + "4. Important edge cases\n\n"
    + "The keyword enhancement should briefly describe what the problem asks you to do based on the original description (5-8 words max).\n\n"
    + "IMPORTANT: This will be exported to a CSV file, so:\n"
    + "- Avoid commas in your study guide, or the CSV will break\n"
    + "- Use semicolons (;) or dashes (-) instead of commas\n"
    + "- Keep all text on a single line (no line breaks)\n"
    + "- Use simple punctuation only\n\n"
    + "This is for quick review before coding interviews - keep it focused and memorable.\n\n"

  /** `get_leetcode_prompt_with_description`: the single-item prompt of the
      second phase, seeded with the generated keyword and the original description. */
  function LeetcodeWithDescriptionPrompt(keyword: string, description: string): string {
    "Create a concise study guide for the algorithm problem " + Quoted(keyword)
    + " for a quiz flashcard.\n\nOriginal Problem Description: " + Quoted(description)
    + WithDescriptionGuidance
    + Closing("Problem: " + keyword + "\nOriginal Description", description)
  }

  const KeywordGenerationLead: string :=
    "Generate a concise keyword/title for this algorithm problem that will work on a quiz flashcard:\n\n"

  const KeywordGenerationGuidance: string :=
    "\n\nCreate a short, memorable keyword or title (2-5 words max) that captures the core concept. The keyword should be:\n"
    + "- Easy to remember for quiz purposes\n"
    + "- Descriptive of the main technique or pattern\n"
    + "- Perfect as a flashcard front-side term\n\n"
    + "Respond with just the keyword/title, nothing else."

  /** `get_keyword_generation_prompt`. */
  function KeywordGenerationPrompt(description: string): string {
    KeywordGenerationLead + ("Description: " + Quoted(description)) + KeywordGenerationGuidance
  }

  // ---------------------------------------------------------------------------
  // The template registry

  /** A single-item template: a built-in one (its lead, its guidance and the
      heading under which it repeats the keyword), or a callable registered
      with `add_custom_template`. */
  datatype Template = Builtin(lead: string, guidance: string, heading: string) | Custom(render: string -> string)

  /** Calling a template on a keyword. */
  function Render(template: Template, keyword: string): string {
    match template
    case Builtin(lead, guidance, heading) => lead + Quoted(keyword) + guidance + Closing(heading, keyword)
    case Custom(render) => render(keyword)
  }

  const GeneralTemplate: Template := Builtin("Create a concise definition for the term ", GeneralGuidance, "Term")
  const AlgorithmTemplate: Template :=
    Builtin("Create a study guide explanation for the algorithm/data structure ", AlgorithmGuidance, "Algorithm/Concept")
  const LeetcodeTemplate: Template :=
    Builtin("Create a concise study guide for the algorithm problem ", LeetcodeGuidance, "Problem")

  /** `_general_definition_prompt`. */
  function GeneralPrompt(keyword: string): string {
    Render(GeneralTemplate, keyword)
  }

  /** `_algorithm_definition_prompt`. */
  function AlgorithmPrompt(keyword: string): string {
    Render(AlgorithmTemplate, keyword)
  }

  /** `_leetcode_definition_prompt`. */
  function LeetcodePrompt(keyword: string): string {
    Render(LeetcodeTemplate, keyword)
  }

  /** `self.templates`, a dict from prompt type to template. */
  type Registry = OrderedMap<Template>

  /** The registry a fresh `PromptTemplates()` holds. */
  function BuiltinTemplates(): Registry {
    [("general", GeneralTemplate), ("algorithm", AlgorithmTemplate), ("leetcode", LeetcodeTemplate)]
  }

  /** `get_prompt`: the template's prompt for a known type, and the
      `ValueError` message (which lists the registered types) otherwise. */
  function GetPrompt(registry: Registry, promptType: string, keyword: string): (r: Result<string, string>)
    ensures r.Success? <==> promptType in Keys(registry)
    ensures r.Failure? ==> StartsWith(r.error, "Unknown prompt type: " + promptType)
    ensures r.Failure? ==> r.error == "Unknown prompt type: " + promptType + ". Available types: " + QuotedList(Keys(registry))
  {
    GetPresent(registry, promptType);
    match Get(registry, promptType)
    case Some(template) => Success(Render(template, keyword))
    case None => Failure(UnknownType(registry, promptType))
  }

  /** The `ValueError` message for an unregistered type: the type, then the
      registered types. */
  function UnknownType(registry: Registry, promptType: string): (message: string)
    ensures StartsWith(message, "Unknown prompt type: " + promptType)
  {
    var lead := "Unknown prompt type: " + promptType;
    StartsWithAppend(lead, ". Available types: " + QuotedList(Keys(registry)));
    lead + ". Available types: " + QuotedList(Keys(registry))
  }

  /** `add_custom_template`: registers or replaces a template. */
  function AddCustomTemplate(registry: Registry, name: string, template: Template): (r: Registry)
    ensures Valid(registry) ==> Valid(r)
    ensures Keys(r) == AddKey(Keys(registry), name)
  {
    PutValid(registry, name, template);
    Put(registry, name, template)
  }

  /** `get_available_types`: a class-level constant list, independent of any
      custom template registered on an instance. */
  function GetAvailableTypes(): seq<string> {
    ["general", "algorithm", "leetcode"]
  }

  /** The listed types are the types a fresh registry holds, in order. */
  lemma AvailableTypes()
    ensures GetAvailableTypes() == Keys(BuiltinTemplates())
  {
  }

  /** `get_prompt` on a fresh registry succeeds exactly for the three
      built-in types. */
  lemma BuiltinTypes(promptType: string, keyword: string)
    ensures GetPrompt(BuiltinTemplates(), promptType, keyword).Success? <==> promptType in GetAvailableTypes()
  {
    AvailableTypes();
  }

  /** `general` is bound to the general template. */
  lemma GeneralBinding(keyword: string)
    ensures GetPrompt(BuiltinTemplates(), "general", keyword) == Success(GeneralPrompt(keyword))
  {
    assert Get(BuiltinTemplates(), "general") == Some(GeneralTemplate);
  }

  /** `algorithm` is bound to the algorithm template. */
  lemma AlgorithmBinding(keyword: string)
    ensures GetPrompt(BuiltinTemplates(), "algorithm", keyword) == Success(AlgorithmPrompt(keyword))
  {
    assert Get(BuiltinTemplates(), "algorithm") == Some(AlgorithmTemplate) by {
      assert BuiltinTemplates()[1..] == [("algorithm", AlgorithmTemplate), ("leetcode", LeetcodeTemplate)];
    }
  }

  /** `leetcode` is bound to the leetcode template. */
  lemma LeetcodeBinding(keyword: string)
    ensures GetPrompt(BuiltinTemplates(), "leetcode", keyword) == Success(LeetcodePrompt(keyword))
  {
    assert Get(BuiltinTemplates(), "leetcode") == Some(LeetcodeTemplate) by {
      assert BuiltinTemplates()[1..][1..] == [("leetcode", LeetcodeTemplate)];
    }
  }

  /** After `add_custom_template(name, f)`, `get_prompt(name, k)` is `f(k)`;
      every other type resolves as before (only the list of types named in
      an unknown-type message grows). */
  lemma CustomTemplateLookup(registry: Registry, name: string, template: Template, other: string, keyword: string)
    requires Valid(registry)
    requires other != name
    ensures GetPrompt(AddCustomTemplate(registry, name, template), name, keyword) == Success(Render(template, keyword))
    ensures GetPrompt(AddCustomTemplate(registry, name, template), other, keyword).Success?
            == GetPrompt(registry, other, keyword).Success?
    ensures GetPrompt(registry, other, keyword).Success? ==>
              GetPrompt(AddCustomTemplate(registry, name, template), other, keyword)
              == GetPrompt(registry, other, keyword)
  {
  }

  /** In `lead + x + middle + tail`, `x` is found and `tail` ends the text. */
  lemma Sandwich(lead: string, x: string, middle: string, tail: string)
    ensures Contains(lead + x + middle + tail, x)
    ensures EndsWith(lead + x + middle + tail, tail)
  {
    ContainsMiddle(lead, x, middle + tail);
    assert lead + x + middle + tail == lead + x + (middle + tail);
    EndsWithAppend(lead + x + middle, tail);
  }

  /** The general template quotes the term and ends with it under `Term`. */
  lemma GeneralShape(keyword: string)
    ensures Contains(GeneralPrompt(keyword), Quoted(keyword))
    ensures EndsWith(GeneralPrompt(keyword), Closing("Term", keyword))
  {
    Sandwich(GeneralTemplate.lead, Quoted(keyword), GeneralGuidance, Closing("Term", keyword));
  }

  /** The algorithm template quotes the term and ends with it under `Algorithm/Concept`. */
  lemma AlgorithmShape(keyword: string)
    ensures Contains(AlgorithmPrompt(keyword), Quoted(keyword))
    ensures EndsWith(AlgorithmPrompt(keyword), Closing("Algorithm/Concept", keyword))
  {
    Sandwich(AlgorithmTemplate.lead, Quoted(keyword), AlgorithmGuidance, Closing("Algorithm/Concept", keyword));
  }

  /** The leetcode template quotes the problem and ends with it under `Problem`. */
  lemma LeetcodeShape(keyword: string)
    ensures Contains(LeetcodePrompt(keyword), Quoted(keyword))
    ensures EndsWith(LeetcodePrompt(keyword), Closing("Problem", keyword))
  {
    Sandwich(LeetcodeTemplate.lead, Quoted(keyword), LeetcodeGuidance, Closing("Problem", keyword));
  }

  /** In `lead + x + middle + y + rest + tail`, both `x` and `y` are found
      and `tail` ends the text. */
  lemma DoubleSandwich(lead: string, x: string, middle: string, y: string, rest: string, tail: string)
    ensures Contains(lead + x + middle + y + rest + tail, x)
    ensures Contains(lead + x + middle + y + rest + tail, y)
    ensures EndsWith(lead + x + middle + y + rest + tail, tail)
  {
    Sandwich(lead + x + middle, y, rest, tail);
    ContainsMiddle(lead, x, middle + y + rest + tail);
    assert lead + x + middle + y + rest + tail == lead + x + (middle + y + rest + tail);
  }

  /** The second-phase single-item prompt quotes both the keyword and the
      description, and ends with both of them followed by the answer shape. */
  lemma WithDescriptionShape(keyword: string, description: string)
    ensures Contains(LeetcodeWithDescriptionPrompt(keyword, description), Quoted(keyword))
    ensures Contains(LeetcodeWithDescriptionPrompt(keyword, description), Quoted(description))
    ensures EndsWith(LeetcodeWithDescriptionPrompt(keyword, description),
                     Closing("Problem: " + keyword + "\nOriginal Description", description))
  {
    DoubleSandwich(LeetcodeTemplate.lead, Quoted(keyword),
                   " for a quiz flashcard.\n\nOriginal Problem Description: ", Quoted(description),
                   WithDescriptionGuidance, Closing("Problem: " + keyword + "\nOriginal Description", description));
  }

  /** The keyword-generation prompt carries the description in double quotes
      right after `Description: `. */
  lemma KeywordGenerationShape(description: string)
    ensures Contains(KeywordGenerationPrompt(description), "Description: " + Quoted(description))
  {
    ContainsMiddle(KeywordGenerationLead, "Description: " + Quoted(description), KeywordGenerationGuidance);
  }

  // ---------------------------------------------------------------------------
  // Batch prompts

  /** One `- item` line per item, in order, joined by newlines. */
  function BulletList(items: seq<string>): string {
    Join("\n", Bullets(items))
  }

  function Bullets(items: seq<string>): seq<string> {
    seq(|items|, i requires 0 <= i < |items| => "- " + items[i])
  }

  /** The items of a bullet list are recovered line by line, one per item and
      in order, when no item spans several lines. */
  lemma BulletListLines(items: seq<string>)
    requires |items| >= 1
    requires forall i :: 0 <= i < |items| ==> '\n' !in items[i]
    ensures |Split(BulletList(items), '\n')| == |items|
    ensures forall i :: 0 <= i < |items| ==> Split(BulletList(items), '\n')[i] == "- " + items[i]
  {
    var lines := Bullets(items);
    forall i | 0 <= i < |lines|
      ensures '\n' !in lines[i]
    {
      assert lines[i] == "- " + items[i];
    }
    assert "\n" == ['\n'];
    JoinSplit(lines, '\n');
  }

  /** The wording of a batch definition prompt. */
  datatype Wording = Wording(description: string, context: string)

  /** The wording used for a type the batch prompt does not recognise. */
  const DefaultWording: Wording :=
    Wording("definitions for quiz flashcards", "These are for study and quiz review.")

  function BatchWording(promptType: string): Wording {
    if promptType == "general" then
      Wording("concise definitions for quiz flashcards", "These are for quick study and quiz review.")
    else if promptType == "algorithm" then
      Wording("algorithm/data structure explanations for coding interview flashcards",
              "These are for coding interview preparation and algorithm review.")
    else if promptType == "leetcode" then
      Wording("LeetCode problem study guides for coding interview flashcards",
              "These are for coding interview preparation and problem pattern review.")
    else DefaultWording
  }

  const BatchDefinitionRules: string :=
    "Please respond with a valid JSON array containing objects with \"keyword\" and \"definition\" fields. Each definition should be:\n"
    + "- Concise and focused (1-2 sentences for general, 3-4 for algorithm/leetcode)\n"
    + "- Perfect for quiz/flashcard study\n"
    + "- Clear and memorable\n\n"
    + "IMPORTANT: This will be exported to a CSV file, so in each definition:\n"
    + "- Use the original keyword given for the first part ('term' from below)\n"
    + "- Avoid commas or the CSV will break\n"
    + "- Use semicolons (;) or dashes (-) instead of commas\n"
    + "- Keep all text on a single line (no line breaks)\n"
    + "- Use simple punctuation only\n\n"
    + "Format your response as:\n"
    + "[\n"
    + "  {\"keyword\": \"term1 - brief description of what it is\", \"definition\": \"detailed definition here\"},\n"
    + "  {\"keyword\": \"term2 - brief description of what it is\", \"definition\": \"detailed definition here\"}\n"
    + "]\n\n"
    + "Example:\n"
    + "{\"keyword\": \"Binary Search - algorithm to find target in sorted array\", \"definition\": \"Divides array in half repeatedly; compares target with middle element; eliminates half each iteration. O(log n) time complexity.\"}"

  /** `get_batch_definition_prompt`: total in the prompt type. */
  function BatchDefinitionPrompt(keywords: seq<string>, promptType: string): string {
    var w := BatchWording(promptType);
    ("Create " + w.description + " for the following terms. " + w.context + "\n\n")
    + ("Terms to define:\n" + BulletList(keywords) + "\n\n")
    + BatchDefinitionRules
  }

  /** The batch definition prompt lists the keywords as a bullet list under
      `Terms to define:`. */
  lemma BatchDefinitionShape(keywords: seq<string>, promptType: string)
    ensures Contains(BatchDefinitionPrompt(keywords, promptType), "Terms to define:\n" + BulletList(keywords) + "\n\n")
  {
    var w := BatchWording(promptType);
    ContainsMiddle("Create " + w.description + " for the following terms. " + w.context + "\n\n",
                   "Terms to define:\n" + BulletList(keywords) + "\n\n", BatchDefinitionRules);
  }

  /** The batch prompt falls back to the default wording exactly for the types
      `get_available_types` does not list: those a fresh registry rejects, and
      also any type added with `add_custom_template`. */
  lemma BatchWordingDefault(promptType: string)
    ensures BatchWording(promptType) == DefaultWording <==> promptType !in GetAvailableTypes()
  {
  }

  /** A type registered with `add_custom_template` builds single-item
      prompts, yet the batch prompt gives it the default wording: the batch
      builder's chain only names the fixed types. */
  lemma CustomTypeDefaultWording(name: string, template: Template, keyword: string)
    requires name !in GetAvailableTypes()
    ensures GetPrompt(AddCustomTemplate(BuiltinTemplates(), name, template), name, keyword).Success?
    ensures BatchWording(name) == DefaultWording
  {
    CustomTemplateLookup(BuiltinTemplates(), name, template, "general", keyword);
    BatchWordingDefault(name);
  }

  const BatchKeywordLead: string :=
    "Generate concise keywords/titles for these algorithm problems that will work on quiz flashcards:\n\n"

  const BatchKeywordRules: string :=
    "For each description, create a short, memorable keyword or title (2-5 words max) that captures the core concept.\n\n"
    + "Please respond with a valid JSON array containing objects with \"description\" and \"keyword\" fields:\n"
    + "[\n"
    + "  {\"description\": \"original description\", \"keyword\": \"generated keyword\"},\n"
    + "  {\"description\": \"original description\", \"keyword\": \"generated keyword\"}\n"
    + "]\n\n"
    + "Note: Keywords should be concise titles only (like \"Two Sum\" or \"Binary Search\") - they will be enhanced with descriptions later."

  /** `get_batch_keyword_generation_prompt`. */
  function BatchKeywordPrompt(descriptions: seq<string>): string {
    BatchKeywordLead + ("Problem Descriptions:\n" + BulletList(descriptions) + "\n\n") + BatchKeywordRules
  }

  /** The batch keyword prompt lists the descriptions as a bullet list under
      `Problem Descriptions:`. */
  lemma BatchKeywordShape(descriptions: seq<string>)
    ensures Contains(BatchKeywordPrompt(descriptions), "Problem Descriptions:\n" + BulletList(descriptions) + "\n\n")
  {
    ContainsMiddle(BatchKeywordLead, "Problem Descriptions:\n" + BulletList(descriptions) + "\n\n", BatchKeywordRules);
  }
}
