/** The prompts the handler sends (services/gemini_handler.py): those of its
    own `PromptTemplates()` instance, and the batch prompt of the second
    phase of the algorithm workflow, which the handler writes itself. */
module HandlerPrompts {
  import opened Wrappers
  import opened Text
  import opened OrderedMaps
  import opened Prompts
  import opened Calls

  /** One problem of the second-phase batch prompt. */
  function ProblemBlock(keyword: string, description: string): string {
    "Problem: " + keyword + "\nOriginal Description: " + description
  }

  function ProblemBlocks(pairs: seq<(string, string)>): seq<string> {
    seq(|pairs|, i requires 0 <= i < |pairs| => ProblemBlock(pairs[i].0, pairs[i].1))
  }

  const ProblemsLead: string :=
    "Create concise study guides for these algorithm problems for quiz flashcards.\n\n"

  const ProblemsRules: string :=
    "\n\nFor each problem, include:\n"
    + "1. Problem category/type\n"
    + "2. Key solution approach (2-3 steps max)\n"
    + "3. Time/space complexity\n"
    + "4. Important edge cases\n\n"
    + "IMPORTANT: This will be exported to a CSV file, so in each study guide:\n"
    + "- Avoid commas or the CSV will break\n"
    + "- Use semicolons (;) or dashes (-) instead of commas\n"
    + "- Keep all text on a single line (no line breaks)\n"
    + "- Use simple punctuation only\n\n"
    + "These are for coding interview preparation - keep each guide focused and memorable.\n\n"
    + "Please respond with a valid JSON array containing objects with \"keyword\" and \"definition\" fields. \n"
    + "The keyword should be enhanced with a brief description: \"Problem Name - brief description of what it asks\"\n\n"
    + "Example format:\n"
    + "[\n"
    + "  {\"keyword\": \"Two Sum - find two numbers that add up to target\", \"definition\": \"Array problem: Use hash map to store complements; check if current number's complement exists; return indices. O(n) time O(n) space.\"},\n"
    + "  {\"keyword\": \"Binary Search - find target in sorted array\", \"definition\": \"Search algorithm: Compare target with middle element; eliminate half each iteration; continue until found. O(log n) time O(1) space.\"}\n"
    + "]"

  /** The prompt of `_generate_leetcode_definitions_batch`: the problems, as
      keyword and description blocks separated by blank lines, between the
      lead and the rules. */
  function ProblemsBatchPrompt(pairs: seq<(string, string)>): string {
    ProblemsLead + Join("\n\n", ProblemBlocks(pairs)) + ProblemsRules
  }

  /** The second-phase batch prompt carries every problem block, in order. */
  lemma ProblemsBatchShape(pairs: seq<(string, string)>)
    ensures Contains(ProblemsBatchPrompt(pairs), Join("\n\n", ProblemBlocks(pairs)))
  {
    ContainsMiddle(ProblemsLead, Join("\n\n", ProblemBlocks(pairs)), ProblemsRules);
  }

  /** The definitions workflow's prompts for a handler whose
      `prompt_templates` holds `registry`: `get_prompt` on that registry, and
      the batch prompt, which does not consult it. A fresh handler's registry
      is `BuiltinTemplates()` (services/gemini_handler.py:46). */
  function HandlerDefinitionBuilders(registry: Registry): DefinitionBuilders {
    DefinitionBuilders((promptType, keyword) => GetPrompt(registry, promptType, keyword), BatchDefinitionPrompt)
  }

  /** The algorithm workflow's prompts: the keyword prompts of
      `PromptTemplates`, the described-problem prompt, and the handler's own
      second-phase batch prompt. */
  function HandlerProblemBuilders(): ProblemBuilders {
    ProblemBuilders(KeywordGenerationPrompt, BatchKeywordPrompt, LeetcodeWithDescriptionPrompt, ProblemsBatchPrompt)
  }
}
