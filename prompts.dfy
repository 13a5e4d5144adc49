/** Prompt templating: `generate_prompt`, a pure map from a task name and an input to a prompt. */
module Prompts {
  import opened Tasks

  /** The preamble each known task name puts in front of the input, as a table. */
  const Templates: map<string, string> := map[
    "code_explain" := "Explain the following code in plain English:\n\n",
    "idea_generator" := "Generate creative startup ideas for:\n\n",
    "tone_detector" := "Analyze the emotional tone of this text:\n\n",
    "image_caption" := "Describe this image: "
  ]

  /**
   * The prompt sent to the generator. The task is a plain string here, as in the
   * source; a name outside the table gives the input back unchanged.
   */
  function GeneratePrompt(task: string, input: string): (prompt: string)
    ensures task in Templates ==> prompt == Templates[task] + input
    ensures task !in Templates ==> prompt == input
    ensures |input| <= |prompt| && prompt[|prompt| - |input|..] == input
  {
    if task == "code_explain" then "Explain the following code in plain English:\n\n" + input
    else if task == "idea_generator" then "Generate creative startup ideas for:\n\n" + input
    else if task == "tone_detector" then "Analyze the emotional tone of this text:\n\n" + input
    else if task == "image_caption" then "Describe this image: " + input
    else input
  }

  /** Every task of the enumeration has a template, so its prompt is strictly longer than its input. */
  lemma TaskHasTemplate(t: Task, input: string)
    ensures Name(t) in Templates
    ensures GeneratePrompt(Name(t), input) == Templates[Name(t)] + input
    ensures |GeneratePrompt(Name(t), input)| > |input|
  {
  }

  /** The literal prompt of each task, written out. */
  lemma PromptLiterals(input: string)
    ensures GeneratePrompt(Name(CodeExplain), input) == "Explain the following code in plain English:\n\n" + input
    ensures GeneratePrompt(Name(IdeaGenerator), input) == "Generate creative startup ideas for:\n\n" + input
    ensures GeneratePrompt(Name(ToneDetector), input) == "Analyze the emotional tone of this text:\n\n" + input
    ensures GeneratePrompt(Name(ImageCaption), input) == "Describe this image: " + input
  {
  }
}
