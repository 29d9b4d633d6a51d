/** `reason`: the prompt given to the language model on every reasoning step.
    The model itself is an oracle of the agent loop. */
module Reasoning {
  import opened Config

  const ContextLabel: string := "\nContext: "
  const UserLabel: string := "\nUser: "
  const AgentLabel: string := "\nAgent:"

  /** The prompt of one reasoning call. */
  function Prompt(context: string, userInput: string): string
  {
    SystemPrompt + ContextLabel + context + UserLabel + userInput + AgentLabel
  }

  /** The prompt opens with the system instruction, then carries the context
      and the user input at fixed offsets, and closes with the agent cue. */
  lemma PromptLayout(context: string, userInput: string)
    ensures var p := Prompt(context, userInput);
      && SystemPrompt + ContextLabel <= p
      && |p| == |SystemPrompt| + |ContextLabel| + |context| + |UserLabel| + |userInput| + |AgentLabel|
      && p[|SystemPrompt| + |ContextLabel|..][..|context|] == context
      && p[|p| - |userInput| - |AgentLabel|..] == userInput + AgentLabel
  {
  }

  /** For one user input, different contexts give different prompts: the model
      always sees the whole context. */
  lemma PromptDeterminesContext(c1: string, c2: string, userInput: string)
    requires Prompt(c1, userInput) == Prompt(c2, userInput)
    ensures c1 == c2
  {
    var p := Prompt(c1, userInput);
    PromptLayout(c1, userInput);
    PromptLayout(c2, userInput);
    assert |c1| == |c2|;
    assert c1 == p[|SystemPrompt| + |ContextLabel|..][..|c1|];
  }

  /** The prompt does not delimit the context: a context that itself ends in
      the user label can stand for a different split of the same prompt. */
  lemma PromptSplitAmbiguous(context: string, injected: string, userInput: string)
    ensures Prompt(context + UserLabel + injected, userInput)
         == Prompt(context, injected + UserLabel + userInput)
  {
  }
}
