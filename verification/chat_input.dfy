/** The free-text input of src/components/chat_input.tsx. */
module ChatInput {
  import opened Wrappers
  import opened Text
  import opened Messages
  import opened Config
  import ChatSession

  /** The task a submit sets (if any) and the input box afterwards. */
  datatype Submit = Submit(task: Option<ChatTask>, userInput: string)

  /** `chat`: a disabled input or a blank text does nothing; otherwise the
      trimmed text becomes an "all" task and the box is cleared. */
  function Chat(enabled: bool, userInput: string): (r: Submit)
    ensures r.task.Some? <==> enabled && !AllSpace(userInput)
    ensures r.task.Some? ==> r.task.value == ChatTask(Trim(userInput), All) && r.userInput == ""
    ensures r.task.None? ==> r.userInput == userInput
  {
    if !enabled || Trim(userInput) == "" then Submit(None, userInput)
    else Submit(Some(ChatTask(Trim(userInput), All)), "")
  }

  /** `handleUserInputKeyDown`: only Enter with the meta key submits. */
  function KeyDown(key: string, metaKey: bool, enabled: bool, userInput: string): (r: Submit)
    ensures !(key == "Enter" && metaKey) ==> r == Submit(None, userInput)
    ensures key == "Enter" && metaKey ==> r == Chat(enabled, userInput)
  {
    if key == "Enter" && metaKey then Chat(enabled, userInput) else Submit(None, userInput)
  }

  /** A submitted prompt is non-empty and has no surrounding white space, so
      the session never rejects it as an empty prompt. */
  lemma SubmittedTaskIsNeverEmpty(enabled: bool, userInput: string, env: ChatSession.Env, s: ChatSession.State, cap: ChatSession.Capture)
    requires Chat(enabled, userInput).task.Some?
    requires s.task == Chat(enabled, userInput).task && s.status != StatusProcessing
    ensures var p := s.task.value.prompt; p != "" && !IsSpace(p[0]) && !IsSpace(p[|p| - 1])
    ensures ChatSession.HandleTask(env, s, cap).state.status != ChatSession.ErrEmptyPrompt
  {
    var r := ChatSession.HandleTask(env, s, cap);
    if r.call.None? {
      assert r.state.status != ChatSession.ErrEmptyPrompt by {
        ChatSession.ConfigErrorsAreErrors(env.modelName, "");
      }
    }
  }
}
