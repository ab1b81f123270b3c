/** The quick-action buttons and status tags of src/components/chat_actions.tsx. */
module ChatActions {
  import opened Seqs
  import opened Text
  import opened Messages
  import opened Config
  import ChatSession

  /** A button: its title and the task it sets. */
  datatype Action = Action(title: string, task: ChatTask)

  /** The three built-in actions. */
  function BuiltIns(displayText: string -> string): seq<Action> {
    [ Action(displayText("button_summarize"), ChatTask(displayText("prompt_summarize"), All)),
      Action(displayText("button_summarizePage"), ChatTask(displayText("prompt_summarizePage"), Page)),
      Action(displayText("button_summarizeSelection"), ChatTask(displayText("prompt_summarizeSelection"), Selection)) ]
  }

  /** A template gets a button when its trimmed prompt is non-empty. */
  predicate Usable(tpl: PromptTemplate) {
    Trim(tpl.prompt) != ""
  }

  /** The action of a template: its name, its prompt and reference type. */
  function TemplateAction(tpl: PromptTemplate): Action {
    Action(tpl.name, ChatTask(tpl.prompt, tpl.refType))
  }

  /** The `for` loop over the templates. */
  function TemplateActions(templates: seq<PromptTemplate>): (r: seq<Action>)
    ensures |r| <= |templates|
    ensures forall i :: 0 <= i < |r| ==> Trim(r[i].task.prompt) != ""
    decreases |templates|
  {
    if |templates| == 0 then []
    else
      var tpl := templates[0];
      (if Trim(tpl.prompt) != "" then [TemplateAction(tpl)] else []) + TemplateActions(templates[1..])
  }

  /** `chatTasks`: the built-in actions, then one per usable template. */
  function ChatTasks(displayText: string -> string, templates: seq<PromptTemplate>): (r: seq<Action>)
    ensures |r| >= 3 && r[..3] == BuiltIns(displayText)
    ensures r[0].task.refType == All && r[1].task.refType == Page && r[2].task.refType == Selection
    ensures r[3..] == TemplateActions(templates)
  {
    BuiltIns(displayText) + TemplateActions(templates)
  }

  /** The template actions are exactly the usable templates, in template
      order, each copying its template's name, prompt and reference type. */
  lemma {:induction false} TemplateActionsAreUsableTemplates(templates: seq<PromptTemplate>)
    ensures TemplateActions(templates) == Map(TemplateAction, Filter(Usable, templates))
    decreases |templates|
  {
    if |templates| > 0 {
      var tpl := templates[0];
      var rest := Filter(Usable, templates[1..]);
      TemplateActionsAreUsableTemplates(templates[1..]);
      assert TemplateActions(templates) == (if Usable(tpl) then [TemplateAction(tpl)] else []) + TemplateActions(templates[1..]);
      assert Filter(Usable, templates) == (if Usable(tpl) then [tpl] else []) + rest;
      MapCons(tpl, rest);
    }
  }

  lemma MapCons(tpl: PromptTemplate, rest: seq<PromptTemplate>)
    ensures Map(TemplateAction, [tpl] + rest) == [TemplateAction(tpl)] + Map(TemplateAction, rest)
  {
  }

  /** Which tags the component shows for a status. */
  datatype Tags = Tags(processing: bool, error: bool)

  function StatusTags(status: string): Tags {
    Tags(status == StatusProcessing, status != "" && status != StatusProcessing)
  }

  /** The tags follow the session: an issued call shows only the processing
      tag, a rejected task only the error tag, and a finished call neither. */
  lemma TagsFollowSession(env: ChatSession.Env, s: ChatSession.State, cap: ChatSession.Capture, error: string)
    requires s.task.Some? && s.status != StatusProcessing
    ensures var r := ChatSession.HandleTask(env, s, cap);
            r.call.Some? ==> StatusTags(r.state.status) == Tags(true, false)
    ensures var r := ChatSession.HandleTask(env, s, cap);
            r.call.None? ==> StatusTags(r.state.status) == Tags(false, true)
    ensures StatusTags(ChatSession.OnFinish(s, error).status) == Tags(false, false)
  {
  }
}
