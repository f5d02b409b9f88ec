/**
 * The custom-agent chat processor: it sends the user's prompt to a
 * configured agent, moves the agent through its states and, depending on
 * the agent's response action, renders the answer in one of six ways,
 * possibly handing DevIn code on to the DevIn language processors.
 */
module CustomAgent {
  import opened Wrappers
  import opened Text

  /** `CustomAgentState`. */
  datatype AgentState = Start | Handling | Finished

  /** `CustomAgentResponseAction`: how the agent's answer is rendered. */
  datatype ResponseAction = Direct | Stream | TextChunk | Flow | WebView | DevIns

  /** What `Code.parse` returns: the display name of the detected language and the code's text. */
  datatype Code = Code(language: string, text: string)

  /** The language name that marks DevIn code (lines 60 and 80). */
  const DevInLanguage: string := "DevIn"

  /** The bundle key of the loading message (lines 69 and 121). */
  const LoadingKey: string := "autodev.loading"

  /** The message logged for the `Flow` action (line 102). */
  const FlowUnsupported: string := "will not support flow response for now"

  /**
   * Every call the processor makes on the outside world, in order: the chat
   * panel, the language model provider, the logger, the executor, the DevIn
   * processors, and the writes of the agent's state.
   */
  datatype Event =
    | AddMessage(text: string, isUser: bool, displayPrompt: string)
    | AddBundleMessage(key: string)
    | SetState(state: AgentState)
    | Execute(request: string, agent: string)
    | LogError(text: string)
    | UpdateMessage(chunks: seq<string>)
    | AppendLocalMessage(text: string)
    | ReRenderAssistantOutput
    | RemoveLastMessage
    | MoveCursorToStart
    | SetInput(text: string)
    | HiddenProgressBar
    | UpdateUI
    | AppendWebView(text: string)
    | RunDevIn(processor: string, agent: string, code: string)

  /** The record of outside calls. */
  class Trace {
    var events: seq<Event>

    constructor ()
      ensures events == []
    {
      events := [];
    }

    method Emit(e: Event)
      modifies this
      ensures events == old(events) + [e]
    {
      events := events + [e];
    }
  }

  /** `CustomAgentConfig`: its name, its string form as logged, its response action, and its mutable state. */
  class AgentConfig {
    const name: string
    const asText: string
    const responseAction: ResponseAction
    var state: AgentState

    constructor (name: string, asText: string, responseAction: ResponseAction)
      ensures this.name == name && this.asText == asText
      ensures this.responseAction == responseAction && state == Start
    {
      this.name := name;
      this.asText := asText;
      this.responseAction := responseAction;
      state := Start;
    }
  }

  /** The services the processor calls but whose code is not part of this model. */
  datatype Services = Services(
    execute: (string, string) -> Option<seq<string>>,
    parse: string -> Code,
    devInProcessors: seq<string>)

  /** What one call of `handleChat` leaves behind. */
  datatype Outcome = Outcome(events: seq<Event>, state: AgentState, devInCode: string)

  /** The request sent to the executor (line 32). */
  function Request(prompt: string): string {
    Trim(prompt)
  }

  /** The error logged when the executor gives no response (line 39). */
  function NoResponseError(asText: string, request: string): string {
    "error for custom agent: " + asText + " with request: " + request
  }

  /** The code of `content` when it parses as DevIn, and nothing otherwise (lines 59-62, 79-82). */
  function DevInOf(parse: string -> Code, content: string): string {
    var code := parse(content);
    if code.language == DevInLanguage then code.text else ""
  }

  /** The events of one response action and the `devInCode` it leaves (lines 46-133). */
  function ModeOutcome(action: ResponseAction, chunks: seq<string>, rendered: string, msg: string,
                       parse: string -> Code): (seq<Event>, string)
  {
    match action
    case Direct =>
      var content := RemoveSurrounding(rendered, '"');
      ([AddMessage("loading", false, ""), UpdateMessage(chunks), AppendLocalMessage(content),
        ReRenderAssistantOutput, HiddenProgressBar, UpdateUI], DevInOf(parse, content))
    case Stream =>
      ([AddBundleMessage(LoadingKey), AppendLocalMessage(msg), HiddenProgressBar, UpdateUI],
       DevInOf(parse, msg))
    case TextChunk =>
      var content := Concat(chunks);
      ([AppendLocalMessage(content), RemoveLastMessage, MoveCursorToStart, SetInput(content),
        HiddenProgressBar], "")
    case Flow =>
      ([LogError(FlowUnsupported)], "")
    case WebView =>
      var content := Concat(chunks);
      ([AppendLocalMessage(content), AppendWebView(content), HiddenProgressBar], "")
    case DevIns =>
      ([AddBundleMessage(LoadingKey), AppendLocalMessage(msg), HiddenProgressBar, UpdateUI], msg)
  }

  /** One run of every DevIn processor on the agent and the code (lines 135-139). */
  function DevInRuns(processors: seq<string>, agent: string, code: string): (r: seq<Event>)
    ensures |r| == if code == "" then 0 else |processors|
    ensures forall i :: 0 <= i < |r| ==> r[i] == RunDevIn(processors[i], agent, code)
  {
    if code == "" then [] else seq(|processors|, i requires 0 <= i < |processors| => RunDevIn(processors[i], agent, code))
  }

  /** Lines 29-37: the prompt is shown, the agent is marked as handling, and the trimmed prompt goes to the executor. */
  function Opening(prompt: string, name: string): seq<Event> {
    [AddMessage(prompt, true, prompt), SetState(Handling), Execute(Request(prompt), name)]
  }

  /**
   * The whole of `handleChat` on a given prompt, agent and set of answers
   * from the outside: `rendered` is what `ui.updateMessage` returns, `msg` is
   * the value of the variable when the launched coroutine is read.
   */
  function Handle(prompt: string, name: string, asText: string, action: ResponseAction,
                  services: Services, rendered: string, msg: string): Outcome
  {
    var request := Request(prompt);
    var opening := Opening(prompt, name);
    match services.execute(request, name)
    case None =>
      Outcome(opening + [LogError(NoResponseError(asText, request))], Handling, "")
    case Some(chunks) =>
      var (modeEvents, code) := ModeOutcome(action, chunks, rendered, msg, services.parse);
      Outcome(opening + [SetState(Finished)] + modeEvents + DevInRuns(services.devInProcessors, name, code),
              Finished, code)
  }

  /** The first event shows the prompt as the user's message, and the executor gets the trimmed prompt while the agent is handling. */
  lemma OpensWithPrompt(prompt: string, name: string, asText: string, action: ResponseAction,
                        services: Services, rendered: string, msg: string)
    ensures var events := Handle(prompt, name, asText, action, services, rendered, msg).events;
      |events| >= 4 && events[0] == AddMessage(prompt, true, prompt) &&
      events[1] == SetState(Handling) && events[2] == Execute(Trim(prompt), name)
  {
  }

  /** Without a response, one error is logged and nothing else happens: the agent stays handling and no DevIn code runs. */
  lemma NoResponseStops(prompt: string, name: string, asText: string, action: ResponseAction,
                        services: Services, rendered: string, msg: string)
    requires services.execute(Trim(prompt), name) == None
    ensures var o := Handle(prompt, name, asText, action, services, rendered, msg);
      o.events == Opening(prompt, name) +
        [LogError("error for custom agent: " + asText + " with request: " + Trim(prompt))] &&
      o.state == Handling && o.devInCode == "" &&
      forall i :: 0 <= i < |o.events| ==> !o.events[i].RunDevIn?
  {
  }

  /** No rendering event and no DevIn run changes the agent's state. */
  lemma RenderingKeepsState(action: ResponseAction, chunks: seq<string>, rendered: string, msg: string,
                            parse: string -> Code, processors: seq<string>, name: string)
    ensures var (events, code) := ModeOutcome(action, chunks, rendered, msg, parse);
      forall e :: e in events + DevInRuns(processors, name, code) ==> !e.SetState?
  {
    var (events, code) := ModeOutcome(action, chunks, rendered, msg, parse);
    var runs := DevInRuns(processors, name, code);
    forall e | e in events + runs ensures !e.SetState? {
      if e in runs {
        var i :| 0 <= i < |runs| && runs[i] == e;
      }
    }
  }

  /**
   * With a response, the agent is finished before the first rendering event,
   * whatever the action, Flow included, and its state does not change again.
   */
  lemma FinishedBeforeRendering(prompt: string, name: string, asText: string, action: ResponseAction,
                                services: Services, rendered: string, msg: string)
    requires services.execute(Trim(prompt), name).Some?
    ensures var o := Handle(prompt, name, asText, action, services, rendered, msg);
      o.state == Finished && |o.events| >= 4 && o.events[3] == SetState(Finished) &&
      forall i :: 4 <= i < |o.events| ==> !o.events[i].SetState?
  {
    var chunks := services.execute(Trim(prompt), name).value;
    RenderingKeepsState(action, chunks, rendered, msg, services.parse, services.devInProcessors, name);
    var o := Handle(prompt, name, asText, action, services, rendered, msg);
    var (events, code) := ModeOutcome(action, chunks, rendered, msg, services.parse);
    var rest := events + DevInRuns(services.devInProcessors, name, code);
    assert o.events == Opening(prompt, name) + [SetState(Finished)] + rest;
    forall i | 4 <= i < |o.events| ensures !o.events[i].SetState? {
      assert o.events[i] == rest[i - 4];
    }
  }

  /** `Flow` only logs that it is unsupported; no DevIn code is handed on. */
  lemma FlowOnlyLogs(prompt: string, name: string, asText: string,
                     services: Services, rendered: string, msg: string)
    requires services.execute(Trim(prompt), name).Some?
    ensures var o := Handle(prompt, name, asText, Flow, services, rendered, msg);
      o.events == Opening(prompt, name) + [SetState(Finished), LogError(FlowUnsupported)] && o.devInCode == ""
  {
  }

  /** `TextChunk` puts the concatenated chunks, unstripped, into the input box, in this order of calls. */
  lemma TextChunkFillsInput(prompt: string, name: string, asText: string,
                            services: Services, rendered: string, msg: string, chunks: seq<string>)
    requires services.execute(Trim(prompt), name) == Some(chunks)
    ensures var o := Handle(prompt, name, asText, TextChunk, services, rendered, msg);
      o.events == Opening(prompt, name) + [SetState(Finished),
        AppendLocalMessage(Concat(chunks)), RemoveLastMessage, MoveCursorToStart,
        SetInput(Concat(chunks)), HiddenProgressBar] && o.devInCode == ""
  {
  }

  /** `WebView` shows the concatenated chunks in a web view; no DevIn code is handed on. */
  lemma WebViewShowsText(prompt: string, name: string, asText: string,
                         services: Services, rendered: string, msg: string, chunks: seq<string>)
    requires services.execute(Trim(prompt), name) == Some(chunks)
    ensures var o := Handle(prompt, name, asText, WebView, services, rendered, msg);
      o.events == Opening(prompt, name) + [SetState(Finished),
        AppendLocalMessage(Concat(chunks)), AppendWebView(Concat(chunks)), HiddenProgressBar] &&
      o.devInCode == ""
  {
  }

  /**
   * `Direct` strips one pair of surrounding double quotes, and only when both
   * ends carry one; the code is handed on exactly when it parses as DevIn.
   */
  lemma DirectStripsQuotes(prompt: string, name: string, asText: string,
                           services: Services, rendered: string, msg: string, chunks: seq<string>)
    requires services.execute(Trim(prompt), name) == Some(chunks)
    ensures var o := Handle(prompt, name, asText, Direct, services, rendered, msg);
      var content := RemoveSurrounding(rendered, '"');
      var code := services.parse(content);
      (content != rendered <==> |rendered| >= 2 && rendered[0] == '"' && rendered[|rendered| - 1] == '"') &&
      (content != rendered ==> content == rendered[1..|rendered| - 1]) &&
      o.events[4..10] == [AddMessage("loading", false, ""), UpdateMessage(chunks), AppendLocalMessage(content),
        ReRenderAssistantOutput, HiddenProgressBar, UpdateUI] &&
      o.devInCode == (if code.language == "DevIn" then code.text else "")
  {
    RemoveSurroundingChanges(rendered, '"');
  }

  /** `DevIns` hands the whole message on as DevIn code. */
  lemma DevInsHandsOnMessage(prompt: string, name: string, asText: string,
                             services: Services, rendered: string, msg: string)
    requires services.execute(Trim(prompt), name).Some?
    ensures Handle(prompt, name, asText, DevIns, services, rendered, msg).devInCode == msg
  {
  }

  /** No rendering event runs a DevIn processor. */
  lemma ModeRunsNothing(action: ResponseAction, chunks: seq<string>, rendered: string, msg: string,
                        parse: string -> Code)
    ensures forall e :: e in ModeOutcome(action, chunks, rendered, msg, parse).0 ==> !e.RunDevIn?
  {
  }

  /**
   * A DevIn processor runs exactly when there is a response, its DevIn code is
   * not empty and there are processors; each run gets the agent and that code.
   */
  lemma DevInRunsIffCode(prompt: string, name: string, asText: string, action: ResponseAction,
                         services: Services, rendered: string, msg: string)
    ensures var o := Handle(prompt, name, asText, action, services, rendered, msg);
      ((exists i :: 0 <= i < |o.events| && o.events[i].RunDevIn?) <==>
        services.execute(Trim(prompt), name).Some? && o.devInCode != "" && services.devInProcessors != []) &&
      forall i :: 0 <= i < |o.events| && o.events[i].RunDevIn? ==>
        o.events[i].agent == name && o.events[i].code == o.devInCode &&
        o.events[i].processor in services.devInProcessors
  {
    var o := Handle(prompt, name, asText, action, services, rendered, msg);
    match services.execute(Trim(prompt), name)
    case None =>
    case Some(chunks) =>
      var (events, code) := ModeOutcome(action, chunks, rendered, msg, services.parse);
      ModeRunsNothing(action, chunks, rendered, msg, services.parse);
      var head := Opening(prompt, name) + [SetState(Finished)] + events;
      var runs := DevInRuns(services.devInProcessors, name, code);
      assert o.events == head + runs;
      OnlyTailRuns(head, runs);
      if code != "" && services.devInProcessors != [] {
        assert runs[0].RunDevIn?;
      }
  }

  /** Behind a prefix that runs nothing, the runs are exactly those of the tail. */
  lemma OnlyTailRuns(head: seq<Event>, runs: seq<Event>)
    requires forall e :: e in head ==> !e.RunDevIn?
    ensures forall i :: 0 <= i < |head + runs| && (head + runs)[i].RunDevIn? ==>
      |head| <= i && (head + runs)[i] == runs[i - |head|]
    ensures (exists i :: 0 <= i < |runs| && runs[i].RunDevIn?) ==>
      exists i :: 0 <= i < |head + runs| && (head + runs)[i].RunDevIn?
  {
    forall i | 0 <= i < |head| ensures !(head + runs)[i].RunDevIn? {
      assert (head + runs)[i] == head[i] && head[i] in head;
    }
    if exists i :: 0 <= i < |runs| && runs[i].RunDevIn? {
      var i :| 0 <= i < |runs| && runs[i].RunDevIn?;
      assert (head + runs)[|head| + i] == runs[i];
    }
  }

  /** `sb.append(it)` inside `response.collect` (lines 86-93 and 106-113). */
  method CollectText(chunks: seq<string>) returns (content: string)
    ensures content == Concat(chunks)
  {
    content := "";
    var i := 0;
    while i < |chunks|
      invariant 0 <= i <= |chunks|
      invariant content == Concat(chunks[..i])
    {
      assert chunks[..i + 1][..i] == chunks[..i];
      content := content + chunks[i];
      i := i + 1;
    }
    assert chunks[..i] == chunks;
  }

  /** The `when (selectedAgent.responseAction)` block (lines 45-133): renders the answer and decides `devInCode`. */
  method Render(ui: Trace, action: ResponseAction, chunks: seq<string>, rendered: string, msg: string,
                parse: string -> Code) returns (devInCode: string)
    modifies ui
    ensures ui.events == old(ui.events) + ModeOutcome(action, chunks, rendered, msg, parse).0
    ensures devInCode == ModeOutcome(action, chunks, rendered, msg, parse).1
  {
    match action {
      case Direct => devInCode := RenderDirect(ui, chunks, rendered, msg, parse);
      case Stream => devInCode := RenderMessage(ui, chunks, rendered, msg, parse);
      case TextChunk => devInCode := RenderTextChunk(ui, chunks, rendered, msg, parse);
      case Flow =>
        ui.Emit(LogError(FlowUnsupported));
        devInCode := "";
      case WebView => devInCode := RenderWebView(ui, chunks, rendered, msg, parse);
      case DevIns => devInCode := RenderDevIns(ui, chunks, rendered, msg, parse);
    }
  }

  /** `Direct` (lines 47-66): the rendered answer, unquoted, is shown and parsed. */
  method RenderDirect(ui: Trace, chunks: seq<string>, rendered: string, msg: string, parse: string -> Code)
    returns (devInCode: string)
    modifies ui
    ensures ui.events == old(ui.events) + ModeOutcome(Direct, chunks, rendered, msg, parse).0
    ensures devInCode == ModeOutcome(Direct, chunks, rendered, msg, parse).1
  {
    devInCode := "";
    ui.Emit(AddMessage("loading", false, ""));
    ui.Emit(UpdateMessage(chunks));
    var content := RemoveSurrounding(rendered, '"');
    ui.Emit(AppendLocalMessage(content));
    ui.Emit(ReRenderAssistantOutput);
    var code := parse(content);
    if code.language == DevInLanguage {
      devInCode := code.text;
    }
    ui.Emit(HiddenProgressBar);
    ui.Emit(UpdateUI);
  }

  /** `Stream` (lines 68-83): the streamed message is shown and parsed. */
  method RenderMessage(ui: Trace, chunks: seq<string>, rendered: string, msg: string, parse: string -> Code)
    returns (devInCode: string)
    modifies ui
    ensures ui.events == old(ui.events) + ModeOutcome(Stream, chunks, rendered, msg, parse).0
    ensures devInCode == ModeOutcome(Stream, chunks, rendered, msg, parse).1
  {
    devInCode := "";
    ui.Emit(AddBundleMessage(LoadingKey));
    ui.Emit(AppendLocalMessage(msg));
    ui.Emit(HiddenProgressBar);
    ui.Emit(UpdateUI);
    var code := parse(msg);
    if code.language == DevInLanguage {
      devInCode := code.text;
    }
  }

  /** `TextChunk` (lines 85-99): the collected text goes into the input box. */
  method RenderTextChunk(ui: Trace, chunks: seq<string>, rendered: string, msg: string, parse: string -> Code)
    returns (devInCode: string)
    modifies ui
    ensures ui.events == old(ui.events) + ModeOutcome(TextChunk, chunks, rendered, msg, parse).0
    ensures devInCode == ModeOutcome(TextChunk, chunks, rendered, msg, parse).1
  {
    var content := CollectText(chunks);
    ui.Emit(AppendLocalMessage(content));
    ui.Emit(RemoveLastMessage);
    ui.Emit(MoveCursorToStart);
    ui.Emit(SetInput(content));
    ui.Emit(HiddenProgressBar);
    devInCode := "";
  }

  /** `WebView` (lines 105-118): the collected text is shown in a web view. */
  method RenderWebView(ui: Trace, chunks: seq<string>, rendered: string, msg: string, parse: string -> Code)
    returns (devInCode: string)
    modifies ui
    ensures ui.events == old(ui.events) + ModeOutcome(WebView, chunks, rendered, msg, parse).0
    ensures devInCode == ModeOutcome(WebView, chunks, rendered, msg, parse).1
  {
    var content := CollectText(chunks);
    ui.Emit(AppendLocalMessage(content));
    ui.Emit(AppendWebView(content));
    ui.Emit(HiddenProgressBar);
    devInCode := "";
  }

  /** `DevIns` (lines 120-132): the streamed message is shown and handed on whole. */
  method RenderDevIns(ui: Trace, chunks: seq<string>, rendered: string, msg: string, parse: string -> Code)
    returns (devInCode: string)
    modifies ui
    ensures ui.events == old(ui.events) + ModeOutcome(DevIns, chunks, rendered, msg, parse).0
    ensures devInCode == ModeOutcome(DevIns, chunks, rendered, msg, parse).1
  {
    ui.Emit(AddBundleMessage(LoadingKey));
    ui.Emit(AppendLocalMessage(msg));
    ui.Emit(HiddenProgressBar);
    ui.Emit(UpdateUI);
    devInCode := msg;
  }

  /** The hand-off at lines 135-139: every DevIn processor runs on the agent and the code, unless the code is empty. */
  method HandOff(ui: Trace, processors: seq<string>, agent: string, devInCode: string)
    modifies ui
    ensures ui.events == old(ui.events) + DevInRuns(processors, agent, devInCode)
  {
    if devInCode != "" {
      var i := 0;
      while i < |processors|
        invariant 0 <= i <= |processors|
        invariant ui.events == old(ui.events) + DevInRuns(processors[..i], agent, devInCode)
      {
        ui.Emit(RunDevIn(processors[i], agent, devInCode));
        i := i + 1;
      }
      assert processors[..i] == processors;
    }
  }

  /** `handleChat` (lines 28-140). */
  method HandleChat(prompt: string, ui: Trace, agent: AgentConfig, services: Services,
                    rendered: string, msg: string) returns (devInCode: string)
    modifies ui, agent
    ensures var o := Handle(prompt, agent.name, agent.asText, agent.responseAction, services, rendered, msg);
      ui.events == old(ui.events) + o.events && agent.state == o.state && devInCode == o.devInCode
  {
    ui.Emit(AddMessage(prompt, true, prompt));
    var request := Trim(prompt);
    agent.state := Handling;
    ui.Emit(SetState(Handling));
    ui.Emit(Execute(request, agent.name));
    var opening := Opening(prompt, agent.name);
    assert ui.events == old(ui.events) + opening by {
      AppendAssoc(old(ui.events), [opening[0]], [opening[1]]);
      AppendAssoc(old(ui.events), [opening[0]] + [opening[1]], [opening[2]]);
      assert [opening[0]] + [opening[1]] + [opening[2]] == opening;
    }
    var response := services.execute(request, agent.name);
    if response.None? {
      ui.Emit(LogError("error for custom agent: " + agent.asText + " with request: " + request));
      AppendAssoc(old(ui.events), opening, [LogError(NoResponseError(agent.asText, request))]);
      devInCode := "";
      return;
    }
    agent.state := Finished;
    ui.Emit(SetState(Finished));
    AppendAssoc(old(ui.events), opening, [SetState(Finished)]);
    var mode := ModeOutcome(agent.responseAction, response.value, rendered, msg, services.parse);
    devInCode := Render(ui, agent.responseAction, response.value, rendered, msg, services.parse);
    AppendAssoc(old(ui.events), opening + [SetState(Finished)], mode.0);
    AppendAssoc(old(ui.events), opening + [SetState(Finished)] + mode.0, DevInRuns(services.devInProcessors, agent.name, devInCode));
    HandOff(ui, services.devInProcessors, agent.name, devInCode);
  }
}
