/** The AI-assisted task creation dialog
    (frontend/src/components/tasks/AddTaskModal.jsx): a title is analysed
    by the AI service, optionally analysed in depth, and saved with a
    description assembled from both analyses. Each handler is split at its
    `await`: the part that runs when the handler is called, and the part
    that runs when the awaited call settles, whose answer is a parameter. */
module AddTaskModal {
  import opened Common
  import opened TasksStore

  /** The dialog's `mode`. */
  datatype Mode = Input | Thinking | Result | DeepThinking | DeepResult

  /** The fields of the initial analysis the description uses. */
  datatype Analysis = Analysis(definition: string, origin: string, painPoint: string, whenToUse: string, whenNotToUse: string)

  /** The fields of the deep analysis the description uses. */
  datatype DeepAnalysis = DeepAnalysis(edgeCases: string, realExample: string)

  /** The dialog's state. */
  datatype ModalState = ModalState(title: string, mode: Mode, aiData: Option<Analysis>, deepData: Option<DeepAnalysis>)

  const Initial := ModalState("", Input, None, None)

  /** `!title.trim()`: the title is empty or whitespace only. */
  predicate Blank(title: string)
  {
    forall k :: 0 <= k < |title| ==> IsJsSpace(title[k])
  }

  // ---------------------------------------------------------------------
  // The description

  /** The five lines of the initial analysis, in their fixed order. */
  function InitialPart(a: Analysis): string
  {
    "📚 **Conceito:** " + a.definition + "\n"
      + "💡 **Origem:** " + a.origin + "\n"
      + "💊 **Resolve:** " + a.painPoint + "\n"
      + "✅ **Quando usar:** " + a.whenToUse + "\n"
      + "❌ **Evitar:** " + a.whenNotToUse + "\n"
  }

  /** The two lines of the deep analysis, after an empty line. */
  function DeepPart(d: DeepAnalysis): string
  {
    "\n🔍 **Edge Cases:** " + d.edgeCases + "\n"
      + "🛠️ **Exemplo Real:** " + d.realExample + "\n"
  }

  /** `fullDescription`, built by appending to the empty string. */
  function FullDescription(aiData: Option<Analysis>, deepData: Option<DeepAnalysis>): string
  {
    var initial := if aiData.Some? then InitialPart(aiData.value) else "";
    if deepData.Some? then initial + DeepPart(deepData.value) else initial
  }

  /** The description opens with the initial analysis exactly when there is
      one, ends with the deep analysis exactly when there is one, holds
      nothing else, and is empty when neither is set. */
  lemma FullDescriptionSpec(aiData: Option<Analysis>, deepData: Option<DeepAnalysis>)
    ensures var r := FullDescription(aiData, deepData);
      && (aiData.Some? ==> InitialPart(aiData.value) <= r)
      && (aiData.None? && deepData.Some? ==> r == DeepPart(deepData.value))
      && (deepData.Some? ==> |DeepPart(deepData.value)| <= |r| && r[|r| - |DeepPart(deepData.value)|..] == DeepPart(deepData.value))
      && (deepData.None? ==> r == if aiData.Some? then InitialPart(aiData.value) else "")
      && (r == [] <==> aiData.None? && deepData.None?)
  {
    var r := FullDescription(aiData, deepData);
    if deepData.Some? {
      var d := DeepPart(deepData.value);
      assert d[0] == '\n';
      var initial := if aiData.Some? then InitialPart(aiData.value) else "";
      assert r == initial + d;
      assert r[|initial|..] == d;
    }
    if aiData.Some? {
      assert InitialPart(aiData.value)[0] == '📚';
      assert r[..|InitialPart(aiData.value)|] == InitialPart(aiData.value);
    }
  }

  // ---------------------------------------------------------------------
  // The mode machine

  /** What can happen to the dialog: an edit of the title, a handler being
      called, or an awaited call settling. */
  datatype Event =
    | Edit(newTitle: string)
    | Analyze
    | AnalyzeSettled(analysis: Reply<Analysis>)
    | DeepDive
    | DeepDiveSettled(deep: Reply<DeepAnalysis>)
    | Save(added: Reply<()>)

  /** The state after `e`. */
  function Next(s: ModalState, e: Event): ModalState
  {
    match e
    case Edit(t) => s.(title := t)
    case Analyze => if Blank(s.title) then s else s.(mode := Thinking)
    case AnalyzeSettled(Ok(a)) => s.(aiData := Some(a), mode := Result)
    case AnalyzeSettled(Failed) => s.(mode := Input)
    case DeepDive => s.(mode := DeepThinking)
    case DeepDiveSettled(Ok(d)) => s.(deepData := Some(d), mode := DeepResult)
    case DeepDiveSettled(Failed) => s.(mode := Result)
    case Save(Ok(_)) => Initial
    case Save(Failed) => s
  }

  /** The deep-dive button is shown only in 'result'. */
  predicate DeepDiveOffered(m: Mode)
  {
    m == Result
  }

  /** The save button is shown in 'result' and in 'deep_result'. */
  predicate SaveOffered(m: Mode)
  {
    m == Result || m == DeepResult
  }

  /** The events the rendered dialog lets happen: the textarea and the
      analyse button only in 'input', the result buttons as offered, and a
      settlement only while its call is pending. */
  predicate Enabled(s: ModalState, e: Event)
  {
    match e
    case Edit(_) => s.mode == Input
    case Analyze => s.mode == Input
    case AnalyzeSettled(_) => s.mode == Thinking
    case DeepDive => DeepDiveOffered(s.mode)
    case DeepDiveSettled(_) => s.mode == DeepThinking
    case Save(_) => SaveOffered(s.mode)
  }

  /** What the dialog shows is backed by its data: every result mode has an
      initial analysis, and 'deep_result' a deep one. */
  predicate Consistent(s: ModalState)
  {
    && (s.mode == Result || s.mode == DeepThinking || s.mode == DeepResult ==> s.aiData.Some?)
    && (s.mode == DeepResult ==> s.deepData.Some?)
  }

  /** Every enabled event keeps the dialog consistent; an analysis of a
      blank title changes nothing; a failed deep dive returns to 'result'
      with the initial analysis kept; a save that completes resets the
      dialog. */
  lemma {:induction false} NextSpec(s: ModalState, e: Event)
    requires Consistent(s) && Enabled(s, e)
    ensures Consistent(Next(s, e))
    ensures e == Analyze && Blank(s.title) ==> Next(s, e) == s
    ensures e == Analyze && !Blank(s.title) ==> Next(s, e).mode == Thinking
    ensures e.AnalyzeSettled? && e.analysis.Ok? ==> Next(s, e).mode == Result && Next(s, e).aiData == Some(e.analysis.value)
    ensures e.AnalyzeSettled? && e.analysis.Failed? ==> Next(s, e).mode == Input
    ensures e.DeepDiveSettled? && e.deep.Failed? ==> Next(s, e).mode == Result && Next(s, e).aiData == s.aiData
    ensures e.Save? && e.added.Ok? ==> Next(s, e) == Initial
  {
    match e
    case Edit(_) =>
    case Analyze =>
    case AnalyzeSettled(_) =>
    case DeepDive =>
      assert s.mode == Result;
    case DeepDiveSettled(_) =>
      assert s.aiData.Some?;
    case Save(_) =>
  }

  /** The events that can ever happen from a state, in order. */
  predicate Run(s: ModalState, events: seq<Event>)
    decreases |events|
  {
    events == [] || (Enabled(s, events[0]) && Run(Next(s, events[0]), events[1..]))
  }

  function After(s: ModalState, events: seq<Event>): ModalState
    decreases |events|
  {
    if events == [] then s else After(Next(s, events[0]), events[1..])
  }

  /** From a consistent state, such as `Initial`, the dialog stays
      consistent through any run the rendered dialog allows. */
  lemma {:induction false} RunConsistent(s: ModalState, events: seq<Event>)
    requires Consistent(s) && Run(s, events)
    ensures Consistent(After(s, events))
    decreases |events|
  {
    if events != [] {
      NextSpec(s, events[0]);
      RunConsistent(Next(s, events[0]), events[1..]);
    }
  }

  /** The dialog with its state in fields, and the task list it adds to
      through `onAddTask`. */
  class Dialog {
    var title: string
    var mode: Mode
    var aiData: Option<Analysis>
    var deepData: Option<DeepAnalysis>
    var closeCalls: nat

    function State(): ModalState
      reads this
    {
      ModalState(title, mode, aiData, deepData)
    }

    constructor ()
      ensures State() == Initial && closeCalls == 0
    {
      title, mode, aiData, deepData, closeCalls := "", Input, None, None, 0;
    }

    /** `handleAnalyze` up to its `await`: a blank title does nothing;
        otherwise the dialog shows 'thinking' and the title is sent for the
        initial analysis (`sent`). */
    method HandleAnalyze() returns (sent: Option<string>)
      modifies this
      ensures State() == Next(old(State()), Analyze) && closeCalls == old(closeCalls)
      ensures sent.Some? <==> !Blank(old(title))
      ensures sent.Some? ==> sent.value == title
    {
      if Blank(title) {
        return None;
      }
      mode := Thinking;
      sent := Some(title);
    }

    /** The rest of `handleAnalyze`, once the analysis settles. */
    method AnalyzeSettle(analysis: Reply<Analysis>)
      modifies this
      ensures State() == Next(old(State()), AnalyzeSettled(analysis)) && closeCalls == old(closeCalls)
    {
      if analysis.Ok? {
        aiData := Some(analysis.value);
        mode := Result;
      } else {
        mode := Input;
      }
    }

    /** `handleDeepDive` up to its `await`. */
    method HandleDeepDive() returns (sent: string)
      modifies this
      ensures State() == Next(old(State()), DeepDive) && closeCalls == old(closeCalls)
      ensures sent == title
    {
      mode := DeepThinking;
      sent := title;
    }

    /** The rest of `handleDeepDive`: on failure the initial result stays. */
    method DeepDiveSettle(deep: Reply<DeepAnalysis>)
      modifies this
      ensures State() == Next(old(State()), DeepDiveSettled(deep)) && closeCalls == old(closeCalls)
    {
      if deep.Ok? {
        deepData := Some(deep.value);
        mode := DeepResult;
      } else {
        mode := Result;
      }
    }

    /** `handleFinalSave` with `onAddTask` bound to the task list's `addTask`:
        the description is assembled and passed along, but `addTask` takes
        the title only, so the request posted carries no description. When
        `addTask` throws, the rejection escapes the handler before the reset;
        otherwise the dialog is reset and `onClose` is called once. */
    method HandleFinalSave(tasks: TasksProvider, reply: Reply<TaskRecord>)
      returns (description: string, request: NewTask)
      modifies this, tasks
      ensures description == FullDescription(old(aiData), old(deepData))
      ensures request == AddRequest(old(title))
      ensures reply.Ok? ==> tasks.tasks == [reply.value] + old(tasks.tasks)
      ensures reply.Ok? ==> State() == Initial && closeCalls == old(closeCalls) + 1
      ensures reply.Failed? ==> tasks.tasks == old(tasks.tasks) && State() == old(State()) && closeCalls == old(closeCalls)
    {
      description := "";
      if aiData.Some? {
        description := "📚 **Conceito:** " + aiData.value.definition + "\n";
        description := description + "💡 **Origem:** " + aiData.value.origin + "\n";
        description := description + "💊 **Resolve:** " + aiData.value.painPoint + "\n";
        description := description + "✅ **Quando usar:** " + aiData.value.whenToUse + "\n";
        description := description + "❌ **Evitar:** " + aiData.value.whenNotToUse + "\n";
        assert description == InitialPart(aiData.value);
      }
      assert description == if aiData.Some? then InitialPart(aiData.value) else "";
      if deepData.Some? {
        description := description + "\n🔍 **Edge Cases:** " + deepData.value.edgeCases + "\n";
        description := description + "🛠️ **Exemplo Real:** " + deepData.value.realExample + "\n";
        assert description == (if aiData.Some? then InitialPart(aiData.value) else "") + DeepPart(deepData.value);
      }
      assert description == FullDescription(aiData, deepData);
      var rethrown;
      request, rethrown := tasks.AddTask(title, reply);
      if rethrown {
        return;
      }
      title, aiData, deepData, mode := "", None, None, Input;
      closeCalls := closeCalls + 1;
    }
  }
}
