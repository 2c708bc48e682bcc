/**
 * The bot's dispatch state: the callback data carried by inline buttons and how a
 * pressed button is decoded and acted on, the reply-keyboard conversation that waits
 * for the description of a new task, and the cap on the tasks shown in the brief.
 * Telegram itself is not modelled: a handler's effect is the `Action` or
 * `InlineOutcome` it returns and the state it changes.
 */
module Bot {
  import opened Wrappers
  import opened Text
  import opened Records
  import opened AiFallbacks
  import opened Router
  import TasksLocal
  import AiConfig

  // ---------------------------------------------------------------------------
  // Inline buttons and their callback data

  const CompletePrefix := "complete_"
  const ProviderPrefix := "ai_provider_"
  const ModelPrefix := "ai_model_"
  const BackData := "ai_config_back"
  /** The data of the "current configuration" button, which no branch of the dispatcher handles. */
  const InfoData := "ai_config_info"
  const BackLabel := "\U{2B05}\U{FE0F} Volver"
  const MarkDoneLabel := "Marcar como hecha \U{2705}"
  const CompleteLabelPrefix := "\U{2705} Completar: "
  /** How many of today's tasks get a "complete" button. */
  const TaskButtonLimit := 3

  datatype Button = Button(caption: string, data: string)

  /** What `handle_inline_button` decides to do with a callback's data. */
  datatype Callback =
    | CompleteTask(taskId: string)
    | SelectProvider(provider: string)
    | SelectModel(provider: string, model: string)
    | ShowMenu
    | NoCallbackAction

  /** The data of a task's "complete" button. */
  function CompleteData(taskId: string): (data: string)
    ensures StartsWith(data, CompletePrefix) && data[|CompletePrefix|..] == taskId
  {
    CompletePrefix + taskId
  }

  /** `get_task_inline_keyboard`: a single button completing the task. */
  function TaskKeyboard(taskId: string): (rows: seq<seq<Button>>)
    ensures rows == [[Button(MarkDoneLabel, CompleteData(taskId))]]
  {
    [[Button(MarkDoneLabel, CompleteData(taskId))]]
  }

  /** The data of a model button of provider `provider`. */
  function ModelData(provider: string, modelId: string): string {
    ModelPrefix + provider + "_" + modelId
  }

  /** Python's `s.split(sep, 1)`: the parts before and after the first `sep`, or `[s]`. */
  function SplitOnce(s: string, sep: char): (r: seq<string>)
    ensures sep !in s ==> r == [s]
    ensures sep in s ==> |r| == 2 && sep !in r[0] && r[0] + [sep] + r[1] == s
    decreases |s|
  {
    if |s| == 0 then [s]
    else if s[0] == sep then ["", s[1..]]
    else
      var rest := SplitOnce(s[1..], sep);
      if |rest| == 1 then [s] else [[s[0]] + rest[0], rest[1]]
  }

  /** Splitting at the first separator recovers the two sides when the left one has none. */
  lemma {:induction false} SplitOnceRecovers(a: string, sep: char, b: string)
    requires sep !in a
    ensures SplitOnce(a + [sep] + b, sep) == [a, b]
    decreases |a|
  {
    if |a| > 0 {
      assert (a + [sep] + b)[1..] == a[1..] + [sep] + b;
      SplitOnceRecovers(a[1..], sep, b);
      assert [a[0]] + a[1..] == a;
    } else {
      assert a + [sep] + b == [sep] + b;
    }
  }

  /** `handle_inline_button`'s dispatch: prefixes are tried in this order, then the exact "back" data. */
  function ParseCallback(data: string): Callback {
    if StartsWith(data, CompletePrefix) then CompleteTask(RemoveAll(data, CompletePrefix))
    else if StartsWith(data, ProviderPrefix) then SelectProvider(RemoveAll(data, ProviderPrefix))
    else if StartsWith(data, ModelPrefix) then
      var parts := SplitOnce(RemoveAll(data, ModelPrefix), '_');
      if |parts| == 2 then SelectModel(parts[0], parts[1]) else NoCallbackAction
    else if data == BackData then ShowMenu
    else NoCallbackAction
  }

  /** Removing a prefix that occurs only at the front leaves the rest. */
  lemma StripsPrefixOnce(prefix: string, rest: string)
    requires |prefix| > 0 && !Contains(rest, prefix)
    ensures RemoveAll(prefix + rest, prefix) == rest
  {
    assert StartsWith(prefix + rest, prefix);
    assert (prefix + rest)[|prefix|..] == rest;
    RemoveAbsent(rest, prefix);
  }

  /** A task's "complete" button is decoded to that task, whenever the id does not itself hold "complete_". */
  lemma CompleteButtonRoundTrip(taskId: string)
    requires !Contains(taskId, CompletePrefix)
    ensures ParseCallback(CompleteData(taskId)) == CompleteTask(taskId)
  {
    StripsPrefixOnce(CompletePrefix, taskId);
  }

  /** Every id the task store hands out (`T001`, ...) and every recurring instance id survive the round trip. */
  lemma StoreIdButtonsRoundTrip(n: nat)
    ensures ParseCallback(CompleteData(TasksLocal.TaskId(n))) == CompleteTask(TasksLocal.TaskId(n))
    ensures ParseCallback(CompleteData(TasksLocal.TaskId(n) + "_today")) == CompleteTask(TasksLocal.TaskId(n) + "_today")
  {
    TasksLocal.TaskIdHasNoUnderscore(n);
    assert CompletePrefix[8] == '_';
    MissingCharNotContained(TasksLocal.TaskId(n), CompletePrefix, '_');
    CompleteButtonRoundTrip(TasksLocal.TaskId(n));
    var instance := TasksLocal.TaskId(n) + "_today";
    assert 'c' !in instance by {
      assert forall i :: 0 <= i < |TasksLocal.TaskId(n)| ==> instance[i] == TasksLocal.TaskId(n)[i];
      assert forall i :: 0 <= i < |TasksLocal.TaskId(n)| ==> TasksLocal.TaskId(n)[i] == 'T' || IsDigit(TasksLocal.TaskId(n)[i]) by {
        forall i | 0 <= i < |TasksLocal.TaskId(n)| ensures TasksLocal.TaskId(n)[i] == 'T' || IsDigit(TasksLocal.TaskId(n)[i]) {
          if i > 0 {
            assert TasksLocal.TaskId(n)[i] == Pad3(n)[i - 1];
          }
        }
      }
    }
    assert CompletePrefix[0] == 'c';
    MissingCharNotContained(instance, CompletePrefix, 'c');
    CompleteButtonRoundTrip(instance);
  }

  /**
   * A model button is decoded to the provider and model it was built from, when neither
   * holds an underscore: the only underscore after the prefix is the separator.
   */
  lemma ModelButtonRoundTrip(provider: string, modelId: string)
    requires '_' !in provider && '_' !in modelId
    ensures ParseCallback(ModelData(provider, modelId)) == SelectModel(provider, modelId)
  {
    var rest := provider + "_" + modelId;
    assert ModelData(provider, modelId) == ModelPrefix + rest;
    SeparatorIsOnlyUnderscore(provider, modelId);
    if Contains(rest, ModelPrefix) {
      var k := ContainsWitness(rest, ModelPrefix);
      PrefixUnderscores(rest, k);
      assert false;
    }
    StripsPrefixOnce(ModelPrefix, rest);
    assert ModelData(provider, modelId)[0] != CompletePrefix[0];
    assert ModelData(provider, modelId)[3] != ProviderPrefix[3];
    SplitOnceRecovers(provider, '_', modelId);
  }

  /** Joining two underscore-free strings with `_` leaves one underscore, the separator. */
  lemma SeparatorIsOnlyUnderscore(provider: string, modelId: string)
    requires '_' !in provider && '_' !in modelId
    ensures forall i :: 0 <= i < |provider + "_" + modelId| && (provider + "_" + modelId)[i] == '_' ==> i == |provider|
  {
  }

  /** An occurrence of the model prefix puts underscores at its offsets 2 and 8. */
  lemma PrefixUnderscores(rest: string, k: nat)
    requires k + |ModelPrefix| <= |rest| && rest[k..k + |ModelPrefix|] == ModelPrefix
    ensures rest[k + 2] == '_' && rest[k + 8] == '_'
  {
    assert rest[k + 2] == rest[k..k + |ModelPrefix|][2];
    assert rest[k + 8] == rest[k..k + |ModelPrefix|][8];
  }

  /** `'_' !in s`, stated index by index. */
  predicate PlainId(s: string) {
    forall i :: 0 <= i < |s| ==> s[i] != '_'
  }

  /** No catalogue model id holds an underscore. */
  lemma CatalogueIdsPlain(provider: string)
    ensures forall i :: 0 <= i < |AiConfig.GetAvailableModels(provider)| ==> '_' !in AiConfig.GetAvailableModels(provider)[i].id
  {
    var models := AiConfig.GetAvailableModels(provider);
    if provider == AiConfig.Gemini {
      GeminiIdsPlain();
    } else if provider == AiConfig.OpenRouter {
      OpenRouterIdsPlain0To1();
      OpenRouterIdsPlain2To3();
      OpenRouterIdsPlain4To5();
      OpenRouterIdsPlain6To7();
      OpenRouterIdsPlain8To8();
    }
    forall i | 0 <= i < |models| ensures '_' !in models[i].id {
      assert PlainId(models[i].id);
    }
  }

  /*
   * The catalogue ids are checked character by character, a few entries per lemma: one
   * lemma for all nine OpenRouter entries is too costly for the solver, so
   * `OpenRouterIdsPlain0To1` to `OpenRouterIdsPlain8To8` each cover a slice of one fact,
   * that no catalogue id holds "_", which `CatalogueIdsPlain` puts together.
   */

  lemma GeminiIdsPlain()
    ensures forall i :: 0 <= i < |AiConfig.GeminiModels| ==> PlainId(AiConfig.GeminiModels[i].id)
  {
    assert PlainId(AiConfig.GeminiModels[0].id);
    assert PlainId(AiConfig.GeminiModels[1].id);
    assert PlainId(AiConfig.GeminiModels[2].id);
  }

  lemma OpenRouterIdsPlain0To1()
    ensures forall i :: 0 <= i <= 1 ==> PlainId(AiConfig.OpenRouterModels[i].id)
  {
    assert PlainId(AiConfig.OpenRouterModels[0].id);
    assert PlainId(AiConfig.OpenRouterModels[1].id);
  }

  lemma OpenRouterIdsPlain2To3()
    ensures forall i :: 2 <= i <= 3 ==> PlainId(AiConfig.OpenRouterModels[i].id)
  {
    assert PlainId(AiConfig.OpenRouterModels[2].id);
    assert PlainId(AiConfig.OpenRouterModels[3].id);
  }

  lemma OpenRouterIdsPlain4To5()
    ensures forall i :: 4 <= i <= 5 ==> PlainId(AiConfig.OpenRouterModels[i].id)
  {
    assert PlainId(AiConfig.OpenRouterModels[4].id);
    assert PlainId(AiConfig.OpenRouterModels[5].id);
  }

  lemma OpenRouterIdsPlain6To7()
    ensures forall i :: 6 <= i <= 7 ==> PlainId(AiConfig.OpenRouterModels[i].id)
  {
    assert PlainId(AiConfig.OpenRouterModels[6].id);
    assert PlainId(AiConfig.OpenRouterModels[7].id);
  }

  lemma OpenRouterIdsPlain8To8()
    ensures forall i :: 8 <= i <= 8 ==> PlainId(AiConfig.OpenRouterModels[i].id)
  {
    assert PlainId(AiConfig.OpenRouterModels[8].id);
  }

  /** One button of the model menu. */
  function ModelButton(provider: string, m: AiConfig.ModelInfo): Button {
    Button(m.name, ModelData(provider, m.id))
  }

  /** The buttons of `handle_provider_selection`'s menu: one per catalogue model, then "back". */
  function ModelButtonList(provider: string): (r: seq<Button>)
    ensures |r| == |AiConfig.GetAvailableModels(provider)| + 1
    ensures r[|r| - 1] == Button(BackLabel, BackData)
    ensures forall i :: 0 <= i < |r| - 1 ==> r[i] == ModelButton(provider, AiConfig.GetAvailableModels(provider)[i])
  {
    var models := AiConfig.GetAvailableModels(provider);
    seq(|models|, i requires 0 <= i < |models| => ModelButton(provider, models[i])) + [Button(BackLabel, BackData)]
  }

  /** The button loop of `handle_provider_selection`. */
  method ModelMenuButtons(provider: string) returns (buttons: seq<Button>)
    ensures buttons == ModelButtonList(provider)
  {
    var models := AiConfig.GetAvailableModels(provider);
    buttons := [];
    var i := 0;
    while i < |models|
      invariant 0 <= i <= |models|
      invariant |buttons| == i
      invariant forall j :: 0 <= j < i ==> buttons[j] == ModelButton(provider, models[j])
    {
      buttons := buttons + [Button(models[i].name, ModelPrefix + provider + "_" + models[i].id)];
      i := i + 1;
    }
    buttons := buttons + [Button(BackLabel, BackData)];
  }

  /**
   * Every button of every model menu is dispatched to what it shows: a model button
   * selects that provider and model, and the last button returns to the settings menu.
   */
  lemma ModelMenuRoundTrip(provider: string)
    ensures var r := ModelButtonList(provider);
      && ParseCallback(r[|r| - 1].data) == ShowMenu
      && forall i :: 0 <= i < |r| - 1 ==>
           ParseCallback(r[i].data) == SelectModel(provider, AiConfig.GetAvailableModels(provider)[i].id)
  {
    var r := ModelButtonList(provider);
    var models := AiConfig.GetAvailableModels(provider);
    assert BackData[0] != CompletePrefix[0] && BackData[3] != ProviderPrefix[3] && BackData[3] != ModelPrefix[3];
    CatalogueIdsPlain(provider);
    forall i | 0 <= i < |r| - 1
      ensures ParseCallback(r[i].data) == SelectModel(provider, models[i].id)
    {
      ModelButtonRoundTrip(provider, models[i].id);
    }
  }

  /** The provider buttons of the settings menu select their provider. */
  lemma ProviderButtonRoundTrip(provider: string)
    requires provider == AiConfig.Gemini || provider == AiConfig.OpenRouter
    ensures ParseCallback(ProviderPrefix + provider) == SelectProvider(provider)
  {
    assert ProviderPrefix[6] == 'v';
    assert forall i :: 0 <= i < |provider| ==> provider[i] != 'v';
    MissingCharNotContained(provider, ProviderPrefix, 'v');
    StripsPrefixOnce(ProviderPrefix, provider);
    assert (ProviderPrefix + provider)[0] != CompletePrefix[0];
  }

  /** The "current configuration" button of the settings menu is handled by no branch. */
  lemma InfoButtonIgnored()
    ensures ParseCallback(InfoData) == NoCallbackAction
  {
    assert InfoData[0] != CompletePrefix[0] && InfoData[3] != ProviderPrefix[3] && InfoData[3] != ModelPrefix[3];
    assert InfoData[10] != BackData[10];
  }

  /** The "complete" button `cmd_tasks` offers for one task. */
  function TaskButton(t: TasksLocal.Task): Button {
    Button(CompleteLabelPrefix + TakePrefix(t.title, 20) + "...", CompleteData(t.id))
  }

  /** The button loop of `cmd_tasks`: a "complete" button for each of the first three tasks. */
  method TaskCompleteButtons(tasks: seq<TasksLocal.Task>) returns (buttons: seq<Button>)
    ensures |buttons| == if |tasks| < TaskButtonLimit then |tasks| else TaskButtonLimit
    ensures forall i :: 0 <= i < |buttons| ==> buttons[i] == TaskButton(tasks[i])
  {
    var shown := TakePrefix(tasks, TaskButtonLimit);
    buttons := [];
    var i := 0;
    while i < |shown|
      invariant 0 <= i <= |shown|
      invariant |buttons| == i
      invariant forall j :: 0 <= j < i ==> buttons[j] == TaskButton(tasks[j])
    {
      var task := shown[i];
      buttons := buttons + [Button(CompleteLabelPrefix + TakePrefix(task.title, 20) + "...", CompletePrefix + task.id)];
      i := i + 1;
    }
  }

  /** What `handle_inline_button` did. */
  datatype InlineOutcome =
    | TaskMarkedDone(taskId: string)
    | TaskNotFound(taskId: string)
    | ModelMenu(provider: string, buttons: seq<Button>)
    | ConfigUpdated(provider: string, model: string, providerConfigured: bool)
    | ConfigUpdateFailed
    | ConfigMenu
    | Unhandled

  /**
   * `handle_inline_button` with `handle_provider_selection` and `handle_model_selection`:
   * the decoded callback completes a task in `store`, opens a model menu, or stores a new
   * provider and model in `settings`. `saved` says whether the file written succeeds.
   * A task that exists but cannot be saved is reported as not found, as `complete_task`
   * returns false for both.
   */
  method HandleInlineButton(data: string, store: TasksLocal.TaskStore, settings: AiConfig.AiSettings,
                            now: TasksLocal.Stamp, saved: bool) returns (outcome: InlineOutcome)
    modifies store, settings
    ensures var cb := ParseCallback(data);
      && (cb.CompleteTask? ==>
            && (outcome == TaskMarkedDone(cb.taskId) || outcome == TaskNotFound(cb.taskId))
            && (outcome.TaskMarkedDone? <==> cb.taskId in TasksLocal.Ids(old(store.tasks)) && saved)
            && store.tasks == if outcome.TaskMarkedDone? then TasksLocal.CompleteFirst(old(store.tasks), cb.taskId, now)
                              else old(store.tasks))
      && (!cb.CompleteTask? ==> store.tasks == old(store.tasks))
      && (cb.SelectProvider? ==> outcome == ModelMenu(cb.provider, ModelButtonList(cb.provider)))
      && (cb.SelectModel? ==>
            && (outcome.ConfigUpdated? <==> saved)
            && (!saved ==> outcome == ConfigUpdateFailed)
            && (saved ==>
                  && settings.stored == Some(AiConfig.UpdatedConfig(AiConfig.LoadedConfig(old(settings.stored), old(settings.env)),
                                                                    cb.provider, Some(cb.model)))
                  && settings.env == AiConfig.UpdatedEnv(old(settings.env), cb.provider, Some(cb.model))
                  && outcome == ConfigUpdated(cb.provider, cb.model, settings.GetCurrentConfig().providerConfigured)
                  && settings.GetCurrentConfig().provider == cb.provider
                  && (cb.model != "" && (cb.provider == AiConfig.Gemini || cb.provider == AiConfig.OpenRouter) ==>
                        settings.GetCurrentConfig().model == Some(cb.model))))
      && (!cb.SelectModel? || !saved ==> settings.stored == old(settings.stored) && settings.env == old(settings.env))
      && (cb.ShowMenu? ==> outcome == ConfigMenu)
      && (cb.NoCallbackAction? ==> outcome == Unhandled)
  {
    var cb := ParseCallback(data);
    match cb
    case CompleteTask(taskId) =>
      var ok := store.CompleteTask(taskId, now, saved);
      outcome := if ok then TaskMarkedDone(taskId) else TaskNotFound(taskId);
    case SelectProvider(provider) =>
      var buttons := ModelMenuButtons(provider);
      outcome := ModelMenu(provider, buttons);
    case SelectModel(provider, model) =>
      var r := settings.UpdateAiProvider(provider, Some(model), saved);
      if r.Ok? {
        AiConfig.UpdateThenStatus(AiConfig.LoadedConfig(old(settings.stored), old(settings.env)), old(settings.env),
                                  provider, Some(model));
        var status := settings.GetCurrentConfig();
        outcome := ConfigUpdated(provider, model, status.providerConfigured);
      } else {
        outcome := ConfigUpdateFailed;
      }
    case ShowMenu =>
      outcome := ConfigMenu;
    case NoCallbackAction =>
      outcome := Unhandled;
  }

  // ---------------------------------------------------------------------------
  // The reply keyboard and the conversation waiting for a task description

  const BriefButton := "Brief \U{1F5DE}"
  const TodayButton := "Tareas de hoy \U{2705}"
  const AddTaskButton := "A\U{00F1}adir tarea \U{2795}"
  const RecurrentButton := "Recurrente \U{267B}\U{FE0F}"
  const AiConfigButton := "Configurar IA \U{1F916}"
  const PreferencesButton := "Preferencias \U{2699}\U{FE0F}"

  predicate IsMenuButton(text: string) {
    text == BriefButton || text == TodayButton || text == AddTaskButton
    || text == RecurrentButton || text == AiConfigButton || text == PreferencesButton
  }

  /** The `waiting_for` entry of the user's data; a missing entry is `Idle`. */
  datatype Waiting = Idle | AddingTask | AddingRecurrent

  /** What the bot does in answer to a reply-keyboard message. */
  datatype Action =
    | ShowBrief
    | ShowTasks
    | PromptTask
    | PromptRecurrentTask
    | ShowAiMenu
    | ShowPreferences
    | Clarify(message: string)
    | TaskCreated(title: string, taskId: string)
    | RecurrentTaskCreated(title: string, taskId: string)
    | CreationFailed
    | NoAction

  /** How a free-text message would be handled, decided before any task is stored. */
  datatype Plan =
    | Ignore
    | AskAgain(message: string)
    | Invalid
    | CreateTask(title: string, notes: string, priority: string, due: Option<TasksLocal.Stamp>)
    | CreateRecurrent(title: string, rrule: string, notes: string, priority: string)

  /** `args.get(key, default)`. */
  function ArgOr(args: map<string, string>, key: string, default: string): string {
    if key in args then args[key] else default
  }

  /** `bool(args.get(key))`. */
  predicate ArgGiven(args: map<string, string>, key: string) {
    key in args && args[key] != ""
  }

  const DefaultTime := "09:00"

  /** The string handed to `datetime.fromisoformat`: the due date with its time, or nine o'clock, or nothing. */
  function DueText(args: map<string, string>): (r: Option<string>)
    ensures r.Some? <==> ArgGiven(args, "due")
  {
    if ArgGiven(args, "due") && ArgGiven(args, "time") then Some(args["due"] + " " + args["time"])
    else if ArgGiven(args, "due") then Some(args["due"] + " " + DefaultTime)
    else None
  }

  /** The due text splits back at its first blank into the date given and the time given (or nine o'clock). */
  lemma DueTextParts(args: map<string, string>)
    requires ArgGiven(args, "due") && ' ' !in args["due"]
    ensures Split(DueText(args).value, ' ') ==
            [args["due"]] + Split(if ArgGiven(args, "time") then args["time"] else DefaultTime, ' ')
  {
    SplitAtFirstSep(args["due"], ' ', if ArgGiven(args, "time") then args["time"] else DefaultTime);
  }

  /** The routing dict for an instruction; routing always yields one. */
  function Routed(instruction: string, reply: AiReply, parse: string -> Option<RouteDict>): RouteDict {
    RouteAlwaysHasIntent(instruction, reply, parse);
    RouteInstruction(instruction, reply, parse).route
  }

  /** The branch shared by both flows: a clarification is shown only when it carries a message. */
  function ClarifyPlan(route: RouteDict): Plan
    requires route.intent == Some("clarify")
  {
    if route.message.Some? then AskAgain(route.message.value) else Invalid
  }

  /** The add-task flow: the arguments of the routed `add` instruction, with their defaults. */
  function AddPlan(text: string, route: RouteDict, parseDue: string -> Option<TasksLocal.Stamp>): (p: Plan)
    ensures p.Ignore? == false && p.CreateRecurrent? == false
    ensures route.intent != Some("clarify") && p.CreateTask? ==>
      var args := route.args.GetOr(map[]);
      && p.title == ArgOr(args, "title", text) && p.notes == ArgOr(args, "notes", "")
      && p.priority == ArgOr(args, "priority", "medium")
      && (p.due.Some? <==> ArgGiven(args, "due"))
  {
    if route.intent == Some("clarify") then ClarifyPlan(route)
    else
      var args := route.args.GetOr(map[]);
      var due := DueText(args);
      if due.Some? && parseDue(due.value).None? then Invalid
      else CreateTask(ArgOr(args, "title", text), ArgOr(args, "notes", ""), ArgOr(args, "priority", "medium"),
                      if due.Some? then parseDue(due.value) else None)
  }

  /** The recurring-task flow: the arguments of the routed `recur` instruction, with their defaults. */
  function RecurPlan(text: string, route: RouteDict): (p: Plan)
    ensures route.intent != Some("clarify") ==> p.CreateRecurrent?
    ensures route.intent != Some("clarify") ==>
      var args := route.args.GetOr(map[]);
      p == CreateRecurrent(ArgOr(args, "title", text), ArgOr(args, "rrule", "FREQ=DAILY"),
                           ArgOr(args, "notes", ""), ArgOr(args, "priority", "medium"))
  {
    if route.intent == Some("clarify") then ClarifyPlan(route)
    else
      var args := route.args.GetOr(map[]);
      CreateRecurrent(ArgOr(args, "title", text), ArgOr(args, "rrule", "FREQ=DAILY"),
                      ArgOr(args, "notes", ""), ArgOr(args, "priority", "medium"))
  }

  /** The plan for a free-text message in conversation state `w`. */
  function PlanFor(w: Waiting, text: string, reply: AiReply, parse: string -> Option<RouteDict>,
                   parseDue: string -> Option<TasksLocal.Stamp>): (p: Plan)
    ensures p.Ignore? <==> w == Idle
    ensures p.CreateTask? ==> w == AddingTask
    ensures p.CreateRecurrent? ==> w == AddingRecurrent
  {
    match w
    case Idle => Ignore
    case AddingTask => AddPlan(text, Routed("add " + text, reply, parse), parseDue)
    case AddingRecurrent => RecurPlan(text, Routed("recur " + text, reply, parse))
  }

  /** Lower-casing a concatenation starts with the lower-cased front. */
  lemma LowerPrefix(a: string, b: string)
    ensures Lower(a + b)[..|a|] == Lower(a)
  {
  }

  /** An instruction starting with `word` (already lower case) mentions it. */
  lemma MentionsLeadingWord(word: string, text: string)
    requires forall i :: 0 <= i < |word| ==> !('A' <= word[i] <= 'Z')
    ensures Contains(Lower(word + text), word)
  {
    LowerPrefix(word, text);
    LowerUnchanged(word);
  }

  /**
   * Without the AI the keyword router decides, and the word the add flow puts in front
   * of the message is itself a keyword: the task is always created, with the whole routed
   * instruction (prefix included) as its title, medium priority and no due date.
   */
  lemma OfflineAddCreates(text: string, parse: string -> Option<RouteDict>,
                          parseDue: string -> Option<TasksLocal.Stamp>)
    ensures PlanFor(AddingTask, text, NoReply, parse, parseDue) == CreateTask("add " + text, "", "medium", None)
  {
    RouteAlwaysHasIntent("add " + text, NoReply, parse);
    MentionsLeadingWord("add", " " + text);
    assert "add" + " " + text == "add " + text;
    assert ContainsAny(Lower("add " + text), AddWords) by {
      assert AddWords[0] == "add";
    }
  }

  /** Likewise, the recurring flow without the AI always creates a daily task titled with the whole routed instruction. */
  lemma OfflineRecurCreates(text: string, parse: string -> Option<RouteDict>,
                            parseDue: string -> Option<TasksLocal.Stamp>)
    ensures PlanFor(AddingRecurrent, text, NoReply, parse, parseDue) == CreateRecurrent("recur " + text, "FREQ=DAILY", "", "medium")
  {
    RouteAlwaysHasIntent("recur " + text, NoReply, parse);
    MentionsLeadingWord("recur", " " + text);
    assert "recur" + " " + text == "recur " + text;
    assert ContainsAny(Lower("recur " + text), RecurWords) by {
      assert RecurWords[0] == "recur";
    }
  }

  /** The conversation state of one user. */
  class Conversation {
    var waitingFor: Waiting

    constructor()
      ensures waitingFor == Idle
    {
      waitingFor := Idle;
    }

    /**
     * `handle_button_message`. The add and recurring buttons start waiting for a
     * description and the other menu buttons leave the state alone. A free-text message
     * is ignored unless a description is awaited; then it is routed, and the state is
     * cleared once a task has been created or the attempt failed, but kept when the
     * router asks for clarification.
     */
    method HandleButtonMessage(text: string, reply: AiReply, parse: string -> Option<RouteDict>,
                               parseDue: string -> Option<TasksLocal.Stamp>, store: TasksLocal.TaskStore,
                               now: TasksLocal.Stamp, saved: bool, rules: TasksLocal.RruleOracle)
      returns (action: Action)
      modifies this, store
      ensures text == AddTaskButton ==> action == PromptTask && waitingFor == AddingTask
      ensures text == RecurrentButton ==> action == PromptRecurrentTask && waitingFor == AddingRecurrent
      ensures IsMenuButton(text) && text != AddTaskButton && text != RecurrentButton ==> waitingFor == old(waitingFor)
      ensures IsMenuButton(text) ==> store.tasks == old(store.tasks)
      ensures !IsMenuButton(text) ==>
        var plan := PlanFor(old(waitingFor), text, reply, parse, parseDue);
        && (plan.Ignore? ==> action == NoAction)
        && (plan.AskAgain? ==> action == Clarify(plan.message))
        && (plan.Ignore? || plan.AskAgain? ==> waitingFor == old(waitingFor))
        && (!plan.Ignore? && !plan.AskAgain? ==> waitingFor == Idle)
        && (action.TaskCreated? <==> plan.CreateTask? && saved)
        && (action.TaskCreated? ==>
              && action.title == plan.title && TasksLocal.IsLeastFreeId(action.taskId, TasksLocal.Ids(old(store.tasks)))
              && store.tasks == old(store.tasks) + [TasksLocal.NewTask(action.taskId, plan.title, plan.notes,
                                                                        plan.priority, plan.due, now, None)])
        && (action.RecurrentTaskCreated? <==> plan.CreateRecurrent? && saved && rules.parses(plan.rrule))
        && (action.RecurrentTaskCreated? ==>
              && action.title == plan.title && TasksLocal.IsLeastFreeId(action.taskId, TasksLocal.Ids(old(store.tasks)))
              && store.tasks == old(store.tasks) + [TasksLocal.NewTask(action.taskId, plan.title, plan.notes,
                                                                        plan.priority, None, now, Some(plan.rrule))])
        && (!plan.Ignore? && !plan.AskAgain? && !action.TaskCreated? && !action.RecurrentTaskCreated? ==>
              action == CreationFailed)
        && (!action.TaskCreated? && !action.RecurrentTaskCreated? ==> store.tasks == old(store.tasks))
    {
      if text == BriefButton {
        action := ShowBrief;
      } else if text == TodayButton {
        action := ShowTasks;
      } else if text == AddTaskButton {
        action := PromptTask;
        waitingFor := AddingTask;
      } else if text == RecurrentButton {
        action := PromptRecurrentTask;
        waitingFor := AddingRecurrent;
      } else if text == AiConfigButton {
        action := ShowAiMenu;
      } else if text == PreferencesButton {
        action := ShowPreferences;
      } else if waitingFor == AddingTask {
        action := CreateFromPlan(AddPlan(text, Routed("add " + text, reply, parse), parseDue), store, now, saved, rules);
      } else if waitingFor == AddingRecurrent {
        action := CreateFromPlan(RecurPlan(text, Routed("recur " + text, reply, parse)), store, now, saved, rules);
      } else {
        action := NoAction;
      }
    }

    /** Carries out a plan for an awaited description and updates the conversation state. */
    method CreateFromPlan(plan: Plan, store: TasksLocal.TaskStore, now: TasksLocal.Stamp, saved: bool,
                          rules: TasksLocal.RruleOracle) returns (action: Action)
      requires !plan.Ignore?
      modifies this, store
      ensures plan.AskAgain? ==> action == Clarify(plan.message) && waitingFor == old(waitingFor)
      ensures !plan.AskAgain? ==> waitingFor == Idle
      ensures action.TaskCreated? <==> plan.CreateTask? && saved
      ensures action.TaskCreated? ==>
        && action.title == plan.title && TasksLocal.IsLeastFreeId(action.taskId, TasksLocal.Ids(old(store.tasks)))
        && store.tasks == old(store.tasks) + [TasksLocal.NewTask(action.taskId, plan.title, plan.notes,
                                                                  plan.priority, plan.due, now, None)]
      ensures action.RecurrentTaskCreated? <==> plan.CreateRecurrent? && saved && rules.parses(plan.rrule)
      ensures action.RecurrentTaskCreated? ==>
        && action.title == plan.title && TasksLocal.IsLeastFreeId(action.taskId, TasksLocal.Ids(old(store.tasks)))
        && store.tasks == old(store.tasks) + [TasksLocal.NewTask(action.taskId, plan.title, plan.notes,
                                                                  plan.priority, None, now, Some(plan.rrule))]
      ensures !plan.AskAgain? && !action.TaskCreated? && !action.RecurrentTaskCreated? ==> action == CreationFailed
      ensures !action.TaskCreated? && !action.RecurrentTaskCreated? ==> store.tasks == old(store.tasks)
    {
      match plan
      case AskAgain(message) =>
        action := Clarify(message);
      case Invalid =>
        action := CreationFailed;
        waitingFor := Idle;
      case CreateTask(title, notes, priority, due) =>
        var r := store.AddTask(title, notes, priority, due, now, saved);
        action := if r.Ok? then TaskCreated(title, r.value) else CreationFailed;
        waitingFor := Idle;
      case CreateRecurrent(title, rrule, notes, priority) =>
        var r := store.AddRecurrentTask(title, rrule, notes, priority, None, now, saved, rules);
        action := if r.Ok? then RecurrentTaskCreated(title, r.value) else CreationFailed;
        waitingFor := Idle;
    }
  }

  // ---------------------------------------------------------------------------
  // Tasks for the brief

  const BriefTaskCap := 10

  /** `os.getenv("SYNC_GOOGLE_TASKS", "false").lower() == "true"`. */
  predicate SyncEnabled(setting: Option<string>) {
    Lower(setting.GetOr("false")) == "true"
  }

  /**
   * `fetch_all_tasks`: today's local tasks followed by the pending Google tasks when
   * synchronisation is on (`google` is `None` when fetching them raised), at most ten.
   */
  function FetchAllTasks<T>(local: seq<T>, google: Option<seq<T>>, syncSetting: Option<string>): (r: seq<T>)
    ensures |r| <= BriefTaskCap
    ensures |local| >= BriefTaskCap ==> r == local[..BriefTaskCap]
    ensures |local| < BriefTaskCap ==> |local| <= |r| && r[..|local|] == local
    ensures !SyncEnabled(syncSetting) || google.None? ==> r == TakePrefix(local, BriefTaskCap)
    ensures SyncEnabled(syncSetting) && google.Some? ==>
      |r| == (if |local| + |google.value| < BriefTaskCap then |local| + |google.value| else BriefTaskCap)
      && r == (local + google.value)[..|r|]
  {
    var fetched := if SyncEnabled(syncSetting) then google.GetOr([]) else [];
    var all := local + fetched;
    assert !SyncEnabled(syncSetting) || google.None? ==> all == local;
    TakePrefix(all, BriefTaskCap)
  }
}
