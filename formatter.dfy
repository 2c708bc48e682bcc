/**
 * The chat messages the bot builds: the morning brief, today's task list and the
 * preference summary. Each is a header followed by sections that appear only when their
 * data is present, with at most five items per brief section. Every list is written
 * one item at a time, as a numbered concatenation of pieces (`Text.ConcatMap`).
 */
module Formatter {
  import opened Wrappers
  import opened Text
  import opened Records
  import Prefs
  import TasksLocal

  // ---------------------------------------------------------------------------
  // Shared pieces

  const RedDot := "\U{1F534}"
  const YellowDot := "\U{1F7E1}"
  const GreenDot := "\U{1F7E2}"

  /** The marker for a priority: high, medium, low, and medium for anything else or nothing. */
  function PriorityEmoji(priority: Option<string>): (e: string)
    ensures e in {RedDot, YellowDot, GreenDot}
    ensures e == RedDot <==> priority == Some("high")
    ensures e == GreenDot <==> priority == Some("low")
  {
    match priority
    case Some("high") => RedDot
    case Some("low") => GreenDot
    case _ => YellowDot
  }

  /** `str(n)` for any integer. */
  function IntToString(n: int): (r: string)
    ensures |r| > 0
  {
    if n < 0 then "-" + NatToString(-n) else NatToString(n)
  }

  /** The items a brief section shows: `items[:5]`. */
  function FirstFive<T>(items: seq<T>): (r: seq<T>)
    ensures |r| <= 5 && |r| <= |items| && r == items[..|r|]
    ensures |items| >= 5 ==> |r| == 5
    ensures |items| < 5 ==> r == items
  {
    TakePrefix(items, 5)
  }

  /** A present, non-empty string (Python truthiness of an optional string). */
  predicate Truthy(s: Option<string>) {
    s.Some? && s.value != ""
  }

  /** The loop `for i, x in enumerate(xs, 1): message += piece(i, x)`. */
  method AppendEach<T>(message: string, xs: seq<T>, piece: (nat, T) -> string) returns (r: string)
    ensures r == message + ConcatMap(xs, piece)
  {
    r := message;
    var i := 0;
    while i < |xs|
      invariant 0 <= i <= |xs|
      invariant r == message + ConcatMap(xs[..i], piece)
    {
      assert xs[..i + 1][..i] == xs[..i];
      r := r + piece(i + 1, xs[i]);
      i := i + 1;
    }
    assert xs[..i] == xs;
  }

  // ---------------------------------------------------------------------------
  // Today's tasks

  const TasksHeader := "\U{1F4CB} *Tareas de hoy*\n\n"
  const NoTasksMessage := TasksHeader + "No tienes tareas pendientes para hoy. ¡Buen trabajo! \U{2705}"

  /** A two-digit field of `%H:%M` (hours 0 to 23, minutes 0 to 59). */
  function TwoDigits(n: int): string {
    (if 0 <= n < 10 then "0" else "") + IntToString(n)
  }

  /** `%H:%M` of a due stamp. */
  function ClockText(hour: int, minute: int): string {
    TwoDigits(hour) + ":" + TwoDigits(minute)
  }

  function DueTime(due: Option<TasksLocal.Stamp>): string {
    if due.Some? then " - " + ClockText(due.value.hour, due.value.minute) else ""
  }

  function TaskHeadline(n: nat, t: TasksLocal.Task): string {
    NatToString(n) + ". " + PriorityEmoji(Some(t.priority)) + " " + t.title + DueTime(t.due) + "\n"
  }

  function NotesLine(notes: string): string {
    if notes != "" then "   \U{1F4DD} " + notes + "\n" else ""
  }

  function IdLine(id: string): string {
    "   ID: `" + id + "`\n\n"
  }

  /** The entry of the `n`-th task: number, marker, title and due time, notes if any, and the id. */
  function TaskEntry(n: nat, t: TasksLocal.Task): string {
    TaskHeadline(n, t) + NotesLine(t.notes) + IdLine(t.id)
  }

  function TasksListText(tasks: seq<TasksLocal.Task>): string {
    if tasks == [] then NoTasksMessage else TasksHeader + ConcatMap(tasks, TaskEntry)
  }

  /** `format_tasks_list`. */
  method FormatTasksList(tasks: seq<TasksLocal.Task>) returns (message: string)
    ensures message == TasksListText(tasks)
  {
    if tasks == [] {
      return NoTasksMessage;
    }
    message := AppendEach(TasksHeader, tasks, TaskEntry);
  }

  /**
   * An empty list gives the fixed "no tasks" message. Otherwise the message opens with the
   * header and holds, for every task, its numbered entry, which shows its id.
   */
  lemma TasksListShowsEveryId(tasks: seq<TasksLocal.Task>)
    ensures tasks == [] ==> TasksListText(tasks) == NoTasksMessage
    ensures tasks != [] ==> StartsWith(TasksListText(tasks), TasksHeader)
    ensures forall i :: 0 <= i < |tasks| ==>
      Contains(TasksListText(tasks), TaskEntry(i + 1, tasks[i]))
      && Contains(TasksListText(tasks), IdLine(tasks[i].id))
  {
    if tasks != [] {
      ConcatMapListsEach(tasks, TaskEntry);
      var text := TasksListText(tasks);
      assert text[..|TasksHeader|] == TasksHeader;
      forall i | 0 <= i < |tasks|
        ensures Contains(text, TaskEntry(i + 1, tasks[i])) && Contains(text, IdLine(tasks[i].id))
      {
        var t := tasks[i];
        ContainsInRight(TasksHeader, ConcatMap(tasks, TaskEntry), TaskEntry(i + 1, t));
        ContainsInMiddle(TaskHeadline(i + 1, t) + NotesLine(t.notes), IdLine(t.id), "");
        assert TaskHeadline(i + 1, t) + NotesLine(t.notes) + IdLine(t.id) + "" == TaskEntry(i + 1, t);
        ContainsTransitive(text, TaskEntry(i + 1, t), IdLine(t.id));
      }
    }
  }

  // ---------------------------------------------------------------------------
  // The morning brief

  /** A calendar event as the calendar reader delivers it. */
  datatype Event = Event(summary: Option<string>, start: Option<string>)

  /** A task as the brief collects it from the local and remote lists. */
  datatype BriefTask = BriefTask(title: Option<string>, priority: Option<string>)

  const BriefHeader := "\U{1F4F0} *Brief Matutino*\n\n"
  const NewsTitle := "\U{1F5DE} *Noticias*\n"
  const EmailsTitle := "\U{1F4E7} *Correos Importantes*\n"
  const EventsTitle := "\U{1F4C5} *Eventos de Hoy*\n"
  const TasksTitle := "\U{2705} *Tareas Pendientes*\n"

  /** A sender `Name <address>` is shown as `Name`, unless that part is blank. */
  function ShortSender(sender: string): string {
    if '<' in sender then
      var name := Strip(Split(sender, '<')[0]);
      if name != "" then name else sender
    else sender
  }

  /** The account tag after the sender: the part before '@', for an account other than "me". */
  function AccountTag(account: Option<string>): string {
    if Truthy(account) && account.value != "me" then
      " (" + (if '@' in account.value then Split(account.value, '@')[0] else account.value) + ")"
    else ""
  }

  /** `s.replace('\n', ' ')`. */
  function NewlinesToSpaces(s: string): (r: string)
    ensures |r| == |s| && '\n' !in r
  {
    seq(|s|, i requires 0 <= i < |s| => if s[i] == '\n' then ' ' else s[i])
  }

  /** The body preview: its first 100 characters on one line, with "..." when it was longer. */
  function Preview(body: string): string {
    Strip(NewlinesToSpaces(TakePrefix(body, 100))) + (if |body| > 100 then "..." else "")
  }

  /** Why the email matters, or else the start of its body. */
  function EmailDetail(e: Email): string {
    if Truthy(e.importanceReason) then
      "\U{1F4A1} **Por qué es importante:** " + e.importanceReason.value + "\n"
    else if Truthy(e.body) then "\U{1F4C4} **Resumen:** " + Preview(e.body.value) + "\n"
    else ""
  }

  function EmailEntry(n: nat, e: Email): string {
    "**" + NatToString(n) + ". " + e.subject.GetOr("Sin asunto") + "**\n"
    + "\U{1F464} **De:** " + ShortSender(e.sender.GetOr("Desconocido")) + AccountTag(e.account) + "\n"
    + EmailDetail(e) + "\n"
  }

  function StartLine(start: Option<string>): string {
    if Truthy(start) then "  " + start.value + "\n" else ""
  }

  /** An event bullet (events are not numbered: `n` is unused). */
  function EventEntry(n: nat, ev: Event): string {
    "• " + ev.summary.GetOr("Sin título") + "\n" + StartLine(ev.start) + "\n"
  }

  /** A task bullet (not numbered: `n` is unused); a missing priority counts as medium. */
  function BriefTaskEntry(n: nat, t: BriefTask): string {
    "• " + PriorityEmoji(t.priority) + " " + t.title.GetOr("Sin título") + "\n"
  }

  function Summary(news: map<string, string>): string {
    if "summary" in news then news["summary"] else "No hay noticias disponibles"
  }

  /** The news section: shown for a non-empty news dict. */
  function NewsPart(news: Option<map<string, string>>): string {
    if news.Some? && news.value != map[] then NewsTitle + Summary(news.value) + "\n\n" else ""
  }

  function AccountsLine(r: RankResult): string {
    if r.accounts.Some? && |r.accounts.value| > 1 then
      "Cuentas: " + NatToString(|r.accounts.value|) + " Gmail\n"
    else ""
  }

  /** The title, the three counts and, when there are several accounts, their number. */
  function EmailsHead(r: RankResult): string {
    EmailsTitle
    + "Encontrados: " + IntToString(r.found) + " | "
    + "Considerados: " + IntToString(r.considered) + " | "
    + "Seleccionados: " + IntToString(r.selected) + "\n"
    + AccountsLine(r) + "\n"
  }

  /** The email section: the head and at most five emails. */
  function EmailsPart(ranked: Option<RankResult>): string {
    if ranked.Some? then EmailsHead(ranked.value) + ConcatMap(FirstFive(ranked.value.emails), EmailEntry) else ""
  }

  function EventsPart(events: seq<Event>): string {
    if events != [] then EventsTitle + ConcatMap(FirstFive(events), EventEntry) else ""
  }

  function TasksPart(tasks: seq<BriefTask>): string {
    if tasks != [] then TasksTitle + ConcatMap(FirstFive(tasks), BriefTaskEntry) else ""
  }

  function BriefText(news: Option<map<string, string>>, ranked: Option<RankResult>,
                     events: seq<Event>, tasks: seq<BriefTask>): string {
    BriefHeader + NewsPart(news) + EmailsPart(ranked) + EventsPart(events) + TasksPart(tasks)
  }

  /** `(a + b) + c == a + (b + c)`, stated over plain strings so that no part is unfolded. */
  lemma Reassociate(a: string, b: string, c: string)
    ensures a + b + c == a + (b + c)
  {
  }

  method AppendEmailsPart(message: string, ranked: Option<RankResult>) returns (r: string)
    ensures r == message + EmailsPart(ranked)
  {
    if ranked.None? {
      return message;
    }
    var head := EmailsHead(ranked.value);
    r := AppendEach(message + head, FirstFive(ranked.value.emails), EmailEntry);
    Reassociate(message, head, ConcatMap(FirstFive(ranked.value.emails), EmailEntry));
  }

  method AppendEventsPart(message: string, events: seq<Event>) returns (r: string)
    ensures r == message + EventsPart(events)
  {
    if events == [] {
      return message;
    }
    r := AppendEach(message + EventsTitle, FirstFive(events), EventEntry);
    Reassociate(message, EventsTitle, ConcatMap(FirstFive(events), EventEntry));
  }

  method AppendTasksPart(message: string, tasks: seq<BriefTask>) returns (r: string)
    ensures r == message + TasksPart(tasks)
  {
    if tasks == [] {
      return message;
    }
    r := AppendEach(message + TasksTitle, FirstFive(tasks), BriefTaskEntry);
    Reassociate(message, TasksTitle, ConcatMap(FirstFive(tasks), BriefTaskEntry));
  }

  /** `format_brief`: the sections are appended in turn, each list walked up to its fifth item. */
  method FormatBrief(news: Option<map<string, string>>, ranked: Option<RankResult>,
                     events: seq<Event>, tasks: seq<BriefTask>) returns (message: string)
    ensures message == BriefText(news, ranked, events, tasks)
  {
    message := BriefHeader + NewsPart(news);
    message := AppendEmailsPart(message, ranked);
    message := AppendEventsPart(message, events);
    message := AppendTasksPart(message, tasks);
  }

  /** With no data at all the brief is its header alone. */
  lemma EmptyBriefIsHeader()
    ensures BriefText(None, None, [], []) == BriefHeader
    ensures BriefText(Some(map[]), None, [], []) == BriefHeader
  {
  }

  /** Items after the fifth email, event or task never reach the brief. */
  lemma BriefShowsAtMostFive(news: Option<map<string, string>>, ranked: Option<RankResult>,
                             events: seq<Event>, tasks: seq<BriefTask>)
    ensures var capped := if ranked.Some? then Some(ranked.value.(emails := FirstFive(ranked.value.emails))) else None;
      BriefText(news, ranked, events, tasks) == BriefText(news, capped, FirstFive(events), FirstFive(tasks))
  {
    assert FirstFive(FirstFive(events)) == FirstFive(events);
    assert FirstFive(FirstFive(tasks)) == FirstFive(tasks);
    if ranked.Some? {
      var r := ranked.value;
      assert FirstFive(FirstFive(r.emails)) == FirstFive(r.emails);
      assert EmailsHead(r.(emails := FirstFive(r.emails))) == EmailsHead(r);
    }
  }

  /** A sender written `Name <address>` with a non-blank name is shown as the stripped name. */
  lemma SenderNameShown(name: string, address: string)
    requires '<' !in name && Strip(name) != ""
    ensures ShortSender(name + "<" + address) == Strip(name)
  {
    assert name + "<" + address == name + ['<'] + address;
    SplitAtFirstSep(name, '<', address);
    assert (name + "<" + address)[|name|] == '<';
  }

  /** Each of the first five ranked emails appears in the brief under its position. */
  lemma BriefListsFirstEmails(news: Option<map<string, string>>, r: RankResult,
                              events: seq<Event>, tasks: seq<BriefTask>)
    ensures forall i :: 0 <= i < |r.emails| && i < 5 ==>
      Contains(BriefText(news, Some(r), events, tasks), EmailEntry(i + 1, r.emails[i]))
  {
    var shown := FirstFive(r.emails);
    ConcatMapListsEach(shown, EmailEntry);
    var pre := BriefHeader + NewsPart(news) + EmailsHead(r);
    var listed := ConcatMap(shown, EmailEntry);
    var post := EventsPart(events) + TasksPart(tasks);
    var text := BriefText(news, Some(r), events, tasks);
    var head := EmailsHead(r);
    var upToNews := BriefHeader + NewsPart(news);
    Reassociate(upToNews, head, listed);
    Reassociate(upToNews + head + listed, EventsPart(events), TasksPart(tasks));
    assert text == pre + listed + post;
    ContainsInMiddle(pre, listed, post);
    forall i | 0 <= i < |r.emails| && i < 5 ensures Contains(text, EmailEntry(i + 1, r.emails[i])) {
      assert shown[i] == r.emails[i];
      ContainsTransitive(text, listed, EmailEntry(i + 1, r.emails[i]));
    }
  }

  // ---------------------------------------------------------------------------
  // Preferences

  /**
   * The preference dict as `format_preferences` reads it: the three settings may be
   * missing; a missing list and an empty one are shown alike.
   */
  datatype PrefsView = PrefsView(
    topK: Option<int>,
    onlyUnread: Option<bool>,
    minImportance: Option<string>,
    priorityDomains: seq<string>,
    prioritySenders: seq<string>,
    blockedDomains: seq<string>,
    blockedSenders: seq<string>,
    blockedKeywords: seq<string>)

  /** A complete stored record, as a dict. */
  function View(p: Prefs.Preferences): PrefsView {
    PrefsView(Some(p.topK), Some(p.onlyUnread), Some(p.minImportance), p.priorityDomains,
              p.prioritySenders, p.blockedDomains, p.blockedSenders, p.blockedKeywords)
  }

  const PrefsHeader := "\U{2699}\U{FE0F} *Preferencias Actuales*\n\n"

  function YesNo(b: bool): string {
    if b then "Sí" else "No"
  }

  function SettingsText(p: PrefsView): string {
    PrefsHeader
    + "\U{1F4CA} Top K correos: " + IntToString(p.topK.GetOr(10)) + "\n"
    + "\U{1F4EC} Solo no leídos: " + YesNo(p.onlyUnread.GetOr(false)) + "\n"
    + "\U{26A1} Importancia mínima: " + p.minImportance.GetOr("any") + "\n\n"
  }

  function Bullet(item: string): string {
    "• " + item + "\n"
  }

  function BulletAt(n: nat, item: string): string {
    Bullet(item)
  }

  function Trailer(blankAfter: bool): string {
    if blankAfter then "\n" else ""
  }

  /** A titled bullet list, left out when the list is empty. */
  function ListSection(title: string, items: seq<string>, blankAfter: bool): string {
    if items == [] then "" else title + ConcatMap(items, BulletAt) + Trailer(blankAfter)
  }

  const PriorityDomainsTitle := "\U{1F3AF} *Dominios Prioritarios:*\n"
  const PrioritySendersTitle := "\U{1F464} *Remitentes Prioritarios:*\n"
  const BlockedDomainsTitle := "\U{1F6AB} *Dominios Bloqueados:*\n"
  const BlockedSendersTitle := "\U{1F6AB} *Remitentes Bloqueados:*\n"
  const BlockedKeywordsTitle := "\U{1F6AB} *Palabras Clave Bloqueadas:*\n"

  function PreferencesText(p: PrefsView): string {
    SettingsText(p)
    + ListSection(PriorityDomainsTitle, p.priorityDomains, true)
    + ListSection(PrioritySendersTitle, p.prioritySenders, true)
    + ListSection(BlockedDomainsTitle, p.blockedDomains, true)
    + ListSection(BlockedSendersTitle, p.blockedSenders, true)
    + ListSection(BlockedKeywordsTitle, p.blockedKeywords, false)
  }

  method AppendSection(message: string, title: string, items: seq<string>, blankAfter: bool) returns (r: string)
    ensures r == message + ListSection(title, items, blankAfter)
  {
    if items == [] {
      return message;
    }
    var listed := AppendEach(message + title, items, BulletAt);
    r := listed + Trailer(blankAfter);
  }

  /** `format_preferences`. */
  method FormatPreferences(p: PrefsView) returns (message: string)
    ensures message == PreferencesText(p)
  {
    message := SettingsText(p);
    message := AppendSection(message, PriorityDomainsTitle, p.priorityDomains, true);
    message := AppendSection(message, PrioritySendersTitle, p.prioritySenders, true);
    message := AppendSection(message, BlockedDomainsTitle, p.blockedDomains, true);
    message := AppendSection(message, BlockedSendersTitle, p.blockedSenders, true);
    message := AppendSection(message, BlockedKeywordsTitle, p.blockedKeywords, false);
  }

  /** Missing settings are shown as the values of the default preferences. */
  lemma MissingSettingsShowDefaults(p: PrefsView)
    requires p.topK.None? && p.onlyUnread.None? && p.minImportance.None?
    ensures SettingsText(p) == SettingsText(View(Prefs.DefaultPreferences()))
  {
  }

  /** Every item of a non-empty list section appears in it as a bullet. */
  lemma SectionListsEvery(title: string, items: seq<string>, blankAfter: bool)
    ensures forall x :: x in items ==> Contains(ListSection(title, items, blankAfter), Bullet(x))
  {
    ConcatMapListsEach(items, BulletAt);
    forall x | x in items ensures Contains(ListSection(title, items, blankAfter), Bullet(x)) {
      var i :| 0 <= i < |items| && items[i] == x;
      assert BulletAt(i + 1, items[i]) == Bullet(x);
      ContainsInMiddle(title, ConcatMap(items, BulletAt), Trailer(blankAfter));
      ContainsTransitive(ListSection(title, items, blankAfter), ConcatMap(items, BulletAt), Bullet(x));
    }
  }

  /**
   * With every list empty the message is the three settings alone; otherwise every
   * blocked keyword, domain and sender is listed as a bullet.
   */
  lemma PreferencesListEveryBlock(p: PrefsView)
    ensures p.priorityDomains == p.prioritySenders == p.blockedDomains == p.blockedSenders == p.blockedKeywords == []
            ==> PreferencesText(p) == SettingsText(p)
    ensures forall x :: x in p.blockedKeywords ==> Contains(PreferencesText(p), Bullet(x))
    ensures forall x :: x in p.blockedDomains ==> Contains(PreferencesText(p), Bullet(x))
    ensures forall x :: x in p.blockedSenders ==> Contains(PreferencesText(p), Bullet(x))
  {
    var text := PreferencesText(p);
    var s1 := SettingsText(p) + ListSection(PriorityDomainsTitle, p.priorityDomains, true)
      + ListSection(PrioritySendersTitle, p.prioritySenders, true);
    var bd := ListSection(BlockedDomainsTitle, p.blockedDomains, true);
    var bs := ListSection(BlockedSendersTitle, p.blockedSenders, true);
    var bk := ListSection(BlockedKeywordsTitle, p.blockedKeywords, false);
    assert text == s1 + bd + bs + bk;
    SectionListsEvery(BlockedDomainsTitle, p.blockedDomains, true);
    SectionListsEvery(BlockedSendersTitle, p.blockedSenders, true);
    SectionListsEvery(BlockedKeywordsTitle, p.blockedKeywords, false);
    forall x | x in p.blockedKeywords ensures Contains(text, Bullet(x)) {
      ContainsInRight(s1 + bd + bs, bk, Bullet(x));
    }
    forall x | x in p.blockedSenders ensures Contains(text, Bullet(x)) {
      ContainsInRight(s1 + bd, bs, Bullet(x));
      ContainsInLeft(s1 + bd + bs, bk, Bullet(x));
    }
    forall x | x in p.blockedDomains ensures Contains(text, Bullet(x)) {
      ContainsInRight(s1, bd, Bullet(x));
      ContainsInLeft(s1 + bd, bs, Bullet(x));
      ContainsInLeft(s1 + bd + bs, bk, Bullet(x));
    }
  }
}
