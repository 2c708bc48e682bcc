/**
 * The local task store: tasks with human-friendly ids `T001`, `T002`, ..., recurring
 * tasks described by an iCalendar RRULE, the expansion of recurring tasks into
 * instances for today, today's list ordered by priority and hour, and completion.
 */
module TasksLocal {
  import opened Wrappers
  import opened Text
  import opened StableSort

  /** A parsed timestamp: the calendar day (as a day number), the hour and the minute. */
  datatype Stamp = Stamp(day: int, hour: int, minute: int)

  datatype Task = Task(
    id: string,
    title: string,
    notes: string,
    priority: string,
    due: Option<Stamp>,
    completed: bool,
    createdAt: Stamp,
    updatedAt: Stamp,
    source: string,
    rrule: Option<string>)

  /**
   * What the RRULE library answers: whether a rule parses, whether it has an occurrence
   * on a given day, and whether it carries a COUNT. The expansion as written never
   * consults the COUNT (see `ExpandsToday`); only `ExpandsTodayIntended` does.
   */
  datatype RruleOracle = RruleOracle(
    parses: string -> bool,
    occursOn: (string, int) -> bool,
    hasCount: string -> bool)

  function Ids(tasks: seq<Task>): (r: seq<string>)
    ensures |r| == |tasks|
  {
    seq(|tasks|, i requires 0 <= i < |tasks| => tasks[i].id)
  }

  predicate UniqueIds(tasks: seq<Task>) {
    forall i, j :: 0 <= i < j < |tasks| ==> tasks[i].id != tasks[j].id
  }

  // ---------------------------------------------------------------------------
  // Task ids

  /** `f"T{n:03d}"`. */
  function TaskId(n: nat): string {
    "T" + Pad3(n)
  }

  /** The number a `T`-id carries, or -1 for a string of another shape. */
  function TaskNumber(id: string): int {
    if |id| >= 1 && id[0] == 'T' && forall i :: 1 <= i < |id| ==> IsDigit(id[i])
    then DigitsValue(id[1..]) else -1
  }

  /** Ids of distinct numbers are distinct: the number can be read back. */
  lemma TaskNumberOfId(n: nat)
    ensures TaskNumber(TaskId(n)) == n
  {
    var id := TaskId(n);
    assert id[1..] == Pad3(n);
    Pad3Value(n);
  }

  /** A generated id never contains an underscore. */
  lemma TaskIdHasNoUnderscore(n: nat)
    ensures '_' !in TaskId(n)
  {
    var id := TaskId(n);
    forall i | 0 <= i < |id| ensures id[i] != '_' {
      if i > 0 {
        assert id[i] == Pad3(n)[i - 1];
      }
    }
  }

  /** `id` is `T{n:03d}` for the least n >= 1 whose id is not in `existing`. */
  ghost predicate IsLeastFreeId(id: string, existing: seq<string>) {
    id !in existing
    && exists n: nat :: 1 <= n && id == TaskId(n) && forall c: nat :: 1 <= c < n ==> TaskId(c) in existing
  }

  /** The least free id is determined by the ids taken. */
  lemma LeastFreeIdUnique(a: string, b: string, existing: seq<string>)
    requires IsLeastFreeId(a, existing) && IsLeastFreeId(b, existing)
    ensures a == b
  {
    var na: nat :| 1 <= na && a == TaskId(na) && forall c: nat :: 1 <= c < na ==> TaskId(c) in existing;
    var nb: nat :| 1 <= nb && b == TaskId(nb) && forall c: nat :: 1 <= c < nb ==> TaskId(c) in existing;
    assert na == nb by {
      if na < nb {
        assert false;
      } else if nb < na {
        assert false;
      }
    }
  }

  /** With no ids taken the least free id is `T001`; when `T001` is taken, it is not. */
  lemma LeastFreeIdFirst(id: string, existing: seq<string>)
    requires IsLeastFreeId(id, existing)
    ensures id == TaskId(1) <==> TaskId(1) !in existing
  {
    var n: nat :| 1 <= n && id == TaskId(n) && forall c: nat :: 1 <= c < n ==> TaskId(c) in existing;
    if n > 1 {
      assert TaskId(1) in existing;
    }
  }

  /**
   * `generate_task_id`: counting from 1, the first number whose id is not yet taken.
   */
  method GenerateTaskId(existing: seq<string>) returns (id: string)
    ensures IsLeastFreeId(id, existing)
  {
    var counter: nat := 1;
    while TaskId(counter) in existing
      invariant 1 <= counter <= |Taken(existing)| + 1
      invariant forall c: nat :: 1 <= c < counter ==> TaskId(c) in existing
      decreases |Taken(existing)| + 1 - counter
    {
      var _ := TakenIds(existing, counter + 1);
      counter := counter + 1;
    }
    id := TaskId(counter);
  }

  /** The distinct ids present in `existing`. */
  ghost function Taken(existing: seq<string>): set<string> {
    set x | x in existing
  }

  /**
   * When the ids numbered 1 to n - 1 are all taken, they are n - 1 distinct
   * members of `Taken(existing)`, so that set has at least n - 1 elements.
   */
  lemma {:induction false} TakenIds(existing: seq<string>, n: nat) returns (ids: set<string>)
    requires forall c: nat :: 1 <= c < n ==> TaskId(c) in existing
    ensures ids <= Taken(existing)
    ensures |ids| == if n == 0 then 0 else n - 1
    ensures n - 1 <= |Taken(existing)|
    ensures forall x :: x in ids ==> 1 <= TaskNumber(x) < n
  {
    if n <= 1 {
      ids := {};
    } else {
      var prev := TakenIds(existing, n - 1);
      TaskNumberOfId(n - 1);
      assert TaskId(n - 1) !in prev;
      ids := prev + {TaskId(n - 1)};
      SubsetCardinality(ids, Taken(existing));
    }
  }

  lemma SubsetCardinality(a: set<string>, b: set<string>)
    requires a <= b
    ensures |a| <= |b|
  {
    assert b == a + (b - a);
  }

  // ---------------------------------------------------------------------------
  // Today's tasks

  /** A task with a non-empty `rrule` is a recurring template. */
  predicate IsTemplate(t: Task) {
    t.rrule.Some? && t.rrule.value != ""
  }

  /** The day a recurrence starts: the due day when there is one, else the creation day. */
  function StartDay(t: Task): int {
    if t.due.Some? then t.due.value.day else t.createdAt.day
  }

  /**
   * A pending template yields an instance today when its rule parses and has an
   * occurrence today. The source's second test, a start day of today together with
   * `rule.count is None`, never holds: `count` is a method of the rule object, not the
   * COUNT part, so it is never `None`.
   */
  predicate ExpandsToday(t: Task, today: int, rules: RruleOracle) {
    IsTemplate(t) && !t.completed && rules.parses(t.rrule.value) && rules.occursOn(t.rrule.value, today)
  }

  /** The evidently intended test: also a template that starts today and has no COUNT. */
  predicate ExpandsTodayIntended(t: Task, today: int, rules: RruleOracle) {
    IsTemplate(t) && !t.completed && rules.parses(t.rrule.value)
    && (rules.occursOn(t.rrule.value, today) || (StartDay(t) == today && !rules.hasCount(t.rrule.value)))
  }

  /** Today's copy of a template: id suffixed `_today`, due at midnight today. */
  function Instance(t: Task, today: int): Task {
    t.(id := t.id + "_today", due := Some(Stamp(today, 0, 0)))
  }

  /** `expand_for_today`: the instances, in the order of the templates. */
  function Expansion(tasks: seq<Task>, today: int, rules: RruleOracle): seq<Task>
    decreases |tasks|
  {
    if tasks == [] then []
    else
      var t := tasks[|tasks| - 1];
      Expansion(tasks[..|tasks| - 1], today, rules)
        + (if ExpandsToday(t, today, rules) then [Instance(t, today)] else [])
  }

  /** The expansion with the intended start-day test. */
  function ExpansionIntended(tasks: seq<Task>, today: int, rules: RruleOracle): seq<Task>
    decreases |tasks|
  {
    if tasks == [] then []
    else
      var t := tasks[|tasks| - 1];
      ExpansionIntended(tasks[..|tasks| - 1], today, rules)
        + (if ExpandsTodayIntended(t, today, rules) then [Instance(t, today)] else [])
  }

  /** A pending task without a rule is due today when overdue or due today, or, without a due date, created today. */
  predicate IsRegularToday(t: Task, today: int) {
    !t.completed && !IsTemplate(t)
    && (if t.due.Some? then t.due.value.day <= today else t.createdAt.day == today)
  }

  function Regular(tasks: seq<Task>, today: int): seq<Task>
    decreases |tasks|
  {
    if tasks == [] then []
    else
      var t := tasks[|tasks| - 1];
      Regular(tasks[..|tasks| - 1], today) + (if IsRegularToday(t, today) then [t] else [])
  }

  /** high before medium before low; any other priority counts as medium. */
  function PriorityRank(priority: string): int {
    if priority == "high" then 0 else if priority == "medium" then 1 else if priority == "low" then 2 else 1
  }

  /** `(priority rank, hour of the due time or 0)`. */
  function SortKey(t: Task): Key {
    Key(PriorityRank(t.priority), if t.due.Some? then t.due.value.hour else 0)
  }

  /** `list_today_sorted`: regular tasks then instances, stably sorted by `SortKey`. */
  function TodayList(tasks: seq<Task>, today: int, rules: RruleOracle): seq<Task> {
    SortBy(Regular(tasks, today) + Expansion(tasks, today, rules), SortKey)
  }

  lemma {:induction false} RegularMembers(tasks: seq<Task>, today: int)
    ensures forall t :: t in Regular(tasks, today) <==> t in tasks && IsRegularToday(t, today)
    decreases |tasks|
  {
    if tasks != [] {
      RegularMembers(tasks[..|tasks| - 1], today);
      assert tasks == tasks[..|tasks| - 1] + [tasks[|tasks| - 1]];
    }
  }

  lemma {:induction false} ExpansionMembers(tasks: seq<Task>, today: int, rules: RruleOracle)
    ensures forall t :: t in Expansion(tasks, today, rules) <==>
      exists u :: u in tasks && ExpandsToday(u, today, rules) && t == Instance(u, today)
    decreases |tasks|
  {
    if tasks != [] {
      var front := tasks[..|tasks| - 1];
      ExpansionMembers(front, today, rules);
      assert tasks == front + [tasks[|tasks| - 1]];
    }
  }

  /**
   * With the intended test, every instance of the expansion as written is still produced,
   * and a pending template whose rule parses, starts today and has no COUNT also yields
   * today's instance; nothing else is added.
   */
  lemma {:induction false} ExpansionIntendedMembers(tasks: seq<Task>, today: int, rules: RruleOracle)
    ensures forall t :: t in ExpansionIntended(tasks, today, rules) <==>
      exists u :: u in tasks && ExpandsTodayIntended(u, today, rules) && t == Instance(u, today)
    ensures forall t :: t in Expansion(tasks, today, rules) ==> t in ExpansionIntended(tasks, today, rules)
    ensures forall u :: u in tasks && IsTemplate(u) && !u.completed && rules.parses(u.rrule.value)
                        && StartDay(u) == today && !rules.hasCount(u.rrule.value)
                        ==> Instance(u, today) in ExpansionIntended(tasks, today, rules)
    decreases |tasks|
  {
    if tasks != [] {
      var front := tasks[..|tasks| - 1];
      ExpansionIntendedMembers(front, today, rules);
      assert tasks == front + [tasks[|tasks| - 1]];
    }
  }

  /**
   * A weekly rule on Mondays for a task due on a Tuesday (day 1, counting day 0 as a
   * Monday), expanded on that Tuesday: the rule has no COUNT and starts today, yet the
   * expansion as written is empty, while the intended one holds today's instance.
   */
  lemma StartDayInstanceMissingAsWritten()
    ensures var rules := RruleOracle((s: string) => true, (s: string, d: int) => d % 7 == 0, (s: string) => false);
            var t := Task("T001", "Weekly review", "", "medium", Some(Stamp(1, 9, 0)), false,
                          Stamp(1, 8, 0), Stamp(1, 8, 0), "local", Some("FREQ=WEEKLY;BYDAY=MO"));
            Expansion([t], 1, rules) == [] && ExpansionIntended([t], 1, rules) == [Instance(t, 1)]
  {
  }

  /**
   * Today's list holds exactly the regular tasks for today and today's instances, each
   * as often as it occurs there, ordered by priority and then hour, with ties kept in
   * the order regular tasks first, then instances.
   */
  lemma TodayListFacts(tasks: seq<Task>, today: int, rules: RruleOracle)
    ensures var r := TodayList(tasks, today, rules);
      && Sorted(r, SortKey)
      && multiset(r) == multiset(Regular(tasks, today)) + multiset(Expansion(tasks, today, rules))
      && (forall t :: t in r <==>
            ((t in tasks && IsRegularToday(t, today))
             || exists u :: u in tasks && ExpandsToday(u, today, rules) && t == Instance(u, today)))
      && (forall k :: WithKey(r, SortKey, k) == WithKey(Regular(tasks, today) + Expansion(tasks, today, rules), SortKey, k))
  {
    var all := Regular(tasks, today) + Expansion(tasks, today, rules);
    SortByFacts(all, SortKey);
    RegularMembers(tasks, today);
    ExpansionMembers(tasks, today, rules);
    forall t ensures t in TodayList(tasks, today, rules) <==> t in all {
      assert t in TodayList(tasks, today, rules) <==> t in multiset(TodayList(tasks, today, rules));
    }
  }

  // ---------------------------------------------------------------------------
  // Completion

  /** The position of the first task with the given id. */
  function FindTask(tasks: seq<Task>, id: string, from: nat): (k: Option<nat>)
    requires from <= |tasks|
    ensures k.Some? ==> from <= k.value < |tasks| && tasks[k.value].id == id
                        && forall j :: from <= j < k.value ==> tasks[j].id != id
    ensures k.None? ==> forall j :: from <= j < |tasks| ==> tasks[j].id != id
    decreases |tasks| - from
  {
    if from == |tasks| then None
    else if tasks[from].id == id then Some(from)
    else FindTask(tasks, id, from + 1)
  }

  /** The tasks after the first one with id `id` is marked completed at `now`. */
  function CompleteFirst(tasks: seq<Task>, id: string, now: Stamp): (r: seq<Task>)
    ensures |r| == |tasks| && Ids(r) == Ids(tasks)
  {
    match FindTask(tasks, id, 0)
    case None => tasks
    case Some(k) => tasks[k := tasks[k].(completed := true, updatedAt := now)]
  }

  /** Completing the same task again only refreshes its completion time. */
  lemma CompleteTwice(tasks: seq<Task>, id: string, first: Stamp, second: Stamp)
    ensures CompleteFirst(CompleteFirst(tasks, id, first), id, second) == CompleteFirst(tasks, id, second)
  {
    var once := CompleteFirst(tasks, id, first);
    var k := FindTask(tasks, id, 0);
    var k' := FindTask(once, id, 0);
    if k.Some? {
      assert forall j :: 0 <= j < |tasks| ==> once[j].id == tasks[j].id;
      assert k' == k;
    } else {
      assert once == tasks;
    }
  }

  /**
   * Once a stored task is completed it leaves today's list: neither it nor an instance
   * of it appears there any more, given unique ids without underscores (as generated).
   */
  lemma CompletedTaskLeavesTodayList(tasks: seq<Task>, id: string, now: Stamp, today: int, rules: RruleOracle)
    requires UniqueIds(tasks) && forall t :: t in tasks ==> '_' !in t.id
    requires id in Ids(tasks)
    ensures forall t :: t in TodayList(CompleteFirst(tasks, id, now), today, rules) ==>
      t.id != id && t.id != id + "_today"
  {
    var after := CompleteFirst(tasks, id, now);
    TodayListFacts(after, today, rules);
    var k := FindTask(tasks, id, 0).value;
    assert '_' !in id by {
      var m :| 0 <= m < |tasks| && Ids(tasks)[m] == id;
      assert tasks[m] in tasks;
    }
    forall t | t in TodayList(after, today, rules) ensures t.id != id && t.id != id + "_today" {
      if t in after && IsRegularToday(t, today) {
        var j :| 0 <= j < |after| && after[j] == t;
        if j != k {
          assert after[j] == tasks[j];
          assert tasks[j] in tasks;
          assert t.id != id + "_today" by {
            assert (id + "_today")[|id|] == '_';
          }
        }
      } else {
        var u :| u in after && ExpandsToday(u, today, rules) && t == Instance(u, today);
        var j :| 0 <= j < |after| && after[j] == u;
        assert t.id == u.id + "_today";
        assert t.id[|u.id|] == '_';
        if j != k {
          assert after[j] == tasks[j];
          assert u.id != id;
          SuffixCancels(u.id, id, "_today");
        }
      }
    }
  }

  lemma SuffixCancels(a: string, b: string, suffix: string)
    ensures a + suffix == b + suffix ==> a == b
  {
    if a + suffix == b + suffix {
      assert (a + suffix)[..|a|] == a;
      assert (b + suffix)[..|b|] == b;
    }
  }

  /** An instance id is never found among stored ids that carry no underscore, such as generated ones. */
  lemma CompletingAnInstanceFails(tasks: seq<Task>, template: Task, today: int)
    requires forall t :: t in tasks ==> '_' !in t.id
    ensures FindTask(tasks, Instance(template, today).id, 0).None?
  {
    var iid := Instance(template, today).id;
    assert iid[|template.id|] == '_';
    forall j | 0 <= j < |tasks| ensures tasks[j].id != iid {
      assert tasks[j] in tasks;
    }
  }

  // ---------------------------------------------------------------------------
  // The store

  const FailedSave := "Failed to save task"
  const FailedRecurrentSave := "Failed to save recurring task"
  const InvalidRrule := "Invalid RRULE"

  /** A freshly created task. */
  function NewTask(id: string, title: string, notes: string, priority: string, due: Option<Stamp>,
                   now: Stamp, rrule: Option<string>): Task {
    Task(id, title, notes, priority, due, false, now, now, "local", rrule)
  }

  /** The tasks file. `saved` parameters say whether writing it back succeeded. */
  class TaskStore {
    var tasks: seq<Task>

    constructor(loaded: seq<Task>)
      ensures tasks == loaded
    {
      tasks := loaded;
    }

    /** `add_task`: a new pending task with a fresh id, appended; a failed save raises and keeps the file. */
    method AddTask(title: string, notes: string, priority: string, due: Option<Stamp>, now: Stamp, saved: bool)
      returns (r: Result<string, string>)
      modifies this
      ensures r.Ok? <==> saved
      ensures saved ==> IsLeastFreeId(r.value, Ids(old(tasks)))
                        && tasks == old(tasks) + [NewTask(r.value, title, notes, priority, due, now, None)]
      ensures !saved ==> tasks == old(tasks) && r == Err(FailedSave)
      ensures UniqueIds(old(tasks)) ==> UniqueIds(tasks)
    {
      var id := GenerateTaskId(Ids(tasks));
      if saved {
        tasks := tasks + [NewTask(id, title, notes, priority, due, now, None)];
        AppendFreshKeepsUnique(old(tasks), NewTask(id, title, notes, priority, due, now, None));
        r := Ok(id);
      } else {
        r := Err(FailedSave);
      }
    }

    /** `add_recurrent_task`: as `AddTask`, after rejecting a rule that does not parse. */
    method AddRecurrentTask(title: string, rrule: string, notes: string, priority: string,
                            startDue: Option<Stamp>, now: Stamp, saved: bool, rules: RruleOracle)
      returns (r: Result<string, string>)
      modifies this
      ensures !rules.parses(rrule) ==> r == Err(InvalidRrule) && tasks == old(tasks)
      ensures r.Ok? <==> rules.parses(rrule) && saved
      ensures r.Ok? ==> IsLeastFreeId(r.value, Ids(old(tasks)))
                        && tasks == old(tasks) + [NewTask(r.value, title, notes, priority, startDue, now, Some(rrule))]
      ensures rules.parses(rrule) && !saved ==> tasks == old(tasks) && r == Err(FailedRecurrentSave)
      ensures UniqueIds(old(tasks)) ==> UniqueIds(tasks)
    {
      if !rules.parses(rrule) {
        return Err(InvalidRrule);
      }
      var id := GenerateTaskId(Ids(tasks));
      if saved {
        tasks := tasks + [NewTask(id, title, notes, priority, startDue, now, Some(rrule))];
        AppendFreshKeepsUnique(old(tasks), NewTask(id, title, notes, priority, startDue, now, Some(rrule)));
        r := Ok(id);
      } else {
        r := Err(FailedRecurrentSave);
      }
    }

    /** `expand_for_today` on the stored tasks. */
    method ExpandForToday(today: int, rules: RruleOracle) returns (expanded: seq<Task>)
      ensures expanded == Expansion(tasks, today, rules)
    {
      expanded := [];
      var i := 0;
      while i < |tasks|
        invariant 0 <= i <= |tasks|
        invariant expanded == Expansion(tasks[..i], today, rules)
      {
        var task := tasks[i];
        assert tasks[..i + 1][..i] == tasks[..i];
        if task.rrule.Some? && task.rrule.value != "" && !task.completed && rules.parses(task.rrule.value) {
          if rules.occursOn(task.rrule.value, today) {
            expanded := expanded + [task.(id := task.id + "_today", due := Some(Stamp(today, 0, 0)))];
          }
        }
        i := i + 1;
      }
      assert tasks[..i] == tasks;
    }

    /** `list_today_sorted` on the stored tasks. */
    method ListTodaySorted(today: int, rules: RruleOracle) returns (list: seq<Task>)
      ensures list == TodayList(tasks, today, rules)
    {
      var todayTasks := [];
      var i := 0;
      while i < |tasks|
        invariant 0 <= i <= |tasks|
        invariant todayTasks == Regular(tasks[..i], today)
      {
        var task := tasks[i];
        assert tasks[..i + 1][..i] == tasks[..i];
        if !task.completed && !(task.rrule.Some? && task.rrule.value != "") {
          if task.due.Some? {
            if task.due.value.day <= today {
              todayTasks := todayTasks + [task];
            }
          } else if task.createdAt.day == today {
            todayTasks := todayTasks + [task];
          }
        }
        i := i + 1;
      }
      assert tasks[..i] == tasks;
      var expanded := ExpandForToday(today, rules);
      todayTasks := todayTasks + expanded;
      list := SortBy(todayTasks, SortKey);
    }

    /** `complete_task`: marks the first task with the id completed; true when found and saved. */
    method CompleteTask(id: string, now: Stamp, saved: bool) returns (ok: bool)
      modifies this
      ensures ok <==> id in Ids(old(tasks)) && saved
      ensures tasks == if ok then CompleteFirst(old(tasks), id, now) else old(tasks)
    {
      var i := 0;
      while i < |tasks|
        invariant 0 <= i <= |tasks|
        invariant forall j :: 0 <= j < i ==> tasks[j].id != id
      {
        if tasks[i].id == id {
          assert Ids(tasks)[i] == id;
          if saved {
            tasks := tasks[i := tasks[i].(completed := true, updatedAt := now)];
          }
          return saved;
        }
        i := i + 1;
      }
      assert forall j :: 0 <= j < |Ids(tasks)| ==> Ids(tasks)[j] != id;
      return false;
    }
  }

  lemma AppendFreshKeepsUnique(tasks: seq<Task>, t: Task)
    requires t.id !in Ids(tasks)
    ensures UniqueIds(tasks) ==> UniqueIds(tasks + [t])
  {
    forall j | 0 <= j < |tasks| ensures tasks[j].id != t.id {
      assert Ids(tasks)[j] == tasks[j].id;
    }
  }
}
