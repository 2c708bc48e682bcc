/**
 * The per-user progress record of a brief being generated in the background: a small
 * state machine from "generating" to "completed", a percentage derived from four
 * completion flags, the freshness and timeout tests, and the removal of stale entries.
 * Times are whole seconds.
 */
module ProgressCache {
  import opened Wrappers

  /** The collected payload of one brief section, kept as serialised JSON. */
  type Payload = string

  datatype BriefProgress = BriefProgress(
    userId: int,
    startedAt: int,
    lastUpdated: int,
    status: string,
    progressPercentage: int,
    newsData: Option<Payload>,
    emailsData: Option<Payload>,
    calendarData: Option<Payload>,
    tasksData: Option<Payload>,
    newsCompleted: bool,
    emailsCompleted: bool,
    calendarCompleted: bool,
    tasksCompleted: bool)

  /**
   * One keyword argument of `update_progress`: a field of the record and its new value,
   * or a name the record does not have. (`user_id` cannot be passed: it is the
   * positional parameter.)
   */
  datatype Kwarg =
    | StartedAt(startedAt: int)
    | LastUpdated(lastUpdated: int)
    | Status(status: string)
    | ProgressPercentage(percentage: int)
    | NewsData(newsData: Option<Payload>)
    | EmailsData(emailsData: Option<Payload>)
    | CalendarData(calendarData: Option<Payload>)
    | TasksData(tasksData: Option<Payload>)
    | NewsCompleted(newsCompleted: bool)
    | EmailsCompleted(emailsCompleted: bool)
    | CalendarCompleted(calendarCompleted: bool)
    | TasksCompleted(tasksCompleted: bool)
    | UnknownField(name: string)

  /** The entry `start_brief_generation` creates. */
  function NewProgress(userId: int, now: int): (p: BriefProgress)
    ensures p.status == "generating" && p.progressPercentage == 0
    ensures !p.newsCompleted && !p.emailsCompleted && !p.calendarCompleted && !p.tasksCompleted
    ensures p.newsData.None? && p.emailsData.None? && p.calendarData.None? && p.tasksData.None?
    ensures p.userId == userId && p.startedAt == p.lastUpdated == now
  {
    BriefProgress(userId, now, now, "generating", 0, None, None, None, None, false, false, false, false)
  }

  /** `setattr(progress, key, value)` for a name the record has; other names are skipped. */
  function SetField(p: BriefProgress, kw: Kwarg): BriefProgress {
    match kw
    case StartedAt(v) => p.(startedAt := v)
    case LastUpdated(v) => p.(lastUpdated := v)
    case Status(v) => p.(status := v)
    case ProgressPercentage(v) => p.(progressPercentage := v)
    case NewsData(v) => p.(newsData := v)
    case EmailsData(v) => p.(emailsData := v)
    case CalendarData(v) => p.(calendarData := v)
    case TasksData(v) => p.(tasksData := v)
    case NewsCompleted(v) => p.(newsCompleted := v)
    case EmailsCompleted(v) => p.(emailsCompleted := v)
    case CalendarCompleted(v) => p.(calendarCompleted := v)
    case TasksCompleted(v) => p.(tasksCompleted := v)
    case UnknownField(_) => p
  }

  function ApplyKwargs(p: BriefProgress, kwargs: seq<Kwarg>): BriefProgress
    decreases |kwargs|
  {
    if kwargs == [] then p else SetField(ApplyKwargs(p, kwargs[..|kwargs| - 1]), kwargs[|kwargs| - 1])
  }

  function CompletedCount(p: BriefProgress): (n: nat)
    ensures n <= 4
    ensures n == 4 <==> p.newsCompleted && p.emailsCompleted && p.calendarCompleted && p.tasksCompleted
  {
    (if p.newsCompleted then 1 else 0) + (if p.emailsCompleted then 1 else 0)
      + (if p.calendarCompleted then 1 else 0) + (if p.tasksCompleted then 1 else 0)
  }

  /**
   * The entry after `update_progress(user_id, **kwargs)` at time `now`. The percentage
   * `int((count / 4) * 100)` is exact for a count of 0 to 4, so it is written `25 * count`.
   */
  function UpdatedProgress(p: BriefProgress, now: int, kwargs: seq<Kwarg>): (r: BriefProgress)
    ensures r.progressPercentage == 25 * CompletedCount(r)
    ensures r.progressPercentage in {0, 25, 50, 75, 100}
    ensures r.progressPercentage == 100 <==>
      r.newsCompleted && r.emailsCompleted && r.calendarCompleted && r.tasksCompleted
    ensures r.progressPercentage == 100 ==> r.status == "completed"
    ensures r.progressPercentage < 100 ==> r.status == ApplyKwargs(p.(lastUpdated := now), kwargs).status
    ensures r.userId == p.userId
    ensures (forall k :: k in kwargs ==> !k.LastUpdated?) ==> r.lastUpdated == now
    ensures r == ApplyKwargs(p.(lastUpdated := now), kwargs).(progressPercentage := r.progressPercentage, status := r.status)
  {
    var q := ApplyKwargs(p.(lastUpdated := now), kwargs);
    KwargsKeepUser(p.(lastUpdated := now), kwargs);
    KwargsEffects(p.(lastUpdated := now), kwargs);
    var withPercentage := q.(progressPercentage := 25 * CompletedCount(q));
    if withPercentage.progressPercentage == 100 then withPercentage.(status := "completed") else withPercentage
  }

  lemma {:induction false} KwargsKeepUser(p: BriefProgress, kwargs: seq<Kwarg>)
    ensures ApplyKwargs(p, kwargs).userId == p.userId
    decreases |kwargs|
  {
    if kwargs != [] {
      KwargsKeepUser(p, kwargs[..|kwargs| - 1]);
    }
  }

  /** Without a `last_updated` keyword the update time is `now`; keywords naming no field change nothing. */
  lemma {:induction false} KwargsEffects(p: BriefProgress, kwargs: seq<Kwarg>)
    ensures (forall k :: k in kwargs ==> !k.LastUpdated?) ==> ApplyKwargs(p, kwargs).lastUpdated == p.lastUpdated
    ensures (forall k :: k in kwargs ==> k.UnknownField?) ==> ApplyKwargs(p, kwargs) == p
    decreases |kwargs|
  {
    if kwargs != [] {
      KwargsEffects(p, kwargs[..|kwargs| - 1]);
      assert forall k :: k in kwargs[..|kwargs| - 1] ==> k in kwargs;
      assert kwargs[|kwargs| - 1] in kwargs;
    }
  }

  /** `is_brief_fresh` on the entry found (if any). */
  predicate IsFresh(entry: Option<BriefProgress>, now: int, maxAgeMinutes: int) {
    entry.Some? && entry.value.status == "completed" && now - entry.value.lastUpdated < maxAgeMinutes * 60
  }

  /** `should_show_progress` on the entry found (if any). */
  predicate ShowsProgress(entry: Option<BriefProgress>, now: int, timeoutSeconds: int) {
    entry.Some? && entry.value.status == "generating" && now - entry.value.startedAt > timeoutSeconds
  }

  /**
   * A brief just started is never fresh, and shows progress once the timeout has passed.
   * An update that marks all four sections done completes the brief: it is then fresh
   * for `max_age_minutes` after the update (when no `last_updated` keyword overrides
   * the update time) and no longer shows progress.
   */
  lemma ProgressLifecycle(userId: int, start: int, p: BriefProgress, updatedAt: int, kwargs: seq<Kwarg>,
                          now: int, maxAgeMinutes: int, timeoutSeconds: int)
    ensures !IsFresh(Some(NewProgress(userId, start)), now, maxAgeMinutes)
    ensures ShowsProgress(Some(NewProgress(userId, start)), now, timeoutSeconds) <==> now - start > timeoutSeconds
    ensures var r := UpdatedProgress(p, updatedAt, kwargs);
      r.progressPercentage == 100 ==>
        && (IsFresh(Some(r), now, maxAgeMinutes) <==> now - r.lastUpdated < maxAgeMinutes * 60)
        && ((forall k :: k in kwargs ==> !k.LastUpdated?) ==>
              (IsFresh(Some(r), now, maxAgeMinutes) <==> now - updatedAt < maxAgeMinutes * 60))
        && !ShowsProgress(Some(r), now, timeoutSeconds)
  {
  }

  lemma NonEmptyHasMember(s: set<int>)
    requires s != {}
    ensures exists x :: x in s
  {
    if forall x :: x !in s {
      assert false;
    }
  }

  /** The brief cache; the JSON file behind it is not modelled. */
  class BriefCache {
    var cache: map<int, BriefProgress>

    constructor(loaded: map<int, BriefProgress>)
      ensures cache == loaded
    {
      cache := loaded;
    }

    /** `start_brief_generation`: a new entry, replacing any earlier one for the user. */
    method StartBriefGeneration(userId: int, now: int) returns (progress: BriefProgress)
      modifies this
      ensures progress == NewProgress(userId, now)
      ensures cache == old(cache)[userId := progress]
    {
      progress := NewProgress(userId, now);
      cache := cache[userId := progress];
    }

    function GetProgress(userId: int): (entry: Option<BriefProgress>)
      reads this
      ensures entry.Some? <==> userId in cache
      ensures entry.Some? ==> entry.value == cache[userId]
    {
      if userId in cache then Some(cache[userId]) else None
    }

    /** `update_progress`: nothing happens for a user without an entry. */
    method UpdateProgress(userId: int, now: int, kwargs: seq<Kwarg>)
      modifies this
      ensures userId !in old(cache) ==> cache == old(cache)
      ensures userId in old(cache) ==> cache == old(cache)[userId := UpdatedProgress(old(cache)[userId], now, kwargs)]
    {
      if userId !in cache {
        return;
      }
      var start := cache[userId].(lastUpdated := now);
      var progress := start;
      var i := 0;
      while i < |kwargs|
        invariant 0 <= i <= |kwargs|
        invariant progress == ApplyKwargs(start, kwargs[..i])
      {
        assert kwargs[..i + 1][..i] == kwargs[..i];
        progress := SetField(progress, kwargs[i]);
        i := i + 1;
      }
      assert kwargs[..i] == kwargs;
      var completedCount := CompletedCount(progress);
      progress := progress.(progressPercentage := 25 * completedCount);
      if progress.progressPercentage == 100 {
        progress := progress.(status := "completed");
      }
      cache := cache[userId := progress];
    }

    predicate IsBriefFresh(userId: int, now: int, maxAgeMinutes: int)
      reads this
      ensures IsBriefFresh(userId, now, maxAgeMinutes) <==>
        userId in cache && cache[userId].status == "completed"
        && now - cache[userId].lastUpdated < maxAgeMinutes * 60
    {
      IsFresh(GetProgress(userId), now, maxAgeMinutes)
    }

    predicate ShouldShowProgress(userId: int, now: int, timeoutSeconds: int)
      reads this
      ensures ShouldShowProgress(userId, now, timeoutSeconds) <==>
        userId in cache && cache[userId].status == "generating"
        && now - cache[userId].startedAt > timeoutSeconds
    {
      ShowsProgress(GetProgress(userId), now, timeoutSeconds)
    }

    /** The first phase of `cleanup_old_entries`: the users whose entry was last updated before `cutoff`. */
    method StaleUsers(cutoff: int) returns (toRemove: set<int>)
      ensures toRemove == set u | u in cache && cache[u].lastUpdated < cutoff
    {
      toRemove := {};
      var unvisited := cache.Keys;
      while unvisited != {}
        invariant unvisited <= cache.Keys
        invariant toRemove == set u | u in cache.Keys - unvisited && cache[u].lastUpdated < cutoff
        decreases |unvisited|
      {
        NonEmptyHasMember(unvisited);
        var user :| user in unvisited;
        if cache[user].lastUpdated < cutoff {
          toRemove := toRemove + {user};
        }
        unvisited := unvisited - {user};
      }
    }

    /** The second phase of `cleanup_old_entries`: the entries of `users` are deleted. */
    method DeleteUsers(users: set<int>)
      modifies this
      ensures cache.Keys == old(cache).Keys - users
      ensures forall u :: u in cache ==> cache[u] == old(cache)[u]
    {
      var pending := users;
      while pending != {}
        invariant pending <= users
        invariant cache.Keys == old(cache).Keys - (users - pending)
        invariant forall u :: u in cache ==> cache[u] == old(cache)[u]
        decreases |pending|
      {
        NonEmptyHasMember(pending);
        var user :| user in pending;
        cache := cache - {user};
        pending := pending - {user};
      }
    }

    /** `cleanup_old_entries`: exactly the entries not updated within the last `maxAgeHours` hours are removed. */
    method CleanupOldEntries(now: int, maxAgeHours: int)
      modifies this
      ensures cache == map u | u in old(cache) && old(cache)[u].lastUpdated >= now - maxAgeHours * 3600 :: old(cache)[u]
    {
      ghost var before := cache;
      var cutoff := now - maxAgeHours * 3600;
      var toRemove := StaleUsers(cutoff);
      DeleteUsers(toRemove);
      ghost var kept := map u | u in before && before[u].lastUpdated >= cutoff :: before[u];
      assert cache.Keys == kept.Keys;
      forall u | u in cache ensures cache[u] == kept[u] {
        assert cache[u] == before[u];
      }
      assert cache == kept;
    }
  }
}
