/**
 * The fallback layer wrapped around every AI-backed operation: the decorator that tries
 * the AI operation, then its heuristic fallback, then a safe default chosen by the
 * operation's name; and the three heuristic fallbacks for news summaries, email ranking
 * and instruction routing.
 */
module AiFallbacks {
  import opened Wrappers
  import opened Text
  import opened StableSort
  import opened Records

  /** How an awaited call ended: with a value, or by raising an exception. */
  datatype Attempt<+T> = Succeeded(value: T) | Raised

  /** The values the wrapped operations return (Python's `Any`). */
  datatype AiValue =
    | TextValue(text: string)
    | RankValue(rank: RankResult)
    | RouteValue(route: RouteDict)

  // ---------------------------------------------------------------------------
  // The decorator

  /**
   * `with_ai_fallback(fallback)(primary)` applied to `args`: the primary's value when it
   * returns, otherwise the fallback's value on the same arguments, otherwise the safe
   * default for the primary's name. The wrapped call never raises.
   */
  function WithAiFallback<A>(name: string, primary: A -> Attempt<AiValue>,
                             fallback: A -> Attempt<AiValue>, args: A): (r: AiValue)
    ensures primary(args).Succeeded? ==> r == primary(args).value
    ensures primary(args).Raised? && fallback(args).Succeeded? ==> r == fallback(args).value
    ensures primary(args).Raised? && fallback(args).Raised? ==> r == GetSafeDefault(name)
  {
    match primary(args)
    case Succeeded(v) => v
    case Raised =>
      match fallback(args)
      case Succeeded(w) => w
      case Raised => GetSafeDefault(name)
  }

  const SummaryUnavailable := "Resumen no disponible (error en IA y fallback)"
  const RankingError := "Error en ranking"
  const RoutingError := "Error en procesamiento de IA"
  const GenericAiError := "Error en función de IA"

  /** The value returned when both an operation and its fallback raised, chosen by name. */
  function GetSafeDefault(name: string): (r: AiValue)
    ensures Contains(Lower(name), "summarize") ==> r == TextValue(SummaryUnavailable)
    ensures r.RankValue? ==> r.rank.emails == [] && r.rank.found == 0 && r.rank.considered == 0
                             && r.rank.selected == 0 && r.rank.accounts.None?
    ensures r.RouteValue? ==> r.route.intent == Some("clarify") && r.route.args.None?
                              && r.route.message == Some(RoutingError)
    ensures r.RankValue? <==> !Contains(Lower(name), "summarize") && Contains(Lower(name), "rank")
    ensures r.RouteValue? <==> !Contains(Lower(name), "summarize") && !Contains(Lower(name), "rank")
                               && Contains(Lower(name), "route")
  {
    var low := Lower(name);
    if Contains(low, "summarize") then TextValue(SummaryUnavailable)
    else if Contains(low, "rank") then RankValue(RankResult([], 0, 0, 0, None, RankingError))
    else if Contains(low, "route") then RouteValue(RouteDict(Some("clarify"), None, Some(RoutingError)))
    else TextValue(GenericAiError)
  }

  // ---------------------------------------------------------------------------
  // News summary fallback

  const NewsHeader := "\U{1F4F0} **Resumen de noticias (modo fallback):**\n\n"
  const NoNews := "No hay noticias disponibles."

  /** The numbered line written for the `i`-th item (counting from 1). */
  function NewsLine(i: nat, item: NewsItem): string {
    NatToString(i) + ". " + item.title.GetOr("Sin título") + " ("
      + item.source.GetOr("Fuente desconocida") + ")\n"
  }

  /** The lines for `items`, numbered from 1. */
  function NewsLines(items: seq<NewsItem>): string
    decreases |items|
  {
    if items == [] then ""
    else NewsLines(items[..|items| - 1]) + NewsLine(|items|, items[|items| - 1])
  }

  /** The text `fallback_summarize_news` returns. */
  function SummarizeNewsFallback(items: seq<NewsItem>): string {
    if items == [] then NoNews else NewsHeader + NewsLines(TakePrefix(items, 5))
  }

  method FallbackSummarizeNews(items: seq<NewsItem>) returns (summary: string)
    ensures summary == SummarizeNewsFallback(items)
  {
    if |items| == 0 {
      return NoNews;
    }
    var top := TakePrefix(items, 5);
    summary := NewsHeader;
    var i := 0;
    while i < |top|
      invariant 0 <= i <= |top|
      invariant summary == NewsHeader + NewsLines(top[..i])
    {
      assert top[..i + 1][..i] == top[..i];
      summary := summary + NewsLine(i + 1, top[i]);
      i := i + 1;
    }
    assert top[..i] == top;
  }

  lemma {:induction false} NewsLinesContainLine(items: seq<NewsItem>, k: nat)
    requires k < |items|
    ensures Contains(NewsLines(items), NewsLine(k + 1, items[k]))
    decreases |items|
  {
    var front := items[..|items| - 1];
    var line := NewsLine(|items|, items[|items| - 1]);
    if k == |items| - 1 {
      ContainsAtOffset(line, line, 0);
      ContainsInRight(NewsLines(front), line, line);
    } else {
      NewsLinesContainLine(front, k);
      ContainsInLeft(NewsLines(front), line, NewsLine(k + 1, items[k]));
    }
  }

  /**
   * With no items the fallback summary is the fixed "no news" text; otherwise it is the
   * header followed by each of the first five items on its own numbered line, and
   * nothing after the fifth item affects it.
   */
  lemma SummaryListsFirstFive(items: seq<NewsItem>)
    ensures items == [] ==> SummarizeNewsFallback(items) == NoNews
    ensures items != [] ==> StartsWith(SummarizeNewsFallback(items), NewsHeader)
    ensures forall k :: 0 <= k < |items| && k < 5 ==>
      Contains(SummarizeNewsFallback(items), NewsLine(k + 1, items[k]))
    ensures |items| >= 5 ==> SummarizeNewsFallback(items) == SummarizeNewsFallback(items[..5])
  {
    forall k | 0 <= k < |items| && k < 5
      ensures Contains(SummarizeNewsFallback(items), NewsLine(k + 1, items[k]))
    {
      var top := TakePrefix(items, 5);
      assert top[k] == items[k];
      NewsLinesContainLine(top, k);
      ContainsInRight(NewsHeader, NewsLines(top), NewsLine(k + 1, items[k]));
    }
    if |items| >= 5 {
      assert items[..5][..5] == items[..5];
    }
  }

  // ---------------------------------------------------------------------------
  // Email ranking fallback

  const UrgentWords := ["urgent", "importante", "meeting", "reunión"]
  const AutomatedWords := ["noreply", "no-reply", "automated"]
  const NoEmails := "No hay correos"
  const HeuristicRationale := "Selección usando heurística básica (IA no disponible)"

  /** The heuristic score: +5 for an urgent subject, -5 for an automated sender, +2 for a short subject. */
  function Score(e: Email): (s: int)
    ensures -5 <= s <= 7
    ensures (ContainsAny(Lower(e.subject.GetOr("")), UrgentWords) && |e.subject.GetOr("")| < 50
             && !ContainsAny(Lower(e.sender.GetOr("")), AutomatedWords)) ==> s == 7
    ensures ContainsAny(Lower(e.sender.GetOr("")), AutomatedWords) ==> s <= 2
    ensures s > 2 <==> ContainsAny(Lower(e.subject.GetOr("")), UrgentWords)
                       && !ContainsAny(Lower(e.sender.GetOr("")), AutomatedWords)
    ensures s < 0 <==> !ContainsAny(Lower(e.subject.GetOr("")), UrgentWords)
                       && ContainsAny(Lower(e.sender.GetOr("")), AutomatedWords)
  {
    var sender := Lower(e.sender.GetOr(""));
    var subject := Lower(e.subject.GetOr(""));
    (if ContainsAny(subject, UrgentWords) then 5 else 0)
      + (if ContainsAny(sender, AutomatedWords) then -5 else 0)
      + (if |subject| < 50 then 2 else 0)
  }

  /** Descending score as an ascending key; Python's `sort(reverse=True)` is also stable. */
  function ByScoreDescending(p: (Email, int)): Key {
    Key(-p.1, 0)
  }

  /** The `(email, score)` pairs, in input order. */
  function Scored(emails: seq<Email>): (r: seq<(Email, int)>)
    ensures |r| == |emails|
  {
    seq(|emails|, i requires 0 <= i < |emails| => (emails[i], Score(emails[i])))
  }

  function Firsts(ps: seq<(Email, int)>): (r: seq<Email>)
    ensures |r| == |ps|
  {
    seq(|ps|, i requires 0 <= i < |ps| => ps[i].0)
  }

  /** All emails, highest score first, ties in input order. */
  function RankedByScore(emails: seq<Email>): (r: seq<Email>)
    ensures |r| == |emails|
  {
    SortByFacts(Scored(emails), ByScoreDescending);
    Firsts(SortBy(Scored(emails), ByScoreDescending))
  }

  /** The dict `fallback_rank_emails` returns. */
  function FallbackRank(emails: seq<Email>, topK: int): RankResult {
    if emails == [] then RankResult([], 0, 0, 0, None, NoEmails)
    else
      var selected := TakePrefix(RankedByScore(emails), topK);
      RankResult(selected, |emails|, |emails|, |selected|, None, HeuristicRationale)
  }

  method FallbackRankEmails(emails: seq<Email>, topK: int) returns (r: RankResult)
    ensures r == FallbackRank(emails, topK)
  {
    if |emails| == 0 {
      return RankResult([], 0, 0, 0, None, NoEmails);
    }
    var scored: seq<(Email, int)> := [];
    var i := 0;
    while i < |emails|
      invariant 0 <= i <= |emails|
      invariant |scored| == i
      invariant forall j :: 0 <= j < i ==> scored[j] == (emails[j], Score(emails[j]))
    {
      scored := scored + [(emails[i], Score(emails[i]))];
      i := i + 1;
    }
    assert scored == Scored(emails);
    var sorted := SortBy(scored, ByScoreDescending);
    var top := TakePrefix(sorted, topK);
    var selected := seq(|top|, j requires 0 <= j < |top| => top[j].0);
    assert selected == TakePrefix(Firsts(sorted), topK);
    r := RankResult(selected, |emails|, |emails|, |selected|, None, HeuristicRationale);
  }

  lemma RankedByScoreFacts(emails: seq<Email>)
    ensures multiset(RankedByScore(emails)) == multiset(emails)
    ensures forall i, j :: 0 <= i < j < |emails| ==>
      Score(RankedByScore(emails)[i]) >= Score(RankedByScore(emails)[j])
  {
    var sc := Scored(emails);
    var sorted := SortBy(sc, ByScoreDescending);
    SortByFacts(sc, ByScoreDescending);
    var r := RankedByScore(emails);
    forall i, j | 0 <= i < j < |emails| ensures Score(r[i]) >= Score(r[j]) {
      assert KeyLe(ByScoreDescending(sorted[i]), ByScoreDescending(sorted[j]));
      assert sorted[i] in multiset(sc) && sorted[j] in multiset(sc);
      var a :| 0 <= a < |sc| && sc[a] == sorted[i];
      var b :| 0 <= b < |sc| && sc[b] == sorted[j];
    }
    FirstsMultiset(sorted);
    FirstsMultiset(sc);
    assert Firsts(sc) == emails;
  }

  lemma {:induction false} FirstsMultiset(ps: seq<(Email, int)>)
    ensures forall qs :: multiset(qs) == multiset(ps) ==> multiset(Firsts(qs)) == multiset(Firsts(ps))
  {
    forall qs | multiset(qs) == multiset(ps)
      ensures multiset(Firsts(qs)) == multiset(Firsts(ps))
    {
      FirstsMultisetOf(qs, ps);
    }
  }

  lemma FirstsConcat(a: seq<(Email, int)>, b: seq<(Email, int)>)
    ensures Firsts(a + b) == Firsts(a) + Firsts(b)
  {
  }

  lemma {:induction false} FirstsMultisetOf(qs: seq<(Email, int)>, ps: seq<(Email, int)>)
    requires multiset(qs) == multiset(ps)
    ensures multiset(Firsts(qs)) == multiset(Firsts(ps))
    decreases |ps|
  {
    if ps != [] {
      var x := ps[0];
      var rest := ps[1..];
      assert ps == [x] + rest;
      assert x in multiset(qs);
      var k :| 0 <= k < |qs| && qs[k] == x;
      var front, back := qs[..k], qs[k + 1..];
      assert qs == front + [x] + back;
      var qs' := front + back;
      calc {
        multiset(qs');
        multiset(front) + multiset(back);
        multiset(qs) - multiset{x};
        multiset(ps) - multiset{x};
        multiset(rest);
      }
      FirstsMultisetOf(qs', rest);
      FirstsConcat(front + [x], back);
      FirstsConcat(front, [x]);
      FirstsConcat(front, back);
      FirstsConcat([x], rest);
    }
  }

  /**
   * The fallback keeps the `top_k` best-scoring emails: what it selects is drawn from the
   * input, every selected email scores at least as high as every email left out, and the
   * counts report the input size and the selection size.
   */
  lemma FallbackRankSelectsTopScores(emails: seq<Email>, topK: int)
    requires topK >= 0
    ensures var r := FallbackRank(emails, topK);
      && r.found == |emails| && r.considered == |emails|
      && r.selected == |r.emails| == (if topK <= |emails| then topK else |emails|)
      && multiset(r.emails) <= multiset(emails)
      && r.emails == RankedByScore(emails)[..|r.emails|]
      && forall i, j :: 0 <= i < |r.emails| <= j < |emails| ==>
           Score(r.emails[i]) >= Score(RankedByScore(emails)[j])
  {
    RankedByScoreFacts(emails);
    var all := RankedByScore(emails);
    var m := |FallbackRank(emails, topK).emails|;
    assert all == all[..m] + all[m..];
    assert multiset(all[..m]) <= multiset(all);
  }

  // ---------------------------------------------------------------------------
  // Routing fallback

  const AddWords := ["add", "añadir", "crear", "necesito"]
  const RecurWords := ["recur", "repetir", "cada", "diario"]
  const ListWords := ["list", "mostrar", "tareas"]
  const DoneWords := ["done", "hecho", "completar"]
  const BriefWords := ["brief", "resumen", "noticias"]
  const PrefsWords := ["bloquear", "preferencias", "ajustar"]
  const NoTaskId := "No pude identificar el ID de la tarea"
  const NotUnderstood := "No pude entender la instrucción (modo fallback)"

  predicate IsLowerHex(c: char) {
    ('0' <= c <= '9') || ('a' <= c <= 'f')
  }

  /** A match of the pattern `t_[a-f0-9]{8}` starting at position `p` of `s`. */
  predicate TokenAt(s: string, p: nat) {
    p + 10 <= |s| && s[p] == 't' && s[p + 1] == '_'
    && forall k :: p + 2 <= k < p + 10 ==> IsLowerHex(s[k])
  }

  /** `re.search(r't_[a-f0-9]{8}', s)`: the leftmost position where the pattern matches. */
  function FindTaskIdToken(s: string, from: nat): (r: Option<nat>)
    requires from <= |s|
    ensures r.Some? ==> from <= r.value && TokenAt(s, r.value)
                        && forall q :: from <= q < r.value ==> !TokenAt(s, q)
    ensures r.None? ==> forall q :: from <= q ==> !TokenAt(s, q)
    decreases |s| - from
  {
    if from + 10 > |s| then None
    else if TokenAt(s, from) then Some(from)
    else FindTaskIdToken(s, from + 1)
  }

  /** The routing dict `fallback_route_instruction` returns: the first keyword group that matches wins. */
  function FallbackRouteInstruction(instruction: string): (r: RouteDict)
    ensures r.intent.Some?
    ensures r.intent.value in {"add", "recur", "listar", "completar", "brief", "ajustar_prefs", "clarify"}
    ensures r.intent.value == "clarify" <==> r.args.None?
    ensures r.intent.value == "clarify" ==> r.message.Some? && |r.message.value| > 0
    ensures r.intent == Some("add") <==> ContainsAny(Lower(instruction), AddWords)
    ensures r.intent == Some("add") ==> r.args == Some(map["title" := instruction, "priority" := "medium"])
    ensures r.intent == Some("recur") ==>
      r.args == Some(map["title" := instruction, "rrule" := "FREQ=DAILY", "priority" := "medium"])
    ensures r.intent == Some("completar") ==>
      exists p: nat :: && TokenAt(instruction, p)
                       && (forall q: nat :: q < p ==> !TokenAt(instruction, q))
                       && r.args == Some(map["id" := instruction[p..p + 10]])
    ensures r.intent == Some("ajustar_prefs") ==>
      r.args == Some(map["preference_instruction" := instruction])
  {
    var low := Lower(instruction);
    if ContainsAny(low, AddWords) then
      RouteDict(Some("add"), Some(map["title" := instruction, "priority" := "medium"]), None)
    else if ContainsAny(low, RecurWords) then
      RouteDict(Some("recur"), Some(map["title" := instruction, "rrule" := "FREQ=DAILY", "priority" := "medium"]), None)
    else if ContainsAny(low, ListWords) then
      RouteDict(Some("listar"), Some(map[]), None)
    else if ContainsAny(low, DoneWords) then
      match FindTaskIdToken(instruction, 0)
      case Some(p) => RouteDict(Some("completar"), Some(map["id" := instruction[p..p + 10]]), None)
      case None => RouteDict(Some("clarify"), None, Some(NoTaskId))
    else if ContainsAny(low, BriefWords) then
      RouteDict(Some("brief"), Some(map[]), None)
    else if ContainsAny(low, PrefsWords) then
      RouteDict(Some("ajustar_prefs"), Some(map["preference_instruction" := instruction]), None)
    else
      RouteDict(Some("clarify"), None, Some(NotUnderstood))
  }

  /**
   * The keyword groups are tried in order: an instruction is routed to a group's intent
   * exactly when it mentions one of that group's words and none of an earlier group's,
   * and a completion request without a task id asks for clarification.
   */
  lemma FallbackRouteOrder(instruction: string)
    ensures var r := FallbackRouteInstruction(instruction); var low := Lower(instruction);
      && (r.intent == Some("recur") <==> !ContainsAny(low, AddWords) && ContainsAny(low, RecurWords))
      && (r.intent == Some("listar") <==>
            !ContainsAny(low, AddWords) && !ContainsAny(low, RecurWords) && ContainsAny(low, ListWords))
      && (r.intent == Some("completar") <==>
            !ContainsAny(low, AddWords) && !ContainsAny(low, RecurWords) && !ContainsAny(low, ListWords)
            && ContainsAny(low, DoneWords) && exists p :: TokenAt(instruction, p))
      && (r.intent == Some("brief") <==>
            !ContainsAny(low, AddWords) && !ContainsAny(low, RecurWords) && !ContainsAny(low, ListWords)
            && !ContainsAny(low, DoneWords) && ContainsAny(low, BriefWords))
      && (r.intent == Some("ajustar_prefs") <==>
            !ContainsAny(low, AddWords) && !ContainsAny(low, RecurWords) && !ContainsAny(low, ListWords)
            && !ContainsAny(low, DoneWords) && !ContainsAny(low, BriefWords) && ContainsAny(low, PrefsWords))
  {
    var found := FindTaskIdToken(instruction, 0);
    if found.None? {
      assert !exists p :: TokenAt(instruction, p);
    }
  }
}
