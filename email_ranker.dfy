/**
 * Email selection for the morning brief: the preference pre-filter that drops blocked
 * messages, and the ranking that asks the AI for the indices of the most relevant
 * messages, falling back to the heuristic ranking when the AI fails.
 */
module EmailRanker {
  import opened Wrappers
  import opened Text
  import opened Records
  import opened AiFallbacks
  import opened Prefs

  // ---------------------------------------------------------------------------
  // Pre-filter

  function SenderOf(e: Email): string {
    Lower(e.sender.GetOr(""))
  }

  function SubjectOf(e: Email): string {
    Lower(e.subject.GetOr(""))
  }

  /** Some pattern of `patterns`, lower-cased, occurs in `s` or in `t`. */
  predicate MatchesAny(s: string, t: string, patterns: seq<string>) {
    exists i :: 0 <= i < |patterns| && (Contains(s, Lower(patterns[i])) || Contains(t, Lower(patterns[i])))
  }

  /**
   * An email is dropped when a blocked keyword occurs in its subject or sender, or a
   * blocked domain or blocked sender occurs in its sender (all compared in lower case).
   */
  predicate Blocked(e: Email, p: Preferences) {
    MatchesAny(SubjectOf(e), SenderOf(e), p.blockedKeywords)
    || MatchesAny(SenderOf(e), SenderOf(e), p.blockedDomains)
    || MatchesAny(SenderOf(e), SenderOf(e), p.blockedSenders)
  }

  /** The emails `prefilter_by_prefs` keeps, in their original order. */
  function Prefiltered(emails: seq<Email>, p: Preferences): seq<Email>
    decreases |emails|
  {
    if emails == [] then []
    else
      var last := emails[|emails| - 1];
      Prefiltered(emails[..|emails| - 1], p) + (if Blocked(last, p) then [] else [last])
  }

  /** The inner `for ... : if ...: blocked = True; break` loop. */
  method AnyPatternMatches(s: string, t: string, patterns: seq<string>) returns (found: bool)
    ensures found <==> MatchesAny(s, t, patterns)
  {
    found := false;
    var i := 0;
    while i < |patterns|
      invariant 0 <= i <= |patterns|
      invariant !found
      invariant forall j :: 0 <= j < i ==> !(Contains(s, Lower(patterns[j])) || Contains(t, Lower(patterns[j])))
    {
      var pattern := Lower(patterns[i]);
      if Contains(s, pattern) || Contains(t, pattern) {
        found := true;
        break;
      }
      i := i + 1;
    }
  }

  /** `prefilter_by_prefs` with the loaded preferences `prefs`: the kept emails and the input count. */
  method PrefilterByPrefs(emails: seq<Email>, prefs: Preferences) returns (filtered: seq<Email>, originalCount: nat)
    ensures filtered == Prefiltered(emails, prefs)
    ensures originalCount == |emails|
  {
    originalCount := |emails|;
    filtered := [];
    var i := 0;
    while i < |emails|
      invariant 0 <= i <= |emails|
      invariant filtered == Prefiltered(emails[..i], prefs)
    {
      var email := emails[i];
      assert emails[..i + 1][..i] == emails[..i];
      var sender := SenderOf(email);
      var subject := SubjectOf(email);
      var blocked := AnyPatternMatches(subject, sender, prefs.blockedKeywords);
      if !blocked {
        blocked := AnyPatternMatches(sender, sender, prefs.blockedDomains);
      }
      if !blocked {
        blocked := AnyPatternMatches(sender, sender, prefs.blockedSenders);
      }
      if !blocked {
        filtered := filtered + [email];
      }
      i := i + 1;
    }
    assert emails[..i] == emails;
  }

  /** Filtering distributes over concatenation, so the kept emails keep their relative order. */
  lemma {:induction false} PrefilterConcat(a: seq<Email>, b: seq<Email>, p: Preferences)
    ensures Prefiltered(a + b, p) == Prefiltered(a, p) + Prefiltered(b, p)
    decreases |b|
  {
    if b != [] {
      var front := b[..|b| - 1];
      PrefilterConcat(a, front, p);
      assert (a + b)[..|a + b| - 1] == a + front;
    } else {
      assert a + b == a;
    }
  }

  /** An email survives the pre-filter exactly when it is in the input and not blocked. */
  lemma {:induction false} PrefilterKeepsExactlyUnblocked(emails: seq<Email>, p: Preferences)
    ensures forall e :: e in Prefiltered(emails, p) <==> e in emails && !Blocked(e, p)
    ensures |Prefiltered(emails, p)| <= |emails|
    decreases |emails|
  {
    if emails != [] {
      var front := emails[..|emails| - 1];
      PrefilterKeepsExactlyUnblocked(front, p);
      assert emails == front + [emails[|emails| - 1]];
    }
  }

  /** Filtering twice with the same preferences removes nothing more. */
  lemma {:induction false} PrefilterIdempotent(emails: seq<Email>, p: Preferences)
    ensures Prefiltered(Prefiltered(emails, p), p) == Prefiltered(emails, p)
    decreases |emails|
  {
    if emails != [] {
      var front := emails[..|emails| - 1];
      var last := emails[|emails| - 1];
      PrefilterIdempotent(front, p);
      PrefilterConcat(Prefiltered(front, p), if Blocked(last, p) then [] else [last], p);
      if !Blocked(last, p) {
        assert Prefiltered([last], p) == Prefiltered([], p) + [last];
      }
    }
  }

  /** With the default preferences, a newsletter is dropped. */
  lemma DefaultPrefsDropNewsletters(e: Email)
    requires Contains(SubjectOf(e), "newsletter")
    ensures Blocked(e, DefaultPreferences())
  {
    LowerUnchanged("newsletter");
    assert DefaultPreferences().blockedKeywords[0] == "newsletter";
  }

  // ---------------------------------------------------------------------------
  // Ranking

  const RankName := "rank_emails_with_gemini"
  const NothingToRank := "No emails to process"
  const DefaultRationale := "Selección basada en relevancia"
  /** How many emails are described to the AI. */
  const PromptLimit := 50

  /** The JSON object the AI answers with: 1-based indices and an optional rationale. */
  datatype RankReply = RankReply(selected: seq<int>, rationale: Option<string>)

  /** The emails the AI's 1-based indices name, in the AI's order; out-of-range indices are skipped. */
  function Resolve(emails: seq<Email>, idxs: seq<int>): (r: seq<Email>)
    ensures |r| <= |idxs|
    ensures forall e :: e in r ==> e in emails
    decreases |idxs|
  {
    if idxs == [] then []
    else
      var idx := idxs[|idxs| - 1];
      Resolve(emails, idxs[..|idxs| - 1]) + (if 1 <= idx <= |emails| then [emails[idx - 1]] else [])
  }

  method ResolveSelected(emails: seq<Email>, idxs: seq<int>) returns (selected: seq<Email>)
    ensures selected == Resolve(emails, idxs)
  {
    selected := [];
    var i := 0;
    while i < |idxs|
      invariant 0 <= i <= |idxs|
      invariant selected == Resolve(emails, idxs[..i])
    {
      assert idxs[..i + 1][..i] == idxs[..i];
      var idx := idxs[i];
      if 1 <= idx <= |emails| {
        selected := selected + [emails[idx - 1]];
      }
      i := i + 1;
    }
    assert idxs[..i] == idxs;
  }

  /** Index resolution distributes over concatenation: each index is resolved on its own, in order. */
  lemma {:induction false} ResolveConcat(emails: seq<Email>, a: seq<int>, b: seq<int>)
    ensures Resolve(emails, a + b) == Resolve(emails, a) + Resolve(emails, b)
    decreases |b|
  {
    if b != [] {
      var front := b[..|b| - 1];
      ResolveConcat(emails, a, front);
      assert (a + b)[..|a + b| - 1] == a + front;
    } else {
      assert a + b == a;
    }
  }

  /** A single index names the email at that 1-based position, or nothing when out of range. */
  lemma ResolveSingle(emails: seq<Email>, i: int)
    ensures Resolve(emails, [i]) == if 1 <= i <= |emails| then [emails[i - 1]] else []
  {
    assert [i][..0] == [];
  }

  /** The accounts the emails came from; an email without one counts as "me". */
  function Accounts(emails: seq<Email>): (r: set<string>)
    ensures forall e :: e in emails ==> e.account.GetOr("me") in r
    ensures forall a :: a in r ==> exists e :: e in emails && e.account.GetOr("me") == a
  {
    set e | e in emails :: e.account.GetOr("me")
  }

  /** The AI-backed `rank_emails_with_gemini` before wrapping. */
  function RankPrimary(emails: seq<Email>, topK: int, reply: AiReply,
                       parse: string -> Option<RankReply>): Attempt<AiValue>
  {
    if emails == [] then Succeeded(RankValue(RankResult([], 0, 0, 0, None, NothingToRank)))
    else match reply
      case NoReply => Raised
      case Reply(text) =>
        match parse(StripCodeFences(text))
        case None => Raised
        case Some(answer) =>
          var selected := Resolve(emails, answer.selected);
          Succeeded(RankValue(RankResult(
            TakePrefix(selected, topK),
            |emails|,
            if |emails| < PromptLimit then |emails| else PromptLimit,
            |selected|,
            Some(Accounts(emails)),
            answer.rationale.GetOr(DefaultRationale))))
  }

  /** The wrapped `rank_emails_with_gemini`, as callers see it. */
  function RankEmailsWithGemini(emails: seq<Email>, topK: int, reply: AiReply,
                                parse: string -> Option<RankReply>): AiValue {
    WithAiFallback(RankName,
                   (args: (seq<Email>, int)) => RankPrimary(args.0, args.1, reply, parse),
                   (args: (seq<Email>, int)) => Succeeded(RankValue(FallbackRank(args.0, args.1))),
                   (emails, topK))
  }

  /**
   * Ranking always yields a ranking dict. With no emails the AI is not consulted and all
   * counts are zero. When the AI answer is usable, the result holds the first `top_k`
   * (Python slicing) of the emails it named, in its order; `found` is the number of
   * emails, `considered` that number capped at the prompt limit, and `selected` counts
   * every in-range index before the cut. Otherwise the heuristic ranking is returned.
   */
  lemma RankOutcomes(emails: seq<Email>, topK: int, reply: AiReply, parse: string -> Option<RankReply>)
    ensures var r := RankEmailsWithGemini(emails, topK, reply, parse);
      && r.RankValue?
      && (emails == [] ==>
            r.rank.emails == [] && r.rank.found == 0 && r.rank.considered == 0 && r.rank.selected == 0)
      && (emails != [] && reply.Reply? && parse(StripCodeFences(reply.text)).Some? ==>
            var named := Resolve(emails, parse(StripCodeFences(reply.text)).value.selected);
            && r.rank.emails == TakePrefix(named, topK)
            && (topK >= 0 ==> |r.rank.emails| == if topK <= |named| then topK else |named|)
            && (forall e :: e in r.rank.emails ==> e in emails)
            && r.rank.found == |emails|
            && r.rank.considered == (if |emails| < PromptLimit then |emails| else PromptLimit)
            && r.rank.selected == |named|
            && r.rank.accounts == Some(Accounts(emails)))
      && (emails != [] && (reply.NoReply? || parse(StripCodeFences(reply.text)).None?) ==>
            r.rank == FallbackRank(emails, topK))
  {
  }
}
