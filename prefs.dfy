/**
 * The email preferences store: the record of blocked and prioritised domains, senders and
 * keywords, its defaults, the changes an AI interpretation of an instruction applies, and
 * the keyword-based parser used when the AI is unavailable or answers with something that
 * is not JSON.
 */
module Prefs {
  import opened Wrappers
  import opened Text
  import opened Records

  datatype Preferences = Preferences(
    topK: int,
    onlyUnread: bool,
    minImportance: string,
    priorityDomains: seq<string>,
    prioritySenders: seq<string>,
    blockedDomains: seq<string>,
    blockedSenders: seq<string>,
    blockedKeywords: seq<string>)

  const DefaultBlockedKeywords := ["newsletter", "promo", "boletín", "no-reply"]

  /** The preferences used when none are stored. */
  function DefaultPreferences(): (p: Preferences)
    ensures p.topK == 10 && !p.onlyUnread && p.minImportance == "any"
    ensures p.priorityDomains == p.prioritySenders == p.blockedDomains == p.blockedSenders == []
    ensures p.blockedKeywords == DefaultBlockedKeywords
  {
    Preferences(10, false, "any", [], [], [], [], DefaultBlockedKeywords)
  }

  /** The JSON object the AI answers with; keys it leaves out are `None` (or an empty `values`). */
  datatype PrefsAction = PrefsAction(
    action: Option<string>,
    kind: Option<string>,
    values: seq<string>,
    explanation: Option<string>)

  predicate NoDuplicates(s: seq<string>) {
    forall i, j :: 0 <= i < j < |s| ==> s[i] != s[j]
  }

  /** `after` keeps `before` as its first entries. */
  predicate Extends(before: seq<string>, after: seq<string>) {
    |before| <= |after| && after[..|before|] == before
  }

  /** `[x for x in xs if x not in ys]`. */
  function Without(xs: seq<string>, ys: seq<string>): (r: seq<string>)
    ensures forall x :: x in r <==> x in xs && x !in ys
    ensures |r| <= |xs|
    decreases |xs|
  {
    if xs == [] then []
    else (if xs[0] in ys then [] else [xs[0]]) + Without(xs[1..], ys)
  }

  /** `list.extend([v for v in values if v not in list])`. */
  function ExtendMissing(list: seq<string>, values: seq<string>): (r: seq<string>)
    ensures Extends(list, r)
    ensures forall v :: v in r <==> v in list || v in values
  {
    list + Without(values, list)
  }

  /** The blocked list an action of kind `domain`, `sender` or `keyword` works on. */
  function BlockedList(p: Preferences, kind: string): seq<string> {
    if kind == "domain" then p.blockedDomains
    else if kind == "sender" then p.blockedSenders
    else p.blockedKeywords
  }

  function WithBlockedList(p: Preferences, kind: string, list: seq<string>): Preferences {
    if kind == "domain" then p.(blockedDomains := list)
    else if kind == "sender" then p.(blockedSenders := list)
    else p.(blockedKeywords := list)
  }

  /** The priority list an action of kind `domain` or `sender` works on. */
  function PriorityList(p: Preferences, kind: string): seq<string> {
    if kind == "domain" then p.priorityDomains else p.prioritySenders
  }

  function WithPriorityList(p: Preferences, kind: string, list: seq<string>): Preferences {
    if kind == "domain" then p.(priorityDomains := list) else p.(prioritySenders := list)
  }

  /** The change an AI answer describes, applied to `p`. */
  function ApplyAction(p: Preferences, a: PrefsAction): Preferences {
    var kind := a.kind.GetOr("");
    if a.action == Some("block") && kind in {"domain", "sender", "keyword"} then
      WithBlockedList(p, kind, ExtendMissing(BlockedList(p, kind), a.values))
    else if a.action == Some("prioritize") && kind in {"domain", "sender"} then
      WithPriorityList(p, kind, ExtendMissing(PriorityList(p, kind), a.values))
    else if a.action == Some("unblock") && kind in {"domain", "sender", "keyword"} then
      WithBlockedList(p, kind, Without(BlockedList(p, kind), a.values))
    else p
  }

  /**
   * Blocking or prioritising appends the values not yet listed to the one list the
   * action names, after the entries already there, and touches nothing else.
   */
  lemma BlockAndPrioritizeOnlyAppend(p: Preferences, a: PrefsAction)
    requires a.kind.Some?
    ensures var r := ApplyAction(p, a); var k := a.kind.value;
      && (a.action == Some("block") && k in {"domain", "sender", "keyword"} ==>
            && Extends(BlockedList(p, k), BlockedList(r, k))
            && (forall v :: v in BlockedList(r, k) <==> v in BlockedList(p, k) || v in a.values)
            && r == WithBlockedList(p, k, BlockedList(r, k)))
      && (a.action == Some("prioritize") && k in {"domain", "sender"} ==>
            && Extends(PriorityList(p, k), PriorityList(r, k))
            && (forall v :: v in PriorityList(r, k) <==> v in PriorityList(p, k) || v in a.values)
            && r == WithPriorityList(p, k, PriorityList(r, k)))
  {
  }

  /**
   * Unblocking removes every listed value from the one blocked list the action names and
   * keeps every other entry; any other action or kind (such as prioritising a keyword)
   * changes nothing.
   */
  lemma UnblockOnlyRemoves(p: Preferences, a: PrefsAction)
    requires a.kind.Some?
    ensures var r := ApplyAction(p, a); var k := a.kind.value;
      && (a.action == Some("unblock") && k in {"domain", "sender", "keyword"} ==>
            && (forall v :: v in BlockedList(r, k) <==> v in BlockedList(p, k) && v !in a.values)
            && |BlockedList(r, k)| <= |BlockedList(p, k)|
            && r == WithBlockedList(p, k, BlockedList(r, k)))
      && (a.action !in {Some("block"), Some("prioritize"), Some("unblock")} ==> r == p)
      && (a.action == Some("prioritize") && k == "keyword" ==> r == p)
  {
  }

  /** Applying an AI answer never adds a duplicate of an entry already listed. */
  lemma {:induction false} ExtendMissingKeepsNoDuplicates(list: seq<string>, values: seq<string>)
    requires NoDuplicates(list) && NoDuplicates(values)
    ensures NoDuplicates(ExtendMissing(list, values))
  {
    var added := Without(values, list);
    WithoutKeepsNoDuplicates(values, list);
    var r := list + added;
    forall i, j | 0 <= i < j < |r| ensures r[i] != r[j] {
      if i < |list| && j >= |list| {
        assert r[j] in added;
      }
    }
  }

  lemma {:induction false} WithoutKeepsNoDuplicates(xs: seq<string>, ys: seq<string>)
    requires NoDuplicates(xs)
    ensures NoDuplicates(Without(xs, ys))
    decreases |xs|
  {
    if xs != [] {
      WithoutKeepsNoDuplicates(xs[1..], ys);
      var head := if xs[0] in ys then [] else [xs[0]];
      var r := head + Without(xs[1..], ys);
      forall i, j | 0 <= i < j < |r| ensures r[i] != r[j] {
        if i < |head| {
          assert r[j] in Without(xs[1..], ys);
          assert xs[0] !in xs[1..];
        }
      }
    }
  }

  // ---------------------------------------------------------------------------
  // The keyword-based parser

  const BasicExplanation := "Preferencias actualizadas con análisis básico"
  const DefaultExplanation := "Preferencias actualizadas"

  /** A word that looks like a domain or an address. */
  predicate IsDomainWord(w: string) {
    '@' in w || '.' in w
  }

  /** A word that is blocked as a keyword when it is not a domain. */
  predicate IsKeywordWord(w: string) {
    !IsDomainWord(w) && |w| > 3 && w !in ["correos", "emails", "de"]
  }

  /** `if w not in list: list.append(w)`. */
  function AddIfAbsent(list: seq<string>, w: string): (r: seq<string>)
    ensures Extends(list, r) && w in r
    ensures forall x :: x in r[|list|..] ==> x == w
    ensures NoDuplicates(list) ==> NoDuplicates(r)
  {
    if w in list then list else list + [w]
  }

  /** One iteration of the word loop. */
  function BasicStep(p: Preferences, w: string): Preferences {
    if IsDomainWord(w) then p.(blockedDomains := AddIfAbsent(p.blockedDomains, w))
    else if IsKeywordWord(w) then p.(blockedKeywords := AddIfAbsent(p.blockedKeywords, w))
    else p
  }

  function BasicFold(p: Preferences, words: seq<string>): Preferences
    decreases |words|
  {
    if words == [] then p else BasicStep(BasicFold(p, words[..|words| - 1]), words[|words| - 1])
  }

  /** Whether the instruction asks for something to be blocked. */
  predicate AsksToBlock(instruction: string) {
    Contains(Lower(instruction), "no me des") || Contains(Lower(instruction), "bloquear")
  }

  /** The preferences `update_prefs_basic` produces. */
  function UpdateBasic(instruction: string, p: Preferences): Preferences {
    if AsksToBlock(instruction) then BasicFold(p, Words(Lower(instruction))) else p
  }

  method UpdatePrefsBasic(instruction: string, prefs: Preferences) returns (updated: Preferences, explanation: string)
    ensures updated == UpdateBasic(instruction, prefs)
    ensures explanation == BasicExplanation
  {
    explanation := BasicExplanation;
    updated := prefs;
    var low := Lower(instruction);
    if Contains(low, "no me des") || Contains(low, "bloquear") {
      var words := Words(low);
      var i := 0;
      while i < |words|
        invariant 0 <= i <= |words|
        invariant updated == BasicFold(prefs, words[..i])
      {
        var w := words[i];
        assert words[..i + 1][..i] == words[..i];
        if '@' in w || '.' in w {
          if w !in updated.blockedDomains {
            updated := updated.(blockedDomains := updated.blockedDomains + [w]);
          }
        } else if |w| > 3 && w !in ["correos", "emails", "de"] {
          if w !in updated.blockedKeywords {
            updated := updated.(blockedKeywords := updated.blockedKeywords + [w]);
          }
        }
        i := i + 1;
      }
      assert words[..i] == words;
    }
  }

  lemma ExtendsTransitive(a: seq<string>, b: seq<string>, c: seq<string>)
    requires Extends(a, b) && Extends(b, c)
    ensures Extends(a, c)
    ensures c[|a|..] == b[|a|..] + c[|b|..]
  {
    assert c[..|a|] == c[..|b|][..|a|];
  }

  /**
   * The word loop only appends, and only to the blocked domains and blocked keywords,
   * and no entry is added twice.
   */
  lemma {:induction false} BasicFoldOnlyAppends(p: Preferences, words: seq<string>)
    ensures var r := BasicFold(p, words);
      && r == p.(blockedDomains := r.blockedDomains, blockedKeywords := r.blockedKeywords)
      && Extends(p.blockedDomains, r.blockedDomains)
      && Extends(p.blockedKeywords, r.blockedKeywords)
      && (NoDuplicates(p.blockedDomains) ==> NoDuplicates(r.blockedDomains))
      && (NoDuplicates(p.blockedKeywords) ==> NoDuplicates(r.blockedKeywords))
    decreases |words|
  {
    if words != [] {
      var front := words[..|words| - 1];
      var w := words[|words| - 1];
      BasicFoldOnlyAppends(p, front);
      var q := BasicFold(p, front);
      var r := BasicStep(q, w);
      assert r == BasicFold(p, words);
      if IsDomainWord(w) {
        assert r == q.(blockedDomains := AddIfAbsent(q.blockedDomains, w));
        ExtendsTransitive(p.blockedDomains, q.blockedDomains, r.blockedDomains);
      } else if IsKeywordWord(w) {
        assert r == q.(blockedKeywords := AddIfAbsent(q.blockedKeywords, w));
        ExtendsTransitive(p.blockedKeywords, q.blockedKeywords, r.blockedKeywords);
      } else {
        assert r == q;
      }
    }
  }

  /** Each entry the word loop adds is one of the words, of the right kind. */
  lemma {:induction false} BasicFoldAddsOnlyWords(p: Preferences, words: seq<string>)
    ensures var r := BasicFold(p, words);
      && Extends(p.blockedDomains, r.blockedDomains) && Extends(p.blockedKeywords, r.blockedKeywords)
      && (forall w :: w in r.blockedDomains[|p.blockedDomains|..] ==> w in words && IsDomainWord(w))
      && (forall w :: w in r.blockedKeywords[|p.blockedKeywords|..] ==> w in words && IsKeywordWord(w))
    decreases |words|
  {
    if words != [] {
      var front := words[..|words| - 1];
      var w := words[|words| - 1];
      BasicFoldOnlyAppends(p, front);
      BasicFoldAddsOnlyWords(p, front);
      var q := BasicFold(p, front);
      var r := BasicStep(q, w);
      assert r == BasicFold(p, words);
      assert words == front + [w];
      ExtendsTransitive(p.blockedDomains, q.blockedDomains, r.blockedDomains);
      ExtendsTransitive(p.blockedKeywords, q.blockedKeywords, r.blockedKeywords);
      if IsDomainWord(w) {
        assert r.blockedKeywords == q.blockedKeywords;
      } else if IsKeywordWord(w) {
        assert r.blockedDomains == q.blockedDomains;
      } else {
        assert r == q;
      }
    }
  }

  /**
   * After the word loop every domain-like word is among the blocked domains and every
   * other word longer than three letters (apart from "correos" and "emails") among the
   * blocked keywords.
   */
  lemma {:induction false} BasicFoldCollects(p: Preferences, words: seq<string>)
    ensures var r := BasicFold(p, words);
      && (forall w :: w in words && IsDomainWord(w) ==> w in r.blockedDomains)
      && (forall w :: w in words && IsKeywordWord(w) ==> w in r.blockedKeywords)
    decreases |words|
  {
    if words != [] {
      var front := words[..|words| - 1];
      var w := words[|words| - 1];
      BasicFoldCollects(p, front);
      var q := BasicFold(p, front);
      assert words == front + [w];
      BasicFoldOnlyAppends(q, [w]);
      assert [w][..0] == [];
    }
  }

  // ---------------------------------------------------------------------------
  // Updating from an instruction

  /**
   * `update_prefs_from_instruction` on the preferences `p` currently in force: an AI
   * answer that parses (after `strip()`) is applied; a missing answer or one that does
   * not parse falls back to the keyword parser. The second component is the explanation
   * attached to the result.
   */
  function UpdateFromInstruction(p: Preferences, instruction: string, reply: AiReply,
                                 parse: string -> Option<PrefsAction>): (r: (Preferences, string))
    ensures reply.NoReply? ==> r == (UpdateBasic(instruction, p), BasicExplanation)
    ensures reply.Reply? && parse(Strip(reply.text)).None? ==> r == (UpdateBasic(instruction, p), BasicExplanation)
    ensures reply.Reply? && parse(Strip(reply.text)).Some? ==>
      r.0 == ApplyAction(p, parse(Strip(reply.text)).value)
      && (parse(Strip(reply.text)).value.explanation.None? ==> r.1 == DefaultExplanation)
      && (parse(Strip(reply.text)).value.explanation.Some? ==> r.1 == parse(Strip(reply.text)).value.explanation.value)
  {
    match reply
    case NoReply => (UpdateBasic(instruction, p), BasicExplanation)
    case Reply(text) =>
      match parse(Strip(text))
      case None => (UpdateBasic(instruction, p), BasicExplanation)
      case Some(a) => (ApplyAction(p, a), a.explanation.GetOr(DefaultExplanation))
  }

  /** The preferences file: `None` while it does not exist. */
  class PreferenceStore {
    var stored: Option<Preferences>

    constructor(stored: Option<Preferences>)
      ensures this.stored == stored
    {
      this.stored := stored;
    }

    /** `load_preferences`: the stored preferences, or the defaults when there are none. */
    function Load(): Preferences
      reads this
    {
      stored.GetOr(DefaultPreferences())
    }

    /** Applies an instruction and writes the result back; a failed write is only logged. */
    method UpdatePrefsFromInstruction(instruction: string, reply: AiReply,
                                      parse: string -> Option<PrefsAction>, saved: bool)
      returns (updated: Preferences, explanation: string)
      modifies this
      ensures (updated, explanation) == UpdateFromInstruction(old(Load()), instruction, reply, parse)
      ensures stored == if saved then Some(updated) else old(stored)
    {
      var current := Load();
      var fromAi := false;
      var action: PrefsAction;
      if reply.Reply? {
        var parsed := parse(Strip(reply.text));
        if parsed.Some? {
          fromAi := true;
          action := parsed.value;
        }
      }
      if fromAi {
        updated := ApplyAction(current, action);
        explanation := action.explanation.GetOr(DefaultExplanation);
      } else {
        updated, explanation := UpdatePrefsBasic(instruction, current);
      }
      if saved {
        stored := Some(updated);
      }
    }
  }
}
