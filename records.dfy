/**
 * The dictionary shapes that travel between the bot's services. Python passes these as
 * plain dicts; a key that may be missing is an `Option` here.
 */
module Records {
  import opened Wrappers

  /** A mail message as the Gmail readers deliver it. */
  datatype Email = Email(
    sender: Option<string>,
    subject: Option<string>,
    body: Option<string>,
    account: Option<string>,
    importanceReason: Option<string>)

  /**
   * The dict the email ranking operations return. `accounts` is only present on the
   * AI path; the fallback and the safe default leave it out.
   */
  datatype RankResult = RankResult(
    emails: seq<Email>,
    found: int,
    considered: int,
    selected: int,
    accounts: Option<set<string>>,
    rationale: string)

  /** A routing dict: the `intent`, `args` and `message` keys, each of which may be missing. */
  datatype RouteDict = RouteDict(
    intent: Option<string>,
    args: Option<map<string, string>>,
    message: Option<string>)

  /** A news item as the RSS reader delivers it. */
  datatype NewsItem = NewsItem(title: Option<string>, source: Option<string>)

  /** What one call of the AI client's `generate_content` did: raise, or return a text. */
  datatype AiReply = NoReply | Reply(text: string)
}
