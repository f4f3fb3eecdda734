/**
 * The cloud backend of the dual-mode bot (bot_v3.py): the token lookup and
 * `trigger_github_actions`, which posts a `repository_dispatch` event. The
 * HTTP call is an input: either the status code the API answered or an
 * exception raised by `requests.post`.
 */
module Dispatch {
  import opened Wrappers
  import opened Decimal

  const GitHubRepo: string := "Everest18/claude-code-telegram-control"

  /** The repository's `dispatches` endpoint. */
  const DispatchUrl: string := "https://api.github.com/repos/" + GitHubRepo + "/dispatches"

  /** `os.getenv('GITHUB_PAT', os.getenv('GITHUB_TOKEN'))`: a set PAT wins, even an empty one. */
  function GitHubToken(pat: Option<string>, token: Option<string>): Option<string> {
    if pat.Some? then pat else token
  }

  /** `bool(GITHUB_TOKEN)`. */
  predicate HasToken(token: Option<string>) {
    token.Some? && token.value != ""
  }

  /** `client_payload`: the task and the chat and message ids as decimal strings. */
  datatype ClientPayload = ClientPayload(task: string, chatId: string, messageId: string)

  /** The POST `trigger_github_actions` sends. */
  datatype DispatchRequest = DispatchRequest(
    url: string,
    authorization: string,
    accept: string,
    eventType: string,
    clientPayload: ClientPayload
  )

  /** What `requests.post` did: answered with a status code, or raised. */
  datatype HttpOutcome = Responded(statusCode: int) | RequestRaised

  /** The request sent (if any) and the boolean `trigger_github_actions` returns. */
  datatype CloudTrigger = CloudTrigger(request: Option<DispatchRequest>, success: bool)

  /** The request built from a token, the requester's chat and message ids and the task text. */
  function DispatchRequestFor(token: string, chatId: int, task: string, messageId: int): DispatchRequest {
    DispatchRequest(
      DispatchUrl,
      "Bearer " + token,
      "application/vnd.github.v3+json",
      "execute-task",
      ClientPayload(task, IntText(chatId), IntText(messageId)))
  }

  /** `trigger_github_actions`: no token, no request; otherwise success is a 204 answer. */
  function TriggerGitHubActions(token: Option<string>, chatId: int, task: string, messageId: int, outcome: HttpOutcome): (r: CloudTrigger)
    ensures !HasToken(token) ==> r.request.None? && !r.success
    ensures HasToken(token) ==> r.request == Some(DispatchRequestFor(token.value, chatId, task, messageId))
    ensures r.success <==> HasToken(token) && outcome == Responded(204)
  {
    if !HasToken(token) then CloudTrigger(None, false)
    else
      var request := DispatchRequestFor(token.value, chatId, task, messageId);
      match outcome
      case Responded(code) => CloudTrigger(Some(request), code == 204)
      case RequestRaised => CloudTrigger(Some(request), false)
  }

  /**
   * The payload carries what the completion notifier needs to answer the
   * right requester: the task verbatim and ids that read back as the
   * original chat and message ids.
   */
  lemma PayloadIdentifiesRequester(token: string, chatId: int, task: string, messageId: int)
    ensures var p := DispatchRequestFor(token, chatId, task, messageId).clientPayload;
      && p.task == task
      && ParseInt(p.chatId) == chatId
      && ParseInt(p.messageId) == messageId
  {
    ParseIntText(chatId);
    ParseIntText(messageId);
  }

  /** Requests for different chats carry different chat ids. */
  lemma DistinctChatsDistinctPayloads(token: string, chat1: int, chat2: int, task: string, messageId: int)
    requires chat1 != chat2
    ensures DispatchRequestFor(token, chat1, task, messageId) != DispatchRequestFor(token, chat2, task, messageId)
  {
    if IntText(chat1) == IntText(chat2) {
      IntTextInjective(chat1, chat2);
    }
  }

  /** A set but empty `GITHUB_PAT` hides `GITHUB_TOKEN`: the cloud backend then never sends a request. */
  lemma EmptyPatDisablesCloud(token: Option<string>, chatId: int, task: string, messageId: int, outcome: HttpOutcome)
    ensures TriggerGitHubActions(GitHubToken(Some(""), token), chatId, task, messageId, outcome) == CloudTrigger(None, false)
  {
  }
}
