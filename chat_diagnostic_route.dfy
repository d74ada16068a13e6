/**
 * `app/api/chat-diagnostic/route.ts`: reports whether the database
 * answers a test query, how many messages were sent, a preview of the last
 * user message and the local-chat reply; the remote model is never called.
 */
module ChatDiagnosticRoute {
  import opened Options
  import opened Text
  import opened ChatTypes
  import LocalChat

  const NOT_TESTED := "Not tested"
  const SUCCESS := "Success"
  const FAILED := "Failed"
  const NO_DATABASE_URL := "No DATABASE_URL provided"
  const ERROR_PREFIX := "Error: "
  const UNKNOWN_ERROR := "Unknown error"
  const DIAGNOSTIC_ERROR := "Chat diagnostic error"
  const PREVIEW_LENGTH := 50
  const ELLIPSIS := "..."

  /**
   * What `SELECT 1 as test` did: answered with the first row's `test`
   * column (if any), or threw, with the error's message when it was an `Error`.
   */
  datatype Probe = Answered(test: Option<int>) | Threw(message: Option<string>)

  datatype Response =
    | Diagnostics(hasXaiKey: bool, hasDatabaseUrl: bool, connectionStatus: string,
                  messageCount: nat, lastUserMessage: string, content: string, sessionId: string)
    | ServerError(status: int, error: string)

  /** The status the connection test ends with. */
  function ConnectionStatus(hasDatabaseUrl: bool, probe: Probe): string
  {
    if !hasDatabaseUrl then NO_DATABASE_URL
    else match probe
      case Answered(test) => if test == Some(1) then SUCCESS else FAILED
      case Threw(message) => ERROR_PREFIX + message.GetOr(UNKNOWN_ERROR)
  }

  /** The status always says what happened: it is never left at "Not tested". */
  lemma {:induction false} StatusAlwaysSet(hasDatabaseUrl: bool, probe: Probe)
    ensures var status := ConnectionStatus(hasDatabaseUrl, probe);
      && status != NOT_TESTED
      && (status == SUCCESS <==> hasDatabaseUrl && probe == Answered(Some(1)))
      && (status == NO_DATABASE_URL <==> !hasDatabaseUrl)
      && (hasDatabaseUrl && probe.Threw? ==> IsPrefix(ERROR_PREFIX, status))
  {
    var status := ConnectionStatus(hasDatabaseUrl, probe);
    if hasDatabaseUrl && probe.Threw? {
      assert status[0] == 'E';
      PrefixOfAppend(ERROR_PREFIX, probe.message.GetOr(UNKNOWN_ERROR));
    }
  }

  /** The test of the database connection, reassigning its status as the steps go. */
  method TestConnection(hasDatabaseUrl: bool, probe: Probe) returns (status: string)
    ensures status == ConnectionStatus(hasDatabaseUrl, probe)
  {
    status := NOT_TESTED;
    if hasDatabaseUrl {
      if probe.Threw? {
        status := ERROR_PREFIX + probe.message.GetOr(UNKNOWN_ERROR);
      } else {
        status := if probe.test == Some(1) then SUCCESS else FAILED;
      }
    } else {
      status := NO_DATABASE_URL;
    }
  }

  /** `text.substring(0, 50) + (text.length > 50 ? "..." : "")`. */
  function Preview(text: string): (r: string)
    ensures |r| <= PREVIEW_LENGTH + |ELLIPSIS|
    ensures |text| <= PREVIEW_LENGTH ==> r == text
    ensures |text| > PREVIEW_LENGTH ==> |r| == PREVIEW_LENGTH + |ELLIPSIS| && r[..PREVIEW_LENGTH] == text[..PREVIEW_LENGTH] && EndsWith(r, ELLIPSIS)
  {
    if |text| > PREVIEW_LENGTH then
      var r := text[..PREVIEW_LENGTH] + ELLIPSIS;
      EndsWithAppend(text[..PREVIEW_LENGTH], ELLIPSIS);
      r
    else text
  }

  /** `POST`: 500 without a message list, otherwise the diagnostics and the local reply. */
  method Post(messages: Option<seq<Message>>, hasXaiKey: bool, hasDatabaseUrl: bool, probe: Probe,
              pick: nat, freshId: string)
    returns (response: Response)
    ensures messages.None? ==> response == ServerError(500, DIAGNOSTIC_ERROR)
    ensures messages.Some? ==>
      var userContent := LastUserContent(messages.value);
      && response.Diagnostics?
      && response.connectionStatus == ConnectionStatus(hasDatabaseUrl, probe)
      && response.messageCount == |messages.value|
      && response.lastUserMessage == Preview(userContent)
      && response.content == LocalChat.GenerateResponse(userContent, pick)
      && response.hasXaiKey == hasXaiKey && response.hasDatabaseUrl == hasDatabaseUrl
      && response.sessionId == freshId
  {
    if messages.None? {
      return ServerError(500, DIAGNOSTIC_ERROR);
    }
    var ms := messages.value;
    var status := TestConnection(hasDatabaseUrl, probe);
    var lastUserMessage := Pop(UserMessages(ms));
    FilterPopIsReverseFind(ms);
    var userContent := if lastUserMessage.Some? then lastUserMessage.value.content else "";
    var fallbackContent := LocalChat.GenerateResponse(userContent, pick);
    return Diagnostics(hasXaiKey, hasDatabaseUrl, status, |ms|, Preview(userContent), fallbackContent, freshId);
  }
}
