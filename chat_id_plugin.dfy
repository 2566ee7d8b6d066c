/** The request-context plugin of logger.py: it derives the chat id of a request
    from the request's URL path. */
module ChatIdPlugin {
  import opened Optional
  import PyStr

  /** The context key the plugin's value is stored under. */
  const Key: string := "chat_id"

  /** `process_request`: an empty path gives no id; any other path gives the last
      element of `path.split("/")`, which is whatever follows the last `/`. */
  function ExtractChatId(path: string): (chatId: Option<string>)
    ensures chatId.None? <==> path == ""
    ensures chatId.Some? ==> PyStr.IsFinalSegment(chatId.value, path, '/')
  {
    if path != "" then
      PyStr.LastPieceIsFinalSegment(path, '/');
      Some(PyStr.Last(PyStr.Split(path, '/')))
    else
      None
  }

  /** Whatever precedes the last `/`, the id is exactly the segment after it. */
  lemma ChatIdAfterLastSlash(prefix: string, segment: string)
    requires '/' !in segment
    ensures ExtractChatId(prefix + "/" + segment) == Some(segment)
  {
    var path := prefix + "/" + segment;
    assert path[|path| - |segment|..] == segment;
    assert path[|path| - |segment| - 1] == '/';
    PyStr.FinalSegmentUnique(ExtractChatId(path).value, segment, path, '/');
  }

  /** A path ending in `/` (including "/" itself) gives the empty id, not no id. */
  lemma TrailingSlashGivesEmptyId(path: string)
    requires path != "" && path[|path| - 1] == '/'
    ensures ExtractChatId(path) == Some("")
  {
    assert path == path[..|path| - 1] + "/" + "";
    ChatIdAfterLastSlash(path[..|path| - 1], "");
  }

  /** A non-empty path without any `/` is its own id. */
  lemma PathWithoutSlashIsId(path: string)
    requires path != "" && '/' !in path
    ensures ExtractChatId(path) == Some(path)
  {
    PyStr.FinalSegmentUnique(ExtractChatId(path).value, path, path, '/');
  }

  /** The route `/chat/{chat_id}` yields the chat id for any id without `/`. */
  lemma ChatRouteGivesId(id: string)
    requires '/' !in id
    ensures ExtractChatId("/chat/" + id) == Some(id)
  {
    assert "/chat/" + id == "/chat" + "/" + id;
    ChatIdAfterLastSlash("/chat", id);
  }
}
