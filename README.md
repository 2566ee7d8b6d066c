# Chat-id tagged logging — a Dafny model

The repository attaches a chat conversation id to every log line written while a
web request is handled. Its logic lives in `logger.py` and has two parts:

- **`ChatIdPlugin.process_request`** derives the chat id from the request path.
  An empty path gives no id. Any other path gives the last element of
  `path.split("/")`, which is the text after the last `/`.
- **`CustomFormatter.format`** picks the chat id. It uses the request context's
  `chat_id` when a context exists and the value is truthy. Otherwise it uses the
  record's own `chat_id` attribute. It then composes `LEVEL:chat_id:name:msg`,
  or `LEVEL:name:msg` when there is no truthy id. It hands that message to the
  base `logging.Formatter` with the level name cleared, and restores both fields.
  All of this happens on a shallow copy of the record.

The Dafny project has four modules:

- `Optional` holds the `Option` datatype, standing for Python's `None` or a value.
- `PyStr` models Python's `str.split` and `str.join` for a one-character
  separator. It proves that join undoes split, and that the last piece of a
  split is the unique segment after the last separator.
- `ChatIdPlugin` models `process_request` as the pure function `ExtractChatId`.
- `CustomFormatter` models the record as a class `LogRecord` whose fields the
  formatter assigns. `Formatter.Format` copies the record, assigns and restores
  the copy's `msg` and `levelname` in the same order as the source, and calls
  the base formatter. The request context is a parameter of type
  `Option<map<string, Option<string>>>`. `None` means `context.exists()` is
  false. The map values are optional because the plugin stores `None` for an
  empty path.

A path with no final segment does not give "no id" in the code: a non-empty
path ending in `/` gives the empty string, and only the empty path gives `None`.
The model follows the code (`ChatIdPlugin.TrailingSlashGivesEmptyId`). The empty id is
falsy, so the formatter then falls back to the record's attribute
(`CustomFormatter.EmptyIdFallsBack`).

## Model

| member | source | states |
|---|---|---|
| `PyStr.Split` | logger.py:25 | `str.split` never returns an empty list, and no piece contains the separator |
| `PyStr.JoinSplit` | logger.py:25 | joining the pieces of `s.split(sep)` with `sep` gives back `s` |
| `PyStr.SinglePieceIffNoSeparator` | logger.py:25 | a split has exactly one piece if and only if the separator does not occur |
| `PyStr.LastPieceIsFinalSegment` | logger.py:24-25 | `s.split(sep)[-1]` is a suffix of `s` without `sep`, and it is either all of `s` or preceded by `sep` |
| `PyStr.FinalSegmentUnique` | logger.py:24-25 | only one string is the segment after the last separator, so the property above determines `split(...)[-1]` |
| `ChatIdPlugin.ExtractChatId` | logger.py:19-26 | no id exactly when the path is empty; otherwise the id is the text after the last `/` and contains no `/` |
| `ChatIdPlugin.ChatIdAfterLastSlash` | logger.py:23-25 | for any prefix `p` and any segment `x` without `/`, the path `p + "/" + x` gives exactly `x` |
| `ChatIdPlugin.TrailingSlashGivesEmptyId` | logger.py:23-25 | a non-empty path ending in `/`, `/` included, gives the empty id and not "no id" |
| `ChatIdPlugin.PathWithoutSlashIsId` | logger.py:23-25 | a non-empty path with no `/` is its own id |
| `ChatIdPlugin.ChatRouteGivesId` | example.py:17-18 | the route `/chat/{chat_id}` yields `chat_id` for any id without `/` |
| `CustomFormatter.ResolveChatId` | logger.py:37-42 | a truthy context value wins over the record's attribute; otherwise the attribute is used; the result is truthy exactly when one of the two is |
| `CustomFormatter.LogLine` | logger.py:44-49 | the line always starts with `levelname:` and always ends with `:name:msg` |
| `CustomFormatter.LogLineFields` | logger.py:46-49 | splitting the line at `:` yields `[levelname, id, name]` (or `[levelname, name]` with no empty field) followed by pieces that join back to `msg`, when those fields hold no `:` |
| `CustomFormatter.MessageOnlyRendersMessage` | logger.py:82-85 | the configured template `%(message)s` renders exactly the record's message |
| `CustomFormatter.LogRecord.Copy` | logger.py:35 | `copy.copy` gives a new record with the same attribute values |
| `CustomFormatter.Formatter.Format` | logger.py:33-62 | the caller's record is unchanged; the output is the base template rendered with an empty level name and the composed line as message, so with `%(message)s` it is exactly the composed line |
| `CustomFormatter.Formatter.FormatTwice` | logger.py:35-62 | formatting the same record in the same context twice gives the same string |
| `CustomFormatter.ChatRouteLogLine` | logger.py:38-47 | inside a request to `/chat/{id}`, with `id` non-empty and free of `/`, the line is `levelname:id:name:msg`, whatever the record's attribute |
| `CustomFormatter.EmptyIdFallsBack` | logger.py:39-42 | when the path gives no id or the empty id, the formatter uses the record's own `chat_id` attribute |

## Left out

- `starlette_context` itself (`context.exists`, `context.get`, `RawContextMiddleware`) is not modelled. The context is a parameter. Per-request isolation across concurrent requests is a property of that library and of the server, not of this code.
- `process_request` is `async` but never awaits. It is modelled as a plain function of the path, and the request object is reduced to `scope["path"]`.
- The base `logging.Formatter.format` is modelled only as filling a template with `levelname`, `name` and the message. `%`-interpolation of `record.args`, exception and stack-trace text, and the other `%(...)s` fields are left out, so a message or id containing `%` is treated as plain text.
- The model treats the record's `chat_id` attribute and the context value as a string or `None`. Python truthiness of other types (numbers, lists) is not modelled.
- `get_context_middleware` and `setup_logging` (logger.py:65-102) only build framework configuration. The one value they carry into the model is the template `%(message)s`.
- middleware.py holds static CORS and trusted-host settings handed to third-party middleware. It has no logic of its own.
- example.py is a FastAPI route and a server start. Its only modelled part is the route shape `/chat/{chat_id}`.
- Exceptions raised by the base formatter are not modelled. Python restores the copy's fields on the normal path only, with no `try`/`finally`. The model has no exceptions, so a base formatter that raises is not modelled. The caller's record is unaffected either way, because only the copy is touched.
