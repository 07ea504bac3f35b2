# URL summarizer plugin — Dafny model

A chat plugin answers the command `sum_url <url>`: it downloads the audio of the
media at the URL into a temporary `.m4a` file, transcribes it with Whisper, sends
the transcript to a Dify workflow for a summary, and streams progress messages
back to the chat. This project models the plugin's own logic around those three
services:

- **Configuration gate** (`settings.dfy`): construction reads the OpenAI key, the
  Dify key and the Dify URL from the environment and refuses, with a ValueError,
  unless all three are set and non-empty. A refused construction leaves no plugin
  to run (`Load` returns null).
- **Request shaping and answer resolution** (`summarizer.dfy`, `json.dfy`): the
  headers and JSON payload of the blocking workflow request, and the lookup of
  the answer in the reply. The lookup follows Python's `in` and subscript on
  whatever JSON value comes back: a top-level `answer` wins over
  `outputs.answer`, and a non-2xx status fails before any lookup. A dict reply
  with no top-level `answer`, whose `outputs` is absent or a dict without
  `answer`, fails with the "not as expected" ValueError. An `outputs` that is
  null, a bool or a number fails with a TypeError instead.
- **Run sequencing** (`progress.dfy`): the handler yields a progress message as
  each stage is entered, then either the summary or exactly one error message.
  A stage after the one that failed is never called.
- **Storage and cleanup** (`plugin.dfy`): the class `UrlSummarizerPlugin` holds
  local storage as a set of paths and the notifications yielded so far. Every
  plugin object satisfies `Valid()`: its keys passed the configuration gate. The
  handler removes the temp file in its `finally` block, but only when the
  download returned the file's path. A download that raises after the temp file
  was created leaves that file in storage: the handler never learned its path.
  `SummarizeUrl` states this as the code gives it. The scenario method
  `DownloadFailureLeavesTempFile` shows it on a concrete run.

The three service calls (download, transcription, summary) and the two storage
calls that can raise (temp-file creation, `os.remove`) are inputs to a run
(`Progress.Stages`). Each one returns or raises with a message.

Facts about the code that the model keeps:
- the top-level `answer` is checked before `outputs.answer`;
- the input field name `transcript` and the answer field name `answer` are fixed;
- a missing setting makes construction raise, so no plugin object exists to run;
- the temp file can outlive a run whose download fails.

## Model

| member | source | states |
|---|---|---|
| Settings.All | main.py:19 | `all([...])` holds exactly when every listed setting is present and non-empty |
| Settings.Resolve | main.py:15-21 | construction is accepted iff all three settings are present and non-empty; the keys are then exactly the values read; otherwise it fails with the ValueError's message |
| Settings.AnyMissingRefuses | main.py:19-21 | any single unset or empty setting refuses construction, whatever the other two hold |
| Plugin.UrlSummarizerPlugin.Load | main.py:13-24 | a plugin object exists iff the gate accepts the environment, and it is valid: it holds the accepted, non-empty keys, untouched storage and no notifications |
| Plugin.UrlSummarizerPlugin.constructor | main.py:13-24 | only keys that passed the gate (all non-empty) can build a plugin, and the plugin it builds is valid |
| Json.Contains | main.py:104-106 | Python `key in value`: dict key test, a TypeError exactly for values that are not a dict, str or list |
| Json.Subscript | main.py:105-107 | Python `value[key]`: succeeds exactly on a dict holding the key, with that entry; KeyError on a dict without it; TypeError otherwise |
| Summarizer.RequestHeaders | main.py:86-89 | exactly two headers: an Authorization bearer credential from which the Dify key reads back unchanged, and a JSON content type |
| Summarizer.RequestPayload | main.py:91-97 | exactly the keys inputs, response_mode and user; the transcript reads back as the only workflow input; mode "blocking"; user "astrbot-url-summarizer" |
| Summarizer.SummarizeRequest | main.py:85-99 | the POST goes to the configured Dify URL, carries the Dify key as bearer credential and the text as workflow input |
| Summarizer.ResolveAnswer | main.py:104-110 | the lookup succeeds iff a dict-shaped reading finds an answer (top level first, then under outputs), and returns that answer |
| Summarizer.ReadReply | main.py:99-110 | a non-2xx status fails with the status error before any lookup; a body that is not JSON fails; otherwise the result is the answer lookup |
| Summarizer.TopLevelAnswerWins | main.py:104-105 | a top-level answer is returned even when outputs.answer is present |
| Summarizer.NestedAnswerUsed | main.py:106-107 | without a top-level answer, outputs.answer is returned |
| Summarizer.MissingAnswerFails | main.py:104-110 | a dict reply with no top-level `answer`, whose `outputs` is absent or a dict without `answer`, fails with the ValueError and its text "Dify API response format is not as expected." |
| Summarizer.ScalarOutputsRaises | main.py:106 | a dict reply with no top-level `answer` whose `outputs` is null, a bool or a number fails with a TypeError from the membership test, not with the ValueError |
| Progress.FirstFailure | main.py:33-47 | which exception reaches the except clause: none exactly when every stage returns; otherwise the stage reported is one that raised and the message is its exception's text, a temp-file error (main.py:57-58) taking precedence over a download error at the download position; a later stage is reached only when every earlier one returned |
| Progress.Notifications | main.py:30-47 | the yields of one run: it starts with the "Received" message, holds two to four notifications, and ends in an error message exactly when some stage raised |
| Progress.HappyPath | main.py:31-43 | when every stage returns, the run yields exactly the three progress messages and then "Summary:\n" + summary |
| Progress.FailureAtStage | main.py:30-47 | when the stage at position k raises first, the run yields the first k progress messages and then one error message with that exception's text |
| Progress.LaterStagesNotCalled | main.py:30-47 | stages after the one that raised have no influence on the run; when the temp file cannot be made, the download outcome has none either |
| Progress.OneErrorNoticeExactlyOnFailure | main.py:45-47 | the run yields exactly one error message if some stage raises, and none otherwise |
| Progress.RemovalNotReported | main.py:49-54 | a failed cleanup leaves the notifications unchanged |
| Plugin.FreshTempNameExists | main.py:57-58 | an unused temporary name ending in ".m4a" always exists, whatever storage holds |
| Plugin.UrlSummarizerPlugin.Yield | main.py:31 | a yield appends one notification and changes nothing else |
| Plugin.UrlSummarizerPlugin.CreateTempFile | main.py:57-58 | a new file under an unused ".m4a" name is added to storage and kept, or the call raises and storage is unchanged |
| Plugin.UrlSummarizerPlugin.DownloadAudio | main.py:56-75 | the temp file is created before the download; its path is returned only when the download returns; a failed download leaves the file in storage |
| Plugin.UrlSummarizerPlugin.Cleanup | main.py:49-54 | the recorded path is removed iff it is non-empty, exists and the removal succeeds; a failed removal changes nothing |
| Plugin.UrlSummarizerPlugin.SummarizeUrl | main.py:27-54 | runs only on a valid plugin; the notifications are those of the stage outcomes; the temp file is gone after the run iff the download returned its path and the removal succeeded; a failed download leaves it; nothing else in storage changes |

## Left out

- The yt-dlp download and audio extraction and the executor hand-off (main.py:60-73) are a foreign library and thread plumbing. They enter the model as one outcome that returns or raises.
- Files yt-dlp itself writes or removes beside the target path (partial downloads, intermediate files) are not modelled. Storage changes only through the temp-file creation and `os.remove`.
- The Whisper call (main.py:77-83) is a network client. The transcript, or the exception it raised, is an input of the run.
- The Dify POST (main.py:99) is a network client. `ReadReply` takes the status and the decoded body it produced.
- Plugin.UrlSummarizerPlugin.SummarizeUrl: takes the summary stage's outcome as text. The `str()` rendering of the JSON answer into that text is Python-internal and not modelled, so `ReadReply` is not called from the handler.
- Exception texts (`str(e)`) are opaque strings supplied with each failing outcome.
- JSON numbers are integers. Floating-point values behave like any other number under `in` and subscript: both raise TypeError.
- Plugin.FreshTempNameExists: tempfile's directory choice and its retry over random candidate names are not modelled. The model picks any unused name ending in ".m4a".
- Logging (main.py:20, 46, 54, 109) has no effect on behaviour.
- The async generator mechanics, the OpenAI and httpx client construction (main.py:23-24) and `terminate` (main.py:112-113) are concurrency and resource plumbing. The streamed output is an appended sequence of strings.
- Plugin registration and the command decorator (main.py:26, 116-118) belong to the host framework.
