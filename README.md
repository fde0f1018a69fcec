# halfass-it bot: a verified model of its command logic

The bot answers chat commands on a host. `mon` samples the host's CPU, memory,
disk and network figures and its busiest processes, draws them on an 800×400
chart and posts the chart. `logs` posts the tail of the concatenated log files.
`logerr` does the same for only the log lines that contain `ERROR`. `ping` and
`kys` post fixed replies. `Bot.start` connects to the chat service and logs why
the connection failed when it does.

This project models the deterministic part of `bot/bot.py` in Dafny and proves
what it promises:

- `SystemInfo` (system_info.dfy): the ranking of the second-pass process list.
  Python's `sorted(..., reverse=True)` is modelled by a stable insertion sort,
  `SortByCpuDesc`. The sort is proved to be *the* stable descending sort: it
  orders largest first and keeps every group of equal `cpu_percent` in
  enumeration order, and it is the only sequence that does both. On top of it
  sit the first-eight cut and the append loop of `get_system_info`.
- `Chart` (chart.dfy): `draw_bar` and `create_image`. The canvas is a class
  whose `ops` field records each `draw.text` and `draw.rectangle` call in
  order. Bar widths use Python's `int()`, which truncates toward zero. The
  lemmas prove the bar and row geometry, that every call lands on the canvas,
  and that the chart shows the snapshot's values unchanged.
- `LogReply` (log_reply.dfy): the reply text of `logs` and `logerr`. It covers
  the empty-output sentinel, truncation to `'...'` plus the last 1984
  characters, and the code block around the result. It also covers the line
  filter `grep 'ERROR'`, modelled over lines, with the round trip between
  splitting text into lines and writing lines out.
- `Commands` (commands.dfy): the handlers as methods. The chat channel (`ctx`)
  is a class whose `sent` field lists the messages posted. The shell is a class
  that records which pipeline ran. `Bot` is a class whose `errorLog` lists the
  lines its logger wrote. Every handler keeps the channel invariant "an image
  comes right after the `mon` acknowledgement" when handlers run one at a time.
- `Wrappers` (wrappers.dfy): `Option` and `Result`. A `Result` is either a
  value or the text of a raised exception.

Inputs that come from outside the program are parameters: the host's readings,
the text of the log files, whether the log directory exists, and how the chat
client's `run` ends.

Three behaviours of the code that differ from what the bot's purpose might suggest. The model follows the code in each:

- A truncated log reply is `'...'` plus 1984 characters, so 1987 characters
  long, not 2000.
- When `mon` fails, it posts the error and then raises `Detailed error: …`.
  It writes nothing to the bot's log itself. The raise is modelled as the
  `Outcome` the handler returns.
- `logs` uses the same sentinel `no errors found in logs` as `logerr`, even
  though it does not filter.

## Model

| member | source | states |
|---|---|---|
| `SystemInfo.SortByCpuDesc` | bot/bot.py:31-34 | the sorted list is a permutation of the sampled processes (same length, same multiset) |
| `SystemInfo.SortByCpuDescIsStableSort` | bot/bot.py:31-34 | the sort orders largest `cpu_percent` first and keeps each equal-CPU group in enumeration order |
| `SystemInfo.StableSortIsUnique` | bot/bot.py:31-34 | a sequence is a stable descending sort of the samples if and only if it equals `SortByCpuDesc` of them |
| `SystemInfo.TopProcesses` | bot/bot.py:31-35 | the ranking keeps min(8, number sampled) processes, so never more than 8 |
| `SystemInfo.TopProcessesOrdered` | bot/bot.py:31-35 | the kept processes are in non-increasing `cpu_percent` order |
| `SystemInfo.TopProcessesFromSamples` | bot/bot.py:35-41 | every kept entry is a sampled process with its fields unchanged, and none is kept more often than it was sampled |
| `SystemInfo.TopProcessesExcludeNoHigher` | bot/bot.py:31-35 | no sampled process that was left out has a higher `cpu_percent` than any kept one |
| `SystemInfo.TopProcessesTiesInEnumerationOrder` | bot/bot.py:31-35 | for every CPU value, the kept processes with that value are the first ones with it in enumeration order |
| `SystemInfo.CollectTopProcesses` | bot/bot.py:30-41 | the append loop yields exactly the first eight of the stable descending sort, at most 8 entries, largest first |
| `SystemInfo.GetSystemInfo` | bot/bot.py:42-57 | returns exactly the snapshot `SnapshotOf` describes: the readings copied and the ranked top processes |
| `SystemInfo.SnapshotOf` | bot/bot.py:42-57 | the snapshot as a value; its process list has at most 8 entries, highest CPU first, each a sampled process |
| `Chart.TruncateToInt` | bot/bot.py:63 | `int()` on a float truncates toward zero: the result is within one of the argument, on the side of zero |
| `Chart.Canvas.constructor` | bot/bot.py:70-72 | a new 800×400 image with the dark background and nothing drawn on it |
| `Chart.Canvas.Text` | bot/bot.py:75-80 | a text call is appended to the canvas's calls and nothing else changes |
| `Chart.Canvas.Rectangle` | bot/bot.py:61 | a rectangle call is appended to the canvas's calls and nothing else changes |
| `Chart.DrawBar` | bot/bot.py:60-66 | `draw_bar` draws the grey track, then the filled rectangle of width `int(width * percent / 100)` |
| `Chart.CreateImage` | bot/bot.py:69-116 | `create_image` makes a fresh 800×400 canvas and draws exactly the chart layout, process row `i` at `(10, 230 + 20*i)` |
| `Chart.FilledWidthWithinTrack` | bot/bot.py:60-66 | for 0 ≤ percent ≤ 100 the filled width lies in [0, width], and is 0 at 0% and the full width at 100% |
| `Chart.FilledWidthMonotonic` | bot/bot.py:63 | a larger percentage never draws a narrower filled bar |
| `Chart.FilledBarInsideTrack` | bot/bot.py:60-66 | the filled rectangle starts at the track's corner, ends inside it and has the track's height |
| `Chart.RowPlacement` | bot/bot.py:109-115 | process row `i` is the text at `(10, 230 + 20*i)` showing that process, and with at most 8 rows its y is at most 370 |
| `Chart.LayoutOnCanvas` | bot/bot.py:69-116 | with percentages in [0, 100] and at most 8 processes, every text anchor and rectangle of the chart lies on the 800×400 canvas |
| `Chart.LayoutShowsSnapshot` | bot/bot.py:75-115 | every text of the chart shows a value of the snapshot unchanged: CPU, memory and disk percent, sent and received MB, the caption, and each process row |
| `Chart.LayoutListsTopProcesses` | bot/bot.py:108-115 | reading the process rows back off the chart gives the snapshot's top processes, all of them, in rank order |
| `LogReply.CodeBlock` | bot/bot.py:155 | the reply is an opening fence and line feed, the text unchanged, then a line feed and closing fence: 8 characters longer |
| `LogReply.ReplyText` | bot/bot.py:152-154 | empty output becomes `no errors found in logs`; output of up to 2000 characters is kept as is; longer output becomes `...` plus its last 1984 characters (1987 in all); the text is never empty and never over 2000 characters |
| `LogReply.ReplyTextIdempotent` | bot/bot.py:152-154 | shortening an already shortened reply text changes nothing |
| `LogReply.ReplyTextKeepsTail` | bot/bot.py:152-154 | for non-empty output, its last min(length, 1984) characters end the reply unchanged |
| `LogReply.FirstNewline` | bot/bot.py:168 | the index of the first line feed of the text (none occurs before it), or its length when there is none |
| `LogReply.Lines` | bot/bot.py:168 | the lines as `grep` reads them, a last line without a line feed included (`UnlinesOfLinesUnterminated` states how it is written back); a non-empty text has at least one line |
| `LogReply.LinesHaveNoNewline` | bot/bot.py:168 | no line of a text contains a line feed |
| `LogReply.Matching` | bot/bot.py:168 | keeps exactly the lines that contain the pattern, in their original order, each as often as it occurs |
| `LogReply.LinesOfUnlines` | bot/bot.py:168 | splitting lines that were written out with line feeds gives the same lines back |
| `LogReply.UnlinesOfLines` | bot/bot.py:168 | writing out the lines of a text that ends in a line feed gives the text back |
| `LogReply.UnlinesOfLinesUnterminated` | bot/bot.py:168 | a text whose last line has no line feed is written back out with one added, as `grep` prints it |
| `LogReply.GrepKeepsMatchingLines` | bot/bot.py:168 | the output of `grep 'ERROR'` on text without NUL characters, read as lines, is exactly the input lines containing `ERROR`, in their original order, each as often as it occurs |
| `LogReply.GrepAllMatching` | bot/bot.py:168 | a text ending in a line feed whose every line contains the pattern passes through `grep` unchanged |
| `Commands.Context.constructor` | bot/bot.py:124-125 | a channel starts with no messages posted |
| `Commands.Context.Send` | bot/bot.py:127 | `ctx.send` appends one message to the channel and nothing else changes |
| `Commands.AppendKeepsImagesAcknowledged` | bot/bot.py:126-133 | appending messages that keep "every image comes right after the acknowledgement", and that do not start with an image, keeps it |
| `Commands.MonReplies` | bot/bot.py:124-136 | `mon` posts the acknowledgement first, then either the chart of the readings (exactly when sampling and drawing both succeed) or `An error occurred: e`, and in the failure case raises `Detailed error: e` |
| `Commands.Mon` | bot/bot.py:124-136 | the handler posts exactly the messages of `MonReplies`, ends with its outcome, and keeps the channel invariant |
| `Commands.MonTrace` | bot/bot.py:126-136 | a failed `mon` posts exactly one error reply and no image; a successful one posts no error reply and exactly one image, as its last message |
| `Commands.PipelineOutput` | bot/bot.py:146-151 | a pipeline raises exactly when running that pipeline raises, with that error; `cat` prints the log text; the `grep 'ERROR'` pipeline prints exactly the log lines containing `ERROR`, in order (binary input is left out) |
| `Commands.Shell.constructor` | bot/bot.py:141 | the shell holds the log text and what each pipeline raises, and starts with no pipeline run |
| `Commands.Shell.Run` | bot/bot.py:167-172 | running a pipeline records it and returns its output or the error that pipeline raises |
| `Commands.LogsReply` | bot/bot.py:142-157 | a log command posts one text: the fixed not-found block when the directory is missing, the error text when the read raised, or the code-wrapped reply text (at most 2008 characters) otherwise |
| `Commands.Logs` | bot/bot.py:139-157 | `logs` runs `cat` only when the log directory exists and posts exactly one reply, `LogsReply` of what it printed |
| `Commands.LogErr` | bot/bot.py:160-178 | `logerr` runs `cat | grep 'ERROR'` only when the log directory exists and posts exactly one reply, `LogsReply` of what it printed |
| `Commands.LogErrShowsErrorLines` | bot/bot.py:166-176 | when the filtered output is non-empty and fits, the `logerr` code block holds exactly the log lines containing `ERROR`, in order |
| `Commands.Ping` | bot/bot.py:181-183 | `ping` posts `pong` and nothing else |
| `Commands.Kys` | bot/bot.py:186-188 | `kys` posts `.|.` and nothing else |
| `Commands.StartErrors` | bot/bot.py:200-207 | no error line when the client closes normally, exactly two (the failure and the token hint) for a login failure, exactly one for any other failure |
| `Commands.Bot.constructor` | bot/bot.py:191-198 | the bot keeps its token, falls back to the default cache directory when none (or an empty one) is given, and its logger starts empty |
| `Commands.Bot.LogError` | bot/bot.py:204 | `logger.error` appends one line to the error log |
| `Commands.Bot.Start` | bot/bot.py:200-207 | `start` appends exactly `StartErrors` of how the client's run ended to the error log |

## Left out

- Host sampling is not modelled: the one-second CPU window, the priming pass over the processes and `time.sleep` (bot/bot.py:18-29) are OS calls and timing. The readings and the second-pass process list are an input.
- Access-denied process attributes are not modelled. psutil can report `None` for `cpu_percent` or `memory_percent`, and sorting `None` among floats would raise. The model assumes every sampled process has both values.
- Floating point is not modelled: percentages and megabytes are exact reals, so `Chart.FilledWidth` does not reproduce IEEE rounding of `width * (percent / 100)`.
- Text rendering is not modelled: the f-string formatting of floats (`repr` and `:.2f`), the default font and text widths are library behaviour. Each text call keeps the values it formats (`Chart.Label`), and `Chart.OnCanvas` checks text anchors only.
- PNG encoding into `BytesIO` is not modelled: the attached image is the list of drawing calls.
- The shell and the environment are not modelled: `cat` glob expansion, stderr and the `XDG_CACHE_HOME` path are I/O. Whether the directory exists, the text of the concatenated log files and, for each pipeline, the error `subprocess.run` raises are inputs.
- Byte decoding is not modelled. With `text=True` each pipeline's stdout is decoded after `grep` has run, so undecodable bytes can make `logs` raise while `logerr` does not (when `grep` drops the offending lines), and universal-newline translation turns a lone carriage return into a line feed only after `grep` has split the lines. The model works on decoded text and takes each pipeline's error as its own input (`Commands.Shell`), so it also admits `logerr` raising while `logs` does not, which decoding alone cannot cause (an `OSError` from `subprocess.run` can hit either call).
- GNU grep's binary-input handling is not modelled. When `grep` detects a NUL character in the log text it treats the input as binary: it prints the matching lines it has read up to that point and nothing after it. For a short log that point comes before any line. So `logerr` posts either the empty-output sentinel or only the `ERROR` lines before that point, where `LogReply.Grep` keeps them all. Under a UTF-8 locale, `grep` also drops lines that are not valid UTF-8. `LogReply.Grep` is a pure line filter over decoded text.
- The chat client is not modelled: intents, command registration, prefix dispatch, unknown commands and the event loop are transport and concurrency. Each handler is a method called directly, one at a time. The channel invariant `Commands.ImagesAcknowledged` assumes this: the framework runs each command in its own task, and tasks interleave at every `await`, so another handler's reply can land between `mon`'s acknowledgement and its image.
- The transport's 2000-character message limit is not modelled. Output of 1993 to 2000 characters is posted untruncated and, wrapped in the code block, makes a 2001- to 2008-character message. Whatever the transport does with such a message is outside the model; `Commands.LogsReply` states the 2008 bound.
- Exceptions raised by `ctx.send` itself are not modelled. For `mon`, a failure while drawing, encoding or sending the image is one input.
- What the chat framework does with the exception `mon` re-raises is not modelled: the model returns it as `Outcome.Raised`.
- `CacheDir` and `LoggerToFile` are not part of this model. The default cache directory is an input, and the logger is the list of error lines it was given.
- `Commands.Bot.constructor` treats `None` and the empty string as absent. A `Path` object is always truthy in Python, so only `None` would fall back for it.
- Exceptions that are not `Exception` subclasses are not modelled: they escape `Bot.start` without logging.
- bin/__main__.py is not part of this model: it only parses the command line and sets exit codes. It calls `Bot(self.ip, self.port, self.cache_dir)` with three arguments against the two fields of `Bot`.
