/** The chat commands `mon`, `logs`, `logerr`, `ping` and `kys`, and the startup
    of the bot with its classification of startup failures. The chat channel and
    the error log are kept as the ordered lists of what was written to them. */
module Commands {
  import opened Wrappers
  import opened SystemInfo
  import Chart
  import LogReply

  /** A message posted to the channel: text, or an attached image. */
  datatype Message = Reply(content: string) | Attachment(filename: string, image: seq<Chart.DrawOp>)

  /** How a command handler ends: it returns, or it raises with this message. */
  datatype Outcome = Returned | Raised(message: string)

  const MonAck := "monitoring server ..."
  const ImageName := "system_info.png"
  const MonErrorPrefix := "An error occurred: "
  const MonRaisedPrefix := "Detailed error: "
  const LogsNotFound := "```\nlogs not found\n```"
  const LogsErrorPrefix := "error occurred: "
  const LogErrErrorPrefix := "error occurred fetching logs: "
  const Pong := "pong"
  const KysReply := ".|."

  /** The channel a command came from (`ctx`), as the messages posted to it. */
  class Context {
    var sent: seq<Message>

    constructor ()
      ensures sent == []
    {
      sent := [];
    }

    /** `await ctx.send(...)` */
    method Send(m: Message)
      modifies this
      ensures sent == old(sent) + [m]
    {
      sent := sent + [m];
    }
  }

  /** Every image on the channel comes right after the acknowledgement of `mon`,
      as long as handlers run one at a time. */
  predicate ImagesAcknowledged(sent: seq<Message>) {
    forall i :: 0 <= i < |sent| && sent[i].Attachment? ==> 0 < i && sent[i - 1] == Reply(MonAck)
  }

  /** Appending messages that keep the property, and that do not start with an
      image, keeps it. */
  lemma AppendKeepsImagesAcknowledged(a: seq<Message>, b: seq<Message>)
    requires ImagesAcknowledged(a) && ImagesAcknowledged(b)
    requires b != [] ==> !b[0].Attachment?
    ensures ImagesAcknowledged(a + b)
  {
    forall i | 0 <= i < |a + b| && (a + b)[i].Attachment?
      ensures 0 < i && (a + b)[i - 1] == Reply(MonAck)
    {
      if i >= |a| {
        assert b[i - |a|].Attachment?;
      }
    }
  }

  // ---------------------------------------------------------------------------
  // mon

  /** The text of the failure `mon` reports: the sampling error if sampling
      failed, otherwise the error raised while drawing, encoding or sending the image. */
  function MonFailure(readings: Result<Readings>, imageFailure: Option<string>): string
    requires readings.Err? || imageFailure.Some?
  {
    if readings.Err? then readings.message else imageFailure.value
  }

  /** The messages `mon` posts and how it ends, for the readings of the host (or
      the error sampling raised) and the error, if any, raised while the image
      was drawn, encoded or sent. */
  function MonReplies(readings: Result<Readings>, imageFailure: Option<string>): (r: (seq<Message>, Outcome))
    ensures |r.0| == 2 && r.0[0] == Reply(MonAck)
    ensures r.1 == Returned <==> readings.Ok? && imageFailure.None?
    ensures r.0[1].Attachment? <==> r.1 == Returned
    ensures r.1 == Returned ==>
      r.0[1] == Attachment(ImageName, Chart.Layout(SnapshotOf(readings.value)))
    ensures r.1 != Returned ==>
      r.0[1] == Reply(MonErrorPrefix + MonFailure(readings, imageFailure)) &&
      r.1 == Raised(MonRaisedPrefix + MonFailure(readings, imageFailure))
    ensures ImagesAcknowledged(r.0)
  {
    if readings.Ok? && imageFailure.None? then
      ([Reply(MonAck), Attachment(ImageName, Chart.Layout(SnapshotOf(readings.value)))], Returned)
    else
      var e := MonFailure(readings, imageFailure);
      ([Reply(MonAck), Reply(MonErrorPrefix + e)], Raised(MonRaisedPrefix + e))
  }

  /** `mon`: acknowledge, sample, draw and post the chart; on an exception post
      the error and raise it again. */
  method Mon(ctx: Context, readings: Result<Readings>, imageFailure: Option<string>) returns (outcome: Outcome)
    requires ImagesAcknowledged(ctx.sent)
    modifies ctx
    ensures ctx.sent == old(ctx.sent) + MonReplies(readings, imageFailure).0
    ensures outcome == MonReplies(readings, imageFailure).1
    ensures ImagesAcknowledged(ctx.sent)
  {
    ctx.Send(Reply(MonAck));
    if readings.Err? {
      ctx.Send(Reply(MonErrorPrefix + readings.message));
      outcome := Raised(MonRaisedPrefix + readings.message);
    } else {
      var info := GetSystemInfo(readings.value);
      var image := Chart.CreateImage(info);
      if imageFailure.Some? {
        ctx.Send(Reply(MonErrorPrefix + imageFailure.value));
        outcome := Raised(MonRaisedPrefix + imageFailure.value);
      } else {
        ctx.Send(Attachment(ImageName, image.ops));
        outcome := Returned;
      }
    }
    AppendKeepsImagesAcknowledged(old(ctx.sent), MonReplies(readings, imageFailure).0);
  }

  /** The message is a text reply that starts with "An error occurred: ". */
  predicate IsMonError(m: Message) {
    m.Reply? && |MonErrorPrefix| <= |m.content| && m.content[..|MonErrorPrefix|] == MonErrorPrefix
  }

  /** How many of the messages are `mon` error replies. */
  function CountMonErrors(msgs: seq<Message>): nat {
    if msgs == [] then 0 else (if IsMonError(msgs[0]) then 1 else 0) + CountMonErrors(msgs[1..])
  }

  /** A failed `mon` posts exactly one error reply and no image; a successful
      one posts no error reply and exactly one image, as its last message. */
  lemma MonTrace(readings: Result<Readings>, imageFailure: Option<string>)
    ensures var (msgs, outcome) := MonReplies(readings, imageFailure);
      (outcome.Raised? ==> CountMonErrors(msgs) == 1 && forall m :: m in msgs ==> !m.Attachment?) &&
      (outcome.Returned? ==> CountMonErrors(msgs) == 0 && msgs[|msgs| - 1].Attachment? &&
                             forall i :: 0 <= i < |msgs| - 1 ==> !msgs[i].Attachment?)
  {
    var (msgs, outcome) := MonReplies(readings, imageFailure);
    assert !IsMonError(msgs[0]) by {
      assert MonAck[..|MonErrorPrefix|] != MonErrorPrefix by {
        assert MonAck[0] != MonErrorPrefix[0];
      }
    }
    assert msgs[1..][1..] == [];
    assert CountMonErrors(msgs) == (if IsMonError(msgs[1]) then 1 else 0) by {
      assert CountMonErrors(msgs[1..]) == (if IsMonError(msgs[1]) then 1 else 0) + CountMonErrors(msgs[1..][1..]);
    }
    if outcome.Raised? {
      assert (MonErrorPrefix + MonFailure(readings, imageFailure))[..|MonErrorPrefix|] == MonErrorPrefix;
    }
  }

  // ---------------------------------------------------------------------------
  // logs and logerr

  /** The shell pipelines the log commands run. */
  datatype Pipeline = CatLogs | CatLogsGrepError

  /** What a pipeline prints: the concatenated `*.log` files, or only their lines
      containing `ERROR`; or, when running that pipeline raises, the error. */
  function PipelineOutput(p: Pipeline, logText: string, raised: Option<string>): (r: Result<string>)
    ensures r.Err? <==> raised.Some?
    ensures r.Err? ==> r.message == raised.value
    ensures r.Ok? && p == CatLogs ==> r.value == logText
    ensures r.Ok? && p == CatLogsGrepError ==>
      LogReply.Lines(r.value) == LogReply.Matching(LogReply.Lines(logText), LogReply.ErrorToken)
  {
    match raised
    case Some(e) => Err(e)
    case None =>
      if p == CatLogs then Ok(logText)
      else
        LogReply.GrepKeepsMatchingLines(logText, LogReply.ErrorToken);
        Ok(LogReply.Grep(logText, LogReply.ErrorToken))
  }

  /** The shell `subprocess.run` talks to, and the pipelines run through it. */
  class Shell {
    /** The concatenated `*.log` files of the log directory, as text. */
    const logText: string
    /** The error `subprocess.run` raises for each pipeline, if any; each
        pipeline decodes its own output, so they can fail independently. */
    const catRaises: Option<string>
    const grepRaises: Option<string>
    var runs: seq<Pipeline>

    constructor (logText: string, catRaises: Option<string>, grepRaises: Option<string>)
      ensures this.logText == logText && this.catRaises == catRaises && this.grepRaises == grepRaises
      ensures runs == []
    {
      this.logText := logText;
      this.catRaises := catRaises;
      this.grepRaises := grepRaises;
      runs := [];
    }

    /** What running pipeline `p` raises, if anything. */
    function Raises(p: Pipeline): Option<string>
    {
      if p == CatLogs then catRaises else grepRaises
    }

    /** `subprocess.run(p, shell=True, capture_output=True, text=True).stdout` */
    method Run(p: Pipeline) returns (stdout: Result<string>)
      modifies this
      ensures runs == old(runs) + [p]
      ensures stdout == PipelineOutput(p, logText, Raises(p))
    {
      runs := runs + [p];
      var raised := Raises(p);
      match raised
      case Some(e) =>
        stdout := Err(e);
      case None =>
        stdout := if p == CatLogs then Ok(logText) else Ok(LogReply.Grep(logText, LogReply.ErrorToken));
    }
  }

  /** The one message a log command posts, given whether the log directory
      exists and what the pipeline printed (or raised). */
  function LogsReply(dirExists: bool, stdout: Result<string>, errorPrefix: string): (m: Message)
    ensures m.Reply?
    ensures !dirExists ==> m.content == LogsNotFound
    ensures dirExists && stdout.Err? ==> m.content == errorPrefix + stdout.message
    ensures dirExists && stdout.Ok? ==>
      m.content == LogReply.CodeBlock(LogReply.ReplyText(stdout.value)) && |m.content| <= LogReply.MaxLength + 8
  {
    if !dirExists then Reply(LogsNotFound)
    else
      match stdout
      case Err(e) => Reply(errorPrefix + e)
      case Ok(out) => Reply(LogReply.CodeBlock(LogReply.ReplyText(out)))
  }

  method Logs(ctx: Context, shell: Shell, dirExists: bool)
    requires ImagesAcknowledged(ctx.sent)
    modifies ctx, shell
    ensures shell.runs == old(shell.runs) + (if dirExists then [CatLogs] else [])
    ensures ctx.sent == old(ctx.sent) + [LogsReply(dirExists, PipelineOutput(CatLogs, shell.logText, shell.catRaises), LogsErrorPrefix)]
    ensures ImagesAcknowledged(ctx.sent)
  {
    if !dirExists {
      ctx.Send(Reply(LogsNotFound));
      return;
    }
    var stdout := shell.Run(CatLogs);
    match stdout
    case Err(e) =>
      ctx.Send(Reply(LogsErrorPrefix + e));
    case Ok(out) =>
      var output := if out == [] then LogReply.NoErrorsFound else out;
      if |output| > LogReply.MaxLength {
        output := LogReply.Ellipsis + output[|output| - LogReply.KeptTail..];
      }
      ctx.Send(Reply("```\n" + output + "\n```"));
  }

  method LogErr(ctx: Context, shell: Shell, dirExists: bool)
    requires ImagesAcknowledged(ctx.sent)
    modifies ctx, shell
    ensures shell.runs == old(shell.runs) + (if dirExists then [CatLogsGrepError] else [])
    ensures ctx.sent == old(ctx.sent) + [LogsReply(dirExists, PipelineOutput(CatLogsGrepError, shell.logText, shell.grepRaises), LogErrErrorPrefix)]
    ensures ImagesAcknowledged(ctx.sent)
  {
    if !dirExists {
      ctx.Send(Reply(LogsNotFound));
      return;
    }
    var stdout := shell.Run(CatLogsGrepError);
    match stdout
    case Err(e) =>
      ctx.Send(Reply(LogErrErrorPrefix + e));
    case Ok(out) =>
      var output := if out == [] then LogReply.NoErrorsFound else out;
      if |output| > LogReply.MaxLength {
        output := LogReply.Ellipsis + output[|output| - LogReply.KeptTail..];
      }
      ctx.Send(Reply("```\n" + output + "\n```"));
  }

  /** `logerr` shows, inside its code block, exactly the log lines containing
      `ERROR` in their order, whenever there are some and they fit. */
  lemma LogErrShowsErrorLines(logText: string)
    requires var g := LogReply.Grep(logText, LogReply.ErrorToken); 0 < |g| <= LogReply.MaxLength
    ensures var g := LogReply.Grep(logText, LogReply.ErrorToken);
      LogsReply(true, PipelineOutput(CatLogsGrepError, logText, None), LogErrErrorPrefix).content == LogReply.CodeBlock(g) &&
      LogReply.Lines(g) == LogReply.Matching(LogReply.Lines(logText), LogReply.ErrorToken)
  {
    LogReply.GrepKeepsMatchingLines(logText, LogReply.ErrorToken);
  }

  // ---------------------------------------------------------------------------
  // ping and kys

  method Ping(ctx: Context)
    requires ImagesAcknowledged(ctx.sent)
    modifies ctx
    ensures ctx.sent == old(ctx.sent) + [Reply(Pong)]
    ensures ImagesAcknowledged(ctx.sent)
  {
    ctx.Send(Reply(Pong));
  }

  method Kys(ctx: Context)
    requires ImagesAcknowledged(ctx.sent)
    modifies ctx
    ensures ctx.sent == old(ctx.sent) + [Reply(KysReply)]
    ensures ImagesAcknowledged(ctx.sent)
  {
    ctx.Send(Reply(KysReply));
  }

  // ---------------------------------------------------------------------------
  // Startup

  /** How `DISCORD_BOT.run(token)` ends: the connection closes, the login is
      refused, or another exception is raised. */
  datatype RunResult = Closed | LoginFailure(message: string) | Failure(message: string)

  const LoginFailedPrefix := "Failed to log in: "
  const TokenHint := "Please check your Discord token and ensure it's correctly formatted."
  const StartFailedPrefix := "An error occurred while starting the bot: "

  /** The error lines `Bot.start` logs for each way the connection ends. */
  function StartErrors(run: RunResult): (lines: seq<string>)
    ensures run.Closed? <==> lines == []
    ensures run.LoginFailure? <==> |lines| == 2
    ensures run.Failure? <==> |lines| == 1
    ensures run.LoginFailure? ==> lines[0] == LoginFailedPrefix + run.message && lines[1] == TokenHint
    ensures run.Failure? ==> lines[0] == StartFailedPrefix + run.message
  {
    match run
    case Closed => []
    case LoginFailure(e) => [LoginFailedPrefix + e, TokenHint]
    case Failure(e) => [StartFailedPrefix + e]
  }

  /** The `Bot` dataclass: its token, its cache directory and the error lines
      its logger has written. */
  class Bot {
    const discordToken: string
    const cacheDir: string
    var errorLog: seq<string>

    /** `__post_init__`: an absent or empty cache directory falls back to the
        default one, and the logger starts with nothing written. */
    constructor (discordToken: string, cacheDir: Option<string>, defaultCacheDir: string)
      ensures this.discordToken == discordToken
      ensures this.cacheDir == if cacheDir.Some? && cacheDir.value != "" then cacheDir.value else defaultCacheDir
      ensures errorLog == []
    {
      this.discordToken := discordToken;
      this.cacheDir := if cacheDir.Some? && cacheDir.value != "" then cacheDir.value else defaultCacheDir;
      errorLog := [];
    }

    /** `self.logger.error(line)` */
    method LogError(line: string)
      modifies this
      ensures errorLog == old(errorLog) + [line]
    {
      errorLog := errorLog + [line];
    }

    /** `start`: run the client with the token, and log why it stopped if it raised. */
    method Start(run: RunResult)
      modifies this
      ensures errorLog == old(errorLog) + StartErrors(run)
    {
      match run
      case Closed =>
      case LoginFailure(e) =>
        LogError(LoginFailedPrefix + e);
        LogError(TokenHint);
      case Failure(e) =>
        LogError(StartFailedPrefix + e);
    }
  }
}
