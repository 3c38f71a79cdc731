/**
 * The `/webhook` handler (`get_video`): one decoded update leads to an
 * ordered trace of outbound effects and either the reply `(200, "Ok")` or
 * a panic from an `.unwrap()`/`.expect()`.
 *
 * The handler is straight-line code with early returns. `Handle` is its
 * specification as a pure function; `GetVideo` is the handler itself,
 * written against a `World` object that records every outbound call and
 * holds the files of the shared download directory.
 */
module Webhook {
  import opened Wrappers
  import opened Decimal
  import opened Text
  import opened Telegram

  // ---------------------------------------------------------------------
  // Constants of the handler
  // ---------------------------------------------------------------------

  const StartCommand := "/start"
  const Greeting := "Hello!"
  const InvalidUrlReply := "Please send a valid URL"
  const InvalidPostReply := "Please send a valid reddit post"
  const DownloadFailedReply := "Failed to download video"
  const TooLargeReply := "Video is too large to send"
  const RedditHost := "reddit.com"
  const DownloadDir := "/tmp"
  const ExtField := "%(ext)s"
  /** The size gate, in bytes: decimal 50 MB, compared with `>`. */
  const MaxVideoSize: nat := 50_000_000

  /** The file the handler opens, removes and uploads: `/tmp/{video_name}.mp4`. */
  function VideoPath(videoName: string): string {
    DownloadDir + "/" + videoName + ".mp4"
  }

  /** The downloader's `--output` template: `{video_name}.%(ext)s`. */
  function OutputTemplate(videoName: string): string {
    videoName + "." + ExtField
  }

  /** The downloader's substitution of the extension it chose for every `%(ext)s` field. */
  function ExpandTemplate(template: string, ext: string): (r: string)
    ensures '%' !in template ==> r == template
    decreases |template|
  {
    if template == [] then []
    else if |ExtField| <= |template| && template[..|ExtField|] == ExtField then
      assert template[..|ExtField|][0] == template[0];
      ext + ExpandTemplate(template[|ExtField|..], ext)
    else [template[0]] + ExpandTemplate(template[1..], ext)
  }

  /** The file the downloader writes, run in `/tmp` with the given template. */
  function ProducedPath(template: string, ext: string): (r: string)
    ensures |r| > |DownloadDir| && r[..|DownloadDir| + 1] == DownloadDir + "/"
  {
    DownloadDir + "/" + ExpandTemplate(template, ext)
  }

  /**
   * The allow-list check: the decimal rendering of the sender id equals the
   * configured id. That holds exactly when the configured id is written
   * canonically and denotes the sender id.
   */
  predicate Authorized(id: I64, personalId: string)
    ensures Authorized(id, personalId) <==>
      Canonical(personalId) && SignedDigits(personalId) && ParseInt(personalId) == id
  {
    RenderingIffCanonical(id, personalId);
    IntToString(id) == personalId
  }

  // ---------------------------------------------------------------------
  // Inputs, effects and outcome
  // ---------------------------------------------------------------------

  /** What `Url::parse` yields for the message text: its serialisation and its host, if any. */
  datatype ParsedUrl = ParsedUrl(serialization: string, host: Option<string>)

  /**
   * One webhook call: the update `serde_json::from_value` makes of the JSON
   * body (None when that JSON value does not have the shape of an update),
   * the configured `PERSONAL_ID`, the `Url::parse` result for the message
   * text (None when parsing fails) and the fresh `video_name`.
   */
  datatype Request = Request(
    update: Option<Update>,
    personalId: string,
    url: Option<ParsedUrl>,
    videoName: string)

  /** A file the downloader produces: the extension it picked and the size in bytes. */
  datatype Produced = Produced(ext: string, size: nat)

  /**
   * The downloader: whether `YoutubeDL::new` succeeds, and what `download`
   * produces (None: it fails, and is taken to leave no partial file behind).
   */
  datatype Tool = Tool(constructs: bool, result: Option<Produced>)

  /** Outbound calls, in the order the handler makes them; `Abort` is a panic. */
  datatype Effect =
    | SendMessage(chat: I64, text: string)
    | Download(url: string, template: string)
    | ListDir(dir: string)
    | Open(path: string)
    | Remove(path: string)
    | SendVideo(chat: I64, path: string)
    | Abort

  /** How the handler ends: it returns a status and body, or it panics. */
  datatype Completion = Returned(status: nat, body: string) | Panicked

  const Ok := Returned(200, "Ok")

  /**
   * The environment the handler runs against: the files in `/tmp` with
   * their sizes, the outbound calls that fail, and the downloader.
   * `failing` is consulted for replies, uploads, the listing, opening and
   * removal; whether the download fails comes from `tool.result`, and
   * `Download` or `Abort` in `failing` has no effect.
   */
  datatype Env = Env(files: map<string, nat>, failing: set<Effect>, tool: Tool)

  /** The trace of effects, how the call completed, and the files afterwards. */
  datatype Outcome = Outcome(effects: seq<Effect>, completion: Completion, files: map<string, nat>)

  function Prepend(prefix: seq<Effect>, out: Outcome): Outcome {
    out.(effects := prefix + out.effects)
  }

  /** A call whose failure is fatal: either the step goes on, or the trace ends with `Abort`. */
  function Panic(effects: seq<Effect>, files: map<string, nat>): Outcome {
    Outcome(effects + [Abort], Panicked, files)
  }

  // ---------------------------------------------------------------------
  // Specification of the handler
  // ---------------------------------------------------------------------

  /** `get_video` as a function of its inputs and its environment. */
  function Handle(req: Request, env: Env): (out: Outcome)
    ensures req.update.None? || !Authorized(req.update.value.message.from.id, req.personalId)
      ==> out == Outcome([], Ok, env.files)
    ensures out.completion == Panicked || out.completion == Ok
  {
    match req.update
    case None => Outcome([], Ok, env.files)
    case Some(u) =>
      var chat := u.message.from.id;
      if !Authorized(chat, req.personalId) then Outcome([], Ok, env.files)
      else Respond(chat, u.message.text, req, env)
  }

  /** The answer to an admitted update: the greeting for "/start", then URL parsing whatever the text. */
  function Respond(chat: I64, text: string, req: Request, env: Env): (out: Outcome)
    ensures out.effects != [] && out.completion in {Panicked, Ok}
    ensures text == StartCommand ==> out.effects[0] == SendMessage(chat, Greeting)
    ensures text == StartCommand && SendMessage(chat, Greeting) in env.failing ==> out.completion == Panicked
  {
    if text == StartCommand then
      var hello := SendMessage(chat, Greeting);
      if hello in env.failing then Panic([hello], env.files)
      else Prepend([hello], Route(chat, req, env))
    else Route(chat, req, env)
  }

  /** A reply followed by `return (StatusCode::OK, "Ok")`; a failed send panics. */
  function ReplyAndReturn(chat: I64, text: string, env: Env): (out: Outcome)
    ensures out.effects != [] && out.effects[0] == SendMessage(chat, text) && out.files == env.files
    ensures out.completion == Ok <==> SendMessage(chat, text) !in env.failing
    ensures out.completion == Panicked || out.completion == Ok
  {
    var send := SendMessage(chat, text);
    if send in env.failing then Panic([send], env.files) else Outcome([send], Ok, env.files)
  }

  /** From URL parsing to the host check. */
  function Route(chat: I64, req: Request, env: Env): (out: Outcome)
    ensures out.effects != []
    ensures out.completion == Panicked || out.completion == Ok
    ensures (exists e | e in out.effects :: e.Download?) ==>
      req.url.Some? && req.url.value.host.Some? && Contains(req.url.value.host.value, RedditHost)
  {
    match req.url
    case None => ReplyAndReturn(chat, InvalidUrlReply, env)
    case Some(url) =>
      match url.host
      case None => Panic([], env.files)
      case Some(host) =>
        if !Contains(host, RedditHost) then ReplyAndReturn(chat, InvalidPostReply, env)
        else Fetch(chat, url.serialization, req.videoName, env)
  }

  /** Constructing the downloader and running it in `/tmp`. */
  function Fetch(chat: I64, url: string, videoName: string, env: Env): (out: Outcome)
    ensures out.effects != []
    ensures env.tool.constructs ==> out.effects[0] == Download(url, OutputTemplate(videoName))
    ensures !env.tool.constructs || env.tool.result.None? ==> out.files == env.files
    ensures out.completion == Panicked || out.completion == Ok
  {
    if !env.tool.constructs then Panic([], env.files)
    else
      var template := OutputTemplate(videoName);
      var download := Download(url, template);
      match env.tool.result
      case None => Prepend([download], ReplyAndReturn(chat, DownloadFailedReply, env))
      case Some(p) =>
        var files := env.files[ProducedPath(template, p.ext) := p.size];
        Prepend([download], Deliver(chat, videoName, env.failing, files))
  }

  /** Listing `/tmp`, opening the expected file, then the size gate. */
  function Deliver(chat: I64, videoName: string, failing: set<Effect>, files: map<string, nat>): (out: Outcome)
    ensures out.effects != [] && out.effects[0] == ListDir(DownloadDir)
    ensures out.files == files || out.files == files - {VideoPath(videoName)}
    ensures out.completion == Panicked || out.completion == Ok
  {
    var list := ListDir(DownloadDir);
    var path := VideoPath(videoName);
    var open := Open(path);
    if list in failing then Panic([list], files)
    else if open in failing || path !in files then Panic([list, open], files)
    else if files[path] > MaxVideoSize then
      var tooLarge := SendMessage(chat, TooLargeReply);
      var remove := Remove(path);
      if tooLarge in failing then Panic([list, open, tooLarge], files)
      else if remove in failing then Panic([list, open, tooLarge, remove], files)
      else Outcome([list, open, tooLarge, remove], Ok, files - {path})
    else
      var upload := SendVideo(chat, path);
      if upload in failing then Panic([list, open, upload], files)
      else Outcome([list, open, upload], Ok, files)
  }

  /**
   * The handler with the `return` after the greeting that "/start" evidently
   * intends: the greeting is the whole answer to "/start", and every other
   * text is handled as before.
   */
  function HandleStartReturns(req: Request, env: Env): (out: Outcome)
    ensures req.update.Some? && Authorized(req.update.value.message.from.id, req.personalId)
            && req.update.value.message.text == StartCommand
      ==> && out.effects != [] && out.effects[0] == SendMessage(req.update.value.message.from.id, Greeting)
          && out.effects[1..] == (if out.completion == Panicked then [Abort] else [])
          && out.files == env.files
    ensures !(req.update.Some? && req.update.value.message.text == StartCommand) ==> out == Handle(req, env)
  {
    match req.update
    case Some(u) =>
      var chat := u.message.from.id;
      if Authorized(chat, req.personalId) && u.message.text == StartCommand then
        ReplyAndReturn(chat, Greeting, env)
      else Handle(req, env)
    case None => Handle(req, env)
  }

  /** Appending a stage's effects after those already recorded. */
  lemma AppendAssoc<T>(a: seq<T>, b: seq<T>, c: seq<T>)
    ensures a + (b + c) == (a + b) + c
  {
  }

  // ---------------------------------------------------------------------
  // The handler, over a world that records its calls
  // ---------------------------------------------------------------------

  /**
   * The outside world as the handler sees it: every outbound call is
   * appended to `trace`; `files` is the content of `/tmp`; the calls in
   * `failing` return an error; `tool` is the downloader's behaviour.
   */
  class World {
    var trace: seq<Effect>
    var files: map<string, nat>
    const failing: set<Effect>
    const tool: Tool

    constructor (files: map<string, nat>, failing: set<Effect>, tool: Tool)
      ensures this.trace == [] && this.files == files
      ensures this.failing == failing && this.tool == tool
    {
      this.trace := [];
      this.files := files;
      this.failing := failing;
      this.tool := tool;
    }

    /** The environment the world currently presents. */
    function Snapshot(): Env
      reads this
    {
      Env(files, failing, tool)
    }

    /** `TelegramAPI::send_message`: `ok` is false when the call errors. */
    method SendMessage(chat: I64, text: string) returns (ok: bool)
      modifies this`trace
      ensures trace == old(trace) + [Effect.SendMessage(chat, text)]
      ensures ok <==> Effect.SendMessage(chat, text) !in failing
    {
      trace := trace + [Effect.SendMessage(chat, text)];
      ok := Effect.SendMessage(chat, text) !in failing;
    }

    /** `ytd.download()` in `/tmp`: on success the expanded template names the file it writes. */
    method Download(url: string, template: string) returns (ok: bool)
      requires tool.constructs
      modifies this
      ensures trace == old(trace) + [Effect.Download(url, template)]
      ensures ok <==> tool.result.Some?
      ensures files == if ok then old(files)[ProducedPath(template, tool.result.value.ext) := tool.result.value.size]
                       else old(files)
    {
      trace := trace + [Effect.Download(url, template)];
      ok := tool.result.Some?;
      if ok {
        files := files[ProducedPath(template, tool.result.value.ext) := tool.result.value.size];
      }
    }

    /** `tokio::fs::read_dir`: only its success matters, no entry is looked at. */
    method ListDir(dir: string) returns (ok: bool)
      modifies this`trace
      ensures trace == old(trace) + [Effect.ListDir(dir)]
      ensures ok <==> Effect.ListDir(dir) !in failing
    {
      trace := trace + [Effect.ListDir(dir)];
      ok := Effect.ListDir(dir) !in failing;
    }

    /** `File::open` then `metadata().len()`: the size, or None when either fails. */
    method Open(path: string) returns (size: Option<nat>)
      modifies this`trace
      ensures trace == old(trace) + [Effect.Open(path)]
      ensures size == if Effect.Open(path) !in failing && path in files then Some(files[path]) else None
    {
      trace := trace + [Effect.Open(path)];
      if Effect.Open(path) !in failing && path in files {
        size := Some(files[path]);
      } else {
        size := None;
      }
    }

    /** `tokio::fs::remove_file` of a file the handler has opened. */
    method Remove(path: string) returns (ok: bool)
      modifies this
      ensures trace == old(trace) + [Effect.Remove(path)]
      ensures ok <==> Effect.Remove(path) !in failing
      ensures files == if ok then old(files) - {path} else old(files)
    {
      trace := trace + [Effect.Remove(path)];
      ok := Effect.Remove(path) !in failing;
      if ok {
        files := files - {path};
      }
    }

    /** `TelegramAPI::send_video` of a file the handler has opened. */
    method SendVideo(chat: I64, path: string) returns (ok: bool)
      modifies this`trace
      ensures trace == old(trace) + [Effect.SendVideo(chat, path)]
      ensures ok <==> Effect.SendVideo(chat, path) !in failing
    {
      trace := trace + [Effect.SendVideo(chat, path)];
      ok := Effect.SendVideo(chat, path) !in failing;
    }

    /** A panic: the task ends here. */
    method Abort() returns (c: Completion)
      modifies this`trace
      ensures trace == old(trace) + [Effect.Abort] && c == Panicked
    {
      trace := trace + [Effect.Abort];
      c := Panicked;
    }
  }

  /**
   * `get_video`: the trace it leaves, how it completes and the files it
   * leaves behind are those `Handle` gives for the world it started in.
   */
  method GetVideo(w: World, req: Request) returns (c: Completion)
    modifies w
    ensures var out := Handle(req, old(w.Snapshot()));
      w.trace == old(w.trace) + out.effects && c == out.completion && w.files == out.files
  {
    if req.update.None? {
      return Ok;
    }
    var u := req.update.value;
    if !Authorized(u.message.from.id, req.personalId) {
      return Ok;
    }
    c := Answer(w, u.message.from.id, u.message.text, req);
  }

  /** An admitted update: the greeting for "/start", then URL parsing whatever the text. */
  method Answer(w: World, chat: I64, text: string, req: Request) returns (c: Completion)
    modifies w
    ensures var out := Respond(chat, text, req, old(w.Snapshot()));
      w.trace == old(w.trace) + out.effects && c == out.completion && w.files == out.files
  {
    if text == StartCommand {
      c := Greet(w, chat, req);
    } else {
      c := RouteUrl(w, chat, req);
    }
  }

  /** "/start": the greeting, whose failure panics, and then URL parsing all the same. */
  method Greet(w: World, chat: I64, req: Request) returns (c: Completion)
    modifies w
    ensures var out := Respond(chat, StartCommand, req, old(w.Snapshot()));
      w.trace == old(w.trace) + out.effects && c == out.completion && w.files == out.files
  {
    ghost var env := w.Snapshot();
    ghost var hello := SendMessage(chat, Greeting);
    var sent := w.SendMessage(chat, Greeting);
    if !sent {
      c := w.Abort();
      return;
    }
    assert w.Snapshot() == env;
    c := RouteUrl(w, chat, req);
    AppendAssoc(old(w.trace), [hello], Route(chat, req, env).effects);
  }

  /** Replying with `text`, then returning `(200, "Ok")` unless the send panics. */
  method Reply(w: World, chat: I64, text: string) returns (c: Completion)
    modifies w
    ensures var out := ReplyAndReturn(chat, text, old(w.Snapshot()));
      w.trace == old(w.trace) + out.effects && c == out.completion && w.files == out.files
  {
    var sent := w.SendMessage(chat, text);
    if !sent {
      c := w.Abort();
      return;
    }
    return Ok;
  }

  /** URL parsing and the host check, in the handler's order. */
  method RouteUrl(w: World, chat: I64, req: Request) returns (c: Completion)
    modifies w
    ensures var out := Route(chat, req, old(w.Snapshot()));
      w.trace == old(w.trace) + out.effects && c == out.completion && w.files == out.files
  {
    if req.url.None? {
      c := Reply(w, chat, InvalidUrlReply);
      return;
    }
    var url := req.url.value;
    if url.host.None? {
      c := w.Abort();
      return;
    }
    if !Contains(url.host.value, RedditHost) {
      c := Reply(w, chat, InvalidPostReply);
      return;
    }
    c := FetchVideo(w, chat, url.serialization, req.videoName);
  }

  /** Constructing the downloader and downloading into `/tmp`. */
  method FetchVideo(w: World, chat: I64, url: string, videoName: string) returns (c: Completion)
    modifies w
    ensures var out := Fetch(chat, url, videoName, old(w.Snapshot()));
      w.trace == old(w.trace) + out.effects && c == out.completion && w.files == out.files
  {
    ghost var env := w.Snapshot();
    var template := OutputTemplate(videoName);
    if !w.tool.constructs {
      c := w.Abort();
      return;
    }
    var download := Download(url, template);
    var downloaded := w.Download(url, template);
    if !downloaded {
      assert Fetch(chat, url, videoName, env) == Prepend([download], ReplyAndReturn(chat, DownloadFailedReply, env));
      assert w.Snapshot() == env;
      c := Reply(w, chat, DownloadFailedReply);
      AppendAssoc(old(w.trace), [download], ReplyAndReturn(chat, DownloadFailedReply, env).effects);
      return;
    }
    ghost var files := w.files;
    assert Fetch(chat, url, videoName, env) == Prepend([download], Deliver(chat, videoName, env.failing, files));
    c := DeliverVideo(w, chat, videoName);
    AppendAssoc(old(w.trace), [download], Deliver(chat, videoName, env.failing, files).effects);
  }

  /** Listing `/tmp`, opening `/tmp/{video_name}.mp4`, and the size gate. */
  method DeliverVideo(w: World, chat: I64, videoName: string) returns (c: Completion)
    modifies w
    ensures var out := Deliver(chat, videoName, w.failing, old(w.files));
      w.trace == old(w.trace) + out.effects && c == out.completion && w.files == out.files
  {
    var listed := w.ListDir(DownloadDir);
    if !listed {
      c := w.Abort();
      return;
    }
    var path := VideoPath(videoName);
    var size := w.Open(path);
    if size.None? {
      c := w.Abort();
      return;
    }
    if size.value > MaxVideoSize {
      var sent := w.SendMessage(chat, TooLargeReply);
      if !sent {
        c := w.Abort();
        return;
      }
      var removed := w.Remove(path);
      if !removed {
        c := w.Abort();
        return;
      }
      return Ok;
    }
    var uploaded := w.SendVideo(chat, path);
    if !uploaded {
      c := w.Abort();
      return;
    }
    return Ok;
  }
}
