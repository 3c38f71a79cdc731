/** What the `/webhook` handler guarantees, stated over its specification `Handle`. */
module WebhookProperties {
  import opened Wrappers
  import opened Decimal
  import opened Text
  import opened Webhook

  // ---------------------------------------------------------------------
  // Vocabulary
  // ---------------------------------------------------------------------

  /** The request decodes and comes from the allow-listed sender. */
  predicate Admitted(req: Request) {
    req.update.Some? && Authorized(req.update.value.message.from.id, req.personalId)
  }

  function Sender(req: Request): I64
    requires req.update.Some?
  {
    req.update.value.message.from.id
  }

  /** The greeting, if any, went out without a panic, so URL parsing is reached. */
  predicate PassesGreeting(req: Request, env: Env)
    requires Admitted(req)
  {
    req.update.value.message.text == StartCommand ==> SendMessage(Sender(req), Greeting) !in env.failing
  }

  /** How many times `e` occurs in a trace. */
  function Count(effects: seq<Effect>, e: Effect): nat {
    multiset(effects)[e]
  }

  predicate NoDownload(effects: seq<Effect>) {
    forall e | e in effects :: !e.Download?
  }

  /** No file of the download directory is opened, removed or uploaded. */
  predicate NoFileUse(effects: seq<Effect>) {
    forall e | e in effects :: !(e.Open? || e.Remove? || e.SendVideo?)
  }

  // ---------------------------------------------------------------------
  // Decoding and authorisation
  // ---------------------------------------------------------------------

  /** A body that does not decode, or a sender who is not allow-listed, gets silence and `(200, "Ok")`, and asking again changes nothing. */
  lemma SilentUnlessAdmitted(req: Request, env: Env)
    requires !Admitted(req)
    ensures Handle(req, env) == Outcome([], Ok, env.files)
    ensures Handle(req, env.(files := Handle(req, env).files)) == Handle(req, env)
  {
  }

  /** An admitted request always makes at least one outbound call or panics: silence means refusal. */
  lemma SilentIffRefused(req: Request, env: Env)
    ensures Handle(req, env).effects == [] <==> !Admitted(req)
  {
    if Admitted(req) {
      var chat := Sender(req);
      var out := Route(chat, req, env);
      assert out.effects != [] by {
        match req.url
        case None =>
        case Some(url) =>
          match url.host
          case None =>
          case Some(host) =>
            if Contains(host, RedditHost) && env.tool.constructs {
              assert out.effects[0] == Download(url.serialization, OutputTemplate(req.videoName));
            }
      }
    }
  }

  /** The configured id selects at most one sender, because the rendering is injective. */
  lemma OneSenderPerPersonalId(a: I64, b: I64, personalId: string)
    requires Authorized(a, personalId) && Authorized(b, personalId)
    ensures a == b
  {
    IntToStringInjective(a, b);
  }

  /** A configured id with a '+' sign or a padding zero ("+7", "007") admits nobody. */
  lemma NonCanonicalPersonalIdAdmitsNobody(req: Request, env: Env)
    requires req.personalId != []
    requires req.personalId[0] == '+' || (|req.personalId| >= 2 && req.personalId[0] == '0')
    ensures Handle(req, env) == Outcome([], Ok, env.files)
  {
    if req.update.Some? {
      NonCanonicalIsNoRendering(req.personalId, Sender(req));
    }
  }

  // ---------------------------------------------------------------------
  // The /start command
  // ---------------------------------------------------------------------

  /** "/start" greets the sender first and then carries on with URL parsing of the same text. */
  lemma StartGreetsThenParses(req: Request, env: Env)
    requires Admitted(req) && req.update.value.message.text == StartCommand
    ensures var hello := SendMessage(Sender(req), Greeting);
      Handle(req, env).effects[0] == hello &&
      Handle(req, env) == if hello in env.failing then Outcome([hello, Abort], Panicked, env.files)
                          else Prepend([hello], Route(Sender(req), req, env))
  {
  }

  // ---------------------------------------------------------------------
  // URL and host checks
  // ---------------------------------------------------------------------

  /** When URL parsing ends in a reply, that reply is the only one besides the greeting, and no file is touched. */
  lemma RepliedOnce(req: Request, env: Env, text: string)
    requires Admitted(req) && PassesGreeting(req, env) && text != Greeting
    requires Route(Sender(req), req, env) == ReplyAndReturn(Sender(req), text, env)
    ensures var out := Handle(req, env);
      && Count(out.effects, SendMessage(Sender(req), text)) == 1
      && NoDownload(out.effects) && NoFileUse(out.effects)
      && out.files == env.files
      && out.completion == if SendMessage(Sender(req), text) in env.failing then Panicked else Ok
  {
    var chat, send := Sender(req), SendMessage(Sender(req), text);
    var reply := ReplyAndReturn(chat, text, env);
    HandleAtRoute(req, env);
    assert reply.effects == if send in env.failing then [send, Abort] else [send];
    OneReplyAfter(GreetingPrefix(req), reply.effects, send);
  }

  /** A reply, possibly followed by `Abort`, after messages other than it: it is counted once and no file is touched. */
  lemma OneReplyAfter(prefix: seq<Effect>, effects: seq<Effect>, send: Effect)
    requires send.SendMessage? && send !in prefix && forall e | e in prefix :: e.SendMessage?
    requires effects == [send] || effects == [send, Abort]
    ensures Count(prefix + effects, send) == 1
    ensures NoDownload(prefix + effects) && NoFileUse(prefix + effects)
  {
    assert multiset(prefix + effects) == multiset(prefix) + multiset(effects);
    forall e | e in prefix + effects
      ensures e.SendMessage? || e.Abort?
    {
      assert e in prefix || e in effects;
    }
  }

  /** Text that is not a URL gets exactly one "Please send a valid URL" and no download. */
  lemma InvalidUrlIsReported(req: Request, env: Env)
    requires Admitted(req) && PassesGreeting(req, env) && req.url.None?
    ensures var out := Handle(req, env);
      && Count(out.effects, SendMessage(Sender(req), InvalidUrlReply)) == 1
      && NoDownload(out.effects) && NoFileUse(out.effects)
      && out.files == env.files
      && out.completion == if SendMessage(Sender(req), InvalidUrlReply) in env.failing then Panicked else Ok
  {
    assert Route(Sender(req), req, env) == ReplyAndReturn(Sender(req), InvalidUrlReply, env);
    RepliedOnce(req, env, InvalidUrlReply);
  }

  /** A host without "reddit.com" gets exactly one "Please send a valid reddit post" and no download. */
  lemma ForeignHostIsReported(req: Request, env: Env, host: string)
    requires Admitted(req) && PassesGreeting(req, env)
    requires req.url.Some? && req.url.value.host == Some(host) && !Contains(host, RedditHost)
    ensures var out := Handle(req, env);
      && Count(out.effects, SendMessage(Sender(req), InvalidPostReply)) == 1
      && NoDownload(out.effects) && NoFileUse(out.effects)
      && out.files == env.files
      && out.completion == if SendMessage(Sender(req), InvalidPostReply) in env.failing then Panicked else Ok
  {
    assert Route(Sender(req), req, env) == ReplyAndReturn(Sender(req), InvalidPostReply, env);
    RepliedOnce(req, env, InvalidPostReply);
  }

  /** A URL without a host panics at `host_str().unwrap()`, before any reply or download. */
  lemma HostlessUrlPanics(req: Request, env: Env)
    requires Admitted(req) && PassesGreeting(req, env)
    requires req.url.Some? && req.url.value.host.None?
    ensures var out := Handle(req, env);
      out.completion == Panicked && out.effects[|out.effects| - 1] == Abort && NoDownload(out.effects)
  {
  }

  /** Any host containing "reddit.com" passes the host check, e.g. "notreddit.com.evil.example". */
  lemma SubstringHostsPass(prefix: string, suffix: string)
    ensures Contains(prefix + RedditHost + suffix, RedditHost)
    ensures Contains("notreddit.com.evil.example", RedditHost)
  {
    ContainsInContext(prefix, RedditHost, suffix);
    ContainsInContext("not", RedditHost, ".evil.example");
    assert "not" + RedditHost + ".evil.example" == "notreddit.com.evil.example";
  }

  /** A download is only ever started for a parsed URL whose host contains "reddit.com". */
  lemma DownloadOnlyForRedditHosts(req: Request, env: Env)
    requires !NoDownload(Handle(req, env).effects)
    ensures Admitted(req) && PassesGreeting(req, env)
    ensures req.url.Some? && req.url.value.host.Some? && Contains(req.url.value.host.value, RedditHost)
    ensures env.tool.constructs
  {
  }

  // ---------------------------------------------------------------------
  // Download
  // ---------------------------------------------------------------------

  /** The request gets as far as running the downloader. */
  predicate ReachesDownload(req: Request, env: Env) {
    && Admitted(req) && PassesGreeting(req, env)
    && req.url.Some? && req.url.value.host.Some? && Contains(req.url.value.host.value, RedditHost)
    && env.tool.constructs
  }

  /** The effects before the URL is parsed: the greeting for "/start", nothing otherwise. */
  function GreetingPrefix(req: Request): seq<Effect>
    requires req.update.Some?
  {
    if req.update.value.message.text == StartCommand then [SendMessage(Sender(req), Greeting)] else []
  }

  /** Past the checks and the greeting, the handler is the greeting (if any) followed by URL parsing. */
  lemma HandleAtRoute(req: Request, env: Env)
    requires Admitted(req) && PassesGreeting(req, env)
    ensures Handle(req, env) == Prepend(GreetingPrefix(req), Route(Sender(req), req, env))
  {
  }

  /** Past the checks, the handler is the greeting (if any) followed by the download step. */
  lemma HandleAtDownload(req: Request, env: Env)
    requires ReachesDownload(req, env)
    ensures Handle(req, env)
      == Prepend(GreetingPrefix(req), Fetch(Sender(req), req.url.value.serialization, req.videoName, env))
  {
    HandleAtRoute(req, env);
    var chat := Sender(req);
    assert Route(chat, req, env) == Fetch(chat, req.url.value.serialization, req.videoName, env);
  }

  /** A failed download gets exactly one "Failed to download video" and leaves the files as they were. */
  lemma FailedDownloadIsReported(req: Request, env: Env)
    requires ReachesDownload(req, env) && env.tool.result.None?
    ensures var out := Handle(req, env);
      && Count(out.effects, SendMessage(Sender(req), DownloadFailedReply)) == 1
      && out.files == env.files
      && out.completion == if SendMessage(Sender(req), DownloadFailedReply) in env.failing then Panicked else Ok
  {
    var chat := Sender(req);
    var reply := ReplyAndReturn(chat, DownloadFailedReply, env);
    var download := Download(req.url.value.serialization, OutputTemplate(req.videoName));
    var effects := GreetingPrefix(req) + ([download] + reply.effects);
    HandleAtDownload(req, env);
    assert Fetch(chat, req.url.value.serialization, req.videoName, env) == Prepend([download], reply);
    assert Handle(req, env) == Outcome(effects, reply.completion, reply.files);
    assert multiset(effects)[SendMessage(chat, DownloadFailedReply)]
        == multiset(GreetingPrefix(req))[SendMessage(chat, DownloadFailedReply)] + 1;
  }

  /** After a failed download no file is opened, removed or uploaded. */
  lemma FailedDownloadTouchesNoFile(req: Request, env: Env)
    requires ReachesDownload(req, env) && env.tool.result.None?
    ensures NoFileUse(Handle(req, env).effects)
  {
    var chat := Sender(req);
    var reply := ReplyAndReturn(chat, DownloadFailedReply, env);
    var download := Download(req.url.value.serialization, OutputTemplate(req.videoName));
    HandleAtDownload(req, env);
    assert Fetch(chat, req.url.value.serialization, req.videoName, env) == Prepend([download], reply);
    assert NoFileUse(reply.effects);
    NoFileUseConcat([download], reply.effects);
    NoFileUseConcat(GreetingPrefix(req), [download] + reply.effects);
  }

  lemma NoFileUseConcat(a: seq<Effect>, b: seq<Effect>)
    requires NoFileUse(a) && NoFileUse(b)
    ensures NoFileUse(a + b)
  {
  }

  /** No '%' in the name: the template's only field is the extension. */
  predicate PlainName(videoName: string) {
    '%' !in videoName
  }

  lemma {:induction false} ExpandKeepsPlainPrefix(name: string, rest: string, ext: string)
    requires PlainName(name)
    ensures ExpandTemplate(name + rest, ext) == name + ExpandTemplate(rest, ext)
    decreases |name|
  {
    if name != [] {
      var t := name + rest;
      assert t[0] == name[0] != '%' == ExtField[0];
      assert t != [] && t[1..] == name[1..] + rest;
      assert ExpandTemplate(t, ext) == [t[0]] + ExpandTemplate(t[1..], ext);
      ExpandKeepsPlainPrefix(name[1..], rest, ext);
      calc {
        ExpandTemplate(name + rest, ext);
        [t[0]] + ExpandTemplate(name[1..] + rest, ext);
        [name[0]] + (name[1..] + ExpandTemplate(rest, ext));
        { AppendAssoc([name[0]], name[1..], ExpandTemplate(rest, ext)); }
        ([name[0]] + name[1..]) + ExpandTemplate(rest, ext);
        { assert [name[0]] + name[1..] == name; }
        name + ExpandTemplate(rest, ext);
      }
    } else {
      assert name + rest == rest;
    }
  }

  /** The downloader writes `/tmp/{video_name}.{ext}`. */
  lemma ProducedPathOfTemplate(videoName: string, ext: string)
    requires PlainName(videoName)
    ensures ProducedPath(OutputTemplate(videoName), ext) == DownloadDir + "/" + videoName + "." + ext
  {
    var field := "." + ExtField;
    assert field[..|ExtField|][0] == '.';
    assert field[1..] == ExtField;
    assert ExtField[|ExtField|..] == [];
    assert ExpandTemplate(ExtField, ext) == ext + ExpandTemplate([], ext) == ext;
    assert ExpandTemplate(field, ext) == "." + ext;
    AppendAssoc(videoName, ".", ExtField);
    ExpandKeepsPlainPrefix(videoName, field, ext);
    AppendAssoc(DownloadDir + "/", videoName, "." + ext);
    AppendAssoc(DownloadDir + "/" + videoName, ".", ext);
  }

  /** The file the downloader writes is the file the handler opens exactly when the extension is "mp4". */
  lemma ProducedIsOpenedIffMp4(videoName: string, ext: string)
    requires PlainName(videoName)
    ensures ProducedPath(OutputTemplate(videoName), ext) == VideoPath(videoName) <==> ext == "mp4"
  {
    ProducedPathOfTemplate(videoName, ext);
    var stem := DownloadDir + "/" + videoName + ".";
    assert VideoPath(videoName) == stem + "mp4";
    assert DownloadDir + "/" + videoName + "." + ext == stem + ext;
    if stem + ext == stem + "mp4" {
      assert (stem + ext)[|stem|..] == ext;
      assert (stem + "mp4")[|stem|..] == "mp4";
    }
  }

  /** Past the download, the handler is the greeting (if any), the download, then delivery of what it wrote. */
  lemma HandleAtDeliver(req: Request, env: Env)
    requires ReachesDownload(req, env) && env.tool.result.Some?
    ensures var template, p := OutputTemplate(req.videoName), env.tool.result.value;
      Handle(req, env).effects
        == GreetingPrefix(req) + ([Download(req.url.value.serialization, template)]
           + Deliver(Sender(req), req.videoName, env.failing, env.files[ProducedPath(template, p.ext) := p.size]).effects)
    ensures var template, p := OutputTemplate(req.videoName), env.tool.result.value;
      var deliver := Deliver(Sender(req), req.videoName, env.failing, env.files[ProducedPath(template, p.ext) := p.size]);
      Handle(req, env).completion == deliver.completion && Handle(req, env).files == deliver.files
  {
    var chat, template, p := Sender(req), OutputTemplate(req.videoName), env.tool.result.value;
    var deliver := Deliver(chat, req.videoName, env.failing, env.files[ProducedPath(template, p.ext) := p.size]);
    HandleAtDownload(req, env);
    assert Fetch(chat, req.url.value.serialization, req.videoName, env)
        == Prepend([Download(req.url.value.serialization, template)], deliver);
  }

  /** When `/tmp/{video_name}.mp4` is not there, delivery panics at the open, before any reply or removal. */
  lemma MissingVideoPanicsAtOpen(chat: I64, videoName: string, failing: set<Effect>, files: map<string, nat>)
    requires VideoPath(videoName) !in files
    ensures var out := Deliver(chat, videoName, failing, files);
      && out.completion == Panicked
      && (ListDir(DownloadDir) !in failing ==> Open(VideoPath(videoName)) in out.effects)
      && forall e | e in out.effects :: e.ListDir? || e.Open? || e.Abort?
  {
  }

  /**
   * When no `/tmp/{video_name}.mp4` existed before, a download in another
   * container ("webm", "mkv") panics when that path is opened.
   */
  lemma OtherExtensionPanicsAtOpen(req: Request, env: Env)
    requires ReachesDownload(req, env) && PlainName(req.videoName)
    requires env.tool.result.Some? && env.tool.result.value.ext != "mp4"
    requires VideoPath(req.videoName) !in env.files
    ensures var out := Handle(req, env);
      && out.completion == Panicked
      && (ListDir(DownloadDir) !in env.failing ==> Open(VideoPath(req.videoName)) in out.effects)
      && forall e | e in out.effects :: !(e.Remove? || e.SendVideo?)
  {
    var chat, name, p := Sender(req), req.videoName, env.tool.result.value;
    var template := OutputTemplate(name);
    var files := env.files[ProducedPath(template, p.ext) := p.size];
    var deliver := Deliver(chat, name, env.failing, files);
    ProducedIsOpenedIffMp4(name, p.ext);
    MissingVideoPanicsAtOpen(chat, name, env.failing, files);
    HandleAtDeliver(req, env);
    var effects := Handle(req, env).effects;
    assert effects == GreetingPrefix(req) + ([Download(req.url.value.serialization, template)] + deliver.effects);
    forall e | e in effects
      ensures !(e.Remove? || e.SendVideo?)
    {
      assert e in GreetingPrefix(req) || e.Download? || e in deliver.effects;
    }
    assert deliver.effects <= effects[|GreetingPrefix(req)| + 1..];
  }

  // ---------------------------------------------------------------------
  // Size gate and delivery
  // ---------------------------------------------------------------------

  /** A file over the limit: one "too large" reply, no upload, and the file is removed if nothing fails. */
  lemma OversizedIsRemoved(chat: I64, videoName: string, failing: set<Effect>, files: map<string, nat>)
    requires ListDir(DownloadDir) !in failing && Open(VideoPath(videoName)) !in failing
    requires VideoPath(videoName) in files && files[VideoPath(videoName)] > MaxVideoSize
    ensures var out := Deliver(chat, videoName, failing, files);
      && Count(out.effects, SendMessage(chat, TooLargeReply)) == 1
      && (forall e | e in out.effects :: !e.SendVideo?)
      && (SendMessage(chat, TooLargeReply) !in failing ==> Remove(VideoPath(videoName)) in out.effects)
      && (out.completion == Ok <==> SendMessage(chat, TooLargeReply) !in failing && Remove(VideoPath(videoName)) !in failing)
      && (out.completion == Ok ==> out.files == files - {VideoPath(videoName)})
  {
    var path, tooLarge := VideoPath(videoName), SendMessage(chat, TooLargeReply);
    var out := Deliver(chat, videoName, failing, files);
    var list, open, remove := ListDir(DownloadDir), Open(path), Remove(path);
    if tooLarge in failing {
      assert out.effects == [list, open, tooLarge, Abort];
    } else if remove in failing {
      assert out.effects == [list, open, tooLarge, remove, Abort];
    } else {
      assert out.effects == [list, open, tooLarge, remove];
    }
  }

  /** A file within the limit (50_000_000 bytes included): exactly one upload, no removal, the file stays. */
  lemma WithinLimitIsUploaded(chat: I64, videoName: string, failing: set<Effect>, files: map<string, nat>)
    requires ListDir(DownloadDir) !in failing && Open(VideoPath(videoName)) !in failing
    requires VideoPath(videoName) in files && files[VideoPath(videoName)] <= MaxVideoSize
    ensures var out := Deliver(chat, videoName, failing, files);
      && Count(out.effects, SendVideo(chat, VideoPath(videoName))) == 1
      && (forall e | e in out.effects :: !e.Remove? && !e.SendMessage?)
      && out.files == files
      && (out.completion == Ok <==> SendVideo(chat, VideoPath(videoName)) !in failing)
  {
  }

  /**
   * End to end, when every outbound call succeeds and the downloader writes
   * an mp4 of `size` bytes: the size gate decides between removal and upload.
   */
  lemma DownloadedMp4MeetsSizeGate(req: Request, env: Env)
    requires ReachesDownload(req, env) && PlainName(req.videoName) && env.failing == {}
    requires env.tool.result.Some? && env.tool.result.value.ext == "mp4"
    ensures var out := Handle(req, env);
      var chat, path, size := Sender(req), VideoPath(req.videoName), env.tool.result.value.size;
      var tail := if size > MaxVideoSize then [SendMessage(chat, TooLargeReply), Remove(path)]
                  else [SendVideo(chat, path)];
      && out.completion == Ok
      && out.effects[|out.effects| - |tail|..] == tail
      && (path in out.files <==> size <= MaxVideoSize)
  {
    var chat, name, p := Sender(req), req.videoName, env.tool.result.value;
    var path, template := VideoPath(name), OutputTemplate(name);
    ProducedIsOpenedIffMp4(name, "mp4");
    HandleAtDeliver(req, env);
    var deliver := Deliver(chat, name, {}, env.files[path := p.size]);
    var tail := if p.size > MaxVideoSize then [SendMessage(chat, TooLargeReply), Remove(path)]
                else [SendVideo(chat, path)];
    var head := GreetingPrefix(req) + [Download(req.url.value.serialization, template)];
    assert deliver.effects == [ListDir(DownloadDir), Open(path)] + tail;
    AppendAssoc(GreetingPrefix(req), [Download(req.url.value.serialization, template)], deliver.effects);
    AppendAssoc(head, [ListDir(DownloadDir), Open(path)], tail);
    var effects := (head + [ListDir(DownloadDir), Open(path)]) + tail;
    assert Handle(req, env).effects == effects;
    assert effects[|effects| - |tail|..] == tail;
  }

  // ---------------------------------------------------------------------
  // Whole-trace properties
  // ---------------------------------------------------------------------

  /** Delivery ends well: it panics with `Abort` last or returns `(200, "Ok")`. */
  lemma DeliverEndsWell(chat: I64, videoName: string, failing: set<Effect>, files: map<string, nat>)
    ensures EndsWell(Deliver(chat, videoName, failing, files))
  {
  }

  /** The download step ends well whatever the downloader does. */
  lemma FetchEndsWell(chat: I64, url: string, videoName: string, env: Env)
    ensures EndsWell(Fetch(chat, url, videoName, env))
  {
    if env.tool.constructs {
      var download := Download(url, OutputTemplate(videoName));
      match env.tool.result
      case None =>
        var reply := ReplyAndReturn(chat, DownloadFailedReply, env);
        assert EndsWell(reply);
        PrependEndsWell([download], reply);
      case Some(p) =>
        var files := env.files[ProducedPath(OutputTemplate(videoName), p.ext) := p.size];
        DeliverEndsWell(chat, videoName, env.failing, files);
        PrependEndsWell([download], Deliver(chat, videoName, env.failing, files));
    }
  }

  /** Only the last effect may be `Abort`; it is there exactly on a panic; otherwise the reply is `(200, "Ok")`. */
  predicate EndsWell(out: Outcome) {
    && (out.completion == Panicked <==> out.effects != [] && out.effects[|out.effects| - 1] == Abort)
    && (forall i | 0 <= i < |out.effects| - 1 :: out.effects[i] != Abort)
    && (out.completion != Panicked ==> out.completion == Ok)
  }

  lemma PrependEndsWell(prefix: seq<Effect>, out: Outcome)
    requires EndsWell(out) && Abort !in prefix
    ensures EndsWell(Prepend(prefix, out))
  {
    var all := prefix + out.effects;
    forall i | 0 <= i < |all| - 1 ensures all[i] != Abort {
      if i >= |prefix| {
        assert all[i] == out.effects[i - |prefix|];
      }
    }
    if out.effects == [] {
      assert all == prefix;
    } else {
      assert all[|all| - 1] == out.effects[|out.effects| - 1];
    }
  }

  lemma StagesEndWell(chat: I64, req: Request, env: Env)
    ensures EndsWell(Route(chat, req, env))
  {
    match req.url
    case None =>
      assert EndsWell(ReplyAndReturn(chat, InvalidUrlReply, env));
    case Some(url) =>
      match url.host
      case None =>
      case Some(host) =>
        if !Contains(host, RedditHost) {
          assert EndsWell(ReplyAndReturn(chat, InvalidPostReply, env));
        } else {
          FetchEndsWell(chat, url.serialization, req.videoName, env);
        }
  }

  /** A panic ends the trace, and a handler that does not panic answers `(200, "Ok")`. */
  lemma AbortEndsTrace(req: Request, env: Env)
    ensures EndsWell(Handle(req, env))
  {
    if Admitted(req) {
      var chat := Sender(req);
      StagesEndWell(chat, req, env);
      if req.update.value.message.text == StartCommand && SendMessage(chat, Greeting) !in env.failing {
        PrependEndsWell([SendMessage(chat, Greeting)], Route(chat, req, env));
      }
    }
  }

  /** Every reply and every upload in `effects` goes to `chat`. */
  predicate ToChat(effects: seq<Effect>, chat: I64) {
    forall e | e in effects && (e.SendMessage? || e.SendVideo?) :: e.chat == chat
  }

  /** Every file operation in `effects` uses `path`. */
  predicate OnPath(effects: seq<Effect>, path: string) {
    forall e | e in effects && (e.Open? || e.Remove? || e.SendVideo?) :: e.path == path
  }

  /** `effects` does not both remove and upload. */
  predicate RemovesOrUploads(effects: seq<Effect>) {
    !((exists e | e in effects :: e.Remove?) && (exists e | e in effects :: e.SendVideo?))
  }

  /** A prefix that touches no file and talks only to `chat` keeps the three properties. */
  lemma PrependKeepsTrack(prefix: seq<Effect>, effects: seq<Effect>, chat: I64, path: string)
    requires NoFileUse(prefix) && ToChat(prefix, chat)
    requires ToChat(effects, chat) && OnPath(effects, path) && RemovesOrUploads(effects)
    ensures ToChat(prefix + effects, chat) && OnPath(prefix + effects, path) && RemovesOrUploads(prefix + effects)
  {
  }

  lemma DeliverKeepsTrack(chat: I64, videoName: string, failing: set<Effect>, files: map<string, nat>)
    ensures var effects := Deliver(chat, videoName, failing, files).effects;
      ToChat(effects, chat) && OnPath(effects, VideoPath(videoName)) && RemovesOrUploads(effects)
  {
    var path := VideoPath(videoName);
    if ListDir(DownloadDir) !in failing && Open(path) !in failing && path in files {
      if files[path] > MaxVideoSize {
        assert forall e | e in Deliver(chat, videoName, failing, files).effects :: !e.SendVideo?;
      } else {
        assert forall e | e in Deliver(chat, videoName, failing, files).effects :: !e.Remove?;
      }
    }
  }

  lemma RouteKeepsTrack(chat: I64, req: Request, env: Env)
    ensures var effects := Route(chat, req, env).effects;
      ToChat(effects, chat) && OnPath(effects, VideoPath(req.videoName)) && RemovesOrUploads(effects)
  {
    match req.url
    case None =>
    case Some(url) =>
      match url.host
      case None =>
      case Some(host) =>
        if Contains(host, RedditHost) && env.tool.constructs {
          var template := OutputTemplate(req.videoName);
          var download := [Download(url.serialization, template)];
          match env.tool.result
          case None =>
            PrependKeepsTrack(download, ReplyAndReturn(chat, DownloadFailedReply, env).effects, chat, VideoPath(req.videoName));
          case Some(p) =>
            var files := env.files[ProducedPath(template, p.ext) := p.size];
            DeliverKeepsTrack(chat, req.videoName, env.failing, files);
            PrependKeepsTrack(download, Deliver(chat, req.videoName, env.failing, files).effects, chat, VideoPath(req.videoName));
        }
  }

  lemma HandleKeepsTrack(req: Request, env: Env)
    requires Admitted(req)
    ensures var effects := Handle(req, env).effects;
      ToChat(effects, Sender(req)) && OnPath(effects, VideoPath(req.videoName)) && RemovesOrUploads(effects)
  {
    var chat := Sender(req);
    RouteKeepsTrack(chat, req, env);
    if req.update.value.message.text == StartCommand && SendMessage(chat, Greeting) !in env.failing {
      PrependKeepsTrack([SendMessage(chat, Greeting)], Route(chat, req, env).effects, chat, VideoPath(req.videoName));
    }
  }

  /** Every reply and every upload goes to the sender of the update. */
  lemma RepliesGoToSender(req: Request, env: Env)
    ensures forall e | e in Handle(req, env).effects && (e.SendMessage? || e.SendVideo?) ::
      req.update.Some? && e.chat == Sender(req)
  {
    if Admitted(req) {
      HandleKeepsTrack(req, env);
    }
  }

  /** Open, remove and upload all use the one path `/tmp/{video_name}.mp4`. */
  lemma OnePathForTheVideo(req: Request, env: Env)
    ensures forall e | e in Handle(req, env).effects && (e.Open? || e.Remove? || e.SendVideo?) ::
      e.path == VideoPath(req.videoName)
  {
    if Admitted(req) {
      HandleKeepsTrack(req, env);
    }
  }

  /** A video is never both removed and uploaded. */
  lemma RemoveOrUploadNotBoth(req: Request, env: Env)
    ensures var out := Handle(req, env);
      !((exists e | e in out.effects :: e.Remove?) && (exists e | e in out.effects :: e.SendVideo?))
  {
    if Admitted(req) {
      HandleKeepsTrack(req, env);
    }
  }

  // ---------------------------------------------------------------------
  // "/start" falls through to URL parsing
  // ---------------------------------------------------------------------

  /**
   * As written: "/start" is not an absolute URL, so `Url::parse` rejects it,
   * and an authorised "/start" is answered with the greeting AND "Please
   * send a valid URL".
   */
  lemma StartAlsoGetsInvalidUrlReply(req: Request, env: Env)
    requires Admitted(req) && req.update.value.message.text == StartCommand && req.url.None?
    requires env.failing == {}
    ensures Handle(req, env) ==
      Outcome([SendMessage(Sender(req), Greeting), SendMessage(Sender(req), InvalidUrlReply)], Ok, env.files)
  {
  }

  /** Corrected: with the `return`, "/start" gets exactly the greeting, whatever `Url::parse` says. */
  lemma StartGetsOnlyTheGreeting(req: Request, env: Env)
    requires Admitted(req) && req.update.value.message.text == StartCommand
    ensures var out := HandleStartReturns(req, env);
      && out.effects[0] == SendMessage(Sender(req), Greeting)
      && Count(out.effects, SendMessage(Sender(req), Greeting)) == 1
      && NoDownload(out.effects) && NoFileUse(out.effects)
      && forall e | e in out.effects :: e == SendMessage(Sender(req), Greeting) || e == Abort
  {
  }

  /** Corrected: every other request is handled exactly as before. */
  lemma StartReturnsChangesNothingElse(req: Request, env: Env)
    requires !(Admitted(req) && req.update.value.message.text == StartCommand)
    ensures HandleStartReturns(req, env) == Handle(req, env)
  {
  }
}
