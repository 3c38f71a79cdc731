# reddit-save-bot: a Dafny model of the webhook handler and the logger

The bot receives Telegram updates on `POST /webhook`. For an update from
the one allow-listed user whose text is a reddit link, it downloads the
video with a youtube-dl style tool into `/tmp`. A file of at most
50_000_000 bytes is uploaded back to the chat. A larger file is deleted
and the user is told it is too large. Every other path ends in a fixed
reply or in silence. Once the `Json` extractor has accepted the body, the
HTTP answer is `(200, "Ok")` unless an `.unwrap()`/`.expect()` panics
first.

The model has two parts.

* **The handler `get_video`** (`src/main.rs`), in modules `Webhook` and
  `WebhookProperties`.
  * The handler is straight-line code with early returns and panicking
    `.expect`s. `Webhook.GetVideo` (split into `Answer`, `Greet`, `Reply`,
    `RouteUrl`, `FetchVideo` and `DeliverVideo` along the handler's
    stages) runs it against a `World` object.
  * `World` appends every outbound call to `trace` as an `Effect`:
    `SendMessage`, `Download`, `ListDir`, `Open`, `Remove`, `SendVideo`,
    and `Abort` for a panic. It keeps the contents of `/tmp` as a map from
    path to size.
  * Each method is proved against the pure specification `Webhook.Handle`
    and its stages (`Respond`, `Route`, `Fetch`, `Deliver`).
  * The inputs are abstract:
    * the update `serde_json::from_value` makes of the JSON body, or
      `None` when that JSON value does not have the shape of an update;
    * the configured `PERSONAL_ID`;
    * the result of `Url::parse` as a serialisation plus an optional host
      (or `None`);
    * a fresh `video_name`.
  * The environment gives the files already in `/tmp`, the set of
    outbound calls that fail, and what the downloader does.
  * The properties in `WebhookProperties` are stated over `Handle`.
* **The logger** (`src/logging.rs`), in module `Logging`. It is pure:
  * the filter `Logger::new` picks;
  * the map from `log` levels to Cloud Logging severities;
  * `enabled`;
  * the entry `log` builds for a record.

Supporting modules:
* `Decimal` models Rust's `to_string` on integers. The authorisation check
  compares `from.id.to_string()` with the configured string, so injectivity
  and canonical form matter there.
* `Text` models `str::contains`.
* `Telegram` mirrors the `Update`/`Message`/`User` structs.
* `Wrappers` holds `Option`.

The model follows the code, not its comments or a tidier design:
* the size gate is `size > 50_000_000` (src/main.rs:137): decimal bytes
  (50 MB), not 50 MiB;
* "/start" does not return after the greeting (see Findings);
* failures to send, open, remove or upload panic at `.expect`/`.unwrap`;
  none of them is logged and ignored;
* `read_dir` only has to succeed. No entry of `/tmp` is selected or checked;
* with no explicit level and no silent flag, `Logger::new` picks `Trace`
  (src/logging.rs:20), although the comment at src/logging.rs:17 says
  "Info".

## Model

| member | source | states |
|---|---|---|
| Decimal.NatToString | src/logging.rs:74 | The rendering of a `u32`/magnitude is a non-empty digit string; it starts with '0' exactly when the number is 0, and 0 renders as "0" |
| Decimal.IntToString | src/main.rs:59 | `i64::to_string` is an optional '-' followed by digits, and the '-' is there exactly for negative ids |
| Decimal.ParseNatToString | src/logging.rs:74 | Reading the digits back gives the number: the rendering loses nothing |
| Decimal.ParseIntToString | src/main.rs:59 | Reading a signed rendering back gives the id |
| Decimal.IntToStringInjective | src/main.rs:59-61 | Two ids with the same rendering are the same id |
| Decimal.IntToStringCanonical | src/main.rs:59 | Every rendering is canonical: "0", or a non-zero leading digit, optionally after '-' |
| Decimal.NatToStringParse | src/main.rs:59 | A digit string without a padding zero is the rendering of the number it reads as |
| Decimal.RenderingIffCanonical | src/main.rs:59 | A string is the rendering of an id exactly when it is canonical, signed digits, and reads back as that id |
| Decimal.NonCanonicalIsNoRendering | src/main.rs:59-61 | A string with a '+' sign or a padding zero, such as "+7" or "007", is the rendering of no id |
| Text.Contains | src/main.rs:85 | `str::contains` is true exactly when the pattern occurs at some index |
| Text.ContainsInContext | src/main.rs:85 | A pattern is found whatever text surrounds it |
| Webhook.Authorized | src/main.rs:59 | The sender is admitted exactly when `PERSONAL_ID` is a canonical signed decimal that reads back as the sender's id |
| Webhook.ExpandTemplate | src/main.rs:96-99 | The downloader's `%(ext)s` expansion leaves a template without '%' unchanged |
| Webhook.ProducedPath | src/main.rs:100-102 | Every path the downloader writes starts with `/tmp/`; for the handler's own template it is `/tmp/{video_name}.{ext}` (see `ProducedPathOfTemplate`) |
| Webhook.Handle | src/main.rs:40-155 | An undecodable update or a sender that is not allow-listed gets no call, `(200, "Ok")` and no file change; every request ends in `(200, "Ok")` or a panic |
| Webhook.Respond | src/main.rs:63-155 | An admitted update always makes a call or panics; for "/start" the first call is "Hello!" to the sender, and its failure panics |
| Webhook.ReplyAndReturn | src/main.rs:73-81 | A reply is one send to the chat with `/tmp` unchanged, and the answer is `(200, "Ok")` exactly when the send succeeds |
| Webhook.Route | src/main.rs:70-93 | URL parsing always makes a call or panics, and a download follows only a parsed URL whose host contains "reddit.com" |
| Webhook.Fetch | src/main.rs:95-119 | Once the downloader is built, the first call is the download of the URL with template `{video_name}.%(ext)s`; without a download result `/tmp` is unchanged, a failed download being taken to write nothing (see Left out) |
| Webhook.Deliver | src/main.rs:121-154 | Delivery starts by listing `/tmp` and at most removes `/tmp/{video_name}.mp4` |
| Webhook.HandleStartReturns | src/main.rs:63-68 | The corrected handler answers an authorised "/start" with "Hello!" alone (then `Abort` if it fails) and behaves as `Handle` for every other text |
| Webhook.World.constructor | src/main.rs:40-47 | A world starts with an empty trace and the given files, failing calls and downloader |
| Webhook.World.SendMessage | src/api/telegram.rs:35-45 | Sending a text appends exactly that call to the trace; the result is false exactly when the call fails |
| Webhook.World.Download | src/main.rs:101-105 | Downloading appends the call; on success the expanded template names the new file in `/tmp` with the downloaded size |
| Webhook.World.ListDir | src/main.rs:124-127 | Listing `/tmp` appends the call and reports only success or failure |
| Webhook.World.Open | src/main.rs:132-136 | Opening appends the call and gives the file's size, or None when the file is missing or opening fails |
| Webhook.World.Remove | src/main.rs:144-146 | Removing appends the call and, on success, deletes exactly that path from `/tmp` |
| Webhook.World.SendVideo | src/api/telegram.rs:47-76 | Uploading appends exactly that call; the result is false exactly when the upload fails |
| Webhook.World.Abort | src/main.rs:67 | A panic appends `Abort` and ends in `Panicked` |
| Webhook.GetVideo | src/main.rs:40-155 | The handler leaves exactly the trace, completion and `/tmp` contents that `Handle` gives for the world it started in |
| Webhook.Answer | src/main.rs:63-155 | Answering an admitted update behaves as `Respond` |
| Webhook.Greet | src/main.rs:63-71 | "/start" sends the greeting, panics if that fails, and then parses the URL, as `Respond` |
| Webhook.Reply | src/main.rs:73-81 | A reply followed by a return: one send, then `(200, "Ok")` or a panic if the send fails |
| Webhook.RouteUrl | src/main.rs:70-93 | URL parsing and the host check behave as `Route` |
| Webhook.FetchVideo | src/main.rs:95-119 | Building the downloader and downloading behave as `Fetch` |
| Webhook.DeliverVideo | src/main.rs:121-154 | Listing, opening and the size gate behave as `Deliver` |
| WebhookProperties.SilentUnlessAdmitted | src/main.rs:49-61 | A body that does not decode, or a sender whose id rendering differs from `PERSONAL_ID`, gets no outbound call, `(200, "Ok")`, and no file change, so repeating it gives the same outcome |
| WebhookProperties.SilentIffRefused | src/main.rs:49-93 | The trace is empty exactly when the request is refused; an admitted request always calls out or panics |
| WebhookProperties.OneSenderPerPersonalId | src/main.rs:59 | A configured id admits at most one sender |
| WebhookProperties.NonCanonicalPersonalIdAdmitsNobody | src/main.rs:59-61 | A configured id such as "+7" or "007" admits nobody, so every request is silent |
| WebhookProperties.StartGreetsThenParses | src/main.rs:63-71 | "/start" first sends "Hello!" to the sender; if that succeeds, control goes on to URL parsing of the same text; if it fails, the handler panics |
| WebhookProperties.HandleAtRoute | src/main.rs:63-71 | Past the checks, the handler is the optional greeting followed by URL parsing |
| WebhookProperties.RepliedOnce | src/main.rs:70-93 | When URL parsing ends in a reply, that reply is sent once, nothing is downloaded or opened, and `/tmp` is unchanged |
| WebhookProperties.InvalidUrlIsReported | src/main.rs:70-81 | Text that does not parse gets exactly one "Please send a valid URL", no download, no file use, and `(200, "Ok")` unless that send fails |
| WebhookProperties.ForeignHostIsReported | src/main.rs:84-93 | A host without "reddit.com" gets exactly one "Please send a valid reddit post" and no download |
| WebhookProperties.HostlessUrlPanics | src/main.rs:85 | A parsed URL without a host panics at the unwrap, before any download |
| WebhookProperties.SubstringHostsPass | src/main.rs:85 | Any host containing "reddit.com" passes, including "notreddit.com.evil.example" |
| WebhookProperties.DownloadOnlyForRedditHosts | src/main.rs:84-105 | A download happens only for an admitted sender, past the greeting, with a host containing "reddit.com", after the downloader was built |
| WebhookProperties.HandleAtDownload | src/main.rs:63-105 | Past the checks, the trace is the optional greeting followed by the download stage |
| WebhookProperties.FailedDownloadIsReported | src/main.rs:105-118 | A failed download gets exactly one "Failed to download video" and `/tmp` is unchanged, a failed download being taken to write nothing (see Left out) |
| WebhookProperties.FailedDownloadTouchesNoFile | src/main.rs:105-118 | After a failed download nothing is opened, removed or uploaded |
| WebhookProperties.ExpandKeepsPlainPrefix | src/main.rs:96-99 | A prefix without '%' passes through the expansion unchanged, whatever template follows it |
| WebhookProperties.ProducedPathOfTemplate | src/main.rs:95-102 | The template `{video_name}.%(ext)s` run in `/tmp` writes `/tmp/{video_name}.{ext}` |
| WebhookProperties.ProducedIsOpenedIffMp4 | src/main.rs:96-134 | The downloaded file is the file the handler opens exactly when the extension is "mp4" |
| WebhookProperties.HandleAtDeliver | src/main.rs:95-154 | After a successful download, the trace is the optional greeting, the download, and delivery over `/tmp` with the new file |
| WebhookProperties.MissingVideoPanicsAtOpen | src/main.rs:124-134 | When `/tmp/{video_name}.mp4` is missing, delivery panics at the open (or earlier, at the listing) with no reply, removal or upload |
| WebhookProperties.OtherExtensionPanicsAtOpen | src/main.rs:121-134 | When no `/tmp/{video_name}.mp4` existed before, a download in another container panics when that path is opened (or earlier, at the listing); nothing is removed or uploaded |
| WebhookProperties.OversizedIsRemoved | src/main.rs:129-148 | Over 50_000_000 bytes: one "Video is too large to send", no upload, a removal of the path if the reply went out, and the file gone if all succeeds |
| WebhookProperties.WithinLimitIsUploaded | src/main.rs:137-154 | At most 50_000_000 bytes (the limit included): exactly one upload of the path to the chat, no removal or reply, and the file stays |
| WebhookProperties.DownloadedMp4MeetsSizeGate | src/main.rs:95-154 | End to end with no failing call: the trace ends with the "too large" reply and the removal, or with the upload, according to the downloaded size; the file stays only in the second case |
| WebhookProperties.PrependEndsWell | src/main.rs:40-155 | Prefixing calls that are not panics keeps a well-ended trace well ended |
| WebhookProperties.DeliverEndsWell | src/main.rs:121-154 | Delivery ends with `Abort` exactly on a panic and otherwise answers `(200, "Ok")` |
| WebhookProperties.FetchEndsWell | src/main.rs:95-154 | The same holds from building the downloader on |
| WebhookProperties.StagesEndWell | src/main.rs:70-154 | The same holds from URL parsing on |
| WebhookProperties.AbortEndsTrace | src/main.rs:40-155 | `Abort` occurs only as the last effect and exactly on a panic; a handler that does not panic answers `(200, "Ok")` |
| WebhookProperties.DeliverKeepsTrack | src/main.rs:132-154 | The delivery stage talks only to the chat, uses only `/tmp/{video_name}.mp4`, and never both removes and uploads |
| WebhookProperties.RouteKeepsTrack | src/main.rs:70-154 | The same holds from URL parsing on |
| WebhookProperties.HandleKeepsTrack | src/main.rs:40-155 | The same holds for the whole handler of an admitted request |
| WebhookProperties.RepliesGoToSender | src/main.rs:65-150 | Every reply and upload goes to the sender's id |
| WebhookProperties.OnePathForTheVideo | src/main.rs:132-150 | Open, remove and upload all use `/tmp/{video_name}.mp4` |
| WebhookProperties.RemoveOrUploadNotBoth | src/main.rs:137-154 | A video is never both removed and uploaded |
| WebhookProperties.StartAlsoGetsInvalidUrlReply | src/main.rs:63-81 | As written, an authorised "/start" that `Url::parse` rejects gets "Hello!" and then "Please send a valid URL" |
| WebhookProperties.StartGetsOnlyTheGreeting | src/main.rs:63-68 | With a return after the greeting, "/start" gets only "Hello!" (or a panic), with no download and no file use |
| WebhookProperties.StartReturnsChangesNothingElse | src/main.rs:63-68 | The return after the greeting changes nothing for any other request |
| Logging.ToLevelFilter | src/logging.rs:15 | `to_level_filter` keeps the level's rank and is never `Off` |
| Logging.NewLogger | src/logging.rs:24-30 | The producer is "reddit-save-bot:{version}" and the report type is the Error Reporting event type |
| Logging.NewLoggerFilter | src/logging.rs:12-22 | An explicit level gives its own filter; without one, silent `Some(true)` gives Error and `None` or `Some(false)` gives Trace |
| Logging.NewLoggerEnablesError | src/logging.rs:12-22 | A logger built by `new` never has filter `Off`, so Error always passes |
| Logging.ExplicitLevelEnables | src/logging.rs:13-15 | With an explicit level, exactly that level and the more severe ones pass |
| Logging.Enabled | src/logging.rs:45-47 | Filter `Off` enables nothing, `Trace` enables everything, and Error passes exactly when the filter is not `Off` |
| Logging.EnabledMonotone | src/logging.rs:45-47 | If a level passes, every more severe level passes |
| Logging.StricterFilterEnablesLess | src/logging.rs:45-47 | A lower filter enables a subset of the levels a higher one enables |
| Logging.GcSeverity | src/logging.rs:33-41 | The severity is one of Error, Warning, Info, Debug, and it is Error exactly for level Error |
| Logging.GcSeverityMonotone | src/logging.rs:33-41 | A more severe level never maps to a lower severity |
| Logging.GcSeverityCollision | src/logging.rs:33-41 | Two levels share a severity exactly when they are equal or are Debug and Trace: the map is not injective |
| Logging.LogEntry | src/logging.rs:49-79 | An entry exists exactly when the level is enabled. It carries the mapped severity and the args text. `report_type` is present exactly for level Error. The operation id and `trace` are both the target. A missing file is "" and a missing line is "0" |
| Logging.LoggedLineDenotesRecordLine | src/logging.rs:72-75 | The line in an entry is the decimal text of the record's line (0 when unknown) |
| Logging.LoggedLinesDistinguishRecords | src/logging.rs:72-75 | Records with different lines produce different source locations |

## Left out

- The axum server, routing, port parsing and the static page (src/main.rs:19-38) are HTTP plumbing.
- Reading `TELEGRAM_BOT_TOKEN` and `PERSONAL_ID` (src/main.rs:42-43): `personalId` is a parameter. The token only builds request URLs. The panic when a variable is missing is not modelled.
- The axum `Json` extractor (src/main.rs:40) answers a body that is not JSON, or has the wrong content type, with a 4xx before `get_video` runs. The model starts after it.
- `serde_json::from_value` (src/main.rs:49) and `Url::parse` (src/main.rs:71) are libraries. Their results are inputs: an optional `Update`, and an optional URL with an optional host.
- The prints in `get_video` are output and are not modelled: `println!` of an undecodable body (src/main.rs:52), `eprintln!` of the download error (src/main.rs:116), and `println!` of the download result (src/main.rs:121) and of the `/tmp` listing (src/main.rs:127).
- `Uuid::new_v4` (src/main.rs:95) is randomness: `videoName` is an input. Uniqueness across concurrent requests is not modelled.
- The downloader (src/main.rs:101-105) is reduced to whether `YoutubeDL::new` succeeds and which extension and size `download` produces. Its command line and its own output are not modelled.
- Webhook.Fetch: a failed download is taken to leave `/tmp` as it was. youtube-dl can leave partial files (`.part`, or the `{video_name}.fNNN.*` format files of a failed merge), which the handler never removes. The model promises only that the handler itself removes and writes nothing on that path.
- WebhookProperties.FailedDownloadIsReported: its "`/tmp` is unchanged" rests on the same assumption, that a failed download writes nothing.
- `File::open` and `metadata` (src/main.rs:132-136) are one `Open` effect. A failure of either panics in the same way.
- The contents of the `read_dir` listing (src/main.rs:124-127) are not modelled. The handler only prints it, so only its success matters.
- `TelegramAPI::send_message`/`send_video` (src/api/telegram.rs:35-76) are HTTP requests. Their outcome is whether the call is in the world's failing set.
- The timestamp, JSON serialisation and `println!` of `Log::log` (src/logging.rs:66, 80-83) are clock and output.
- `Logging.LogEntry`: only the operation's id and producer are modelled, and only the source location's file and line. The other fields `..Default::default()` fills are not.
- `set_up_logger` (src/logging.rs:89-93) sets process-global state: it registers a `Logger::new(None, None)`, whose filter is Trace, and sets the global maximum to Info.
- Concurrency between webhook tasks sharing `/tmp` is async scheduling, not sequential logic.
- Integer widths: ids are `i64` and lines `u32` as subset types. Sizes are unbounded naturals, because the `u64` size is only compared with the limit.

## Findings

| source | as written | input that shows it | evidently intended | confidence | as-written member | corrected member |
|---|---|---|---|---|---|---|
| src/main.rs:63-81 | After the "/start" greeting the handler does not return, and goes on to `Url::parse("/start")`. That call rejects the text, because it is a relative reference with no base. | An update from the allow-listed id with text "/start" | Only the greeting "Hello!" | high, not executed | WebhookProperties.StartAlsoGetsInvalidUrlReply | WebhookProperties.StartGetsOnlyTheGreeting |

The corrected handler is `Webhook.HandleStartReturns`.
`WebhookProperties.StartReturnsChangesNothingElse` shows that it differs
from `Handle` only for an authorised "/start". The rest of the model keeps
the behaviour as written.
