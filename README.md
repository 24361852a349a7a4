# Douyin link parser plugin, modelled in Dafny

This project models the message handler of the `DouyinParser` plugin: a chat-bot plugin that spots a
short-video link (xhslink.com, douyin.com or kuaishou.com) in a text message, has an external resolver
turn it into a watermark-free video URL with title, author and cover, and replies to the chat. The reply
is either one link card or a text followed by a video. Failures get a one-line error text.

The model is pure. Settings, messages, resolver records and outbound calls are values. One invocation of
the handler is a function from the settings, the message, the resolver and the transport to a `Run`: how
the coroutine ends, plus the ordered list of calls it makes.

- `base.dfy` (`Base`): `Option`, `Result`, Python's `dict.get` and `s[:n]`.
- `toml.dfy` (`Toml`): the values `tomllib` produces and their Python truthiness.
- `config.dfy` (`Config`): the constructor. The four settings come from the optional `basic` table.
- `url_pattern.dfy` (`UrlPattern`): the fixed pattern `https?://(.*?(xhslink\.com|douyin\.com|kuaishou\.com)/.*)`
  with `re.search` and `group(0)`. `MatchesAt` is a declarative statement of when the pattern matches at
  a position. `Search` is the executable leftmost search, proved against `MatchesAt`.
- `reply.dfy` (`Reply`): the calls on the bot client, the planned reply, the sending of that plan with
  sends that may raise, the `try` block, and the error replies.
- `handler.dfy` (`Handler`): the trigger decision, the `try` statement once a URL is extracted (`Respond`), and the whole invocation, with lemmas for each path.

Where the code's behaviour differs from what a reader might expect of the plugin, the model follows the code:

- Each of `enable`, `is_auto_parse` and `is_auto_pack` holds the value the TOML file gives, and the handler
  tests it for truthiness.
  `enable = 0` disables the plugin; `enable = "false"` does not.
- The domain list is fixed in the pattern. It is not a configurable allow-list.
- A resolver exception other than `DouyinParserError` is reported with `str(e)`, or `未知错误` when the
  text is empty.
- The handler is meant never to raise to the host. In the code, the usage reply and the error replies
  are sent outside any `try`, so a failing send there propagates (`Return.Propagates`).
- The plugin is meant to survive a bad configuration file. The code's constructor can fail; see
  "## Findings".

## Model

| member | source | states |
|---|---|---|
| `Base.Get` | main.py:89-92 | `d.get(key, default)` is the key's value when present and the default otherwise (also the `.get` calls at main.py:37-41) |
| `Toml.Truthy` | main.py:55 | exactly six values are falsy: `false`, `0`, `0.0`, `""`, `[]` and `{}`; the same test is used at main.py:74 and main.py:98 |
| `Base.Slice` | main.py:103 | `s[:n]` has length `min(|s|, n)` and is a prefix of `s` |
| `Config.InitAsWritten` | main.py:32-48 | construction fails exactly for a non-UTF-8 file or a `basic` value that is not a table; an OS or TOML decode error gives the defaults |
| `Config.Init` | main.py:37-48 | corrected constructor: a load failure, a missing `basic` or a non-table `basic` gives `True, True, True, None` |
| `Config.FromBasic` | main.py:37-41 | an empty `basic` table gives the defaults |
| `Config.InitFields` | main.py:37-41 | each setting is its key's value when present, else its default; `http_proxy` defaults to `None` |
| `Config.OverrideIsLocal` | main.py:38-41 | adding or changing one key of `basic` changes only that key's setting |
| `Config.InitAgreesWithAsWritten` | main.py:32-48 | wherever the written constructor succeeds, the corrected one gives the same settings |
| `Config.NonTableBasicBreaksConstruction` | main.py:37-38 | `basic = 1` makes the written constructor raise AttributeError; the corrected one gives the defaults |
| `Config.NonUtf8FileBreaksConstruction` | main.py:32-43 | a non-UTF-8 file makes the written constructor raise UnicodeDecodeError; the corrected one gives the defaults |
| `UrlPattern.SchemeEndExact` | main.py:28 | `http://` and `https://` exclude each other, so the scheme ends at exactly one place |
| `UrlPattern.LineEnd` | main.py:28 | the result is the first line feed at or after the position, or the end of the text |
| `UrlPattern.FindDomain` | main.py:28 | true iff a domain followed by `/` starts in the given range |
| `UrlPattern.MatchesAtIff` | main.py:28 | the declarative match condition holds iff the scheme is followed by a domain and `/` on the rest of its line |
| `UrlPattern.MatchAt` | main.py:28 | the executable test agrees with the declarative match condition |
| `UrlPattern.SearchFrom` | main.py:64 | returns the leftmost matching start at or after `i`, or none when no start matches |
| `UrlPattern.Search` | main.py:64 | no result iff no position matches; otherwise the leftmost matching start, with the match ending at that line's end |
| `UrlPattern.SearchUrl` | main.py:72 | `group(0)` exists exactly when the search succeeds |
| `UrlPattern.ExtractedUrlShape` | main.py:28 | an extracted URL is a substring of the message, starts with `http://` or `https://`, contains a domain followed by `/`, and has no line feed |
| `Reply.PackedTitle` | main.py:103 | card title is at most 43 characters; with an author it is `title[:30]`, then `" - "`, then `author[:10]`; without one it is `title[:40]` |
| `Reply.PackedTitleShortKeptWhole` | main.py:103 | a 23-character title with a 3-character author: both are kept whole |
| `Reply.PackedTitleTruncates` | main.py:103 | a 35-character title is cut to 30 characters with an author and kept whole (under 40) without one |
| `Reply.PackedTitleCats` | main.py:103 | title "Cats" by "Alice" gives "Cats - Alice" |
| `Reply.IsFalsy` | main.py:85 | `not video_info` holds exactly for `None` and the empty dict |
| `Reply.InfoText` | main.py:109 | the text is `标题：`, the title, a line feed and `作者：`, then the author, with nothing cut |
| `Reply.PlanReply` | main.py:85-111 | fails iff the record is falsy (`无法获取视频信息`) or has no video (`无法获取视频地址`); otherwise plans one send when packed and two when unpacked, all to the chat |
| `Reply.CatsPacked` | main.py:98-106 | a record with title `Cats`, author `Alice`, a video and a cover, packed: one link card with the video URL, "Cats - Alice", the fixed caption and the cover |
| `Reply.CatsUnpacked` | main.py:107-111 | the same `Cats` record, unpacked: text `标题：Cats\n作者：Alice`, then the video |
| `Reply.EmptyVideoFails` | main.py:94-95 | an empty `video` field raises `无法获取视频地址` in either mode |
| `Reply.Deliver` | main.py:100-111 | sends are attempted in plan order and stop at the first that raises; the attempted sends are a prefix of the plan; nothing is raised iff every planned send was delivered |
| `Reply.TryBlock` | main.py:82-113 | a resolver exception is caught before any send; sends happen only for a usable record, and they are a prefix of the plan |
| `Reply.FailureMessage` | main.py:116-123 | the error message is never empty: `str(e)`, else `解析失败` for DouyinParserError and `未知错误` for other exceptions |
| `Reply.ErrorReply` | main.py:115-128 | one text to the chat, `视频解析失败: ` plus the message; in a group it adds a line feed and mentions the sender, elsewhere `at` is not passed |
| `Handler.Decide` | main.py:55-80 | disabled iff `enable` is falsy; usage error iff the command has no link; ignore iff there is no command and auto-parse is off or no link matches; resolve otherwise, with the `group(0)` URL |
| `Handler.Handle` | main.py:53-128 | returns True iff `enable` is falsy; every send goes to the message's chat; a resolving message runs `Respond` with the extracted URL, and any other makes no resolver call |
| `Handler.Respond` | main.py:82-128 | the resolver is called first with the URL; every later call is a send to the chat; it never returns True |
| `Handler.DisabledIsInert` | main.py:55-56 | disabled: returns True with no call at all |
| `Handler.CommandWithoutLink` | main.py:63-71 | command without a link: no resolution, one usage text, `at=[sender]` in a group and `at=None` elsewhere |
| `Handler.NonCommandIgnored` | main.py:74-80 | no command, and auto-parse off or no link: no call, returns None |
| `Handler.ResolveOnlyExtractedUrl` | main.py:63-84 | over a whole invocation, the resolver is called at most once, as the first call, and only with the extracted URL |
| `Handler.ResolvedUrlShape` | main.py:72-84 | the URL handed to the resolver is a single-line substring that starts with the scheme and contains a domain followed by `/` |
| `Handler.PackedReply` | main.py:98-106 | packed, usable record: exactly one link card with the video URL, the card title (at most 43 characters), `点击观看无水印视频` and the cover; title and author default only when absent |
| `Handler.UnpackedReply` | main.py:107-111 | unpacked, usable record: the text `标题：{title}\n作者：{author}`, then the video, in that order |
| `Handler.UnusableRecordReply` | main.py:85-121 | falsy record or missing video: no link or video; one failure text naming what was missing, with line feed and mention only in groups |
| `Handler.ResolverExceptionReply` | main.py:115-128 | resolver exception: one failure text with `str(e)` or the fallback of its kind |
| `Handler.UsageReply` | main.py:66-70 | one text to the chat with `请在命令后附带抖音链接`; `at=[sender]` in a group, `at=None` elsewhere |
| `Handler.FailedSendReported` | main.py:98-128 | when the first send inside the `try` raises, the run is resolve, that planned send (the link card if packed, the info text if not), then the failure text |
| `Handler.VideoSendFailedReported` | main.py:108-128 | unpacked, text delivered and video send raising: the run is resolve, text, video, then the failure text, and the handler ends as that last send does |

## Left out

- Reading `config.toml` (`open`, `tomllib.load`, main.py:31-34): file I/O. The outcome of the read is the input `LoadOutcome`.
- TOML floats are reals; `nan` and `inf` are not represented.
- `_parse_douyin`, `aiohttp` and the use of `http_proxy`: the resolver's body is not part of this model. It is the oracle
  `resolve`, which returns `None`, a dict, or raises. `http_proxy` is kept in `Settings` but nothing reads it.
- Resolver records hold only string-valued fields. A truthy non-dict return value is not modelled: it raises
  AttributeError at main.py:89. Non-string fields are not modelled either: such a field is formatted (main.py:109)
  or passed on to the send unchanged (main.py:100-111), and only packed mode slices title and author (main.py:103).
- `WechatAPIClient`: foreign transport. Its calls are `Action` values, and each call's outcome comes from the oracle
  `transport`. The client's default for an omitted `at` is unknown, so it stays `AtOmitted`.
- `async`/`await`, the `@on_text_message(priority=80)` registration and `PluginBase`: these are host dispatch and cooperative
  concurrency. Cancellation (`asyncio.CancelledError`, which `except Exception` does not catch) is not modelled.
- Messages missing `Content`, `SenderWxid`, `FromWxid` or `IsGroup` (a KeyError outside the `try`) are not modelled;
  `IsGroup` is a boolean.
- `loguru` logging (main.py:44, 50, 113, 117, 124) and the empty `async_init` (main.py:130-134): they have no effect on
  replies.
- General regular expressions: only the plugin's one fixed pattern is modelled.

## Findings

| source | as written | input that shows it | evidently intended | confidence | as-written member | corrected member |
|---|---|---|---|---|---|---|
| main.py:37 | `config.get("basic", {})` is followed by `.get`, and the AttributeError it raises on a non-table value is outside the `except` list | `config.toml` containing `basic = 1` | construction never fails on bad configuration; fall back to the defaults | medium; not executed | `Config.NonTableBasicBreaksConstruction` | `Config.Init` |
| main.py:43 | `except (OSError, tomllib.TOMLDecodeError)` does not catch the UnicodeDecodeError that `tomllib.load` raises for non-UTF-8 bytes | `config.toml` holding the byte 0xFF | the same fallback to the defaults as for a read or parse failure | medium; not executed | `Config.NonUtf8FileBreaksConstruction` | `Config.Init` |
