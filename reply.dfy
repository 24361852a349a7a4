/** What the handler sends once a link has been extracted (main.py:82-128):
    the outbound messages, the resolver and transport as oracles, and the
    error replies. */
module Reply {
  import opened Base

  /** The `at` argument of `send_text_message`: not passed at all (the
      client's own default applies), passed as `None`, or a list of wxids. */
  datatype At = AtOmitted | AtNone | AtList(wxids: seq<string>)

  /** One call of the bot client's send API. */
  datatype Action =
    | SendText(wxid: string, content: string, at: At)
    | SendLink(wxid: string, url: string, title: string, description: string, thumbUrl: string)
    | SendVideo(wxid: string, videoUrl: string)

  /** The record the resolver returns; only string-valued fields are modelled. */
  type VideoInfo = map<string, string>

  /** An exception: whether it is a DouyinParserError, and `str(e)`. */
  datatype ExcKind = DouyinParserError | OtherException
  datatype Exception = Exception(kind: ExcKind, text: string)

  /** What awaiting `_parse_douyin(url)` gives: a value (`None` or a dict), or
      an exception. */
  datatype ResolverOutcome = Returned(info: Option<VideoInfo>) | Raised(exc: Exception)

  /** What awaiting one send gives; a raised send carries `str(e)`. */
  datatype SendResult = Delivered | SendRaised(text: string)

  const DefaultTitle: string := "无标题"
  const DefaultAuthor: string := "未知作者"
  const NoInfoText: string := "无法获取视频信息"
  const NoVideoText: string := "无法获取视频地址"
  const LinkDescription: string := "点击观看无水印视频"
  const FailurePrefix: string := "视频解析失败: "
  const ParserFallback: string := "解析失败"
  const UnknownFallback: string := "未知错误"

  /** `if not video_info`: `None` and the empty dict are falsy. */
  predicate IsFalsy(info: Option<VideoInfo>)
    ensures IsFalsy(info) <==> info == None || info == Some(map[])
  {
    info.None? || info.value == map[]
  }

  /** The link-card title: `title[:30] + " - " + author[:10]` when the author
      is non-empty, else `title[:40]`. */
  function PackedTitle(title: string, author: string): (t: string)
    ensures |t| <= 43
    ensures author == "" ==> t <= title && |t| == Min(|title|, 40)
    ensures author != "" ==> var n := Min(|title|, 30);
      && |t| == n + 3 + Min(|author|, 10)
      && t[..n] <= title
      && t[n..n + 3] == " - "
      && t[n + 3..] <= author
  {
    if author != "" then Slice(title, 30) + " - " + Slice(author, 10) else Slice(title, 40)
  }

  /** The text of the unpacked reply: the title line, then the author line. */
  function InfoText(title: string, author: string): (r: string)
    ensures |r| == 3 + |title| + 4 + |author|
    ensures r[..3] == "标题：" && r[3..3 + |title|] == title
    ensures r[3 + |title|..7 + |title|] == "\n作者：" && r[7 + |title|..] == author
  {
    "标题：" + title + "\n作者：" + author
  }

  /** The sends the try block plans from the resolver's record, or the
      message of the DouyinParserError it raises before sending anything. */
  function PlanReply(info: Option<VideoInfo>, pack: bool, chatId: string): (r: Result<seq<Action>, string>)
    ensures r.Failure? <==> IsFalsy(info) || Get(info.value, "video", "") == ""
    ensures r.Failure? ==> r.error == if IsFalsy(info) then NoInfoText else NoVideoText
    ensures r.Success? ==> |r.value| == (if pack then 1 else 2)
    ensures r.Success? ==> forall a | a in r.value :: a.wxid == chatId
  {
    if IsFalsy(info) then Failure(NoInfoText)
    else
      var record := info.value;
      var video := Get(record, "video", "");
      var title := Get(record, "title", DefaultTitle);
      var author := Get(record, "name", DefaultAuthor);
      var cover := Get(record, "cover", "");
      if video == "" then Failure(NoVideoText)
      else if pack then Success([SendLink(chatId, video, PackedTitle(title, author), LinkDescription, cover)])
      else Success([SendText(chatId, InfoText(title, author), AtOmitted), SendVideo(chatId, video)])
  }

  /** Sending a planned sequence in order: the sends attempted, and the text of
      the exception that stopped it, if one did. */
  datatype Delivery = Delivery(attempted: seq<Action>, raised: Option<string>)

  /** Awaits the planned sends one after another; `transport(k)` is the
      outcome of the `k`-th send of this invocation, and the first send here
      is number `k0`. */
  function Deliver(planned: seq<Action>, transport: nat -> SendResult, k0: nat): (d: Delivery)
    ensures d.attempted <= planned
    ensures d.raised.None? <==> d.attempted == planned && forall k | k0 <= k < k0 + |planned| :: transport(k).Delivered?
    ensures d.raised.Some? ==> && 1 <= |d.attempted|
                               && transport(k0 + |d.attempted| - 1) == SendRaised(d.raised.value)
                               && forall k | k0 <= k < k0 + |d.attempted| - 1 :: transport(k).Delivered?
    decreases |planned|
  {
    if planned == [] then Delivery([], None)
    else match transport(k0)
      case SendRaised(text) => Delivery([planned[0]], Some(text))
      case Delivered =>
        var rest := Deliver(planned[1..], transport, k0 + 1);
        Delivery([planned[0]] + rest.attempted, rest.raised)
  }

  /** What the try block did: the sends it attempted, and the exception it
      caught, if any. */
  datatype Attempt = Attempt(sent: seq<Action>, caught: Option<Exception>)

  /** The body of the `try` (main.py:82-113). */
  function TryBlock(outcome: ResolverOutcome, pack: bool, chatId: string, transport: nat -> SendResult): (a: Attempt)
    ensures outcome.Raised? ==> a == Attempt([], Some(outcome.exc))
    ensures a.sent != [] ==> outcome.Returned? && PlanReply(outcome.info, pack, chatId).Success?
    ensures a.sent <= (if outcome.Returned? && PlanReply(outcome.info, pack, chatId).Success?
                       then PlanReply(outcome.info, pack, chatId).value else [])
  {
    match outcome
    case Raised(e) => Attempt([], Some(e))
    case Returned(info) =>
      match PlanReply(info, pack, chatId)
      case Failure(text) => Attempt([], Some(Exception(DouyinParserError, text)))
      case Success(plan) =>
        var d := Deliver(plan, transport, 0);
        Attempt(d.attempted, if d.raised.Some? then Some(Exception(OtherException, d.raised.value)) else None)
  }

  /** `error_msg`: `str(e)`, or the fallback of its `except` clause when that is empty. */
  function FailureMessage(e: Exception): (m: string)
    ensures m != ""
    ensures e.text != "" ==> m == e.text
    ensures e.text == "" && e.kind == DouyinParserError ==> m == ParserFallback
    ensures e.text == "" && e.kind == OtherException ==> m == UnknownFallback
  {
    if e.text != "" then e.text
    else match e.kind
      case DouyinParserError => ParserFallback
      case OtherException => UnknownFallback
  }

  /** The one error reply of both `except` clauses: in a group chat it ends
      with a line feed and mentions the sender, elsewhere neither. */
  function ErrorReply(e: Exception, chatId: string, sender: string, isGroup: bool): (a: Action)
    ensures a.SendText? && a.wxid == chatId
    ensures a.at == if isGroup then AtList([sender]) else AtOmitted
    ensures var m, n := FailureMessage(e), |FailurePrefix|;
      && |a.content| == n + |m| + (if isGroup then 1 else 0)
      && a.content[..n] == FailurePrefix
      && a.content[n..n + |m|] == m
      && (isGroup ==> a.content[n + |m|] == '\n')
  {
    if isGroup then SendText(chatId, FailurePrefix + FailureMessage(e) + "\n", AtList([sender]))
    else SendText(chatId, FailurePrefix + FailureMessage(e), AtOmitted)
  }

  /** A 23-character title is under the 30 kept, so it and a 3-character
      author both appear whole. */
  lemma PackedTitleShortKeptWhole()
    ensures var title := "这是一个很长很长很长很长很长很长很长很长的标题";
      |title| == 23 && PackedTitle(title, "某作者") == title + " - 某作者"
  {
  }

  /** With a 35-character title, only its first 30 characters are kept;
      without an author, the first 40. */
  lemma PackedTitleTruncates()
    ensures var title := "一二三四五六七八九十一二三四五六七八九十一二三四五六七八九十一二三四五";
      && PackedTitle(title, "作者") == "一二三四五六七八九十一二三四五六七八九十一二三四五六七八九十 - 作者"
      && PackedTitle(title, "") == title
  {
  }

  /** Title "Cats" by "Alice" gives the card title "Cats - Alice". */
  lemma PackedTitleCats()
    ensures PackedTitle("Cats", "Alice") == "Cats - Alice"
  {
  }

  /** A record with title "Cats", author "Alice", a video and a cover. */
  const CatsRecord: VideoInfo :=
    map["video" := "https://v.example/x.mp4", "title" := "Cats", "name" := "Alice", "cover" := "https://c.example/1.jpg"]

  /** Packed, the Cats record gives one card titled "Cats - Alice" with the caption. */
  lemma CatsPacked(chatId: string)
    ensures PlanReply(Some(CatsRecord), true, chatId) ==
      Success([SendLink(chatId, "https://v.example/x.mp4", "Cats - Alice", "点击观看无水印视频", "https://c.example/1.jpg")])
  {
    CatsFields();
    PackedTitleCats();
  }

  lemma CatsFields()
    ensures !IsFalsy(Some(CatsRecord))
    ensures Get(CatsRecord, "video", "") == "https://v.example/x.mp4"
    ensures Get(CatsRecord, "title", DefaultTitle) == "Cats"
    ensures Get(CatsRecord, "name", DefaultAuthor) == "Alice"
    ensures Get(CatsRecord, "cover", "") == "https://c.example/1.jpg"
  {
    assert "video" in CatsRecord;
  }

  /** Unpacked, the Cats record gives the text, then the video. */
  lemma CatsUnpacked(chatId: string)
    ensures PlanReply(Some(CatsRecord), false, chatId) ==
      Success([SendText(chatId, "标题：Cats\n作者：Alice", AtOmitted), SendVideo(chatId, "https://v.example/x.mp4")])
  {
    CatsFields();
    assert InfoText("Cats", "Alice") == "标题：Cats\n作者：Alice";
  }

  /** A record whose video field is empty raises "无法获取视频地址". */
  lemma EmptyVideoFails(pack: bool, chatId: string)
    ensures PlanReply(Some(CatsRecord["video" := ""]), pack, chatId) == Failure("无法获取视频地址")
  {
    var record := CatsRecord["video" := ""];
    assert "video" in record && record["video"] == "";
  }
}
