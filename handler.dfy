/** `DouyinParser.handle_douyin_links` (main.py:53-128): the decision whether
    a text message triggers a resolution, and the run of one invocation as
    the ordered calls it makes on the resolver and the bot client. */
module Handler {
  import opened Base
  import opened Toml
  import opened Config
  import opened UrlPattern
  import opened Reply

  const CommandPrefix: string := "抖音解析"
  const UsageText: string := "请在命令后附带抖音链接"

  /** The fields of the incoming message the handler reads. */
  datatype Message = Message(content: string, senderWxid: string, fromWxid: string, isGroup: bool)

  /** How the handler proceeds before any resolution. */
  datatype Decision =
    | Disabled           // `return True` at once
    | UsageError         // the command without a link: the usage reply
    | Ignore             // return without a reply
    | Resolve(url: string)

  /** The branches of main.py:55-80. */
  function Decide(cfg: Settings, content: string): (d: Decision)
    ensures d == Disabled <==> !Truthy(cfg.enable)
    ensures d == UsageError <==> Truthy(cfg.enable) && CommandPrefix <= content && SearchUrl(content).None?
    ensures d == Ignore <==>
      Truthy(cfg.enable) && !(CommandPrefix <= content) && (!Truthy(cfg.isAutoParse) || SearchUrl(content).None?)
    ensures d.Resolve? <==>
      Truthy(cfg.enable) && (CommandPrefix <= content || Truthy(cfg.isAutoParse)) && SearchUrl(content).Some?
    ensures d.Resolve? ==> SearchUrl(content) == Some(d.url)
  {
    if !Truthy(cfg.enable) then Disabled
    else if CommandPrefix <= content then
      match SearchUrl(content)
      case None => UsageError
      case Some(url) => Resolve(url)
    else if Truthy(cfg.isAutoParse) then
      match SearchUrl(content)
      case None => Ignore
      case Some(url) => Resolve(url)
    else Ignore
  }

  /** An outside call the handler makes, in the order it awaits them. */
  datatype Event = ResolveCall(url: string) | Send(action: Action)

  /** How the coroutine ends: `return True`, `None`, or an exception
      leaving the handler. */
  datatype Return = ReturnTrue | ReturnNone | Propagates(text: string)

  datatype Run = Run(ret: Return, trace: seq<Event>)

  function Sends(actions: seq<Action>): (evs: seq<Event>)
    ensures |evs| == |actions|
    ensures forall i | 0 <= i < |actions| :: evs[i] == Send(actions[i])
  {
    seq(|actions|, i requires 0 <= i < |actions| => Send(actions[i]))
  }

  /** Awaiting a send outside every `try`: an exception leaves the handler. */
  function Await(r: SendResult): Return {
    if r.Delivered? then ReturnNone else Propagates(r.text)
  }

  /** The usage reply to the command without a link: the sender is mentioned
      in a group chat, and `at=None` is passed elsewhere. */
  function UsageReply(msg: Message): (a: Action)
    ensures a.SendText? && a.wxid == msg.fromWxid && a.content == "请在命令后附带抖音链接"
    ensures a.at == if msg.isGroup then AtList([msg.senderWxid]) else AtNone
  {
    SendText(msg.fromWxid, UsageText, if msg.isGroup then AtList([msg.senderWxid]) else AtNone)
  }

  /** One invocation of the handler. `resolve` stands for `_parse_douyin`;
      `transport(k)` is the outcome of the `k`-th send of the invocation. */
  function Handle(cfg: Settings, msg: Message, resolve: string -> ResolverOutcome, transport: nat -> SendResult): (run: Run)
    ensures run.ret == ReturnTrue <==> !Truthy(cfg.enable)
    ensures forall ev | ev in run.trace && ev.Send? :: ev.action.wxid == msg.fromWxid
    ensures match Decide(cfg, msg.content)
            case Resolve(url) => run == Respond(Truthy(cfg.isAutoPack), msg, url, resolve, transport)
            case _ => forall ev | ev in run.trace :: ev.Send?
  {
    match Decide(cfg, msg.content)
    case Disabled => Run(ReturnTrue, [])
    case Ignore => Run(ReturnNone, [])
    case UsageError => Run(Await(transport(0)), [Send(UsageReply(msg))])
    case Resolve(url) => Respond(Truthy(cfg.isAutoPack), msg, url, resolve, transport)
  }

  /** The `try` statement with its two `except` clauses (main.py:82-128),
      once `url` has been extracted: the resolver call, the reply, and the
      error reply when the `try` block raised. */
  function Respond(pack: bool, msg: Message, url: string, resolve: string -> ResolverOutcome, transport: nat -> SendResult): (run: Run)
    ensures 1 <= |run.trace| && run.trace[0] == ResolveCall(url)
    ensures forall k | 1 <= k < |run.trace| :: run.trace[k].Send? && run.trace[k].action.wxid == msg.fromWxid
    ensures run.ret.ReturnNone? || run.ret.Propagates?
  {
    var a := TryBlock(resolve(url), pack, msg.fromWxid, transport);
    var replies := Sends(a.sent) + if a.caught.Some? then [Send(ErrorReply(a.caught.value, msg.fromWxid, msg.senderWxid, msg.isGroup))] else [];
    var run := Run(if a.caught.Some? then Await(transport(|a.sent|)) else ReturnNone, [ResolveCall(url)] + replies);
    assert forall k | 1 <= k < |run.trace| :: run.trace[k] == replies[k - 1];
    run
  }

  lemma ErrorReplyText(e: Exception, chatId: string, sender: string, isGroup: bool)
    ensures ErrorReply(e, chatId, sender, isGroup) ==
      SendText(chatId, FailurePrefix + FailureMessage(e) + (if isGroup then "\n" else ""),
               if isGroup then AtList([sender]) else AtOmitted)
  {
    if !isGroup {
      assert FailurePrefix + FailureMessage(e) + "" == FailurePrefix + FailureMessage(e);
    }
  }

  /** A disabled plugin returns True and calls nothing. */
  lemma DisabledIsInert(cfg: Settings, msg: Message, resolve: string -> ResolverOutcome, transport: nat -> SendResult)
    requires !Truthy(cfg.enable)
    ensures Handle(cfg, msg, resolve, transport) == Run(ReturnTrue, [])
  {
  }

  /** The command without a recognisable link: no resolution, exactly the
      usage text to the chat, mentioning the sender only in a group. */
  lemma CommandWithoutLink(cfg: Settings, msg: Message, resolve: string -> ResolverOutcome, transport: nat -> SendResult)
    requires Truthy(cfg.enable) && CommandPrefix <= msg.content && SearchUrl(msg.content).None?
    ensures var run := Handle(cfg, msg, resolve, transport);
      && run.trace == [Send(SendText(msg.fromWxid, "请在命令后附带抖音链接",
                                     if msg.isGroup then AtList([msg.senderWxid]) else AtNone))]
      && run.ret == Await(transport(0))
  {
  }

  /** Without the command, a message is ignored silently when auto-parse is
      off or no link matches. */
  lemma NonCommandIgnored(cfg: Settings, msg: Message, resolve: string -> ResolverOutcome, transport: nat -> SendResult)
    requires Truthy(cfg.enable) && !(CommandPrefix <= msg.content)
    requires !Truthy(cfg.isAutoParse) || SearchUrl(msg.content).None?
    ensures Handle(cfg, msg, resolve, transport) == Run(ReturnNone, [])
  {
  }

  /** The resolver is called at most once, first, and only with the URL the
      pattern extracted; every other call is a send. */
  lemma ResolveOnlyExtractedUrl(cfg: Settings, msg: Message, resolve: string -> ResolverOutcome, transport: nat -> SendResult)
    ensures var run := Handle(cfg, msg, resolve, transport);
      forall k | 0 <= k < |run.trace| && run.trace[k].ResolveCall? ::
        k == 0 && Decide(cfg, msg.content) == Resolve(run.trace[k].url)
    ensures var run := Handle(cfg, msg, resolve, transport);
      Decide(cfg, msg.content).Resolve? ==> 1 <= |run.trace| && run.trace[0] == ResolveCall(Decide(cfg, msg.content).url)
  {
  }

  /** The URL handed to the resolver is a single-line piece of the message
      that starts with `http://` or `https://` and holds one of the three
      domains followed by `/`. */
  lemma ResolvedUrlShape(cfg: Settings, content: string)
    requires Decide(cfg, content).Resolve?
    ensures var u := Decide(cfg, content).url;
      && IsSubstring(u, content)
      && ("http://" <= u || "https://" <= u)
      && (exists j: nat :: DomainSlashAt(u, j))
      && forall k :: 0 <= k < |u| ==> u[k] != '\n'
  {
    ExtractedUrlShape(content);
  }

  /** A usable record, not yet looked at for packing. */
  predicate Usable(outcome: ResolverOutcome) {
    outcome.Returned? && !IsFalsy(outcome.info) && Get(outcome.info.value, "video", "") != ""
  }

  /** Packed mode: exactly one link card, with the video URL, the card title,
      the fixed caption and the cover. */
  lemma PackedReply(msg: Message, url: string, resolve: string -> ResolverOutcome, transport: nat -> SendResult)
    requires Usable(resolve(url)) && transport(0).Delivered?
    ensures var info := resolve(url).info.value;
      var title := PackedTitle(Get(info, "title", "无标题"), Get(info, "name", "未知作者"));
      && |title| <= 43
      && Respond(true, msg, url, resolve, transport) ==
           Run(ReturnNone, [ResolveCall(url),
                            Send(SendLink(msg.fromWxid, info["video"], title, "点击观看无水印视频", Get(info, "cover", "")))])
  {
  }

  /** Unpacked mode: the title and author text, then the video, in that order. */
  lemma UnpackedReply(msg: Message, url: string, resolve: string -> ResolverOutcome, transport: nat -> SendResult)
    requires Usable(resolve(url)) && transport(0).Delivered? && transport(1).Delivered?
    ensures var info := resolve(url).info.value;
      var title, author := Get(info, "title", "无标题"), Get(info, "name", "未知作者");
      Respond(false, msg, url, resolve, transport) ==
        Run(ReturnNone, [ResolveCall(url),
                         Send(SendText(msg.fromWxid, "标题：" + title + "\n作者：" + author, AtOmitted)),
                         Send(SendVideo(msg.fromWxid, info["video"]))])
  {
    var plan := PlanReply(resolve(url).info, false, msg.fromWxid).value;
    assert Deliver(plan[1..], transport, 1) == Delivery(plan[1..], None);
  }

  /** A falsy record or one without a video URL: no link or video is sent,
      only the one failure text naming what was missing. */
  lemma UnusableRecordReply(pack: bool, msg: Message, url: string, resolve: string -> ResolverOutcome, transport: nat -> SendResult)
    requires resolve(url).Returned? && !Usable(resolve(url))
    ensures var missing := if IsFalsy(resolve(url).info) then "无法获取视频信息" else "无法获取视频地址";
      var run := Respond(pack, msg, url, resolve, transport);
      && run.trace == [ResolveCall(url),
                       Send(SendText(msg.fromWxid, "视频解析失败: " + missing + (if msg.isGroup then "\n" else ""),
                                     if msg.isGroup then AtList([msg.senderWxid]) else AtOmitted))]
      && run.ret == Await(transport(0))
  {
    var missing := if IsFalsy(resolve(url).info) then NoInfoText else NoVideoText;
    var e := Exception(DouyinParserError, missing);
    assert TryBlock(resolve(url), pack, msg.fromWxid, transport) == Attempt([], Some(e));
    ErrorReplyText(e, msg.fromWxid, msg.senderWxid, msg.isGroup);
  }

  /** An exception from the resolver is reported once, with its text or the
      fallback of its kind. */
  lemma ResolverExceptionReply(pack: bool, msg: Message, url: string, resolve: string -> ResolverOutcome, transport: nat -> SendResult)
    requires resolve(url).Raised?
    ensures var e := resolve(url).exc;
      var text := if e.text != "" then e.text
                  else if e.kind == DouyinParserError then "解析失败" else "未知错误";
      var run := Respond(pack, msg, url, resolve, transport);
      && run.trace == [ResolveCall(url),
                       Send(SendText(msg.fromWxid, "视频解析失败: " + text + (if msg.isGroup then "\n" else ""),
                                     if msg.isGroup then AtList([msg.senderWxid]) else AtOmitted))]
      && run.ret == Await(transport(0))
  {
    var e := resolve(url).exc;
    assert TryBlock(resolve(url), pack, msg.fromWxid, transport) == Attempt([], Some(e));
    ErrorReplyText(e, msg.fromWxid, msg.senderWxid, msg.isGroup);
  }

  /** A send inside the `try` that raises stops the reply there; the failure
      text then follows it, as the last call of the run. */
  lemma FailedSendReported(pack: bool, msg: Message, url: string, resolve: string -> ResolverOutcome, transport: nat -> SendResult)
    requires Usable(resolve(url)) && transport(0).SendRaised?
    ensures var run := Respond(pack, msg, url, resolve, transport);
      var reply := ErrorReply(Exception(OtherException, transport(0).text), msg.fromWxid, msg.senderWxid, msg.isGroup);
      && |run.trace| == 3
      && run.trace[0] == ResolveCall(url)
      && run.trace[1] == Send(PlanReply(resolve(url).info, pack, msg.fromWxid).value[0])
      && (if pack then run.trace[1].action.SendLink? else run.trace[1].action.SendText?)
      && run.trace[2] == Send(reply)
      && run.ret == Await(transport(1))
  {
  }

  /** Unpacked mode, the text delivered and the video send raising: the
      failure text follows the video attempt, as the last of four calls. */
  lemma VideoSendFailedReported(msg: Message, url: string, resolve: string -> ResolverOutcome, transport: nat -> SendResult)
    requires Usable(resolve(url)) && transport(0).Delivered? && transport(1).SendRaised?
    ensures var info := resolve(url).info.value;
      var title, author := Get(info, "title", "无标题"), Get(info, "name", "未知作者");
      var reply := ErrorReply(Exception(OtherException, transport(1).text), msg.fromWxid, msg.senderWxid, msg.isGroup);
      Respond(false, msg, url, resolve, transport) ==
        Run(Await(transport(2)), [ResolveCall(url),
                                  Send(SendText(msg.fromWxid, "标题：" + title + "\n作者：" + author, AtOmitted)),
                                  Send(SendVideo(msg.fromWxid, info["video"])),
                                  Send(reply)])
  {
    var plan := PlanReply(resolve(url).info, false, msg.fromWxid).value;
    assert Deliver(plan[1..], transport, 1) == Delivery(plan[1..], Some(transport(1).text));
  }
}
