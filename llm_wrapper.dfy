/**
 * The shared DashScope chat wrappers: the text model (`CustomChatDashScope`)
 * and the vision model (`CustomVisionChatDashScope`). Both turn a list of
 * chat messages into the role/content dicts of the remote API; the vision
 * model attaches the image to the first human message, flattens a reply
 * given as a list of parts, and falls back to the text endpoint when the
 * vision call fails.
 *
 * The two remote endpoints are parameters from the keyword arguments of a
 * call to its outcome, where a raised exception is a `Failure`. Reading and
 * re-encoding an image file is a parameter too (`Loader`), from the path to
 * the MIME type and the base64 text, or the error it raised.
 */
module LlmWrapper {
  import opened Wrappers
  import opened Strings

  // ---------------------------------------------------------------------
  // Messages
  // ---------------------------------------------------------------------

  /** The LangChain message classes; `OtherKind` is any other one (a tool or function message). */
  datatype MessageKind = SystemKind | HumanKind | AiKind | OtherKind

  datatype ChatMessage = ChatMessage(kind: MessageKind, content: string)

  /** An item of a multimodal content list: `{"text": …}` or `{"image": …}`. */
  datatype ContentItem = TextItem(text: string) | ImageItem(image: string)

  /** A message's content: a string, or a list of items. */
  datatype Content = Plain(text: string) | Parts(items: seq<ContentItem>)

  /** `{"role": …, "content": …}`. */
  datatype PromptMessage = PromptMessage(role: string, content: Content)

  const Roles: set<string> := {"system", "user", "assistant"}

  /** The API role of a message class; other classes have none and are dropped. */
  function RoleOf(kind: MessageKind): Option<string>
  {
    match kind
    case SystemKind => Some("system")
    case HumanKind => Some("user")
    case AiKind => Some("assistant")
    case OtherKind => None
  }

  /** The text model's conversion: the messages with a role, in order, each with its text. */
  function TextMessages(ms: seq<ChatMessage>): (pm: seq<PromptMessage>)
    ensures |pm| <= |ms|
    ensures forall i :: 0 <= i < |pm| ==> pm[i].role in Roles && pm[i].content.Plain?
    decreases |ms|
  {
    if |ms| == 0 then []
    else
      var head := match RoleOf(ms[0].kind)
        case None => []
        case Some(role) => [PromptMessage(role, Plain(ms[0].content))];
      head + TextMessages(ms[1..])
  }

  /** The conversion works message by message: it maps a concatenation to a concatenation. */
  lemma {:induction false} TextMessagesConcat(a: seq<ChatMessage>, b: seq<ChatMessage>)
    ensures TextMessages(a + b) == TextMessages(a) + TextMessages(b)
    decreases |a|
  {
    if |a| == 0 {
      assert a + b == b;
    } else {
      assert (a + b)[0] == a[0] && (a + b)[1..] == a[1..] + b;
      TextMessagesConcat(a[1..], b);
    }
  }

  /**
   * What one message becomes: System as `system`, Human as `user` and AI
   * as `assistant`, with its text; any other message is dropped.
   */
  lemma TextMessagesOne(m: ChatMessage)
    ensures m.kind == SystemKind ==> TextMessages([m]) == [PromptMessage("system", Plain(m.content))]
    ensures m.kind == HumanKind ==> TextMessages([m]) == [PromptMessage("user", Plain(m.content))]
    ensures m.kind == AiKind ==> TextMessages([m]) == [PromptMessage("assistant", Plain(m.content))]
    ensures m.kind == OtherKind ==> TextMessages([m]) == []
  {
    assert [m][1..] == [];
  }

  /** Without other message classes nothing is dropped, and the `i`-th message becomes the `i`-th dict. */
  lemma {:induction false} TextMessagesKeepAll(ms: seq<ChatMessage>)
    requires forall i :: 0 <= i < |ms| ==> ms[i].kind != OtherKind
    ensures |TextMessages(ms)| == |ms|
    ensures forall i :: 0 <= i < |ms| ==> TextMessages(ms)[i] == PromptMessage(RoleOf(ms[i].kind).value, Plain(ms[i].content))
    decreases |ms|
  {
    if |ms| > 0 {
      TextMessagesKeepAll(ms[1..]);
      var pm := TextMessages(ms);
      assert pm == [PromptMessage(RoleOf(ms[0].kind).value, Plain(ms[0].content))] + TextMessages(ms[1..]);
      forall i | 0 <= i < |ms| ensures pm[i] == PromptMessage(RoleOf(ms[i].kind).value, Plain(ms[i].content)) {
        if i > 0 { assert pm[i] == TextMessages(ms[1..])[i - 1] && ms[1..][i - 1] == ms[i]; }
      }
    }
  }

  lemma TextMessagesStep(ms: seq<ChatMessage>, i: nat)
    requires i < |ms|
    ensures TextMessages(ms[..i + 1]) == TextMessages(ms[..i]) + TextMessages([ms[i]])
  {
    assert ms[..i + 1] == ms[..i] + [ms[i]];
    TextMessagesConcat(ms[..i], [ms[i]]);
  }

  /** The loop of the text model's `_call` that builds `prompt_messages`. */
  method ConvertTextMessages(messages: seq<ChatMessage>) returns (promptMessages: seq<PromptMessage>)
    ensures promptMessages == TextMessages(messages)
  {
    promptMessages := [];
    for i := 0 to |messages|
      invariant promptMessages == TextMessages(messages[..i])
    {
      var msg := messages[i];
      TextMessagesStep(messages, i);
      TextMessagesOne(msg);
      if msg.kind == SystemKind {
        promptMessages := promptMessages + [PromptMessage("system", Plain(msg.content))];
      } else if msg.kind == HumanKind {
        promptMessages := promptMessages + [PromptMessage("user", Plain(msg.content))];
      } else if msg.kind == AiKind {
        promptMessages := promptMessages + [PromptMessage("assistant", Plain(msg.content))];
      }
    }
    assert messages[..|messages|] == messages;
  }

  // ---------------------------------------------------------------------
  // Keyword arguments of a remote call
  // ---------------------------------------------------------------------

  /** A keyword argument's value. */
  datatype KwValue =
    | StrValue(s: string)
    | IntValue(i: int)
    | RealValue(r: real)
    | BoolValue(b: bool)
    | MessagesValue(messages: seq<PromptMessage>)

  type Kwargs = map<string, KwValue>

  /** The model settings of a wrapper instance (pydantic fields). */
  datatype ModelConfig = ModelConfig(model: string, temperature: real, maxTokens: Option<int>)

  const TextModelDefaults := ModelConfig("qwen-turbo", 0.7, Some(1200))
  const VisionModelDefaults := ModelConfig("qwen-vl-max", 0.7, Some(1200))
  const TextLlmType := "custom_chat_dashscope_wrapper"
  const VisionLlmType := "custom_vision_chat_dashscope_wrapper"
  /** The model the vision wrapper falls back to. */
  const FallbackModel := "qwen-turbo"
  const RemoteTimeout := 30

  /** `if self.max_tokens:`: present and non-zero. */
  predicate Truthy(maxTokens: Option<int>)
  {
    maxTokens.Some? && maxTokens.value != 0
  }

  /**
   * `max_tokens` added to the defaults only when it is truthy, then
   * `update(kwargs)`: a keyword the caller passes wins over both.
   */
  function WithOptions(base: Kwargs, maxTokens: Option<int>, extra: Kwargs): (r: Kwargs)
    requires "max_tokens" !in base
    ensures forall k :: k in extra ==> k in r && r[k] == extra[k]
    ensures "max_tokens" in r <==> Truthy(maxTokens) || "max_tokens" in extra
    ensures "max_tokens" !in extra && Truthy(maxTokens) ==> r["max_tokens"] == IntValue(maxTokens.value)
    ensures forall k :: k in base && k !in extra ==> k in r && r[k] == base[k]
    ensures forall k :: k in r ==> k in base || k in extra || k == "max_tokens"
  {
    var withMax := if Truthy(maxTokens) then base["max_tokens" := IntValue(maxTokens.value)] else base;
    withMax + extra
  }

  /** The text model's call: `result_format="message"`, not streaming. */
  function TextKwargs(cfg: ModelConfig, pm: seq<PromptMessage>, extra: Kwargs): Kwargs
  {
    WithOptions(map["model" := StrValue(cfg.model), "messages" := MessagesValue(pm), "result_format" := StrValue("message"),
                    "temperature" := RealValue(cfg.temperature), "stream" := BoolValue(false)],
                cfg.maxTokens, extra)
  }

  /** The vision call: a 30-second timeout. */
  function VisionKwargs(cfg: ModelConfig, pm: seq<PromptMessage>, extra: Kwargs): Kwargs
  {
    WithOptions(map["model" := StrValue(cfg.model), "messages" := MessagesValue(pm), "temperature" := RealValue(cfg.temperature),
                    "timeout" := IntValue(RemoteTimeout)],
                cfg.maxTokens, extra)
  }

  /** The text-only fallback call: always the text model, with the vision wrapper's temperature and limit. */
  function FallbackKwargs(cfg: ModelConfig, pm: seq<PromptMessage>, extra: Kwargs): Kwargs
  {
    WithOptions(map["model" := StrValue(FallbackModel), "messages" := MessagesValue(pm), "result_format" := StrValue("message"),
                    "temperature" := RealValue(cfg.temperature), "stream" := BoolValue(false), "timeout" := IntValue(RemoteTimeout)],
                cfg.maxTokens, extra)
  }

  // ---------------------------------------------------------------------
  // The text model
  // ---------------------------------------------------------------------

  /** A reply of the text endpoint; `None` is an attribute the response lacks. */
  datatype TextResponse = TextResponse(statusCode: Option<int>, content: string, code: Option<string>, message: Option<string>)

  const ApiErrorPrefix := "DashScope API Error: Code "
  const ApiErrorMiddle := " , Message "

  /** The exception text of a failed reply: its code and message, or `unknown` for a missing one. */
  function ApiErrorText(resp: TextResponse): (e: string)
    ensures IsPrefix(ApiErrorPrefix, e)
    ensures OccursAt(e, resp.code.GetOr("unknown"), |ApiErrorPrefix|)
    ensures IsSuffix(resp.message.GetOr("unknown"), e)
  {
    var code, message := resp.code.GetOr("unknown"), resp.message.GetOr("unknown");
    var e := ApiErrorPrefix + code + ApiErrorMiddle + message;
    assert e[..|ApiErrorPrefix|] == ApiErrorPrefix;
    assert e[|ApiErrorPrefix|..|ApiErrorPrefix| + |code|] == code;
    assert e[|e| - |message|..] == message;
    e
  }

  /**
   * The text model's `_call`: the converted messages go to the text
   * endpoint; a reply with status 200 gives its content, any other reply
   * raises with its code and message.
   */
  function TextCall(cfg: ModelConfig, messages: seq<ChatMessage>, extra: Kwargs,
                    generate: Kwargs -> Result<TextResponse, string>): (r: Result<string, string>)
    ensures var call := generate(TextKwargs(cfg, TextMessages(messages), extra));
      && (r.Success? <==> call.Success? && call.value.statusCode == Some(200))
      && (r.Success? ==> r.value == call.value.content)
      && (call.Success? && r.Failure? ==> r.error == ApiErrorText(call.value))
      && (call.Failure? ==> r == Failure(call.error))
  {
    match generate(TextKwargs(cfg, TextMessages(messages), extra))
    case Failure(e) => Failure(e)
    case Success(resp) => if resp.statusCode == Some(200) then Success(resp.content) else Failure(ApiErrorText(resp))
  }

  // ---------------------------------------------------------------------
  // The vision model: the image content
  // ---------------------------------------------------------------------

  /** Reads an image file: its MIME type and base64 text, or the text of the exception raised. */
  type Loader = string -> Result<(string, string), string>

  /** `if not image_path`: no path, or an empty one. */
  predicate ImageGiven(imagePath: Option<string>)
  {
    imagePath.Some? && imagePath.value != ""
  }

  const LoadFailurePrefix := "[图片加载失败: "

  /**
   * `_prepare_multimodal_content`: the text first, if there is any; then
   * the image — a data URI as given, or the file re-encoded as one — or,
   * when reading the file fails, a text item saying so.
   */
  function PrepareContent(text: string, imagePath: Option<string>, load: Loader): (items: seq<ContentItem>)
    ensures text != "" <==> |items| > 0 && items[0] == TextItem(text)
    ensures |items| == (if text != "" then 1 else 0) + (if ImageGiven(imagePath) then 1 else 0)
    ensures !ImageGiven(imagePath) ==> items == (if text != "" then [TextItem(text)] else [])
    ensures forall i :: 0 <= i < |items| && items[i].ImageItem? ==> i == |items| - 1 && IsPrefix("data:", items[i].image)
    ensures ImageGiven(imagePath) && IsPrefix("data:image", imagePath.value) ==> items[|items| - 1] == ImageItem(imagePath.value)
    ensures ImageGiven(imagePath) && !IsPrefix("data:image", imagePath.value) && load(imagePath.value).Failure? ==>
      items[|items| - 1] == TextItem(LoadFailurePrefix + load(imagePath.value).error + "]")
  {
    var head := if text != "" then [TextItem(text)] else [];
    if !ImageGiven(imagePath) then head
    else
      var path := imagePath.value;
      if IsPrefix("data:image", path) then
        assert path[..5] == "data:image"[..5];
        head + [ImageItem(path)]
      else
        match load(path)
        case Success((mime, encoded)) =>
          var uri := "data:" + mime + ";base64," + encoded;
          assert uri[..5] == "data:";
          head + [ImageItem(uri)]
        case Failure(e) => head + [TextItem(LoadFailurePrefix + e + "]")]
  }

  /** The image reaches the model: a data URI, or a file that reads. */
  predicate ImageLoads(imagePath: Option<string>, load: Loader)
  {
    ImageGiven(imagePath) && (IsPrefix("data:image", imagePath.value) || load(imagePath.value).Success?)
  }

  // ---------------------------------------------------------------------
  // The vision model: message conversion
  // ---------------------------------------------------------------------

  /**
   * The vision model's conversion of `ms`, where `imageAdded` says whether
   * the image went into an earlier human message.
   */
  function VisionMessages(ms: seq<ChatMessage>, imageAdded: bool, imagePath: Option<string>, load: Loader): (pm: seq<PromptMessage>)
    decreases |ms|
  {
    if |ms| == 0 then []
    else
      var m := ms[0];
      match m.kind
      case SystemKind => [PromptMessage("system", Plain(m.content))] + VisionMessages(ms[1..], imageAdded, imagePath, load)
      case HumanKind =>
        if ImageGiven(imagePath) && !imageAdded then
          [PromptMessage("user", Parts(PrepareContent(m.content, imagePath, load)))] + VisionMessages(ms[1..], true, imagePath, load)
        else
          [PromptMessage("user", Plain(m.content))] + VisionMessages(ms[1..], imageAdded, imagePath, load)
      case AiKind => [PromptMessage("assistant", Plain(m.content))] + VisionMessages(ms[1..], imageAdded, imagePath, load)
      case OtherKind => VisionMessages(ms[1..], imageAdded, imagePath, load)
  }

  /** The first `user` message, if it holds plain text, replaced by the text and image `items(text)` give. */
  function AttachToFirstUser(pm: seq<PromptMessage>, imagePath: Option<string>, load: Loader): seq<PromptMessage>
    decreases |pm|
  {
    if |pm| == 0 then []
    else if pm[0].role == "user" && pm[0].content.Plain? then
      [PromptMessage("user", Parts(PrepareContent(pm[0].content.text, imagePath, load)))] + pm[1..]
    else [pm[0]] + AttachToFirstUser(pm[1..], imagePath, load)
  }

  /**
   * The vision model sends what the text model sends, except that, when
   * there is an image, the first human message carries the text and the
   * image; every later human message stays plain text.
   */
  lemma {:induction false} VisionIsTextWithImage(ms: seq<ChatMessage>, imagePath: Option<string>, load: Loader)
    ensures !ImageGiven(imagePath) ==> VisionMessages(ms, false, imagePath, load) == TextMessages(ms)
    ensures ImageGiven(imagePath) ==> VisionMessages(ms, false, imagePath, load) == AttachToFirstUser(TextMessages(ms), imagePath, load)
    decreases |ms|
  {
    VisionAfterImage(ms, imagePath, load);
    if |ms| > 0 && ImageGiven(imagePath) {
      var m, rest := ms[0], ms[1..];
      VisionIsTextWithImage(rest, imagePath, load);
      var tail := TextMessages(rest);
      match m.kind
      case SystemKind =>
        assert TextMessages(ms) == [PromptMessage("system", Plain(m.content))] + tail;
      case AiKind =>
        assert TextMessages(ms) == [PromptMessage("assistant", Plain(m.content))] + tail;
      case OtherKind =>
        assert TextMessages(ms) == tail;
      case HumanKind =>
        VisionAfterImage(rest, imagePath, load);
        var pm := [PromptMessage("user", Plain(m.content))] + tail;
        assert TextMessages(ms) == pm;
        assert pm[1..] == tail;
    }
  }

  /** Once the image is added, or with none, the vision conversion is the text one. */
  lemma {:induction false} VisionAfterImage(ms: seq<ChatMessage>, imagePath: Option<string>, load: Loader)
    ensures VisionMessages(ms, true, imagePath, load) == TextMessages(ms)
    ensures !ImageGiven(imagePath) ==> VisionMessages(ms, false, imagePath, load) == TextMessages(ms)
    decreases |ms|
  {
    if |ms| > 0 {
      VisionAfterImage(ms[1..], imagePath, load);
    }
  }

  /**
   * `AttachToFirstUser` changes exactly the first `user` message: the
   * messages before and after it are as they were.
   */
  lemma {:induction false} AttachSpec(pm: seq<PromptMessage>, i: nat, imagePath: Option<string>, load: Loader)
    requires forall j :: 0 <= j < |pm| ==> pm[j].content.Plain?
    requires i < |pm| && pm[i].role == "user" && forall j :: 0 <= j < i ==> pm[j].role != "user"
    ensures AttachToFirstUser(pm, imagePath, load)
      == pm[..i] + [PromptMessage("user", Parts(PrepareContent(pm[i].content.text, imagePath, load)))] + pm[i + 1..]
    decreases i
  {
    if i > 0 {
      AttachSpec(pm[1..], i - 1, imagePath, load);
      assert pm[1..][..i - 1] == pm[1..i] && pm[1..][i - 1 + 1..] == pm[i + 1..];
      assert [pm[0]] + pm[1..i] == pm[..i];
    }
  }

  /** Without a `user` message the image goes nowhere. */
  lemma {:induction false} AttachNoUser(pm: seq<PromptMessage>, imagePath: Option<string>, load: Loader)
    requires forall j :: 0 <= j < |pm| ==> pm[j].role != "user"
    ensures AttachToFirstUser(pm, imagePath, load) == pm
    decreases |pm|
  {
    if |pm| > 0 {
      AttachNoUser(pm[1..], imagePath, load);
    }
  }

  lemma VisionStep(ms: seq<ChatMessage>, i: nat, imageAdded: bool, imagePath: Option<string>, load: Loader)
    requires i < |ms|
    ensures ms[i..][0] == ms[i] && ms[i..][1..] == ms[i + 1..]
    ensures VisionMessages(ms[i..], imageAdded, imagePath, load) == VisionMessages([ms[i]] + ms[i + 1..], imageAdded, imagePath, load)
  {
    assert ms[i..] == [ms[i]] + ms[i + 1..];
  }

  /** The loop of the vision model's `_call` that builds `prompt_messages`, with its `image_added` flag. */
  method ConvertVisionMessages(messages: seq<ChatMessage>, imagePath: Option<string>, load: Loader)
    returns (promptMessages: seq<PromptMessage>)
    ensures promptMessages == VisionMessages(messages, false, imagePath, load)
  {
    promptMessages := [];
    var imageAdded := false;
    assert messages[0..] == messages;
    for i := 0 to |messages|
      invariant promptMessages + VisionMessages(messages[i..], imageAdded, imagePath, load) == VisionMessages(messages, false, imagePath, load)
    {
      var msg := messages[i];
      VisionStep(messages, i, imageAdded, imagePath, load);
      ghost var rest := messages[i + 1..];
      if msg.kind == SystemKind {
        ConcatAssoc(promptMessages, [PromptMessage("system", Plain(msg.content))], VisionMessages(rest, imageAdded, imagePath, load));
        promptMessages := promptMessages + [PromptMessage("system", Plain(msg.content))];
      } else if msg.kind == HumanKind {
        var content := msg.content;
        if ImageGiven(imagePath) && !imageAdded {
          var multimodalContent := PrepareContent(content, imagePath, load);
          ConcatAssoc(promptMessages, [PromptMessage("user", Parts(multimodalContent))], VisionMessages(rest, true, imagePath, load));
          promptMessages := promptMessages + [PromptMessage("user", Parts(multimodalContent))];
          imageAdded := true;
        } else {
          ConcatAssoc(promptMessages, [PromptMessage("user", Plain(content))], VisionMessages(rest, imageAdded, imagePath, load));
          promptMessages := promptMessages + [PromptMessage("user", Plain(content))];
        }
      } else if msg.kind == AiKind {
        ConcatAssoc(promptMessages, [PromptMessage("assistant", Plain(msg.content))], VisionMessages(rest, imageAdded, imagePath, load));
        promptMessages := promptMessages + [PromptMessage("assistant", Plain(msg.content))];
      }
    }
    assert messages[|messages|..] == [];
  }

  // ---------------------------------------------------------------------
  // The vision model: the reply
  // ---------------------------------------------------------------------

  /** A part of a list reply: a dict with a string `text`, or anything else as `str()` shows it. */
  datatype ReplyPart = TextPart(text: string) | OtherPart(shown: string)

  /** The reply content of the vision endpoint: a string or a list of parts. */
  datatype ReplyContent = TextReply(text: string) | ListReply(parts: seq<ReplyPart>)

  datatype VisionResponse = VisionResponse(statusCode: Option<int>, content: ReplyContent, message: Option<string>)

  function PartText(p: ReplyPart): string
  {
    match p
    case TextPart(t) => t
    case OtherPart(shown) => shown
  }

  /** The non-empty strings of `xs`, in order. */
  function NonEmpty(xs: seq<string>): (ys: seq<string>)
    ensures forall i :: 0 <= i < |ys| ==> ys[i] != ""
    ensures forall x :: x in xs && x != "" <==> x in ys
    ensures |ys| <= |xs|
    decreases |xs|
  {
    if |xs| == 0 then []
    else (if xs[0] != "" then [xs[0]] else []) + NonEmpty(xs[1..])
  }

  /** The text of each part, in order. */
  function PartTexts(parts: seq<ReplyPart>): (ts: seq<string>)
    ensures |ts| == |parts| && forall i :: 0 <= i < |parts| ==> ts[i] == PartText(parts[i])
  {
    seq(|parts|, i requires 0 <= i < |parts| => PartText(parts[i]))
  }

  /** A list reply flattened: the non-empty part texts joined with one space. */
  function FlatText(parts: seq<ReplyPart>): string
  {
    Join(" ", NonEmpty(PartTexts(parts)))
  }

  /** The loop of the vision `_call` that flattens a list reply. */
  method FlattenReply(parts: seq<ReplyPart>) returns (text: string)
    ensures text == FlatText(parts)
  {
    var textParts: seq<string> := [];
    for i := 0 to |parts|
      invariant textParts == PartTexts(parts[..i])
    {
      var part := parts[i];
      match part
      case TextPart(t) => textParts := textParts + [t];
      case OtherPart(shown) => textParts := textParts + [shown];
      assert parts[..i + 1] == parts[..i] + [part];
    }
    assert parts[..|parts|] == parts;
    text := Join(" ", NonEmpty(textParts));
  }

  /** Empty parts leave no trace in the flattened text: dropping them changes nothing. */
  lemma {:induction false} EmptyPartsIgnored(parts: seq<ReplyPart>, more: seq<ReplyPart>)
    requires forall i :: 0 <= i < |more| ==> PartText(more[i]) == ""
    ensures FlatText(parts + more) == FlatText(parts)
  {
    var a, b := PartTexts(parts), PartTexts(more);
    NonEmptyOfEmpties(b);
    NonEmptyConcat(a, b);
    assert PartTexts(parts + more) == a + b;
    assert NonEmpty(a + b) == NonEmpty(a) + [];
    assert NonEmpty(a) + [] == NonEmpty(a);
  }

  lemma {:induction false} NonEmptyOfEmpties(xs: seq<string>)
    requires forall i :: 0 <= i < |xs| ==> xs[i] == ""
    ensures NonEmpty(xs) == []
    decreases |xs|
  {
    if |xs| > 0 { NonEmptyOfEmpties(xs[1..]); }
  }

  lemma {:induction false} NonEmptyConcat(a: seq<string>, b: seq<string>)
    ensures NonEmpty(a + b) == NonEmpty(a) + NonEmpty(b)
    decreases |a|
  {
    if |a| == 0 {
      assert a + b == b;
    } else {
      var head := if a[0] != "" then [a[0]] else [];
      assert (a + b)[0] == a[0] && (a + b)[1..] == a[1..] + b;
      assert NonEmpty(a + b) == head + NonEmpty(a[1..] + b);
      assert NonEmpty(a) == head + NonEmpty(a[1..]);
      NonEmptyConcat(a[1..], b);
      ConcatAssoc(head, NonEmpty(a[1..]), NonEmpty(b));
    }
  }

  lemma {:induction false} NonEmptyKeepsAll(xs: seq<string>)
    requires forall i :: 0 <= i < |xs| ==> xs[i] != ""
    ensures NonEmpty(xs) == xs
    decreases |xs|
  {
    if |xs| > 0 { NonEmptyKeepsAll(xs[1..]); }
  }

  /** Parts that are all non-empty texts are joined with single spaces, all of them and in order. */
  lemma FlatTextOfTexts(parts: seq<ReplyPart>, texts: seq<string>)
    requires |parts| == |texts| && forall i :: 0 <= i < |parts| ==> parts[i] == TextPart(texts[i]) && texts[i] != ""
    ensures FlatText(parts) == Join(" ", texts)
  {
    assert PartTexts(parts) == texts;
    NonEmptyKeepsAll(texts);
  }

  /** The reply as one string: a list reply flattened. */
  function ReplyString(c: ReplyContent): string
  {
    match c
    case TextReply(t) => t
    case ListReply(parts) => FlatText(parts)
  }

  // ---------------------------------------------------------------------
  // The vision model: the text-only fallback
  // ---------------------------------------------------------------------

  /** The `text` of the items that have one, in order (an empty text included). */
  function ItemTexts(items: seq<ContentItem>): seq<string>
    decreases |items|
  {
    if |items| == 0 then []
    else (if items[0].TextItem? then [items[0].text] else []) + ItemTexts(items[1..])
  }

  /** A message for the text endpoint: a list content becomes its texts joined with one space. */
  function TextOnlyMessage(m: PromptMessage): (r: PromptMessage)
    ensures r.role == m.role && r.content.Plain?
    ensures m.content.Plain? ==> r == m
  {
    match m.content
    case Plain(_) => m
    case Parts(items) => PromptMessage(m.role, Plain(Join(" ", ItemTexts(items))))
  }

  /** The messages of the fallback call: each with its role, every list content as text. */
  function TextOnly(pm: seq<PromptMessage>): (r: seq<PromptMessage>)
    ensures |r| == |pm|
    ensures forall i :: 0 <= i < |pm| ==> r[i] == TextOnlyMessage(pm[i])
  {
    seq(|pm|, i requires 0 <= i < |pm| => TextOnlyMessage(pm[i]))
  }

  /** The loop of the vision `_call`'s fallback that builds `text_messages`. */
  method FallbackMessages(promptMessages: seq<PromptMessage>) returns (textMessages: seq<PromptMessage>)
    ensures textMessages == TextOnly(promptMessages)
  {
    textMessages := [];
    for i := 0 to |promptMessages|
      invariant textMessages == TextOnly(promptMessages[..i])
    {
      var msgData := promptMessages[i];
      match msgData.content
      case Parts(items) =>
        var textContent := Join(" ", ItemTexts(items));
        textMessages := textMessages + [PromptMessage(msgData.role, Plain(textContent))];
      case Plain(_) =>
        textMessages := textMessages + [msgData];
      assert promptMessages[..i + 1] == promptMessages[..i] + [msgData];
    }
    assert promptMessages[..|promptMessages|] == promptMessages;
  }

  /** With an image that reaches the model, the multimodal content of a text reads back as that text. */
  lemma LoadedContentText(text: string, imagePath: Option<string>, load: Loader)
    requires ImageLoads(imagePath, load)
    ensures Join(" ", ItemTexts(PrepareContent(text, imagePath, load))) == text
  {
    var items := PrepareContent(text, imagePath, load);
    assert items[|items| - 1].ImageItem?;
    if text != "" {
      assert items == [TextItem(text), items[1]];
      assert ItemTexts(items) == [text] + ItemTexts(items[1..]);
      assert ItemTexts(items[1..]) == [] + ItemTexts(items[2..]);
    } else {
      assert items == [items[0]];
      assert ItemTexts(items) == [] + ItemTexts(items[1..]);
    }
  }

  lemma {:induction false} TextOnlyOfAttached(pm: seq<PromptMessage>, imagePath: Option<string>, load: Loader)
    requires ImageLoads(imagePath, load)
    requires forall j :: 0 <= j < |pm| ==> pm[j].content.Plain?
    ensures TextOnly(AttachToFirstUser(pm, imagePath, load)) == pm
    decreases |pm|
  {
    if |pm| > 0 {
      var r := AttachToFirstUser(pm, imagePath, load);
      if pm[0].role == "user" {
        LoadedContentText(pm[0].content.text, imagePath, load);
        assert TextOnly(r)[0] == pm[0];
        forall j | 1 <= j < |pm| ensures TextOnly(r)[j] == pm[j] { assert r[j] == pm[j]; }
      } else {
        TextOnlyOfAttached(pm[1..], imagePath, load);
        assert r == [pm[0]] + AttachToFirstUser(pm[1..], imagePath, load);
        forall j | 1 <= j < |pm| ensures TextOnly(r)[j] == pm[j] {
          assert TextOnly(r)[j] == TextOnly(AttachToFirstUser(pm[1..], imagePath, load))[j - 1];
        }
      }
    }
  }

  /**
   * The fallback sends no image, keeps every role, and — when the image
   * reached the vision call, or there was none — sends exactly what the
   * text model would have sent.
   */
  lemma FallbackIsTextConversion(ms: seq<ChatMessage>, imagePath: Option<string>, load: Loader)
    ensures var fb := TextOnly(VisionMessages(ms, false, imagePath, load));
      forall i :: 0 <= i < |fb| ==> fb[i].content.Plain?
    ensures ImageLoads(imagePath, load) || !ImageGiven(imagePath) ==>
      TextOnly(VisionMessages(ms, false, imagePath, load)) == TextMessages(ms)
  {
    VisionIsTextWithImage(ms, imagePath, load);
    if ImageLoads(imagePath, load) {
      TextOnlyOfAttached(TextMessages(ms), imagePath, load);
    } else if !ImageGiven(imagePath) {
      assert TextOnly(TextMessages(ms)) == TextMessages(ms);
    }
  }

  // ---------------------------------------------------------------------
  // The vision model's `_call` and `call_with_image`
  // ---------------------------------------------------------------------

  const FallbackNotice := "[注意：图片分析功能暂时不可用，以下是基于文本的回复]\n\n"
  const FallbackFailure := "文本模式API调用也失败了"

  /**
   * The vision model's `_call`. A vision reply with status 200 gives its
   * content as one string. Any other outcome of the vision call — another
   * status, a reply without one, an exception — is caught: the text-only
   * messages go to the text model, whose reply with status 200 is given
   * after the notice; otherwise the call raises.
   */
  function VisionCall(cfg: ModelConfig, messages: seq<ChatMessage>, imagePath: Option<string>, extra: Kwargs, load: Loader,
                      see: Kwargs -> Result<VisionResponse, string>,
                      generate: Kwargs -> Result<TextResponse, string>): (r: Result<string, string>)
    ensures var pm := VisionMessages(messages, false, imagePath, load);
      var vision := see(VisionKwargs(cfg, pm, extra));
      var text := generate(FallbackKwargs(cfg, TextOnly(pm), extra));
      && (vision.Success? && vision.value.statusCode == Some(200) ==> r == Success(ReplyString(vision.value.content)))
      && (!(vision.Success? && vision.value.statusCode == Some(200)) ==>
            && (text.Success? && text.value.statusCode == Some(200) ==> r == Success(FallbackNotice + text.value.content))
            && (text.Success? && text.value.statusCode != Some(200) ==> r == Failure(FallbackFailure))
            && (text.Failure? ==> r == Failure(text.error)))
  {
    var pm := VisionMessages(messages, false, imagePath, load);
    var vision := see(VisionKwargs(cfg, pm, extra));
    if vision.Success? && vision.value.statusCode == Some(200) then Success(ReplyString(vision.value.content))
    else
      match generate(FallbackKwargs(cfg, TextOnly(pm), extra))
      case Failure(e) => Failure(e)
      case Success(resp) => if resp.statusCode == Some(200) then Success(FallbackNotice + resp.content) else Failure(FallbackFailure)
  }

  /** `call_with_image`'s messages: the system prompt first, if it is non-empty, then the one human message. */
  function CallWithImageMessages(text: string, systemPrompt: Option<string>): (ms: seq<ChatMessage>)
    ensures |ms| == if systemPrompt.Some? && systemPrompt.value != "" then 2 else 1
    ensures ms[|ms| - 1] == ChatMessage(HumanKind, text)
    ensures |ms| == 2 ==> ms[0] == ChatMessage(SystemKind, systemPrompt.value)
  {
    (if systemPrompt.Some? && systemPrompt.value != "" then [ChatMessage(SystemKind, systemPrompt.value)] else [])
    + [ChatMessage(HumanKind, text)]
  }

  /** `call_with_image`: the vision model's `_call` on those messages, the reply's content. */
  function CallWithImage(cfg: ModelConfig, text: string, imagePath: Option<string>, systemPrompt: Option<string>, load: Loader,
                         see: Kwargs -> Result<VisionResponse, string>,
                         generate: Kwargs -> Result<TextResponse, string>): Result<string, string>
  {
    VisionCall(cfg, CallWithImageMessages(text, systemPrompt), imagePath, map[], load, see, generate)
  }

  /**
   * What `call_with_image` sends: the system prompt as plain text, if
   * given, then the user's text, with the image when there is one.
   */
  lemma CallWithImageSends(text: string, imagePath: Option<string>, systemPrompt: Option<string>, load: Loader)
    ensures var pm := VisionMessages(CallWithImageMessages(text, systemPrompt), false, imagePath, load);
      var user := if ImageGiven(imagePath) then Parts(PrepareContent(text, imagePath, load)) else Plain(text);
      pm == (if systemPrompt.Some? && systemPrompt.value != "" then [PromptMessage("system", Plain(systemPrompt.value))] else [])
            + [PromptMessage("user", user)]
  {
    var ms := CallWithImageMessages(text, systemPrompt);
    var human := [ChatMessage(HumanKind, text)];
    var user := if ImageGiven(imagePath) then Parts(PrepareContent(text, imagePath, load)) else Plain(text);
    assert human[1..] == [];
    assert VisionMessages(human, false, imagePath, load) == [PromptMessage("user", user)];
    if |ms| == 2 {
      assert ms[1..] == human;
    } else {
      assert ms == human;
    }
  }
}
