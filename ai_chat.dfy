/**
 * The AI chat app's bookkeeping: the viewer messages it answers, the prompt
 * built from them, the stored keys and configuration, and the chat state
 * and history kept around each call to the Spark service. The service call
 * is split in three: the start, each streamed piece of the reply, and the
 * end (with the error the service raised, if any). The reply is local to
 * each call, so the caller threads it from one step to the next.
 */
module AiChat {
  import opened Wrappers
  import Text
  import Spark

  /** How many history messages are sent with a chat. */
  const HISTORY_NUM: nat := 10

  /** Credentials for a Xunfei service. */
  datatype XunFeiKey = XunFeiKey(appId: string, apiSecret: string, apiKey: string)

  /** `volumn` keeps the source's spelling of the field. */
  datatype ChatConfig = ChatConfig(vcn: string, thanksGift: bool, characterSet: string, volumn: real, speed: real)

  const DEFAULT_CONFIG: ChatConfig := ChatConfig("xiaoyan", true, "你是一只可爱迷人的狐狸娘，名字叫林梦仙", 1.0, 50.0)

  /** A configuration as read from the file: any field may be missing or `null`. */
  datatype ParsedConfig = ParsedConfig(
    vcn: Option<string>,
    thanksGift: Option<bool>,
    characterSet: Option<string>,
    volumn: Option<real>,
    speed: Option<real>)

  datatype ChatState = Disable | Idle | Chatting | Ignore

  datatype ChatType = Danmaku | Gift

  /** What viewers said or gave; a gift's count is the gift count times the combo. */
  datatype ChatContent =
    | ChatDanmaku(user: string, content: string)
    | ChatGift(user: string, giftName: string, giftCount: int)
  {
    function Type(): (t: ChatType)
      ensures t == Gift <==> this.ChatGift?
    {
      match this
      case ChatDanmaku(_, _) => Danmaku
      case ChatGift(_, _, _) => Gift
    }

    /** The line the prompt shows; it always opens with the user's name in quotation marks. */
    function ToString(): (s: string)
      ensures |s| >= |user| + 2 && s[..|user| + 2] == "“" + user + "”"
    {
      match this
      case ChatDanmaku(user, content) => "“" + user + "”说：“" + content + "”"
      case ChatGift(user, giftName, giftCount) => "“" + user + "”送出了" + Text.IntToString(giftCount) + "个" + giftName
    }
  }

  /** The `ChatGift` constructor: a gift sent `count` times in each of `combo` combos. */
  function GiftOf(nickname: string, giftName: string, count: int, combo: int): (c: ChatContent)
    ensures c.Type() == Gift && c.user == nickname && c.giftName == giftName
    ensures c.giftCount == count * combo
  {
    ChatGift(nickname, giftName, count * combo)
  }

  // ---------------------------------------------------------------------
  // Keys and configuration

  predicate Complete(key: XunFeiKey)
  {
    |key.appId| > 0 && |key.apiSecret| > 0 && |key.apiKey| > 0
  }

  /** `setKey`: the stored key after offering `key`, taken only when no part of it is empty. */
  function StoredKey(current: Option<XunFeiKey>, key: XunFeiKey): (r: Option<XunFeiKey>)
    ensures Complete(key) ==> r == Some(key)
    ensures !Complete(key) ==> r == current
  {
    if Complete(key) then Some(key) else current
  }

  /** Setting keys never stores an incomplete one where only complete ones were. */
  lemma StoredKeyStaysComplete(current: Option<XunFeiKey>, key: XunFeiKey)
    requires current.Some? ==> Complete(current.value)
    ensures StoredKey(current, key).Some? ==> Complete(StoredKey(current, key).value)
    ensures StoredKey(current, key).Some? <==> current.Some? || Complete(key)
  {
  }

  /** A usable configuration: a voice, a character, a volume of at least 0 and a speed from 0 to 100. */
  predicate ValidConfig(c: ChatConfig)
  {
    |c.vcn| > 0 && |c.characterSet| > 0 && c.volumn >= 0.0 && 0.0 <= c.speed <= 100.0
  }

  /** `loadConfig`'s patching: every missing or unusable field takes its default. */
  function Normalise(parsed: ParsedConfig): (c: ChatConfig)
    ensures ValidConfig(c)
    ensures parsed.vcn.Some? && |parsed.vcn.value| > 0 ==> c.vcn == parsed.vcn.value
    ensures parsed.thanksGift.Some? ==> c.thanksGift == parsed.thanksGift.value
    ensures parsed.characterSet.Some? && |parsed.characterSet.value| > 0 ==> c.characterSet == parsed.characterSet.value
    ensures parsed.volumn.Some? && parsed.volumn.value >= 0.0 ==> c.volumn == parsed.volumn.value
    ensures parsed.speed.Some? && 0.0 <= parsed.speed.value <= 100.0 ==> c.speed == parsed.speed.value
    ensures !(parsed.vcn.Some? && |parsed.vcn.value| > 0) ==> c.vcn == DEFAULT_CONFIG.vcn
    ensures parsed.thanksGift.None? ==> c.thanksGift == DEFAULT_CONFIG.thanksGift
    ensures !(parsed.characterSet.Some? && |parsed.characterSet.value| > 0) ==> c.characterSet == DEFAULT_CONFIG.characterSet
    ensures !(parsed.volumn.Some? && parsed.volumn.value >= 0.0) ==> c.volumn == DEFAULT_CONFIG.volumn
    ensures !(parsed.speed.Some? && 0.0 <= parsed.speed.value <= 100.0) ==> c.speed == DEFAULT_CONFIG.speed
  {
    ChatConfig(
      if parsed.vcn.Some? && |parsed.vcn.value| > 0 then parsed.vcn.value else DEFAULT_CONFIG.vcn,
      if parsed.thanksGift.Some? then parsed.thanksGift.value else DEFAULT_CONFIG.thanksGift,
      if parsed.characterSet.Some? && |parsed.characterSet.value| > 0 then parsed.characterSet.value else DEFAULT_CONFIG.characterSet,
      if parsed.volumn.Some? && parsed.volumn.value >= 0.0 then parsed.volumn.value else DEFAULT_CONFIG.volumn,
      if parsed.speed.Some? && 0.0 <= parsed.speed.value <= 100.0 then parsed.speed.value else DEFAULT_CONFIG.speed)
  }

  /** A usable configuration read back from its file is loaded unchanged. */
  lemma NormaliseKeepsValid(c: ChatConfig)
    requires ValidConfig(c)
    ensures Normalise(ParsedConfig(Some(c.vcn), Some(c.thanksGift), Some(c.characterSet), Some(c.volumn), Some(c.speed))) == c
  {
  }

  // ---------------------------------------------------------------------
  // The prompt

  const PROMPT_HEAD: string := "现在你是一名主播，需要回复观众的弹幕，直接回复你想要说的话即可，回复的前面不要加上你的名字，回复不要采用你的名字说的形式。\n你需要遵循以下的设定：\n"
  const GIFT_HEAD: string := "\n观众送出的礼物：\n"
  const DANMAKU_HEAD: string := "\n观众的弹幕：\n"

  /** The prompt lines of the contents of type `t`, in order. */
  function Lines(contents: seq<ChatContent>, t: ChatType): (r: seq<string>)
    ensures |r| <= |contents|
    ensures forall i :: 0 <= i < |r| ==> |r[i]| > 0
    ensures r == [] <==> forall c :: c in contents ==> c.Type() != t
  {
    if |contents| == 0 then []
    else
      var last := contents[|contents| - 1];
      assert forall c :: c in contents ==> c in contents[..|contents| - 1] || c == last by {
        assert contents == contents[..|contents| - 1] + [last];
      }
      Lines(contents[..|contents| - 1], t) + (if last.Type() == t then [last.ToString()] else [])
  }

  /** The lines of a run of contents followed by another are the lines of each, in order. */
  lemma {:induction false} LinesAppend(a: seq<ChatContent>, b: seq<ChatContent>, t: ChatType)
    ensures Lines(a + b, t) == Lines(a, t) + Lines(b, t)
    decreases |b|
  {
    if |b| == 0 {
      assert a + b == a;
    } else {
      var last := b[|b| - 1];
      assert (a + b)[..|a + b| - 1] == a + b[..|b| - 1];
      LinesAppend(a, b[..|b| - 1], t);
    }
  }

  /** A single content makes one line, its own, exactly when it has the type. */
  lemma LinesOne(c: ChatContent, t: ChatType)
    ensures Lines([c], t) == if c.Type() == t then [c.ToString()] else []
  {
    assert [c][..0] == [];
  }

  /** `prompt`: the role and character, then the gifts, then the danmaku, each section only when non-empty. */
  function Prompt(characterSet: string, contents: seq<ChatContent>): (p: string)
    ensures |p| >= |PROMPT_HEAD| + |characterSet|
    ensures p[..|PROMPT_HEAD| + |characterSet|] == PROMPT_HEAD + characterSet
  {
    var danmaku := Text.Join(Lines(contents, Danmaku), "\n");
    var gift := Text.Join(Lines(contents, Gift), "\n");
    PROMPT_HEAD + characterSet
    + (if |gift| > 0 then GIFT_HEAD + gift else "")
    + (if |danmaku| > 0 then DANMAKU_HEAD + danmaku else "")
  }

  /**
   * The prompt always states the character; it has a gift section exactly
   * when some viewer gave a gift and a danmaku section exactly when some
   * viewer wrote a danmaku, gifts first.
   */
  lemma PromptSections(characterSet: string, contents: seq<ChatContent>)
    ensures Prompt(characterSet, contents)
            == PROMPT_HEAD + characterSet
               + (if exists c :: c in contents && c.ChatGift? then GIFT_HEAD + Text.Join(Lines(contents, Gift), "\n") else "")
               + (if exists c :: c in contents && c.ChatDanmaku? then DANMAKU_HEAD + Text.Join(Lines(contents, Danmaku), "\n") else "")
  {
    Text.JoinEmpty(Lines(contents, Gift), "\n");
    Text.JoinEmpty(Lines(contents, Danmaku), "\n");
  }

  // ---------------------------------------------------------------------
  // History

  /** The history sent with a chat: all of it below ten messages, else the last ten. */
  function Window(history: seq<Spark.RequestText>): (r: seq<Spark.RequestText>)
    ensures |r| == if |history| < HISTORY_NUM then |history| else HISTORY_NUM
    ensures r == history[|history| - |r|..]
  {
    if |history| < HISTORY_NUM then history else history[|history| - HISTORY_NUM..]
  }

  /** The user messages a chat records: one per danmaku, in order. */
  function UserEntries(contents: seq<ChatContent>): (r: seq<Spark.RequestText>)
    ensures |r| == |Lines(contents, Danmaku)|
    ensures forall i :: 0 <= i < |r| ==> r[i] == Spark.RequestText(Spark.User, Lines(contents, Danmaku)[i])
  {
    var lines := Lines(contents, Danmaku);
    seq(|lines|, i requires 0 <= i < |lines| => Spark.RequestText(Spark.User, lines[i]))
  }

  /** The history after a chat that finished while still chatting. */
  function Recorded(history: seq<Spark.RequestText>, contents: seq<ChatContent>, reply: string): seq<Spark.RequestText>
  {
    var entries := UserEntries(contents);
    if |entries| > 0 then history + entries + [Spark.RequestText(Spark.Assistant, reply)] else history
  }

  /**
   * A chat with danmaku appends one user message per danmaku and then the
   * reply, keeping the earlier history; a chat with gifts alone records
   * nothing.
   */
  lemma RecordedGrowth(history: seq<Spark.RequestText>, contents: seq<ChatContent>, reply: string)
    ensures var r := Recorded(history, contents, reply);
      && r[..|history|] == history
      && ((exists c :: c in contents && c.ChatDanmaku?) ==>
            |r| == |history| + |Lines(contents, Danmaku)| + 1
            && r[|r| - 1] == Spark.RequestText(Spark.Assistant, reply))
      && ((forall c :: c in contents ==> c.ChatGift?) ==> r == history)
  {
    var r := Recorded(history, contents, reply);
    if UserEntries(contents) != [] {
      assert r[..|history|] == history;
    }
  }

  /** The state a chat leaves behind: idle, unless the app was disabled meanwhile. */
  function AfterChat(state: ChatState): (r: ChatState)
    ensures r == Disable <==> state == Disable
    ensures r != Disable ==> r == Idle
  {
    if state == Disable then state else Idle
  }

  /** How a call to `chat` starts. */
  datatype ChatStart =
    | NotIdle
    | NoSparkKey
    | Started(request: Spark.SparkRequest)

  /** The app's stores: keys, configuration, chat state, and history. */
  class ChatApp {
    var sparkKey: Option<XunFeiKey>
    var ttsKey: Option<XunFeiKey>
    var chatConfig: ChatConfig
    var chatState: ChatState
    var history: seq<Spark.RequestText>

    constructor()
      ensures sparkKey.None? && ttsKey.None? && chatConfig == DEFAULT_CONFIG
      ensures chatState == Disable && history == []
    {
      sparkKey := None;
      ttsKey := None;
      chatConfig := DEFAULT_CONFIG;
      chatState := Disable;
      history := [];
    }

    method SetSparkKey(key: XunFeiKey)
      modifies this
      ensures sparkKey == StoredKey(old(sparkKey), key)
      ensures ttsKey == old(ttsKey) && chatConfig == old(chatConfig) && chatState == old(chatState)
      ensures history == old(history)
    {
      if |key.appId| > 0 && |key.apiSecret| > 0 && |key.apiKey| > 0 {
        sparkKey := Some(key);
      }
    }

    method SetTtsKey(key: XunFeiKey)
      modifies this
      ensures ttsKey == StoredKey(old(ttsKey), key)
      ensures sparkKey == old(sparkKey) && chatConfig == old(chatConfig) && chatState == old(chatState)
      ensures history == old(history)
    {
      if |key.appId| > 0 && |key.apiSecret| > 0 && |key.apiKey| > 0 {
        ttsKey := Some(key);
      }
    }

    /** `loadConfig`, given the parsed file or none when it does not exist. */
    method LoadConfig(parsed: Option<ParsedConfig>)
      modifies this
      ensures chatConfig == if parsed.Some? then Normalise(parsed.value) else old(chatConfig)
      ensures sparkKey == old(sparkKey) && ttsKey == old(ttsKey) && chatState == old(chatState)
      ensures history == old(history)
    {
      if parsed.Some? {
        chatConfig := Normalise(parsed.value);
      }
    }

    /** Another part of the app switching the chat state. */
    method SetChatState(state: ChatState)
      modifies this
      ensures chatState == state
      ensures sparkKey == old(sparkKey) && ttsKey == old(ttsKey) && chatConfig == old(chatConfig)
      ensures history == old(history)
    {
      chatState := state;
    }

    /**
     * The start of `chat`: nothing happens unless idle; without a complete
     * Spark key it throws; otherwise it starts chatting and asks the service
     * with the last ten history messages and the prompt.
     */
    method ChatBegin(contents: seq<ChatContent>, chatId: Option<string>) returns (r: ChatStart)
      modifies this
      ensures old(chatState) != Idle ==> r == NotIdle
      ensures old(chatState) == Idle && !(old(sparkKey).Some? && Complete(old(sparkKey).value)) ==> r == NoSparkKey
      ensures !r.Started? ==> chatState == old(chatState)
      ensures r.Started? <==> old(chatState) == Idle && old(sparkKey).Some? && Complete(old(sparkKey).value)
      ensures r.Started? ==> chatState == Chatting
                             && r.request == Spark.SparkRequest(
                                  old(sparkKey).value.appId, old(sparkKey).value.apiSecret, old(sparkKey).value.apiKey,
                                  None, None, None, None, chatId, Some(Window(history)),
                                  Prompt(chatConfig.characterSet, contents))
      ensures sparkKey == old(sparkKey) && ttsKey == old(ttsKey) && chatConfig == old(chatConfig)
      ensures history == old(history)
    {
      if chatState != Idle {
        return NotIdle;
      }
      if sparkKey.None? || !(|sparkKey.value.appId| > 0 && |sparkKey.value.apiSecret| > 0 && |sparkKey.value.apiKey| > 0) {
        return NoSparkKey;
      }
      var key := sparkKey.value;
      var historyList := if |history| < HISTORY_NUM then history else history[|history| - HISTORY_NUM..];
      chatState := Chatting;
      r := Started(Spark.SparkRequest(
        key.appId, key.apiSecret, key.apiKey, None, None, None, None, chatId, Some(historyList),
        Prompt(chatConfig.characterSet, contents)));
    }

    /**
     * One streamed piece of the reply, given the calling chat's own reply so
     * far (the empty string when its service request went out): kept and
     * handed on only while still chatting.
     */
    method ChatReceive(reply: string, content: string) returns (forwarded: bool, reply': string)
      ensures forwarded <==> chatState == Chatting
      ensures forwarded ==> reply' == reply + content
      ensures !forwarded ==> reply' == reply
    {
      forwarded := chatState == Chatting;
      reply' := reply;
      if forwarded {
        reply' := reply' + content;
      }
    }

    /**
     * The end of `chat`. `error` is what the service call raised, if
     * anything; it is raised again. Otherwise a chat still chatting records
     * its danmaku and `reply`, the one its own pieces built, and returns it.
     * Either way the state goes
     * back to idle unless the app was disabled.
     */
    method ChatEnd(contents: seq<ChatContent>, reply: string, error: Option<string>) returns (r: Result<Option<string>, string>)
      modifies this
      ensures error.Some? ==> r == Failure(error.value) && history == old(history)
      ensures error.None? && old(chatState) == Chatting ==>
                r == Success(Some(reply)) && history == Recorded(old(history), contents, reply)
      ensures error.None? && old(chatState) != Chatting ==> r == Success(None) && history == old(history)
      ensures chatState == AfterChat(old(chatState))
      ensures sparkKey == old(sparkKey) && ttsKey == old(ttsKey) && chatConfig == old(chatConfig)
    {
      if error.Some? {
        r := Failure(error.value);
      } else if chatState == Chatting {
        var entries := UserEntries(contents);
        if |entries| > 0 {
          history := history + entries;
          history := history + [Spark.RequestText(Spark.Assistant, reply)];
        }
        r := Success(Some(reply));
      } else {
        r := Success(None);
      }
      if chatState != Disable {
        chatState := Idle;
      }
    }
  }
}
