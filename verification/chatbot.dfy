/** The assistant page: a chat session created per interface language and an
    append-only transcript that every send extends by the user's message and
    exactly one model message. */
module Chatbot {
  import opened Types
  import opened Text
  import opened Session
  import opened Gemini

  const ChatModelName: string := "gemini-3-pro-preview"
  const InitMessageId: string := "init"

  const ZhChatInstruction: string :=
    "你是一個協助 AutoTube Studio 用戶的專業 AI 助手。" + "你精通 YouTube 演算法、影片腳本創作、" +
    "SEO 優化以及自動化工作流。" + "請以繁體中文回答用戶的問題，語氣專業且友善。"
  const EnChatInstruction: string :=
    "You are a professional AI " + "assistant for AutoTube Studio " + "users. You are an expert in " +
    "YouTube algorithms, video " + "script writing, SEO " + "optimization, and automation " +
    "workflows. Answer user " + "questions in English with a " + "professional and helpful tone."

  const ZhNoReplyText: string := "抱歉，我無法生成回應。"
  const EnNoReplyText: string := "I couldn't generate " + "a response."
  const ZhConnectionErrorText: string := "連線發生錯誤，" + "請檢查您的 API 金鑰或網路狀態。"
  const EnConnectionErrorText: string := "Connection error. Please " + "check your API key or " + "network status."

  /** A server-side conversation: the model and the instruction it was created with. */
  datatype ChatSession = ChatSession(model: string, systemInstruction: string)

  /** The assistant's instruction: the Chinese variant exactly for zh-TW. */
  function ChatInstruction(l: Language): (r: string)
    ensures r == ZhChatInstruction <==> l == ZhTW
    ensures l == En ==> r == EnChatInstruction
  {
    assert ZhChatInstruction[0] != EnChatInstruction[0];
    if l == ZhTW then ZhChatInstruction else EnChatInstruction
  }

  /** The content of the model message a send appends: the reply when there
      is one, the language's "no response" text for an empty reply, and the
      language's connection-error text when the call failed. Never empty. */
  function ReplyContent(reply: Result<Option<string>, Failure>, l: Language): (content: string)
    ensures content != ""
    ensures reply.Ok? && HasText(reply.value) ==> content == reply.value.value
    ensures reply.Ok? && !HasText(reply.value) ==>
      content == (if l == ZhTW then ZhNoReplyText else EnNoReplyText)
    ensures reply.Err? ==>
      content == (if l == ZhTW then ZhConnectionErrorText else EnConnectionErrorText)
  {
    assert |ZhNoReplyText| > 0 && |EnNoReplyText| > 0;
    assert |ZhConnectionErrorText| > 0 && |EnConnectionErrorText| > 0;
    match reply
    case Ok(text) =>
      if HasText(text) then text.value
      else if l == ZhTW then ZhNoReplyText else EnNoReplyText
    case Err(_) =>
      if l == ZhTW then ZhConnectionErrorText else EnConnectionErrorText
  }

  /** The send button is disabled while a reply is awaited or while the
      input is all white space. */
  function SendDisabled(isLoading: bool, input: string): (disabled: bool)
    ensures !disabled <==> !isLoading && !Blank(input)
  {
    isLoading || Trim(input) == ""
  }

  /** A send goes ahead only for input that trimming does not empty (input
      that is not all white space), once a session exists. */
  predicate SendAllowed(input: string, session: Option<ChatSession>)
  {
    !Blank(input) && session.Some?
  }

  /** Roles alternate through the transcript, starting with the model's
      welcome message: even positions are the model's, odd ones the user's. */
  predicate Alternates(ms: seq<ChatMessage>)
  {
    forall i :: 0 <= i < |ms| ==> ms[i].role == (if i % 2 == 0 then Model else User)
  }

  /** A transcript of a live session is the welcome message followed by
      complete exchanges. */
  predicate Conversation(ms: seq<ChatMessage>)
  {
    |ms| % 2 == 1 && Alternates(ms)
  }

  /** Appending one user message and one model message keeps a conversation
      a conversation. */
  lemma ExchangeKeepsConversation(ms: seq<ChatMessage>, user: ChatMessage, model: ChatMessage)
    requires Conversation(ms)
    requires user.role == User && model.role == Model
    ensures Conversation(ms + [user, model])
  {
  }

  /** The number of messages in `ms` written by `role`. */
  function CountRole(ms: seq<ChatMessage>, role: ChatRole): (n: nat)
    ensures n <= |ms|
  {
    if ms == [] then 0
    else CountRole(ms[..|ms| - 1], role) + (if ms[|ms| - 1].role == role then 1 else 0)
  }

  /** In a conversation the model has written exactly one message more than
      the user: the welcome message. */
  lemma {:induction false} ConversationCounts(ms: seq<ChatMessage>)
    requires Conversation(ms)
    ensures CountRole(ms, Model) == CountRole(ms, User) + 1
    decreases |ms|
  {
    if |ms| == 1 {
      assert ms[..0] == [];
    } else {
      var shorter := ms[..|ms| - 2];
      assert ms[..|ms| - 1][..|ms| - 2] == shorter;
      assert Conversation(shorter) by {
        forall i | 0 <= i < |shorter|
          ensures shorter[i].role == (if i % 2 == 0 then Model else User)
        {
          assert shorter[i] == ms[i];
        }
      }
      ConversationCounts(shorter);
    }
  }

  /** The page as it stands while `sendMessage` is awaited: the transcript
      ending in the user's message, the cleared input and the loading flag. */
  datatype Awaiting = Awaiting(messages: seq<ChatMessage>, input: string, isLoading: bool)

  class ChatPage {
    const store: Store
    var messages: seq<ChatMessage>
    var input: string
    var isLoading: bool
    var session: Option<ChatSession>
    /** Every text handed to the session's `sendMessage`, in order. */
    ghost var sent: seq<string>
    /** The state the last send left while its reply was awaited. */
    ghost var inFlight: Option<Awaiting>

    /** Before a session exists the transcript is empty; once one exists it
        is a conversation, and every user message was sent to the session. */
    ghost predicate Valid()
      reads this
    {
      && (session.None? ==> messages == [] && sent == [])
      && (session.Some? ==> Conversation(messages) && |messages| == 2 * |sent| + 1)
    }

    constructor (store: Store)
      ensures this.store == store
      ensures messages == [] && input == "" && !isLoading && session == None && sent == []
      ensures inFlight == None
      ensures Valid()
    {
      this.store := store;
      messages := [];
      input := "";
      isLoading := false;
      session := None;
      sent := [];
      inFlight := None;
    }

    /** The input box's change handler. */
    method EditInput(text: string)
      requires Valid()
      modifies this
      ensures Valid()
      ensures input == text
      ensures messages == old(messages) && isLoading == old(isLoading)
      ensures session == old(session) && sent == old(sent) && inFlight == old(inFlight)
    {
      input := text;
    }

    /** The session effect, run on mount and on every language change:
        without a key nothing happens; with one, a session for the current
        language replaces the old one and the transcript restarts with the
        welcome message. `welcome` is the language's welcome text and `now`
        the clock reading. */
    method InitSession(apiKey: Option<string>, welcome: string, now: int)
      requires Valid()
      modifies this
      ensures Valid()
      ensures !HasKey(apiKey) ==> unchanged(this)
      ensures HasKey(apiKey) ==>
        && session == Some(ChatSession(ChatModelName, ChatInstruction(store.language)))
        && messages == [ChatMessage(InitMessageId, Model, welcome, now)]
        && input == old(input) && isLoading == old(isLoading) && sent == []
        && inFlight == old(inFlight)
    {
      if !HasKey(apiKey) {
        return;
      }
      session := Some(ChatSession(ChatModelName, ChatInstruction(store.language)));
      messages := [ChatMessage(InitMessageId, Model, welcome, now)];
      sent := [];
    }

    /** `handleSend`, run to completion. `reply` is how the session's
        `sendMessage` settled (its text, possibly absent, or the error it
        threw); `sentAt` and `repliedAt` are the clock readings taken when the
        user's and the model's messages are built. */
    method HandleSend(reply: Result<Option<string>, Failure>, sentAt: nat, repliedAt: nat)
      requires Valid()
      modifies this
      ensures Valid()
      ensures !SendAllowed(old(input), old(session)) ==> unchanged(this)
      ensures SendAllowed(old(input), old(session)) ==>
        && messages == old(messages) + [
             ChatMessage(NumberText(sentAt), User, old(input), sentAt),
             ChatMessage(NumberText(repliedAt + 1), Model, ReplyContent(reply, store.language), repliedAt)]
        && input == ""
        && !isLoading
        && session == old(session)
        && sent == old(sent) + [old(input)]
        && inFlight == Some(Awaiting(old(messages) + [ChatMessage(NumberText(sentAt), User, old(input), sentAt)], "", true))
    {
      var blank := TrimsToEmpty(input);
      if blank || session.None? {
        return;
      }
      var userMsg := ChatMessage(NumberText(sentAt), User, input, sentAt);
      messages := messages + [userMsg];
      input := "";
      isLoading := true;
      inFlight := Some(Awaiting(messages, input, isLoading));

      sent := sent + [userMsg.content];
      var botMsg := ChatMessage(NumberText(repliedAt + 1), Model, ReplyContent(reply, store.language), repliedAt);
      ExchangeKeepsConversation(old(messages), userMsg, botMsg);
      messages := messages + [botMsg];
      assert messages == old(messages) + [userMsg, botMsg];
      isLoading := false;
    }
  }
}
