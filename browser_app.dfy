/** The browser client (MyChatBot.Web/wwwroot/app.js), reduced to its
    state: the three module-level variables, the enabled flags of the input
    box and the send button, the typing indicator, the status text, and the
    entries appended to the message list. Element creation, class names,
    scrolling and focus are left out. */
module BrowserApp {
  import opened Wrappers
  import opened Text

  /** An entry of the message list. */
  datatype Entry =
    | UserBubble(text: string)
    | BotBubble(text: string)
    | ErrorNotice(error: string)          // "エラー: <error>"
    | SendFailedNotice(error: string)     // "送信エラー: <message>"
    | ConnectFailedNotice                 // "could not connect to the server"

  /** The provider/status line. */
  datatype Status =
    | Initial                 // whatever the page starts with
    | Connected               // "接続済み"
    | ShowsProvider(name: string)
    | Online                  // "📡 接続済み"
    | Reconnecting            // "再接続中..."
    | Closed                  // "切断"
    | ConnectFailed           // "接続エラー"

  /** The client's whole state. `currentElement` stands for
      `currentMessageElement`: the position of its bubble in `messages`, or
      None for null. */
  datatype Page = Page(
    isReceiving: bool,
    currentMessage: string,
    currentElement: Option<nat>,
    messages: seq<Entry>,
    sendDisabled: bool,
    inputDisabled: bool,
    typing: bool,
    status: Status)

  /** While a reply is arriving, `currentMessageElement` is the bot bubble
      showing exactly `currentMessage`. */
  predicate Consistent(p: Page)
  {
    p.isReceiving ==>
      && p.currentElement.Some?
      && p.currentElement.value < |p.messages|
      && p.messages[p.currentElement.value] == BotBubble(p.currentMessage)
  }

  const Start := Page(false, "", None, [], false, false, false, Initial)

  /** The `ReceiveMessageChunk` handler. The first chunk of a reply hides
      the typing indicator, adds a new bot bubble and starts
      `currentMessage` from ""; every chunk is then appended to
      `currentMessage`, which the bubble shows. */
  function ReceiveChunk(p: Page, chunk: string): (q: Page)
    requires Consistent(p)
    ensures Consistent(q) && q.isReceiving
    ensures q.currentMessage == (if p.isReceiving then p.currentMessage else "") + chunk
    ensures !p.isReceiving ==> q.messages == p.messages + [BotBubble(chunk)] && !q.typing
    ensures !p.isReceiving ==> q.currentElement == Some(|p.messages|)
    ensures p.isReceiving ==> q.currentElement == p.currentElement
    ensures p.isReceiving ==> q.messages == p.messages[p.currentElement.value := BotBubble(q.currentMessage)]
    ensures p.isReceiving ==> q.typing == p.typing
    ensures q.sendDisabled == p.sendDisabled && q.inputDisabled == p.inputDisabled && q.status == p.status
  {
    var p1 := if p.isReceiving then p
              else p.(isReceiving := true, typing := false, messages := p.messages + [BotBubble("")],
                      currentElement := Some(|p.messages|), currentMessage := "");
    var text := p1.currentMessage + chunk;
    assert !p.isReceiving ==> text == chunk && p1.currentElement.value == |p.messages|;
    UpdateLast(p.messages, BotBubble(""), BotBubble(text));
    p1.(currentMessage := text, messages := p1.messages[p1.currentElement.value := BotBubble(text)])
  }

  lemma UpdateLast(s: seq<Entry>, x: Entry, y: Entry)
    ensures (s + [x])[|s| := y] == s + [y]
  {
  }

  /** The `ReceiveMessageComplete` handler: the reply is over and the input
      is enabled again. */
  function ReceiveComplete(p: Page): (q: Page)
    ensures Consistent(q) && !q.isReceiving
    ensures q.currentMessage == "" && q.currentElement.None?
    ensures !q.sendDisabled && !q.inputDisabled
    ensures q.messages == p.messages && q.typing == p.typing && q.status == p.status
  {
    p.(isReceiving := false, currentMessage := "", currentElement := None,
       sendDisabled := false, inputDisabled := false)
  }

  /** The `ReceiveError` handler: the reply is over, one error entry is
      added, the indicator is hidden and the input enabled again.
      `currentMessage` and `currentMessageElement` are left as they were. */
  function ReceiveFailure(p: Page, error: string): (q: Page)
    ensures Consistent(q) && !q.isReceiving
    ensures q.messages == p.messages + [ErrorNotice(error)]
    ensures !q.typing && !q.sendDisabled && !q.inputDisabled && q.status == p.status
    ensures q.currentMessage == p.currentMessage && q.currentElement == p.currentElement
  {
    p.(isReceiving := false, typing := false, messages := p.messages + [ErrorNotice(error)],
       sendDisabled := false, inputDisabled := false)
  }

  /** What `sendMessage` invokes on the hub: the trimmed input, unless it
      is empty. */
  function Outgoing(value: string): (m: Option<string>)
    ensures m.None? <==> forall i :: 0 <= i < |value| ==> IsJsWhiteSpace(value[i])
    ensures m.Some? ==> m.value == Trim(value) && m.value != ""
  {
    var message := Trim(value);
    if message == "" then None else Some(message)
  }

  /** `sendMessage` up to the `invoke` call: nothing for blank input;
      otherwise the user bubble, then input and button disabled and the
      typing indicator shown. */
  function Submit(p: Page, value: string): (q: Page)
    ensures Consistent(p) ==> Consistent(q)
    ensures Outgoing(value).None? ==> q == p
    ensures Outgoing(value).Some? ==>
      && q.messages == p.messages + [UserBubble(Outgoing(value).value)]
      && q.sendDisabled && q.inputDisabled && q.typing
      && q.isReceiving == p.isReceiving && q.currentMessage == p.currentMessage
      && q.currentElement == p.currentElement && q.status == p.status
  {
    match Outgoing(value)
    case None => p
    case Some(message) =>
      p.(messages := p.messages + [UserBubble(message)],
         sendDisabled := true, inputDisabled := true, typing := true)
  }

  /** The `catch` of `sendMessage`: the invocation failed. */
  function InvokeFailed(p: Page, error: string): (q: Page)
    ensures Consistent(p) ==> Consistent(q)
    ensures q.messages == p.messages + [SendFailedNotice(error)]
    ensures !q.sendDisabled && !q.inputDisabled && !q.typing
    ensures q.isReceiving == p.isReceiving && q.status == p.status
    ensures q.currentMessage == p.currentMessage && q.currentElement == p.currentElement
  {
    p.(messages := p.messages + [SendFailedNotice(error)],
       sendDisabled := false, inputDisabled := false, typing := false)
  }

  /** `onreconnecting`, `onreconnected` and `onclose`: only the status and
      the two enabled flags change. */
  function SetConnection(p: Page, status: Status, disabled: bool): (q: Page)
    ensures q.sendDisabled == disabled && q.inputDisabled == disabled && q.status == status
    ensures q.(sendDisabled := p.sendDisabled, inputDisabled := p.inputDisabled, status := p.status) == p
  {
    p.(status := status, sendDisabled := disabled, inputDisabled := disabled)
  }

  /** The provider name the page shows once appsettings.json is fetched:
      `config.Provider || "OpenAI"`: a missing or empty name shows as
      OpenAI. */
  function ShownProvider(setting: Option<string>): (name: string)
    ensures setting.None? || setting.value == "" ==> name == "OpenAI"
    ensures setting.Some? && setting.value != "" ==> name == setting.value
  {
    if setting.None? || setting.value == "" then "OpenAI" else setting.value
  }

  class ChatPage {
    var isReceiving: bool
    var currentMessage: string
    var currentMessageElement: Option<nat>
    var chatMessages: seq<Entry>
    var sendDisabled: bool
    var inputDisabled: bool
    var typingActive: bool
    var providerInfo: Status

    function Snapshot(): Page
      reads this
    {
      Page(isReceiving, currentMessage, currentMessageElement, chatMessages,
           sendDisabled, inputDisabled, typingActive, providerInfo)
    }

    ghost predicate Valid()
      reads this
    {
      Consistent(Snapshot())
    }

    /** The module's initial values; index.html, which fixes the initial
        DOM, is not part of this model, so the page is taken to start empty
        and enabled. */
    constructor ()
      ensures Valid() && Snapshot() == Start
    {
      isReceiving, currentMessage, currentMessageElement := false, "", None;
      chatMessages := [];
      sendDisabled, inputDisabled, typingActive := false, false, false;
      providerInfo := Initial;
    }

    method OnReceiveMessageChunk(chunk: string)
      requires Valid()
      modifies this
      ensures Valid() && Snapshot() == ReceiveChunk(old(Snapshot()), chunk)
    {
      if !isReceiving {
        isReceiving := true;
        typingActive := false;
        chatMessages := chatMessages + [BotBubble("")];
        currentMessageElement := Some(|chatMessages| - 1);
        currentMessage := "";
      }
      currentMessage := currentMessage + chunk;
      chatMessages := chatMessages[currentMessageElement.value := BotBubble(currentMessage)];
    }

    method OnReceiveMessageComplete()
      modifies this
      ensures Valid() && Snapshot() == ReceiveComplete(old(Snapshot()))
    {
      isReceiving := false;
      currentMessage := "";
      currentMessageElement := None;
      sendDisabled := false;
      inputDisabled := false;
    }

    method OnReceiveError(error: string)
      modifies this
      ensures Valid() && Snapshot() == ReceiveFailure(old(Snapshot()), error)
    {
      isReceiving := false;
      typingActive := false;
      chatMessages := chatMessages + [ErrorNotice(error)];
      sendDisabled := false;
      inputDisabled := false;
    }

    /** `sendMessage` with the input box holding `value`; returns the
        message passed to `connection.invoke`, or None when it returned
        early. */
    method SendMessage(value: string) returns (invoked: Option<string>)
      requires Valid()
      modifies this
      ensures Valid() && Snapshot() == Submit(old(Snapshot()), value)
      ensures invoked == Outgoing(value)
    {
      var message := Trim(value);
      if message == "" {
        return None;
      }
      chatMessages := chatMessages + [UserBubble(message)];
      sendDisabled := true;
      inputDisabled := true;
      typingActive := true;
      invoked := Some(message);
    }

    method OnInvokeFailed(error: string)
      requires Valid()
      modifies this
      ensures Valid() && Snapshot() == InvokeFailed(old(Snapshot()), error)
    {
      chatMessages := chatMessages + [SendFailedNotice(error)];
      sendDisabled := false;
      inputDisabled := false;
      typingActive := false;
    }

    method OnReconnecting()
      requires Valid()
      modifies this
      ensures Valid() && Snapshot() == SetConnection(old(Snapshot()), Reconnecting, true)
    {
      providerInfo := Reconnecting;
      sendDisabled := true;
      inputDisabled := true;
    }

    method OnReconnected()
      requires Valid()
      modifies this
      ensures Valid() && Snapshot() == SetConnection(old(Snapshot()), Online, false)
    {
      providerInfo := Online;
      sendDisabled := false;
      inputDisabled := false;
    }

    method OnClose()
      requires Valid()
      modifies this
      ensures Valid() && Snapshot() == SetConnection(old(Snapshot()), Closed, true)
    {
      providerInfo := Closed;
      sendDisabled := true;
      inputDisabled := true;
    }

    /** `connection.start()` resolved. */
    method OnStarted()
      requires Valid()
      modifies this
      ensures Valid() && Snapshot() == old(Snapshot()).(status := Connected)
    {
      providerInfo := Connected;
    }

    /** The fetched configuration arrived (`setting` is its `Provider`), or
        the fetch failed (None of the whole result). */
    method OnConfigFetched(fetched: Option<Option<string>>)
      requires Valid()
      modifies this
      ensures Valid()
      ensures Snapshot() == old(Snapshot()).(status :=
        if fetched.Some? then ShowsProvider(ShownProvider(fetched.value)) else Online)
    {
      if fetched.Some? {
        providerInfo := ShowsProvider(ShownProvider(fetched.value));
      } else {
        providerInfo := Online;
      }
    }

    /** `connection.start()` rejected. */
    method OnStartFailed()
      requires Valid()
      modifies this
      ensures Valid()
      ensures Snapshot() == old(Snapshot()).(status := ConnectFailed,
                                             messages := old(chatMessages) + [ConnectFailedNotice])
    {
      providerInfo := ConnectFailed;
      chatMessages := chatMessages + [ConnectFailedNotice];
    }
  }
}
