/** Both ends of the web protocol together: the events one `SendMessage`
    invocation sends, handled in order by the page that invoked it. */
module Protocol {
  import opened Wrappers
  import opened Settings
  import opened Streams
  import opened Vendor
  import opened Hubs
  import opened BrowserApp

  /** The page's handler for one hub event. */
  function Deliver(p: Page, e: Event): (q: Page)
    requires Consistent(p)
    ensures Consistent(q)
  {
    match e
    case ReceiveMessageChunk(c) => ReceiveChunk(p, c)
    case ReceiveMessageComplete => ReceiveComplete(p)
    case ReceiveError(m) => ReceiveFailure(p, m)
  }

  /** The page after handling a list of events in order. */
  function DeliverAll(p: Page, es: seq<Event>): (q: Page)
    requires Consistent(p)
    ensures Consistent(q)
    decreases |es|
  {
    if es == [] then p else DeliverAll(Deliver(p, es[0]), es[1..])
  }

  /** The bubble a reply with chunk text `t` leaves: none when no chunk
      arrived. */
  function Bubble(t: string): seq<Entry>
  {
    if t == "" then [] else [BotBubble(t)]
  }

  lemma {:induction false} DeliverAllAppend(p: Page, a: seq<Event>, b: seq<Event>)
    requires Consistent(p)
    ensures DeliverAll(p, a + b) == DeliverAll(DeliverAll(p, a), b)
    decreases |a|
  {
    if a == [] {
      assert a + b == b;
    } else {
      assert (a + b)[0] == a[0];
      assert (a + b)[1..] == a[1..] + b;
      DeliverAllAppend(Deliver(p, a[0]), a[1..], b);
    }
  }

  /** Chunks arriving during a reply extend the current bubble: it shows
      what it showed before followed by the new payloads. */
  lemma {:induction false} ChunksExtendBubble(p: Page, ts: seq<string>)
    requires Consistent(p) && p.isReceiving
    ensures var q := DeliverAll(p, Chunks(ts));
      && q.isReceiving && q.currentElement == p.currentElement
      && q.currentMessage == p.currentMessage + Join(ts)
      && q.messages == p.messages[p.currentElement.value := BotBubble(q.currentMessage)]
      && q.typing == p.typing && q.sendDisabled == p.sendDisabled
      && q.inputDisabled == p.inputDisabled && q.status == p.status
    decreases |ts|
  {
    if ts == [] {
      assert p.messages[p.currentElement.value := BotBubble(p.currentMessage)] == p.messages;
    } else {
      var p1 := ReceiveChunk(p, ts[0]);
      assert Chunks(ts)[0] == ReceiveMessageChunk(ts[0]);
      assert Chunks(ts)[1..] == Chunks(ts[1..]);
      ChunksExtendBubble(p1, ts[1..]);
      assert p.currentMessage + Join(ts) == p.currentMessage + ts[0] + Join(ts[1..]);
    }
  }

  /** The chunks of a reply, arriving at a page not yet receiving, make one
      new bubble whose text is the chunks' payloads put together. */
  lemma ChunksMakeOneBubble(p: Page, ts: seq<string>)
    requires Consistent(p) && !p.isReceiving && ts != []
    ensures var q := DeliverAll(p, Chunks(ts));
      && q.isReceiving && q.currentMessage == Join(ts)
      && q.messages == p.messages + [BotBubble(Join(ts))]
      && !q.typing && q.sendDisabled == p.sendDisabled
      && q.inputDisabled == p.inputDisabled && q.status == p.status
  {
    var p1 := ReceiveChunk(p, ts[0]);
    assert Chunks(ts)[0] == ReceiveMessageChunk(ts[0]);
    assert Chunks(ts)[1..] == Chunks(ts[1..]);
    ChunksExtendBubble(p1, ts[1..]);
    UpdateLast(p.messages, BotBubble(ts[0]), BotBubble(Join(ts)));
  }

  /** Any reply of the promised shape (chunks, then one terminal event)
      ends the reply on the page: receiving off, input enabled, at most one
      bubble holding all the chunk text, and one error entry when the
      terminal event is an error. */
  lemma DeliverReply(p: Page, ts: seq<string>, t: Event)
    requires Consistent(p) && !p.isReceiving && t.Terminal()
    requires forall i :: 0 <= i < |ts| ==> ts[i] != ""
    ensures var q := DeliverAll(p, Chunks(ts) + [t]);
      && !q.isReceiving && !q.sendDisabled && !q.inputDisabled && q.status == p.status
      && q.messages == p.messages + Bubble(Join(ts))
                       + (if t.ReceiveError? then [ErrorNotice(t.message)] else [])
      && q.typing == (p.typing && ts == [] && t == ReceiveMessageComplete)
  {
    DeliverAllAppend(p, Chunks(ts), [t]);
    if ts == [] {
      assert Chunks(ts) == [];
    } else {
      ChunksMakeOneBubble(p, ts);
      assert Join(ts) == ts[0] + Join(ts[1..]);
    }
  }

  /** One invocation as the page sees it. An unsupported provider leaves
      the page exactly as it was, so input stays disabled after a send.
      Otherwise the reply always ends: input enabled again, one bubble
      holding the concatenation of every chunk the hub sent (none if no
      chunk was sent), and one error entry if the hub reported an error. */
  lemma ReplyOnPage(p: Page, cfg: Config, message: string, service: Service)
    requires Consistent(p) && !p.isReceiving
    ensures var r := Reply(cfg, message, service);
      var q := DeliverAll(p, r);
      && (r == [] ==> q == p)
      && (r != [] ==>
            && !q.isReceiving && !q.sendDisabled && !q.inputDisabled
            && q.messages == p.messages + Bubble(ChunkText(r))
                             + (if r[|r| - 1].ReceiveError? then [ErrorNotice(r[|r| - 1].message)] else []))
  {
    if Supported(ProviderName(cfg)) {
      ReplySplit(cfg, message, service);
      var ts := ReplyTexts(cfg, message, service);
      var t := ReplyEnd(cfg, message, service);
      DeliverReply(p, ts, t);
    }
  }

  /** A stream that ends normally, with some text: the page gains one bot
      bubble whose text is every fragment of the stream put together (null
      as ""), and is ready for the next message. */
  lemma SuccessfulReplyOnPage(p: Page, cfg: Config, message: string, service: Service)
    requires Consistent(p) && !p.isReceiving
    requires Supported(ProviderName(cfg)) && KeyConfigured(cfg, ProviderName(cfg))
    requires var s := service(RequestFor(cfg, ProviderName(cfg), message));
      !Throws(s) && Concat(s.fragments) != ""
    ensures var s := service(RequestFor(cfg, ProviderName(cfg), message));
      var q := DeliverAll(p, Reply(cfg, message, service));
      && q.messages == p.messages + [BotBubble(Concat(s.fragments))]
      && !q.isReceiving && !q.typing && !q.sendDisabled && !q.inputDisabled
  {
    var s := service(RequestFor(cfg, ProviderName(cfg), message));
    ReplySplit(cfg, message, service);
    var ts := ReplyTexts(cfg, message, service);
    assert ts == NonEmptyTexts(s.fragments);
    assert Join(ts) == Concat(s.fragments);
    assert ReplyEnd(cfg, message, service) == ReceiveMessageComplete;
    DeliverReply(p, ts, ReceiveMessageComplete);
    assert Bubble(Join(ts)) == [BotBubble(Concat(s.fragments))];
  }

  /** The whole web round trip for a stream that ends normally: send the
      input box's text, handle every event the hub sends back. The page
      gains the user bubble and one bot bubble with the whole reply. */
  lemma SuccessfulRoundTrip(p: Page, value: string, cfg: Config, service: Service)
    requires Consistent(p) && !p.isReceiving && Outgoing(value).Some?
    requires Supported(ProviderName(cfg)) && KeyConfigured(cfg, ProviderName(cfg))
    requires var s := service(RequestFor(cfg, ProviderName(cfg), Outgoing(value).value));
      !Throws(s) && Concat(s.fragments) != ""
    ensures var m := Outgoing(value).value;
      var s := service(RequestFor(cfg, ProviderName(cfg), m));
      var q := DeliverAll(Submit(p, value), Reply(cfg, m, service));
      && q.messages == p.messages + [UserBubble(m), BotBubble(Concat(s.fragments))]
      && !q.isReceiving && !q.typing && !q.sendDisabled && !q.inputDisabled
  {
    var p1 := Submit(p, value);
    SuccessfulReplyOnPage(p1, cfg, Outgoing(value).value, service);
  }

  /** The round trip for a stream that throws after `k` fragments: the
      text of the first `k` fragments in one bubble (if any of it is
      non-empty), then the error entry; the page is ready again. */
  lemma FailedRoundTrip(p: Page, value: string, cfg: Config, service: Service)
    requires Consistent(p) && !p.isReceiving && Outgoing(value).Some?
    requires Supported(ProviderName(cfg)) && KeyConfigured(cfg, ProviderName(cfg))
    requires Throws(service(RequestFor(cfg, ProviderName(cfg), Outgoing(value).value)))
    ensures var m := Outgoing(value).value;
      var s := service(RequestFor(cfg, ProviderName(cfg), m));
      var q := DeliverAll(Submit(p, value), Reply(cfg, m, service));
      && q.messages == p.messages + [UserBubble(m)]
                       + Bubble(Concat(s.fragments[..s.failure.value.after]))
                       + [ErrorNotice(s.failure.value.message)]
      && !q.isReceiving && !q.typing && !q.sendDisabled && !q.inputDisabled
  {
    var m := Outgoing(value).value;
    ReplySplit(cfg, m, service);
    DeliverReply(Submit(p, value), ReplyTexts(cfg, m, service), ReplyEnd(cfg, m, service));
  }

  /** The invocation's `catch` and `onreconnected` enable the input again
      without ending a reply that had started, so the page can send while
      it is still receiving. The next reply then has no bubble of its own:
      its text is appended to the earlier reply's bubble, which sits above
      the new user bubble, and the typing indicator stays on. */
  lemma StaleReplyOnPage(p: Page, value: string, cfg: Config, service: Service)
    requires Consistent(p) && p.isReceiving && Outgoing(value).Some?
    requires Supported(ProviderName(cfg)) && KeyConfigured(cfg, ProviderName(cfg))
    requires !Throws(service(RequestFor(cfg, ProviderName(cfg), Outgoing(value).value)))
    ensures var m := Outgoing(value).value;
      var s := service(RequestFor(cfg, ProviderName(cfg), m));
      var q := DeliverAll(Submit(p, value), Reply(cfg, m, service));
      && q.messages == (p.messages + [UserBubble(m)])
                         [p.currentElement.value := BotBubble(p.currentMessage + Concat(s.fragments))]
      && !q.isReceiving && !q.sendDisabled && !q.inputDisabled && q.typing
  {
    var m := Outgoing(value).value;
    var s := service(RequestFor(cfg, ProviderName(cfg), m));
    var p1 := Submit(p, value);
    ReplySplit(cfg, m, service);
    var ts := ReplyTexts(cfg, m, service);
    assert ts == NonEmptyTexts(s.fragments);
    assert ReplyEnd(cfg, m, service) == ReceiveMessageComplete;
    DeliverAllAppend(p1, Chunks(ts), [ReceiveMessageComplete]);
    ChunksExtendBubble(p1, ts);
  }

  /** Any reply of the promised shape, arriving while the page is still
      receiving an earlier one: the chunks extend the earlier bubble, an
      error adds its entry and turns the indicator off, and Complete
      leaves the indicator as it was. Either way the reply ends. */
  lemma StaleDeliverReply(p: Page, ts: seq<string>, t: Event)
    requires Consistent(p) && p.isReceiving && t.Terminal()
    ensures var q := DeliverAll(p, Chunks(ts) + [t]);
      && q.messages == p.messages[p.currentElement.value := BotBubble(p.currentMessage + Join(ts))]
                       + (if t.ReceiveError? then [ErrorNotice(t.message)] else [])
      && !q.isReceiving && !q.sendDisabled && !q.inputDisabled && q.status == p.status
      && q.typing == (p.typing && !t.ReceiveError?)
  {
    DeliverAllAppend(p, Chunks(ts), [t]);
    ChunksExtendBubble(p, ts);
  }

  /** The same for any reply of a supported provider to a message sent
      while the page is still receiving, failed ones included. A rejected
      key or a stream that throws ends in an error, which adds its entry
      and turns the typing indicator off; a normal end leaves it on. */
  lemma StaleReplyEnds(p: Page, value: string, cfg: Config, service: Service)
    requires Consistent(p) && p.isReceiving && Outgoing(value).Some?
    requires Supported(ProviderName(cfg))
    ensures var m := Outgoing(value).value;
      var t := ReplyEnd(cfg, m, service);
      var q := DeliverAll(Submit(p, value), Reply(cfg, m, service));
      && (t.ReceiveError? <==>
            !KeyConfigured(cfg, ProviderName(cfg))
            || Throws(service(RequestFor(cfg, ProviderName(cfg), m))))
      && q.messages == (p.messages + [UserBubble(m)])
                         [p.currentElement.value := BotBubble(p.currentMessage + Join(ReplyTexts(cfg, m, service)))]
                       + (if t.ReceiveError? then [ErrorNotice(t.message)] else [])
      && !q.isReceiving && !q.sendDisabled && !q.inputDisabled
      && q.typing == !t.ReceiveError?
  {
    var m := Outgoing(value).value;
    ReplySplit(cfg, m, service);
    StaleDeliverReply(Submit(p, value), ReplyTexts(cfg, m, service), ReplyEnd(cfg, m, service));
  }

  /** A reply cut off by a failed invocation, then a new message: the
      second reply's chunk lands in the first reply's bubble, above the
      send error and the new user bubble. */
  lemma StaleBubbleAfterInvokeFailure(p: Page, a: string, x: string, error: string, b: string, y: string)
    requires Consistent(p) && !p.isReceiving && Outgoing(a).Some? && Outgoing(b).Some?
    ensures var p1 := ReceiveChunk(Submit(p, a), x);
      var p2 := Submit(InvokeFailed(p1, error), b);
      ReceiveChunk(p2, y).messages
        == p.messages + [UserBubble(Outgoing(a).value), BotBubble(x + y),
                         SendFailedNotice(error), UserBubble(Outgoing(b).value)]
  {
    var n := |p.messages|;
    var p0 := Submit(p, a);
    var p1 := ReceiveChunk(p0, x);
    assert p1.messages == p.messages + [UserBubble(Outgoing(a).value), BotBubble(x)];
    assert p1.currentElement == Some(n + 1);
    var p2 := Submit(InvokeFailed(p1, error), b);
    assert p2.isReceiving && p2.currentElement == Some(n + 1) && p2.currentMessage == x;
    var p3 := ReceiveChunk(p2, y);
    assert p3.messages == p2.messages[n + 1 := BotBubble(x + y)];
  }

  /** With a provider name the hub does not know, a sent message gets no
      answer at all: the page keeps its input disabled and its typing
      indicator on. */
  lemma UnsupportedProviderStallsPage(p: Page, value: string, cfg: Config, service: Service)
    requires Consistent(p) && !p.isReceiving && Outgoing(value).Some?
    requires !Supported(ProviderName(cfg))
    ensures var q := DeliverAll(Submit(p, value), Reply(cfg, Outgoing(value).value, service));
      q.sendDisabled && q.inputDisabled && q.typing
  {
    ReplyOnPage(Submit(p, value), cfg, Outgoing(value).value, service);
  }

  /** An error ends the reply, so the next chunk starts a fresh bubble
      holding only that chunk. */
  lemma ChunkAfterErrorStartsFresh(p: Page, error: string, chunk: string)
    requires Consistent(p)
    ensures var q := ReceiveChunk(ReceiveFailure(p, error), chunk);
      && q.messages == p.messages + [ErrorNotice(error), BotBubble(chunk)]
      && q.currentMessage == chunk
  {
  }

  /** The two ends read an empty `Provider` differently: the page's
      `config.Provider || "OpenAI"` shows OpenAI, while the hub's `??`
      keeps the empty name and answers nothing. */
  lemma EmptyProviderSetting(cfg: Config, message: string, service: Service)
    requires ProviderKey in cfg && cfg[ProviderKey] == ""
    ensures ShownProvider(Some(cfg[ProviderKey])) == "OpenAI"
    ensures Reply(cfg, message, service) == []
  {
  }
}
