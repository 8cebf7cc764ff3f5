/**
 * The chat screen: the compose state (input text and pending reply target),
 * the rating-dialog visibility flag, the view of the store it hands to each
 * message item, and the callbacks through which the items reach the store.
 */
module ChatScreen {
  import opened Common
  import opened MessagesSlice
  import opened ChatMessageItem

  /** The pending reply target shown above the input. */
  datatype ReplyingTo = ReplyingTo(id: string, text: string)

  // ----------------------------------------------------------------- trim

  /** The characters `String.prototype.trim` removes: ECMAScript white space and line terminators. */
  predicate IsTrimmed(c: char)
  {
    c == '\t' || c == '\n' || c == '\U{000B}' || c == '\U{000C}' || c == '\r' || c == ' '
    || c == '\U{00A0}' || c == '\U{1680}' || ('\U{2000}' <= c <= '\U{200A}')
    || c == '\U{2028}' || c == '\U{2029}' || c == '\U{202F}' || c == '\U{205F}'
    || c == '\U{3000}' || c == '\U{FEFF}'
  }

  /** Every character of `s` is one that `trim` removes. */
  predicate AllTrimmed(s: string)
  {
    forall i :: 0 <= i < |s| ==> IsTrimmed(s[i])
  }

  /** `s` without its leading trimmed characters. */
  function TrimStart(s: string): (r: string)
    ensures |r| <= |s| && r == s[|s| - |r|..]
    ensures AllTrimmed(s[..|s| - |r|])
    ensures r != [] ==> !IsTrimmed(r[0])
  {
    if s != [] && IsTrimmed(s[0]) then
      var r := TrimStart(s[1..]);
      assert s[1..][..|s| - 1 - |r|] == s[1..|s| - |r|];
      r
    else s
  }

  /** `s` without its trailing trimmed characters. */
  function TrimEnd(s: string): (r: string)
    ensures |r| <= |s| && r == s[..|r|]
    ensures AllTrimmed(s[|r|..])
    ensures r != [] ==> !IsTrimmed(r[|r| - 1])
  {
    if s != [] && IsTrimmed(s[|s| - 1]) then
      var r := TrimEnd(s[..|s| - 1]);
      assert s[..|s| - 1][|r|..] == s[|r|..|s| - 1];
      assert s[|r|..] == s[|r|..|s| - 1] + [s[|s| - 1]];
      r
    else s
  }

  /**
   * `s.trim()`: the part of `s` that follows its leading run of trimmed
   * characters and precedes its trailing one; a non-empty result starts and
   * ends with a kept character.
   */
  function Trim(s: string): (r: string)
    ensures |r| <= |TrimStart(s)| <= |s|
    ensures r == s[|s| - |TrimStart(s)|..][..|r|]
    ensures AllTrimmed(TrimStart(s)[|r|..])
    ensures r != [] ==> !IsTrimmed(r[0]) && !IsTrimmed(r[|r| - 1])
  {
    TrimEnd(TrimStart(s))
  }

  /** The trimmed text is empty exactly when every character is white space or a line terminator. */
  lemma TrimEmptyIffBlank(s: string)
    ensures |Trim(s)| == 0 <==> AllTrimmed(s)
  {
    var head := TrimStart(s);
    if |Trim(s)| == 0 {
      assert head[|Trim(s)|..] == head;
      assert head == [];
      assert s[..|s| - |head|] == s;
    }
  }

  /** `inputText.trim().length === 0`: a send is ignored exactly when the input is blank. */
  function SendBlocked(inputText: string): (r: bool)
    ensures r <==> AllTrimmed(inputText)
  {
    TrimEmptyIffBlank(inputText);
    |Trim(inputText)| == 0
  }

  // ----------------------------------------------------------- projection

  /** `{ ...m, timestamp: new Date(m.timestamp) }`. */
  function ToView(m: Message): (v: ChatMessage)
    ensures v.id == m.id && v.timestamp.epochMs == m.timestamp
    ensures FromView(v) == m
  {
    ChatMessage(m.id, m.text, m.sender, Date(m.timestamp), m.kind, m.hasFeedback,
                m.feedbackType, m.feedbackReason, m.replyTo, m.reaction)
  }

  /** The stored record a view record was made from. */
  function FromView(v: ChatMessage): Message
  {
    Message(v.id, v.text, v.sender, v.timestamp.epochMs, v.kind, v.hasFeedback,
            v.feedbackType, v.feedbackReason, v.replyTo, v.reaction)
  }

  /**
   * The `messages` the screen renders: one view record per stored record, in
   * order, each holding the same fields and the same instant.
   */
  function Project(ms: seq<Message>): (r: seq<ChatMessage>)
    ensures |r| == |ms|
    ensures forall i :: 0 <= i < |ms| ==> r[i].id == ms[i].id && FromView(r[i]) == ms[i]
  {
    if ms == [] then [] else [ToView(ms[0])] + Project(ms[1..])
  }

  /** Looking a record up in the view finds the view of the record found in the store. */
  lemma {:induction false} ProjectFindsSame(ms: seq<Message>, id: string)
    ensures FindById(Project(ms), id).None? <==> FindIndex(ms, id) == -1
    ensures FindIndex(ms, id) >= 0 ==> FindById(Project(ms), id) == Some(ToView(ms[FindIndex(ms, id)]))
  {
    if ms != [] {
      ProjectFindsSame(ms[1..], id);
      assert Project(ms)[1..] == Project(ms[1..]);
    }
  }

  // ------------------------------------------------------------- messages

  /** The record `handleSendMessage` appends: a user text message with the pending reply target. */
  function NewUserMessage(id: string, text: string, now: int, replyingTo: Option<ReplyingTo>): (m: Message)
    ensures m.id == id && m.text == text && m.sender == User && m.timestamp == now && m.kind == Some(Text)
    ensures m.replyTo == (if replyingTo.Some? then Some(replyingTo.value.id) else None)
    ensures m.hasFeedback == None && m.feedbackType == Undefined && m.feedbackReason == Undefined
    ensures m.reaction == None
  {
    Message(id, text, User, now, Some(Text), None, Undefined, Undefined,
            if replyingTo.Some? then Some(replyingTo.value.id) else None, None)
  }

  /** What one callback call does to the store (`handleReply` leaves it alone). */
  function Deliver(ms: seq<Message>, c: Call): (r: seq<Message>)
    ensures |r| == |ms| && Ids(r) == Ids(ms)
  {
    match c
    case OnReply(_) => ms
    case OnReaction(id, emoji) => EditFirst(ms, id, SetReactionTo(emoji))
    case OnFeedback(id, t, why) => EditFirst(ms, id, SetFeedbackTo(t, why))
  }

  /** The store after a handler's calls, delivered in order. */
  function DeliverAll(ms: seq<Message>, calls: seq<Call>): (r: seq<Message>)
    ensures |r| == |ms| && Ids(r) == Ids(ms)
    decreases |calls|
  {
    if calls == [] then ms else DeliverAll(Deliver(ms, calls[0]), calls[1..])
  }

  /** Delivering one call. */
  lemma DeliverOne(ms: seq<Message>, c: Call)
    ensures DeliverAll(ms, [c]) == Deliver(ms, c)
  {
    assert [c][1..] == [];
  }

  /** Delivering two calls, one after the other. */
  lemma DeliverTwo(ms: seq<Message>, c: Call, d: Call)
    ensures DeliverAll(ms, [c, d]) == Deliver(Deliver(ms, c), d)
  {
    assert [c, d][1..] == [d];
    DeliverOne(Deliver(ms, c), d);
  }

  /** The record the first match of `id` turns into under `setFeedback(id, t, why)`. */
  lemma FeedbackAt(ms: seq<Message>, i: int, t: Nullable<FeedbackType>, why: Nullable<FeedbackReason>)
    requires 0 <= i < |ms| && IsFirstMatch(ms, ms[i].id, i)
    ensures EditFirst(ms, ms[i].id, SetFeedbackTo(t, why))[i].feedbackType == OrNull(t)
    ensures EditFirst(ms, ms[i].id, SetFeedbackTo(t, why))[i].feedbackReason == OrNull(why)
  {
    var r := EditFirst(ms, ms[i].id, SetFeedbackTo(t, why));
    assert r[i] == Apply(SetFeedbackTo(t, why), ms[i]);
  }

  /** A list with the same ids has its first match of an id at the same index. */
  lemma StillFirstMatch(ms: seq<Message>, ns: seq<Message>, i: int)
    requires 0 <= i < |ms| && IsFirstMatch(ms, ms[i].id, i) && Ids(ms) == Ids(ns)
    ensures 0 <= i < |ns| && ns[i].id == ms[i].id && IsFirstMatch(ns, ms[i].id, i)
  {
    FindIndexFollowsIds(ms, ns, ms[i].id);
    assert Ids(ns)[i] == ns[i].id;
    var k := FindIndex(ns, ms[i].id);
    assert k == i by {
      var k0 := FindIndex(ms, ms[i].id);
      assert IsFirstMatch(ms, ms[i].id, k0);
    }
  }

  /**
   * As written, liking a message sends the old reason again after the null,
   * so the stored reason survives the like.
   */
  lemma LikeKeepsOldReason(ms: seq<Message>, i: int)
    requires 0 <= i < |ms| && IsFirstMatch(ms, ms[i].id, i)
    ensures DeliverAll(ms, FeedbackClickCalls(ToView(ms[i]), Liked))[i].feedbackType == Value(Liked)
    ensures DeliverAll(ms, FeedbackClickCalls(ToView(ms[i]), Liked))[i].feedbackReason == OrNull(ms[i].feedbackReason)
  {
    var id, old_ := ms[i].id, ms[i].feedbackReason;
    var first, second := OnFeedback(id, Value(Liked), Null), OnFeedback(id, Value(Liked), old_);
    assert FeedbackClickCalls(ToView(ms[i]), Liked) == [first, second];
    DeliverTwo(ms, first, second);
    var once := EditFirst(ms, id, SetFeedbackTo(Value(Liked), Null));
    StillFirstMatch(ms, once, i);
    FeedbackAt(once, i, Value(Liked), old_);
  }

  /** A disliked message with reason 'vague' keeps 'vague' after the like. */
  lemma LikeKeepsOldReasonExample(m: Message)
    requires m.sender == AiAstrologer && m.feedbackType == Value(Disliked) && m.feedbackReason == Value(Vague)
    ensures DeliverAll([m], FeedbackClickCalls(ToView(m), Liked))[0].feedbackReason == Value(Vague)
    ensures DeliverAll([m], FeedbackClickCalls(ToView(m), Liked))[0].feedbackType == Value(Liked)
  {
    assert IsFirstMatch([m], m.id, 0);
    LikeKeepsOldReason([m], 0);
  }

  /** Corrected, a like always leaves the liked record with a null reason and the others untouched. */
  lemma FixedLikeClearsReason(ms: seq<Message>, i: int)
    requires 0 <= i < |ms| && IsFirstMatch(ms, ms[i].id, i)
    ensures DeliverAll(ms, FeedbackClickCallsFixed(ToView(ms[i]), Liked))[i].feedbackType == Value(Liked)
    ensures DeliverAll(ms, FeedbackClickCallsFixed(ToView(ms[i]), Liked))[i].feedbackReason == Null
    ensures forall j :: 0 <= j < |ms| && j != i ==> DeliverAll(ms, FeedbackClickCallsFixed(ToView(ms[i]), Liked))[j] == ms[j]
  {
    var id := ms[i].id;
    var only := OnFeedback(id, Value(Liked), Null);
    assert FeedbackClickCallsFixed(ToView(ms[i]), Liked) == [only];
    DeliverOne(ms, only);
    FeedbackAt(ms, i, Value(Liked), Null);
    var r := EditFirst(ms, id, SetFeedbackTo(Value(Liked), Null));
    forall j | 0 <= j < |ms| && j != i ensures r[j] == ms[j] {
      assert !IsFirstMatch(ms, id, j);
    }
  }

  /** A dislike then a chip tap leaves the record disliked with the chosen reason. */
  lemma DislikeThenChip(ms: seq<Message>, i: int, reason: FeedbackReason)
    requires 0 <= i < |ms| && IsFirstMatch(ms, ms[i].id, i)
    ensures DeliverAll(DeliverAll(ms, FeedbackClickCalls(ToView(ms[i]), Disliked)),
                       [OnFeedback(ms[i].id, Value(Disliked), Value(reason))])[i].feedbackType == Value(Disliked)
    ensures DeliverAll(DeliverAll(ms, FeedbackClickCalls(ToView(ms[i]), Disliked)),
                       [OnFeedback(ms[i].id, Value(Disliked), Value(reason))])[i].feedbackReason == Value(reason)
  {
    var id, old_ := ms[i].id, ms[i].feedbackReason;
    var click, chip := OnFeedback(id, Value(Disliked), old_), OnFeedback(id, Value(Disliked), Value(reason));
    var once := Deliver(ms, click);
    assert DeliverAll(ms, FeedbackClickCalls(ToView(ms[i]), Disliked)) == once by {
      assert FeedbackClickCalls(ToView(ms[i]), Disliked) == [click];
      DeliverOne(ms, click);
    }
    assert DeliverAll(once, [chip]) == EditFirst(once, id, SetFeedbackTo(Value(Disliked), Value(reason))) by {
      DeliverOne(once, chip);
    }
    StillFirstMatch(ms, once, i);
    FeedbackAt(once, i, Value(Disliked), Value(reason));
  }

  /**
   * Picking the same emoji twice on a rendered record, re-rendered in
   * between, restores the store when the record had no reaction or that one.
   */
  lemma ReactionPickedTwiceRestores(ms: seq<Message>, i: int, emoji: string)
    requires 0 <= i < |ms| && IsFirstMatch(ms, ms[i].id, i)
    requires ms[i].reaction == None || ms[i].reaction == Some(emoji)
    ensures
      var once := Deliver(ms, OnReaction(ms[i].id, ReactionToggle(ms[i].reaction, emoji)));
      Deliver(once, OnReaction(ms[i].id, ReactionToggle(once[i].reaction, emoji))) == ms
  {
    var id := ms[i].id;
    var once := Deliver(ms, OnReaction(id, ReactionToggle(ms[i].reaction, emoji)));
    FindIndexFollowsIds(ms, once, id);
    var twice := Deliver(once, OnReaction(id, ReactionToggle(once[i].reaction, emoji)));
    assert twice[i] == ms[i];
  }

  // --------------------------------------------------------------- screen

  /** The screen's own state, and the store it dispatches to. */
  class ChatScreen {
    const store: MessageStore
    var inputText: string
    var replyingTo: Option<ReplyingTo>
    var showRating: bool

    constructor (store: MessageStore)
      ensures this.store == store
      ensures inputText == "" && replyingTo == None && !showRating
    {
      this.store := store;
      inputText, replyingTo, showRating := "", None, false;
    }

    /** The list handed to the message items. */
    function Messages(): (r: seq<ChatMessage>)
      reads this, store
      ensures |r| == |store.messages|
      ensures forall i :: 0 <= i < |r| ==> FromView(r[i]) == store.messages[i]
    {
      Project(store.messages)
    }

    /** The send button's `disabled` flag: set exactly while the input is blank. */
    function SendDisabled(): (r: bool)
      reads this
      ensures r <==> AllTrimmed(inputText)
    {
      SendBlocked(inputText)
    }

    /** `onChangeText`. */
    method ChangeText(text: string)
      modifies this
      ensures inputText == text && replyingTo == old(replyingTo) && showRating == old(showRating)
    {
      inputText := text;
    }

    /**
     * `handleSendMessage`, with the clock reading passed in as `freshId` and
     * `now`: blank input changes nothing; otherwise the untrimmed text is
     * appended as a user message replying to the pending target, and both
     * compose fields are cleared.
     */
    method HandleSendMessage(freshId: string, now: int)
      modifies this, store
      ensures showRating == old(showRating)
      ensures SendBlocked(old(inputText)) ==>
        store.messages == old(store.messages)
        && inputText == old(inputText) && replyingTo == old(replyingTo)
      ensures !SendBlocked(old(inputText)) ==>
        store.messages == old(store.messages) + [NewUserMessage(freshId, old(inputText), now, old(replyingTo))]
        && inputText == "" && replyingTo == None
    {
      if SendBlocked(inputText) {
        return;
      }
      store.AddMessage(NewUserMessage(freshId, inputText, now, replyingTo));
      inputText := "";
      replyingTo := None;
    }

    /** `handleReply`: the swiped message becomes the pending reply target. */
    method HandleReply(message: ChatMessage)
      modifies this
      ensures replyingTo == Some(ReplyingTo(message.id, message.text))
      ensures inputText == old(inputText) && showRating == old(showRating)
    {
      replyingTo := Some(ReplyingTo(message.id, message.text));
    }

    /** The close button of the reply preview. */
    method CloseReplyPreview()
      modifies this
      ensures replyingTo == None
      ensures inputText == old(inputText) && showRating == old(showRating)
    {
      replyingTo := None;
    }

    /**
     * `handleReaction`: `null` becomes an absent reaction (`emoji ?? undefined`)
     * and an emoji is stored; `None` stands for both here, so the value passes through.
     */
    method HandleReaction(messageId: string, emoji: Option<string>)
      modifies store
      ensures store.messages == EditFirst(old(store.messages), messageId, SetReactionTo(emoji))
    {
      store.SetReaction(messageId, emoji);
    }

    /** `handleFeedback`: passed on to `setFeedback` unchanged. */
    method HandleFeedback(messageId: string, t: Nullable<FeedbackType>, why: Nullable<FeedbackReason>)
      modifies store
      ensures store.messages == EditFirst(old(store.messages), messageId, SetFeedbackTo(t, why))
    {
      store.SetFeedback(messageId, t, why);
    }

    /** One call from a message item, through the callback `renderMessage` wires for it. */
    method Receive(c: Call)
      modifies this, store
      ensures store.messages == Deliver(old(store.messages), c)
      ensures c.OnReply? ==> replyingTo == Some(ReplyingTo(c.message.id, c.message.text))
      ensures !c.OnReply? ==> replyingTo == old(replyingTo)
      ensures inputText == old(inputText) && showRating == old(showRating)
    {
      match c
      case OnReply(m) => HandleReply(m);
      case OnReaction(id, emoji) => HandleReaction(id, emoji);
      case OnFeedback(id, t, why) => HandleFeedback(id, t, why);
    }

    /** The header's back button opens the rating dialog. */
    method OnBackPress()
      modifies this
      ensures showRating && inputText == old(inputText) && replyingTo == old(replyingTo)
    {
      showRating := true;
    }

    /** The dialog's `onClose` hides it. */
    method OnRatingClose()
      modifies this
      ensures !showRating && inputText == old(inputText) && replyingTo == old(replyingTo)
    {
      showRating := false;
    }
  }

  /**
   * Blank input sends nothing; "Hello" while replying to message 3 appends one
   * user message replying to '3' and clears the input and the pending target.
   */
  method ComposeScenario(target: ChatMessage)
    returns (afterBlank: nat, added: Message, afterHello: nat, input: string, pending: Option<ReplyingTo>)
    requires target.id == "3"
    ensures afterBlank == 0 && afterHello == 1
    ensures added.sender == User && added.text == "Hello" && added.replyTo == Some("3")
    ensures input == "" && pending == None
  {
    var store := new MessageStore();
    store.SetMessages([]);
    var screen := new ChatScreen(store);
    screen.ChangeText("  ");
    assert AllTrimmed("  ");
    screen.HandleSendMessage("100", 100);
    afterBlank := |store.messages|;
    screen.HandleReply(target);
    screen.ChangeText("Hello");
    assert !IsTrimmed("Hello"[0]);
    screen.HandleSendMessage("101", 101);
    afterHello := |store.messages|;
    added := store.messages[0];
    input, pending := screen.inputText, screen.replyingTo;
  }
}
