/**
 * One rendered chat message: its per-item state (swipe offset, reaction
 * picker, reason-chip panel), the gesture and tap handlers that update that
 * state and emit callback calls to the screen, and the pure view logic
 * (reply-target lookup, sender labels, feedback buttons and reason chips).
 */
module ChatMessageItem {
  import opened Common
  import opened FeedbackReasons

  /** An instant, the `Date` the screen builds from a stored epoch-millisecond timestamp. */
  datatype Date = Date(epochMs: int)

  /** The message as the item receives it (`ChatMessage`): a stored message with a `Date` timestamp. */
  datatype ChatMessage = ChatMessage(
    id: string,
    text: string,
    sender: Sender,
    timestamp: Date,
    kind: Option<MessageKind>,
    hasFeedback: Option<bool>,
    feedbackType: Nullable<FeedbackType>,
    feedbackReason: Nullable<FeedbackReason>,
    replyTo: Option<string>,
    reaction: Option<string>)

  /** One invocation of a callback prop, in the order the handler makes them. */
  datatype Call =
    | OnReply(message: ChatMessage)
    | OnReaction(messageId: string, emoji: Option<string>)   // None is `null`
    | OnFeedback(messageId: string, feedbackType: Nullable<FeedbackType>,
                 feedbackReason: Nullable<FeedbackReason>)

  /** Rightward drag distance beyond which releasing requests a reply. */
  const SWIPE_THRESHOLD: int := 80

  /** The emoji the reaction picker offers, in display order. */
  const EMOJI_REACTIONS: seq<string> := ["\U{1F64F}", "\U{2728}", "\U{1F319}", "\U{1F44D}", "\U{1F38A}"]

  // ---------------------------------------------------------------- swipe

  /** `Math.max(translationX, 0)`: the visual offset while dragging. */
  function SwipeOffset(translationX: int): (r: int)
    ensures r >= 0 && r >= translationX
    ensures r == translationX || r == 0
  {
    if translationX > 0 then translationX else 0
  }

  /** Whether releasing a drag of `translationX` requests a reply (strictly beyond the threshold). */
  predicate RequestsReply(translationX: int)
  {
    translationX > SWIPE_THRESHOLD
  }

  // ------------------------------------------------------------- reactions

  /** The reaction the picker sends for `emoji`: `null` when it is already the reaction. */
  function ReactionToggle(current: Option<string>, emoji: string): (r: Option<string>)
    ensures r.None? <==> current == Some(emoji)
    ensures r.Some? ==> r.value == emoji
  {
    if current == Some(emoji) then None else Some(emoji)
  }

  /** Choosing the same emoji twice (the reaction updated in between) restores the reaction. */
  lemma ReactionToggleTwice(current: Option<string>, emoji: string)
    requires current == None || current == Some(emoji)
    ensures ReactionToggle(ReactionToggle(current, emoji), emoji) == current
  {
  }

  // -------------------------------------------------------------- feedback

  /**
   * The calls `handleFeedbackClick(t)` makes, as written: a like first sends
   * `('liked', null)`; every click then sends `t` with the reason the message
   * had when it was rendered.
   */
  function FeedbackClickCalls(message: ChatMessage, t: FeedbackType): (r: seq<Call>)
    ensures |r| == (if t == Liked then 2 else 1)
    ensures r[|r| - 1] == OnFeedback(message.id, Value(t), message.feedbackReason)
    ensures t == Liked ==> r[0] == OnFeedback(message.id, Value(Liked), Null)
  {
    (if t == Liked then [OnFeedback(message.id, Value(Liked), Null)] else [])
    + [OnFeedback(message.id, Value(t), message.feedbackReason)]
  }

  /**
   * The calls of a corrected `handleFeedbackClick`: a like sends only
   * `('liked', null)`, so the reason is cleared; a dislike is unchanged.
   */
  function FeedbackClickCallsFixed(message: ChatMessage, t: FeedbackType): (r: seq<Call>)
    ensures |r| == 1
    ensures t == Liked ==> r == [OnFeedback(message.id, Value(Liked), Null)]
    ensures t == Disliked ==> r == FeedbackClickCalls(message, Disliked)
  {
    if t == Liked then [OnFeedback(message.id, Value(Liked), Null)]
    else [OnFeedback(message.id, Value(Disliked), message.feedbackReason)]
  }

  /** Whether a feedback click opens the reason chips: a dislike of a message not yet disliked. */
  predicate OpensChips(message: ChatMessage, t: FeedbackType)
  {
    t == Disliked && message.feedbackType != Value(Disliked)
  }

  // ------------------------------------------------------------------ view

  /** Index `i` holds the first message of `ms` whose id is `id`. */
  predicate IsFirstWithId(ms: seq<ChatMessage>, id: string, i: int)
  {
    0 <= i < |ms| && ms[i].id == id && forall j :: 0 <= j < i ==> ms[j].id != id
  }

  /** `ms.find((msg) => msg.id === id)`. */
  function FindById(ms: seq<ChatMessage>, id: string): (r: Option<ChatMessage>)
    ensures r.None? <==> forall i :: 0 <= i < |ms| ==> ms[i].id != id
    ensures forall i :: IsFirstWithId(ms, id, i) ==> r == Some(ms[i])
  {
    if ms == [] then None
    else if ms[0].id == id then Some(ms[0])
    else
      assert forall i :: IsFirstWithId(ms, id, i) ==> IsFirstWithId(ms[1..], id, i - 1);
      FindById(ms[1..], id)
  }

  /** Whether `replyTo` names a target: it is present and, being a string, non-empty (truthy). */
  predicate HasReplyTarget(message: ChatMessage)
  {
    message.replyTo.Some? && message.replyTo.value != ""
  }

  /**
   * `getRepliedMessage`: nothing without a reply target, otherwise the first
   * message of `allMessages` carrying the target id, if there is one.
   */
  function GetRepliedMessage(message: ChatMessage, allMessages: seq<ChatMessage>): (r: Option<ChatMessage>)
    ensures !HasReplyTarget(message) ==> r.None?
    ensures HasReplyTarget(message) ==>
      (r.None? <==> forall i :: 0 <= i < |allMessages| ==> allMessages[i].id != message.replyTo.value)
    ensures forall i ::
      HasReplyTarget(message) && IsFirstWithId(allMessages, message.replyTo.value, i) ==> r == Some(allMessages[i])
  {
    if !HasReplyTarget(message) then None else FindById(allMessages, message.replyTo.value)
  }

  /** The label shown for a sender; each sender has its own. */
  function SenderLabel(s: Sender): (r: string)
    ensures r == "AI Astrologer" <==> s == AiAstrologer
    ensures r == "Astrologer" <==> s == HumanAstrologer
    ensures r == "You" <==> s == User
    ensures r == "System" <==> s == System
  {
    match s
    case AiAstrologer => "AI Astrologer"
    case HumanAstrologer => "Astrologer"
    case User => "You"
    case System => "System"
  }

  /** The reply preview above a bubble: the replied message's sender label and text. */
  datatype ReplyPreview = ReplyPreview(senderLabel: string, text: string)

  /** The preview rendered above a message, present exactly when its reply target resolves. */
  function ReplyPreviewOf(message: ChatMessage, allMessages: seq<ChatMessage>): (r: Option<ReplyPreview>)
    ensures r.Some? <==> GetRepliedMessage(message, allMessages).Some?
    ensures forall i ::
      HasReplyTarget(message) && IsFirstWithId(allMessages, message.replyTo.value, i) ==>
        r == Some(ReplyPreview(SenderLabel(allMessages[i].sender), allMessages[i].text))
  {
    var target := GetRepliedMessage(message, allMessages);
    if target.Some? then Some(ReplyPreview(SenderLabel(target.value.sender), target.value.text)) else None
  }

  /** A reply to an existing message gets a preview of it; a reply to a missing id gets none. */
  lemma ReplyPreviewResolves(first: ChatMessage, second: ChatMessage, dangling: ChatMessage)
    requires first.id == "1" && second.id == "2" && second.replyTo == Some("1")
    requires dangling.id == "3" && dangling.replyTo == Some("99")
    ensures ReplyPreviewOf(second, [first, second]) == Some(ReplyPreview(SenderLabel(first.sender), first.text))
    ensures ReplyPreviewOf(dangling, [first, second, dangling]).None?
  {
    assert IsFirstWithId([first, second], "1", 0);
  }

  /** The like and dislike buttons appear exactly under messages labelled 'AI Astrologer'. */
  function ShowsFeedbackButtons(message: ChatMessage): (r: bool)
    ensures r <==> SenderLabel(message.sender) == "AI Astrologer"
  {
    message.sender == AiAstrologer
  }

  /**
   * The reason chips are rendered exactly under a disliked message labelled
   * 'AI Astrologer', so only where the feedback buttons are.
   */
  function ShowsReasonChips(message: ChatMessage): (r: bool)
    ensures r ==> ShowsFeedbackButtons(message)
    ensures r <==> SenderLabel(message.sender) == "AI Astrologer" && message.feedbackType == Value(Disliked)
  {
    ShowsFeedbackButtons(message) && message.feedbackType == Value(Disliked)
  }

  /** One rendered reason chip. */
  datatype Chip = Chip(key: FeedbackReason, displayLabel: string, selected: bool)

  /**
   * The chips rendered under a message: one per table entry, in table order,
   * selected exactly when its key is the message's reason; none when the
   * chips are not shown.
   */
  function ReasonChips(message: ChatMessage): (r: seq<Chip>)
    ensures !ShowsReasonChips(message) ==> r == []
    ensures ShowsReasonChips(message) ==> |r| == |GetFeedbackReasonsArray()|
    ensures forall i :: 0 <= i < |r| ==>
      r[i].key == GetFeedbackReasonsArray()[i].key
      && r[i].displayLabel == GetFeedbackReasonsArray()[i].displayLabel
      && (r[i].selected <==> message.feedbackReason == Value(r[i].key))
    ensures forall i, j :: 0 <= i < j < |r| && r[i].selected ==> !r[j].selected
  {
    var table := GetFeedbackReasonsArray();
    if !ShowsReasonChips(message) then []
    else seq(|table|, i requires 0 <= i < |table| =>
               Chip(table[i].key, table[i].displayLabel, message.feedbackReason == Value(table[i].key)))
  }

  // ------------------------------------------------------------ the item

  /**
   * The state one message item keeps across renders. `translateX` and
   * `feedbackChipsAnim` are animated values; each holds the value its last
   * assignment animates towards.
   */
  class MessageItem {
    var translateX: int
    var showReactions: bool
    var showFeedbackChips: bool
    var feedbackChipsAnim: int

    /** The offset is never negative and the chip animation runs between 0 and 1. */
    predicate Valid()
      reads this
    {
      translateX >= 0 && (feedbackChipsAnim == 0 || feedbackChipsAnim == 1)
    }

    /** Whether the chips can be seen: rendered under `message`, and animated to full opacity. */
    function ChipsVisible(message: ChatMessage): (r: bool)
      reads this
      ensures r ==> ShowsFeedbackButtons(message) && message.feedbackType == Value(Disliked)
      ensures r ==> ReasonChips(message) != []
      ensures feedbackChipsAnim == 0 ==> !r
    {
      ShowsReasonChips(message) && feedbackChipsAnim == 1
    }

    constructor ()
      ensures Valid()
      ensures translateX == 0 && !showReactions && !showFeedbackChips && feedbackChipsAnim == 0
    {
      translateX, showReactions, showFeedbackChips, feedbackChipsAnim := 0, false, false, 0;
    }

    /** Pan `onBegin`: a new swipe closes the reaction picker. */
    method OnPanBegin()
      requires Valid()
      modifies this
      ensures Valid() && !showReactions
      ensures translateX == old(translateX) && showFeedbackChips == old(showFeedbackChips)
      ensures feedbackChipsAnim == old(feedbackChipsAnim)
    {
      showReactions := false;
    }

    /** Pan `onUpdate`: the bubble follows a rightward drag and stays put on a leftward one. */
    method OnPanUpdate(translationX: int)
      requires Valid()
      modifies this
      ensures Valid() && translateX == SwipeOffset(translationX)
      ensures showReactions == old(showReactions) && showFeedbackChips == old(showFeedbackChips)
      ensures feedbackChipsAnim == old(feedbackChipsAnim)
    {
      translateX := SwipeOffset(translationX);
    }

    /** Pan `onEnd`: one reply request beyond the threshold; the bubble springs back to 0 in any case. */
    method OnPanEnd(message: ChatMessage, translationX: int) returns (calls: seq<Call>)
      requires Valid()
      modifies this
      ensures Valid() && translateX == 0
      ensures RequestsReply(translationX) ==> calls == [OnReply(message)]
      ensures !RequestsReply(translationX) ==> calls == []
      ensures showReactions == old(showReactions) && showFeedbackChips == old(showFeedbackChips)
      ensures feedbackChipsAnim == old(feedbackChipsAnim)
    {
      calls := [];
      if translationX > SWIPE_THRESHOLD {
        calls := calls + [OnReply(message)];
      }
      translateX := 0;
    }

    /** Long-press `onStart`, after 500 ms of holding: the picker opens. */
    method OnLongPressStart()
      requires Valid()
      modifies this
      ensures Valid() && showReactions
      ensures translateX == old(translateX) && showFeedbackChips == old(showFeedbackChips)
      ensures feedbackChipsAnim == old(feedbackChipsAnim)
    {
      showReactions := true;
    }

    /** A tap on the overlay behind the picker closes it. */
    method OnOverlayPress()
      requires Valid()
      modifies this
      ensures Valid() && !showReactions
      ensures translateX == old(translateX) && showFeedbackChips == old(showFeedbackChips)
      ensures feedbackChipsAnim == old(feedbackChipsAnim)
    {
      showReactions := false;
    }

    /** `handleReactionSelect`: the picker closes and the toggled reaction is sent. */
    method HandleReactionSelect(message: ChatMessage, emoji: string) returns (calls: seq<Call>)
      requires Valid()
      modifies this
      ensures Valid() && !showReactions
      ensures calls == [OnReaction(message.id, ReactionToggle(message.reaction, emoji))]
      ensures translateX == old(translateX) && showFeedbackChips == old(showFeedbackChips)
      ensures feedbackChipsAnim == old(feedbackChipsAnim)
    {
      showReactions := false;
      calls := [OnReaction(message.id, ReactionToggle(message.reaction, emoji))];
    }

    /**
     * Pressing the picker's `i`-th emoji: the buttons exist only while the
     * picker is open, and a press is `handleReactionSelect` of that emoji.
     */
    method PressPickerButton(message: ChatMessage, i: int) returns (calls: seq<Call>)
      requires Valid() && 0 <= i < |EMOJI_REACTIONS|
      modifies this
      ensures Valid() && !showReactions
      ensures old(showReactions) ==> calls == [OnReaction(message.id, ReactionToggle(message.reaction, EMOJI_REACTIONS[i]))]
      ensures !old(showReactions) ==> calls == []
      ensures translateX == old(translateX) && showFeedbackChips == old(showFeedbackChips)
      ensures feedbackChipsAnim == old(feedbackChipsAnim)
    {
      calls := [];
      if showReactions {
        calls := HandleReactionSelect(message, EMOJI_REACTIONS[i]);
      }
    }

    /**
     * `handleFeedbackClick`, as written: a dislike of a message not yet
     * disliked opens the chips, any other click closes them; then the calls of
     * `FeedbackClickCalls`.
     */
    method HandleFeedbackClick(message: ChatMessage, t: FeedbackType) returns (calls: seq<Call>)
      requires Valid()
      modifies this
      ensures Valid()
      ensures showFeedbackChips == OpensChips(message, t)
      ensures feedbackChipsAnim == if OpensChips(message, t) then 1 else 0
      ensures calls == FeedbackClickCalls(message, t)
      ensures OpensChips(message, t) && ShowsFeedbackButtons(message) ==>
        ChipsVisible(message.(feedbackType := Value(Disliked)))
      ensures !OpensChips(message, t) ==> forall m :: !ChipsVisible(m)
      ensures translateX == old(translateX) && showReactions == old(showReactions)
    {
      calls := [];
      if t == Disliked && message.feedbackType != Value(Disliked) {
        showFeedbackChips := true;
        feedbackChipsAnim := 1;
      } else if t == Liked {
        showFeedbackChips := false;
        feedbackChipsAnim := 0;
        calls := calls + [OnFeedback(message.id, Value(Liked), Null)];
      } else {
        feedbackChipsAnim := 0;
        showFeedbackChips := false;
      }
      calls := calls + [OnFeedback(message.id, Value(t), message.feedbackReason)];
    }

    /** `handleFeedbackClick` corrected: the like branch does not re-send the old reason. */
    method HandleFeedbackClickFixed(message: ChatMessage, t: FeedbackType) returns (calls: seq<Call>)
      requires Valid()
      modifies this
      ensures Valid()
      ensures showFeedbackChips == OpensChips(message, t)
      ensures feedbackChipsAnim == if OpensChips(message, t) then 1 else 0
      ensures calls == FeedbackClickCallsFixed(message, t)
      ensures OpensChips(message, t) && ShowsFeedbackButtons(message) ==>
        ChipsVisible(message.(feedbackType := Value(Disliked)))
      ensures !OpensChips(message, t) ==> forall m :: !ChipsVisible(m)
      ensures translateX == old(translateX) && showReactions == old(showReactions)
    {
      if t == Disliked && message.feedbackType != Value(Disliked) {
        showFeedbackChips := true;
        feedbackChipsAnim := 1;
      } else {
        showFeedbackChips := false;
        feedbackChipsAnim := 0;
      }
      if t == Liked {
        calls := [OnFeedback(message.id, Value(Liked), Null)];
      } else {
        calls := [OnFeedback(message.id, Value(Disliked), message.feedbackReason)];
      }
    }

    /** `handleFeedbackReasonSelect`: a chip tap sends a dislike with that reason. */
    method HandleFeedbackReasonSelect(message: ChatMessage, reason: FeedbackReason) returns (calls: seq<Call>)
      ensures calls == [OnFeedback(message.id, Value(Disliked), Value(reason))]
    {
      calls := [OnFeedback(message.id, Value(Disliked), Value(reason))];
    }
  }

  /** Dragging a fresh item to +100 and releasing requests exactly one reply and resets the offset. */
  method SwipeScenario(message: ChatMessage) returns (calls: seq<Call>, dragged: int, released: int)
    ensures calls == [OnReply(message)]
    ensures dragged == 100 && released == 0
  {
    var item := new MessageItem();
    item.OnPanBegin();
    item.OnPanUpdate(100);
    dragged := item.translateX;
    calls := item.OnPanEnd(message, 100);
    released := item.translateX;
  }
}
