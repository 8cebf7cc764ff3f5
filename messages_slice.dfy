/**
 * The message store: an ordered list of message records, seeded with a
 * simulated conversation, and the five reducers that replace it, append to it,
 * or edit the first record carrying a given id in place. Every reducer is
 * total: an id that matches no record leaves the list as it was.
 */
module MessagesSlice {
  import opened Common

  /** A stored message; the source's `type` field is called `kind` here. */
  datatype Message = Message(
    id: string,
    text: string,
    sender: Sender,
    timestamp: int,   // epoch milliseconds
    kind: Option<MessageKind>,
    hasFeedback: Option<bool>,
    feedbackType: Nullable<FeedbackType>,
    feedbackReason: Nullable<FeedbackReason>,
    replyTo: Option<string>,
    reaction: Option<string>)

  /** A field of a `Partial<Message>`: left out of the object, or given a value. */
  datatype Change<T> = Keep | Put(value: T)

  /** `Partial<Message>`, the `changes` of `updateMessage`. */
  datatype MessageChanges = MessageChanges(
    id: Change<string>,
    text: Change<string>,
    sender: Change<Sender>,
    timestamp: Change<int>,
    kind: Change<Option<MessageKind>>,
    hasFeedback: Change<Option<bool>>,
    feedbackType: Change<Nullable<FeedbackType>>,
    feedbackReason: Change<Nullable<FeedbackReason>>,
    replyTo: Change<Option<string>>,
    reaction: Change<Option<string>>)

  /** The empty `changes` object. */
  const NoChanges := MessageChanges(Keep, Keep, Keep, Keep, Keep, Keep, Keep, Keep, Keep, Keep)

  /** The value a spread `{ ...old, ...changes }` gives one field. */
  function Pick<T>(c: Change<T>, old_: T): T
  {
    if c.Put? then c.value else old_
  }

  /** `{ ...m, ...changes }`: every property present in `changes` overrides `m`'s. */
  function Overlay(m: Message, c: MessageChanges): Message
  {
    Message(Pick(c.id, m.id), Pick(c.text, m.text), Pick(c.sender, m.sender),
            Pick(c.timestamp, m.timestamp), Pick(c.kind, m.kind),
            Pick(c.hasFeedback, m.hasFeedback), Pick(c.feedbackType, m.feedbackType),
            Pick(c.feedbackReason, m.feedbackReason), Pick(c.replyTo, m.replyTo),
            Pick(c.reaction, m.reaction))
  }

  /**
   * The spread's meaning: a field present in `changes` takes the given value,
   * a field left out keeps `m`'s, and the empty object gives `m` back.
   */
  lemma OverlaySpread(m: Message, c: MessageChanges)
    ensures c == NoChanges ==> Overlay(m, c) == m
    ensures (c.id.Put? ==> Overlay(m, c).id == c.id.value) && (c.text.Put? ==> Overlay(m, c).text == c.text.value)
      && (c.sender.Put? ==> Overlay(m, c).sender == c.sender.value) && (c.timestamp.Put? ==> Overlay(m, c).timestamp == c.timestamp.value)
      && (c.kind.Put? ==> Overlay(m, c).kind == c.kind.value) && (c.hasFeedback.Put? ==> Overlay(m, c).hasFeedback == c.hasFeedback.value)
      && (c.feedbackType.Put? ==> Overlay(m, c).feedbackType == c.feedbackType.value)
      && (c.feedbackReason.Put? ==> Overlay(m, c).feedbackReason == c.feedbackReason.value)
      && (c.replyTo.Put? ==> Overlay(m, c).replyTo == c.replyTo.value) && (c.reaction.Put? ==> Overlay(m, c).reaction == c.reaction.value)
    ensures (c.id.Keep? ==> Overlay(m, c).id == m.id) && (c.text.Keep? ==> Overlay(m, c).text == m.text)
      && (c.sender.Keep? ==> Overlay(m, c).sender == m.sender) && (c.timestamp.Keep? ==> Overlay(m, c).timestamp == m.timestamp)
      && (c.kind.Keep? ==> Overlay(m, c).kind == m.kind) && (c.hasFeedback.Keep? ==> Overlay(m, c).hasFeedback == m.hasFeedback)
      && (c.feedbackType.Keep? ==> Overlay(m, c).feedbackType == m.feedbackType)
      && (c.feedbackReason.Keep? ==> Overlay(m, c).feedbackReason == m.feedbackReason)
      && (c.replyTo.Keep? ==> Overlay(m, c).replyTo == m.replyTo) && (c.reaction.Keep? ==> Overlay(m, c).reaction == m.reaction)
  {
  }

  /** The in-place edit that one of the three editing reducers applies to the matched record. */
  datatype Edit =
    | Merge(changes: MessageChanges)                     // updateMessage
    | SetReactionTo(reaction: Option<string>)            // setReaction
    | SetFeedbackTo(feedbackType: Nullable<FeedbackType>,
                    feedbackReason: Nullable<FeedbackReason>)  // setFeedback

  /** `m` and `n` agree on every field except possibly `reaction`. */
  predicate SameExceptReaction(m: Message, n: Message)
  {
    m.id == n.id && m.text == n.text && m.sender == n.sender && m.timestamp == n.timestamp
    && m.kind == n.kind && m.hasFeedback == n.hasFeedback && m.feedbackType == n.feedbackType
    && m.feedbackReason == n.feedbackReason && m.replyTo == n.replyTo
  }

  /** `m` and `n` agree on every field except possibly the two feedback fields. */
  predicate SameExceptFeedback(m: Message, n: Message)
  {
    m.id == n.id && m.text == n.text && m.sender == n.sender && m.timestamp == n.timestamp
    && m.kind == n.kind && m.hasFeedback == n.hasFeedback && m.replyTo == n.replyTo
    && m.reaction == n.reaction
  }

  /** Whether an edit can change the record's id (only a merge that carries one). */
  predicate ChangesId(e: Edit)
  {
    e.Merge? && e.changes.id.Put?
  }

  /** What the edit does to the matched record. */
  function Apply(e: Edit, m: Message): (r: Message)
    ensures !ChangesId(e) ==> r.id == m.id
    ensures e.SetReactionTo? ==> r.reaction == e.reaction && SameExceptReaction(m, r)
    ensures e.SetFeedbackTo? ==>
      (SameExceptFeedback(m, r)
       && r.feedbackType == OrNull(e.feedbackType) && r.feedbackReason == OrNull(e.feedbackReason))
  {
    match e
    case Merge(c) => Overlay(m, c)
    case SetReactionTo(x) => m.(reaction := x)
    case SetFeedbackTo(t, why) => m.(feedbackType := OrNull(t), feedbackReason := OrNull(why))
  }

  /** The ids of the records, in order. */
  function Ids(ms: seq<Message>): (r: seq<string>)
    ensures |r| == |ms|
    ensures forall i :: 0 <= i < |ms| ==> r[i] == ms[i].id
  {
    if ms == [] then [] else [ms[0].id] + Ids(ms[1..])
  }

  /** Index `i` holds the first record whose id is `id`. */
  predicate IsFirstMatch(ms: seq<Message>, id: string, i: int)
  {
    0 <= i < |ms| && ms[i].id == id && forall j :: 0 <= j < i ==> ms[j].id != id
  }

  /** No record has id `id`. */
  predicate NoMatch(ms: seq<Message>, id: string)
  {
    forall j :: 0 <= j < |ms| ==> ms[j].id != id
  }

  /** `ms.findIndex((m) => m.id === id)`: the first matching index, or -1. */
  function FindIndex(ms: seq<Message>, id: string): (r: int)
    ensures -1 <= r < |ms|
    ensures r == -1 <==> NoMatch(ms, id)
    ensures r >= 0 ==> IsFirstMatch(ms, id, r)
  {
    if ms == [] then -1
    else if ms[0].id == id then 0
    else
      var k := FindIndex(ms[1..], id);
      if k == -1 then -1 else k + 1
  }

  /**
   * The list after one of the editing reducers: the first record with id `id`
   * is edited and every other record is kept; no record matches, nothing changes.
   */
  function EditFirst(ms: seq<Message>, id: string, e: Edit): (r: seq<Message>)
    ensures |r| == |ms|
    ensures forall i :: 0 <= i < |ms| && !IsFirstMatch(ms, id, i) ==> r[i] == ms[i]
    ensures forall i :: IsFirstMatch(ms, id, i) ==> r[i] == Apply(e, ms[i])
    ensures NoMatch(ms, id) ==> r == ms
    ensures !ChangesId(e) ==> Ids(r) == Ids(ms)
  {
    var idx := FindIndex(ms, id);
    if idx >= 0 then ms[idx := Apply(e, ms[idx])] else ms
  }

  /** The match found depends only on the ids of the list. */
  lemma {:induction false} FindIndexFollowsIds(ms: seq<Message>, ns: seq<Message>, id: string)
    requires Ids(ms) == Ids(ns)
    ensures FindIndex(ms, id) == FindIndex(ns, id)
  {
    if ms != [] {
      assert ms[0].id == Ids(ms)[0] == Ids(ns)[0] == ns[0].id;
      assert Ids(ms[1..]) == Ids(ms)[1..] && Ids(ns[1..]) == Ids(ns)[1..];
      FindIndexFollowsIds(ms[1..], ns[1..], id);
    }
  }

  /** `setReaction` applied twice with the same payload is `setReaction` applied once. */
  lemma SetReactionIdempotent(ms: seq<Message>, id: string, reaction: Option<string>)
    ensures EditFirst(EditFirst(ms, id, SetReactionTo(reaction)), id, SetReactionTo(reaction))
         == EditFirst(ms, id, SetReactionTo(reaction))
  {
    var once := EditFirst(ms, id, SetReactionTo(reaction));
    FindIndexFollowsIds(ms, once, id);
  }

  /** Of two `setFeedback` calls on one id, the second decides both feedback fields. */
  lemma SetFeedbackLastWriteWins(ms: seq<Message>, id: string,
                                 t1: Nullable<FeedbackType>, r1: Nullable<FeedbackReason>,
                                 t2: Nullable<FeedbackType>, r2: Nullable<FeedbackReason>)
    ensures EditFirst(EditFirst(ms, id, SetFeedbackTo(t1, r1)), id, SetFeedbackTo(t2, r2))
         == EditFirst(ms, id, SetFeedbackTo(t2, r2))
  {
    var once := EditFirst(ms, id, SetFeedbackTo(t1, r1));
    FindIndexFollowsIds(ms, once, id);
  }

  /**
   * `setFeedback(id, 'liked')` without a reason stores `'liked'` and a null
   * reason on the matched record, whatever reason it had before.
   */
  lemma LikedWithoutReasonClearsReason(ms: seq<Message>, id: string, i: int)
    requires IsFirstMatch(ms, id, i)
    ensures EditFirst(ms, id, SetFeedbackTo(Value(Liked), Undefined))[i].feedbackType == Value(Liked)
    ensures EditFirst(ms, id, SetFeedbackTo(Value(Liked), Undefined))[i].feedbackReason == Null
  {
  }

  /** Two edits of different records (ids of the list unchanged) commute. */
  lemma {:induction false} EditsOfDistinctIdsCommute(ms: seq<Message>, a: string, b: string, e: Edit, f: Edit)
    requires a != b && !ChangesId(e) && !ChangesId(f)
    ensures EditFirst(EditFirst(ms, a, e), b, f) == EditFirst(EditFirst(ms, b, f), a, e)
  {
    var ia, ib := FindIndex(ms, a), FindIndex(ms, b);
    var x := EditAt(ms, a, e, ia);
    var y := EditAt(ms, b, f, ib);
    FindIndexFollowsIds(ms, x, b);
    FindIndexFollowsIds(ms, y, a);
    var xy := EditAt(x, b, f, ib);
    var yx := EditAt(y, a, e, ia);
    if ia >= 0 && ib >= 0 {
      UpdatesCommute(ms, ia, ib, Apply(e, ms[ia]), Apply(f, ms[ib]));
    }
  }

  /** Writes to two different indices can be done in either order. */
  lemma UpdatesCommute(ms: seq<Message>, i: int, j: int, u: Message, v: Message)
    requires 0 <= i < |ms| && 0 <= j < |ms| && i != j
    ensures ms[i := u][j := v] == ms[j := v][i := u]
  {
  }

  /** `EditFirst` at a known first-match index, with the id sequence it keeps. */
  lemma EditAt(ms: seq<Message>, id: string, e: Edit, i: int) returns (r: seq<Message>)
    requires i == FindIndex(ms, id) && !ChangesId(e)
    ensures r == EditFirst(ms, id, e)
    ensures r == if i >= 0 then ms[i := Apply(e, ms[i])] else ms
    ensures Ids(r) == Ids(ms)
  {
    r := EditFirst(ms, id, e);
  }

  /** Merging the empty `changes` object leaves the list as it was. */
  lemma MergeNothingIsNoOp(ms: seq<Message>, id: string)
    ensures EditFirst(ms, id, Merge(NoChanges)) == ms
  {
    var idx := FindIndex(ms, id);
    if idx >= 0 {
      assert Overlay(ms[idx], NoChanges) == ms[idx];
    }
  }

  /** Merging the same id-preserving `changes` twice is merging them once. */
  lemma MergeIdempotent(ms: seq<Message>, id: string, c: MessageChanges)
    requires c.id.Keep?
    ensures EditFirst(EditFirst(ms, id, Merge(c)), id, Merge(c)) == EditFirst(ms, id, Merge(c))
  {
    FindIndexFollowsIds(ms, EditFirst(ms, id, Merge(c)), id);
  }

  /** `addMessage` called once per element of `xs`, in order. */
  function AddEach(ms: seq<Message>, xs: seq<Message>): seq<Message>
    decreases |xs|
  {
    if xs == [] then ms else AddEach(ms + [xs[0]], xs[1..])
  }

  /** A run of `addMessage` calls leaves the payloads at the end, in call order. */
  lemma {:induction false} AddEachAppends(ms: seq<Message>, xs: seq<Message>)
    ensures AddEach(ms, xs) == ms + xs
    ensures |AddEach(ms, xs)| == |ms| + |xs|
    decreases |xs|
  {
    if xs != [] {
      AddEachAppends(ms + [xs[0]], xs[1..]);
      assert ms + [xs[0]] + xs[1..] == ms + xs;
    }
  }

  /** The ids in the list are pairwise distinct. */
  predicate DistinctIds(ms: seq<Message>)
  {
    forall i, j :: 0 <= i < j < |ms| ==> ms[i].id != ms[j].id
  }

  /** Timestamps strictly increase along the list. */
  predicate StrictlyIncreasingTimes(ms: seq<Message>)
  {
    forall i :: 0 < i < |ms| ==> ms[i - 1].timestamp < ms[i].timestamp
  }

  // The texts of the seeded conversation.
  const SessionStartedText := "Your session with Astrologer Vikram has started."
  const AnxiousAboutJobText := "Namaste. I am feeling very anxious about my current job. Can you look at my chart?"
  const ShaniMahadashaText := "Namaste! I am analyzing your birth details. Currently, you are running through Shani Mahadasha. This often brings pressure but builds resilience."
  const SaturnTransitText := "I see the same. Look at your 6th house; Saturn is transiting there. This is why you feel the workload is heavy."
  const RemedyQuestionText := "Is there any remedy for this? I find it hard to focus."
  const ShaniMantraText := "I suggest chanting the Shani Mantra 108 times on Saturdays. Would you like the specific mantra text?"

  /** The seeded conversation the store starts with (`initialState`). */
  function InitialState(): (r: seq<Message>)
    ensures |r| == 6
  {
    [ Message("1", SessionStartedText,
              System, 1734681480000, Some(Event), None, Undefined, Undefined, None, None),
      Message("2", AnxiousAboutJobText,
              User, 1734681600000, Some(Text), None, Undefined, Undefined, None, None),
      Message("3", ShaniMahadashaText,
              AiAstrologer, 1734681660000, Some(Ai), Some(true), Value(Liked), Undefined, None, None),
      Message("4", SaturnTransitText,
              HumanAstrologer, 1734681720000, Some(Human), None, Undefined, Undefined, None, None),
      Message("5", RemedyQuestionText,
              User, 1734681780000, Some(Text), None, Undefined, Undefined, Some("4"), None),
      Message("6", ShaniMantraText,
              AiAstrologer, 1734681840000, Some(Ai), Some(false), Undefined, Undefined, None, None) ]
  }

  /** The seeded messages carry the ids '1' to '6', in order, so no id repeats. */
  lemma InitialIds()
    ensures Ids(InitialState()) == ["1", "2", "3", "4", "5", "6"]
    ensures DistinctIds(InitialState())
  {
    var ms := InitialState();
    assert ms[0].id == "1" && ms[1].id == "2" && ms[2].id == "3";
    assert ms[3].id == "4" && ms[4].id == "5" && ms[5].id == "6";
    var ids := Ids(ms);
    assert ids == ["1", "2", "3", "4", "5", "6"];
    forall i, j | 0 <= i < j < |ms| ensures ms[i].id != ms[j].id {
      assert ids[i] == ms[i].id && ids[j] == ms[j].id;
      assert ids[i][0] != ids[j][0];
    }
  }

  /** The seeded timestamps increase strictly along the list. */
  lemma InitialTimesIncrease()
    ensures StrictlyIncreasingTimes(InitialState())
  {
    var ms := InitialState();
    assert ms[0].timestamp < ms[1].timestamp < ms[2].timestamp;
    assert ms[2].timestamp < ms[3].timestamp < ms[4].timestamp < ms[5].timestamp;
  }

  /** Message '5' replies to '4', which is the fourth seeded record; no seeded record has feedback other than '3'. */
  lemma InitialReplyResolves()
    ensures InitialState()[4].replyTo == Some("4") && FindIndex(InitialState(), "4") == 3
    ensures forall i :: 0 <= i < 6 && i != 2 ==> InitialState()[i].feedbackType == Undefined
    ensures InitialState()[2].feedbackType == Value(Liked) && InitialState()[2].feedbackReason == Undefined
  {
    var ms := InitialState();
    assert ms[0].id == "1" && ms[1].id == "2" && ms[2].id == "3" && ms[3].id == "4";
    assert IsFirstMatch(ms, "4", 3);
    var k := FindIndex(ms, "4");
    assert k != -1 by { assert ms[3].id == "4"; }
    assert k == 3 by { assert IsFirstMatch(ms, "4", k); }
  }

  /**
   * The store's state: the message list the reducers act on. Each method is one
   * reducer and changes nothing but the list.
   */
  class MessageStore {
    var messages: seq<Message>

    /** A store holding `initialState`. */
    constructor ()
      ensures messages == InitialState()
    {
      messages := InitialState();
    }

    /** `setMessages`: the payload becomes the whole list. */
    method SetMessages(payload: seq<Message>)
      modifies this
      ensures messages == payload
    {
      messages := payload;
    }

    /** `addMessage`: the payload is appended; earlier records keep their values and order. */
    method AddMessage(payload: Message)
      modifies this
      ensures messages == old(messages) + [payload]
      ensures |messages| == |old(messages)| + 1 && messages[..|old(messages)|] == old(messages)
    {
      messages := messages + [payload];
    }

    /** `updateMessage`: the first record with id `id` becomes itself overlaid with `changes`. */
    method UpdateMessage(id: string, changes: MessageChanges)
      modifies this
      ensures messages == EditFirst(old(messages), id, Merge(changes))
      ensures NoMatch(old(messages), id) ==> messages == old(messages)
      ensures forall i :: IsFirstMatch(old(messages), id, i) ==> messages[i] == Overlay(old(messages)[i], changes)
    {
      var idx := FindIndex(messages, id);
      if idx >= 0 {
        messages := messages[idx := Overlay(messages[idx], changes)];
      }
    }

    /** `setReaction`: sets, or with `None` clears, the first match's reaction. */
    method SetReaction(id: string, reaction: Option<string>)
      modifies this
      ensures messages == EditFirst(old(messages), id, SetReactionTo(reaction))
      ensures Ids(messages) == Ids(old(messages))
      ensures NoMatch(old(messages), id) ==> messages == old(messages)
    {
      var idx := FindIndex(messages, id);
      if idx >= 0 {
        messages := messages[idx := messages[idx].(reaction := reaction)];
      }
    }

    /** `setFeedback`: stores both feedback fields on the first match, a missing value as null. */
    method SetFeedback(id: string, feedbackType: Nullable<FeedbackType>, feedbackReason: Nullable<FeedbackReason>)
      modifies this
      ensures messages == EditFirst(old(messages), id, SetFeedbackTo(feedbackType, feedbackReason))
      ensures Ids(messages) == Ids(old(messages))
      ensures NoMatch(old(messages), id) ==> messages == old(messages)
    {
      var idx := FindIndex(messages, id);
      if idx >= 0 {
        messages := messages[idx := messages[idx].(feedbackType := OrNull(feedbackType))];
        messages := messages[idx := messages[idx].(feedbackReason := OrNull(feedbackReason))];
      }
    }
  }
}
