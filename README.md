# Chat screen of an astrology consultation app, modelled in Dafny

The app shows one consultation chat. Its behaviour sits in five places, and
each one is a Dafny module here:

- **`MessagesSlice`** (`messages_slice.dfy`): the message store. It is an
  ordered list of message records in the class `MessageStore`, seeded with
  six messages. It has five reducers. `setMessages` replaces the list and
  `addMessage` appends to it. `updateMessage`, `setReaction` and
  `setFeedback` look up the first record with a given id and edit it in place.
  An id that matches no record changes nothing. The pure function `EditFirst`
  states what each editing reducer does to the list.
- **`ChatMessageItem`** (`chat_message.dfy`): one rendered message. The class
  `MessageItem` holds the item's own state: the swipe offset, the
  reaction-picker flag, the reason-chip flag and the chip animation. Its
  handlers return the ordered list of callback calls they make (`Call`).
  Beside it sit pure functions for the view: reply-target lookup, sender
  labels, and which feedback buttons and reason chips are shown.
- **`ChatScreen`** (`chat_screen.dfy`): the screen. The class `ChatScreen`
  holds the compose state (`inputText`, `replyingTo`), the rating-dialog
  flag, and the `MessageStore` it dispatches to. The module also has
  JavaScript's `trim`, the projection of stored records to the view, and
  `Deliver`, which says what each item callback does to the store.
- **`ChatRatingModal`** (`chat_rating_modal.dfy`): the rating dialog
  `RatingDialog`. It keeps a rating from 0 to 5 and a submitted flag.
- **`FeedbackReasons`** (`feedback_reasons.dfy`): the fixed three-entry
  reason table and its two lookups.
- **`Common`** (`common.dfy`): shared value types. A field typed
  `T | null | undefined` in the source becomes `Nullable<T>`
  (`Undefined | Null | Value`). Other optional fields become `Option<T>`.

Naming: the message field `type` is called `kind`, and the table field
`label` is called `displayLabel`, because both words are Dafny keywords.
Timestamps are integers (epoch milliseconds). The screen turns each one into
a `Date` value holding the same instant. The two clock readings in
`handleSendMessage` (`Date.now()` used for the id and for the timestamp) are
the parameters `freshId` and `now`.

Some behaviours of the code are easy to miss:

- Liking a message does not clear a stored reason. This is the finding below.
- Tapping "dislike" on a message that is already disliked sets the chip
  panel's opacity to 0 at once, which closes it, and sends
  `('disliked', reason)` again.
- Reason chips are rendered only under AI-astrologer messages that are
  disliked. The flag `showFeedbackChips` is set but never read when
  rendering. Whether chips can be seen depends on `feedbackChipsAnim`
  (`MessageItem.ChipsVisible`).
- There are five reducers: `setMessages`, `addMessage`, `updateMessage`,
  `setReaction` and `setFeedback`. `updateMessage` can overwrite any field of
  a record, the id included.

## Model

| member | source | states |
|---|---|---|
| Common.OrNull | store/messagesSlice.ts:84-85 | `x \|\| null` turns undefined or null into null and keeps a value; the result is never undefined |
| FeedbackReasons.Values | constants/feedbackReasons.ts:32 | `Object.values` keeps the table's entries in their declaration order |
| FeedbackReasons.GetFeedbackReasonsArray | constants/feedbackReasons.ts:12-33 | exactly three entries, in the order inaccurate, vague, long, with labels 'Inaccurate', 'Too Vague', 'Too Long' and their i18n keys; keys pairwise distinct; every key is in the table |
| FeedbackReasons.FindByKey | constants/feedbackReasons.ts:37 | `find` gives nothing iff no entry has the key, and otherwise gives the first entry that has it |
| FeedbackReasons.LabelIn | constants/feedbackReasons.ts:37-38 | the label of the first entry with the key; `''` when no entry has it |
| FeedbackReasons.GetLabelByReasonKey | constants/feedbackReasons.ts:36-39 | returns the label of the table entry with that key, which is never empty |
| FeedbackReasons.LabelsOfKeys | constants/feedbackReasons.ts:13-27 | inaccurate, vague and long map to 'Inaccurate', 'Too Vague' and 'Too Long' |
| MessagesSlice.OverlaySpread | store/messagesSlice.ts:75 | `{ ...m, ...changes }`: every field present in `changes` takes the given value, every field left out keeps `m`'s, and an empty `changes` gives `m` back |
| MessagesSlice.Apply | store/messagesSlice.ts:75-85 | setting a reaction changes only `reaction`; setting feedback changes only the two feedback fields (each stored as `x \|\| null`); only a merge that carries an id changes the id |
| MessagesSlice.Ids | store/messagesSlice.ts:4 | the id sequence has one entry per record, in order |
| MessagesSlice.FindIndex | store/messagesSlice.ts:74 | `findIndex` gives -1 iff no record has the id, and otherwise the first index whose record has it |
| MessagesSlice.EditFirst | store/messagesSlice.ts:73-87 | an editing reducer keeps the length, edits exactly the first match, and leaves every other index as it was; with no match the list is unchanged; the id sequence is kept unless a merge carries a new id |
| MessagesSlice.FindIndexFollowsIds | store/messagesSlice.ts:74 | lists with the same id sequence have the same first match |
| MessagesSlice.SetReactionIdempotent | store/messagesSlice.ts:77-80 | applying `setReaction` twice with the same payload equals applying it once |
| MessagesSlice.SetFeedbackLastWriteWins | store/messagesSlice.ts:81-87 | after two `setFeedback` calls on one id, the list is what the second call alone gives (e.g. disliked/vague then disliked/long leaves disliked/long) |
| MessagesSlice.LikedWithoutReasonClearsReason | store/messagesSlice.ts:84-85 | `setFeedback(id, 'liked')` with no reason stores 'liked' and a null reason, whatever the reason was before |
| MessagesSlice.EditsOfDistinctIdsCommute | store/messagesSlice.ts:73-87 | edits addressed to two different ids, none changing an id, can be applied in either order with the same result |
| MessagesSlice.MergeNothingIsNoOp | store/messagesSlice.ts:75 | merging an empty `changes` object leaves the list unchanged |
| MessagesSlice.MergeIdempotent | store/messagesSlice.ts:73-76 | merging the same id-preserving changes twice equals merging them once |
| MessagesSlice.AddEachAppends | store/messagesSlice.ts:70-72 | a run of `addMessage` calls appends the payloads at the end, in call order; the length grows by one per call |
| MessagesSlice.InitialState | store/messagesSlice.ts:16-63 | the seeded list has six messages |
| MessagesSlice.InitialIds | store/messagesSlice.ts:16-63 | the seeded ids are '1'..'6' in order, so they are distinct |
| MessagesSlice.InitialTimesIncrease | store/messagesSlice.ts:21-59 | the seeded timestamps strictly increase |
| MessagesSlice.InitialReplyResolves | store/messagesSlice.ts:31-53 | message '5' replies to '4', which is the fourth record; only message '3' has feedback, 'liked' with no reason |
| MessagesSlice.MessageStore.constructor | store/messagesSlice.ts:65-67 | the store starts with the seeded list |
| MessagesSlice.MessageStore.SetMessages | store/messagesSlice.ts:69 | the payload becomes the whole state |
| MessagesSlice.MessageStore.AddMessage | store/messagesSlice.ts:70-72 | the payload is appended; the length grows by one and earlier records keep their values and order |
| MessagesSlice.MessageStore.UpdateMessage | store/messagesSlice.ts:73-76 | the first match becomes itself overlaid with `changes`; every other index is untouched; an unknown id is a no-op |
| MessagesSlice.MessageStore.SetReaction | store/messagesSlice.ts:77-80 | sets or clears the first match's reaction; ids and length are kept; an unknown id is a no-op |
| MessagesSlice.MessageStore.SetFeedback | store/messagesSlice.ts:81-87 | stores both feedback fields on the first match, with a missing value stored as null; ids and length are kept; an unknown id is a no-op |
| ChatMessageItem.SwipeOffset | components/chat-message.tsx:69 | the visual offset is `max(translationX, 0)`, never negative |
| ChatMessageItem.ReactionToggle | components/chat-message.tsx:113-117 | sends null iff the chosen emoji is the current reaction; otherwise sends that emoji |
| ChatMessageItem.ReactionToggleTwice | components/chat-message.tsx:110-118 | choosing the same emoji twice restores a reaction that was absent or was that emoji |
| ChatMessageItem.FeedbackClickCalls | components/chat-message.tsx:120-133 | a like makes two calls, `('liked', null)` then `('liked', old reason)`; a dislike makes one, `('disliked', old reason)`; the last call always carries the message's prior reason |
| ChatMessageItem.FeedbackClickCallsFixed | components/chat-message.tsx:124-127 | corrected click: a like makes the single call `('liked', null)`; a dislike is as written |
| ChatMessageItem.FindById | components/chat-message.tsx:49 | `find` gives nothing iff no message has the id, and otherwise gives the first message that has it |
| ChatMessageItem.GetRepliedMessage | components/chat-message.tsx:47-50 | nothing when `replyTo` is absent or empty; otherwise the first message in `allMessages` with that id, or nothing when none has it |
| ChatMessageItem.SenderLabel | components/chat-message.tsx:237-239 | ai_astrologer, human_astrologer, user and system map to 'AI Astrologer', 'Astrologer', 'You' and 'System', each label iff its sender |
| ChatMessageItem.ReplyPreviewOf | components/chat-message.tsx:232-246 | a preview exists iff the reply target resolves; it shows the target's sender label and text |
| ChatMessageItem.ReplyPreviewResolves | components/chat-message.tsx:47-50 | in [{id '1'}, {id '2', replyTo '1'}], message '2' previews message '1'; a message with replyTo '99' gets no preview |
| ChatMessageItem.ShowsFeedbackButtons | components/chat-message.tsx:175 | the like and dislike buttons appear exactly under messages whose sender label is 'AI Astrologer' |
| ChatMessageItem.ShowsReasonChips | components/chat-message.tsx:207 | the chip panel is rendered exactly under a disliked 'AI Astrologer' message, so only where the feedback buttons are |
| ChatMessageItem.ReasonChips | components/chat-message.tsx:207-229 | no chips unless the message is an AI-astrologer message that is disliked; otherwise one chip per table entry, in table order, with that entry's label; a chip is selected iff its key is the message's reason, so at most one is selected |
| ChatMessageItem.MessageItem.ChipsVisible | components/chat-message.tsx:105-108 | chips can be seen only under a disliked AI-astrologer message whose panel is rendered with at least one chip, and never while the animation value is 0 |
| ChatMessageItem.MessageItem.constructor | components/chat-message.tsx:42-45 | offset 0, picker closed, chips closed, chip animation 0 |
| ChatMessageItem.MessageItem.OnPanBegin | components/chat-message.tsx:62-65 | starting a swipe closes the reaction picker and changes nothing else |
| ChatMessageItem.MessageItem.OnPanUpdate | components/chat-message.tsx:66-70 | the offset becomes `max(translationX, 0)` and changes nothing else |
| ChatMessageItem.MessageItem.OnPanEnd | components/chat-message.tsx:71-77 | exactly one reply call iff `translationX > 80`, none otherwise; the offset returns to 0 either way |
| ChatMessageItem.MessageItem.OnLongPressStart | components/chat-message.tsx:79-84 | the long press opens the reaction picker |
| ChatMessageItem.MessageItem.OnOverlayPress | components/chat-message.tsx:149-153 | a tap on the overlay closes the picker |
| ChatMessageItem.MessageItem.HandleReactionSelect | components/chat-message.tsx:110-118 | closes the picker and makes one call `(id, ReactionToggle(reaction, emoji))` |
| ChatMessageItem.MessageItem.PressPickerButton | components/chat-message.tsx:147-172 | the five emoji buttons exist only while the picker is open; a press closes the picker and sends the toggle of that emoji; with the picker closed nothing happens |
| ChatMessageItem.MessageItem.HandleFeedbackClick | components/chat-message.tsx:120-133 | the chips open (animation target 1) iff the click is a dislike of a message not yet disliked, and close (target 0) otherwise; after an opening click the re-rendered disliked AI message shows its chips, and after any other click no chips can be seen; the calls are `FeedbackClickCalls` |
| ChatMessageItem.MessageItem.HandleFeedbackClickFixed | components/chat-message.tsx:120-133 | the same chip behaviour and chip visibility; the calls are `FeedbackClickCallsFixed` |
| ChatMessageItem.MessageItem.HandleFeedbackReasonSelect | components/chat-message.tsx:135-137 | a chip tap makes one call `('disliked', reason)` |
| ChatMessageItem.SwipeScenario | components/chat-message.tsx:62-77 | dragging a fresh item to +100 moves it to offset 100; releasing requests exactly one reply and returns the offset to 0 |
| ChatScreen.TrimStart | components/chat-screen.tsx:61 | drops exactly the leading white space and line terminators |
| ChatScreen.TrimEnd | components/chat-screen.tsx:61 | drops exactly the trailing white space and line terminators |
| ChatScreen.Trim | components/chat-screen.tsx:61 | `trim()` is a prefix of what follows the leading run of white space and line terminators, and everything after that prefix is white space or line terminators; a non-empty result starts and ends with a kept character, so the result is determined |
| ChatScreen.SendBlocked | components/chat-screen.tsx:61 | a send is ignored exactly when every character of the input is white space or a line terminator |
| ChatScreen.TrimEmptyIffBlank | components/chat-screen.tsx:61 | `trim()` gives the empty string iff every character is white space or a line terminator |
| ChatScreen.ToView | components/chat-screen.tsx:45 | the view record keeps the id and holds a `Date` of the same instant; mapping it back gives the stored record unchanged |
| ChatScreen.Project | components/chat-screen.tsx:44-47 | the view has the same length, order, ids and fields as the store; only the timestamp becomes a `Date` of the same instant |
| ChatScreen.ProjectFindsSame | components/chat-screen.tsx:44-47 | looking up an id in the view finds the view of the record the store's `findIndex` finds, and finds nothing iff the store has no such id |
| ChatScreen.NewUserMessage | components/chat-screen.tsx:63-70 | the sent record has the given id and time, the untrimmed text, sender 'user', type 'text', `replyTo` equal to the pending target's id, `hasFeedback` absent, and no feedback or reaction |
| ChatScreen.Deliver | components/chat-screen.tsx:49-55 | a callback call never changes the store's length or its ids |
| ChatScreen.DeliverAll | components/chat-screen.tsx:84-92 | a handler's calls, delivered in order, never change the store's length or its ids |
| ChatScreen.LikeKeepsOldReason | components/chat-message.tsx:124-132 | as written, after a like the record is 'liked' and keeps its previous reason (stored as `x \|\| null`) |
| ChatScreen.LikeKeepsOldReasonExample | components/chat-message.tsx:124-132 | a disliked AI message with reason 'vague' is 'liked' with reason 'vague' after the like |
| ChatScreen.FixedLikeClearsReason | components/chat-message.tsx:124-127 | with the corrected click, a like leaves the record 'liked' with a null reason, and every other record unchanged |
| ChatScreen.DislikeThenChip | components/chat-message.tsx:121-137 | a dislike followed by a chip tap leaves the record 'disliked' with the chosen reason |
| ChatScreen.ReactionPickedTwiceRestores | components/chat-message.tsx:110-118 | picking one emoji twice, with a re-render between, restores the store when the record had no reaction or that emoji |
| ChatScreen.ChatScreen.constructor | components/chat-screen.tsx:32-58 | dialog hidden (line 32), empty input and no pending reply (lines 57-58) |
| ChatScreen.ChatScreen.Messages | components/chat-screen.tsx:44-47 | the handed-down list matches the store record by record |
| ChatScreen.ChatScreen.SendDisabled | components/chat-screen.tsx:147 | the send button is disabled exactly while every character of the input is white space or a line terminator |
| ChatScreen.ChatScreen.ChangeText | components/chat-screen.tsx:141 | typing replaces `inputText` and nothing else |
| ChatScreen.ChatScreen.HandleSendMessage | components/chat-screen.tsx:60-75 | blank input changes nothing; otherwise exactly one `NewUserMessage` is appended and `inputText` becomes '' and `replyingTo` null |
| ChatScreen.ChatScreen.HandleReply | components/chat-screen.tsx:77-82 | `replyingTo` becomes the swiped message's id and text |
| ChatScreen.ChatScreen.CloseReplyPreview | components/chat-screen.tsx:129 | the preview's close button resets `replyingTo` to null |
| ChatScreen.ChatScreen.HandleReaction | components/chat-screen.tsx:49-51 | `emoji ?? undefined`: null clears the reaction and an emoji is stored unchanged, via `setReaction` |
| ChatScreen.ChatScreen.HandleFeedback | components/chat-screen.tsx:53-55 | passes type and reason to `setFeedback` unchanged |
| ChatScreen.ChatScreen.Receive | components/chat-screen.tsx:84-92 | a reply call changes only `replyingTo`; a reaction or feedback call changes only the store, as `Deliver` says |
| ChatScreen.ChatScreen.OnBackPress | components/chat-screen.tsx:107 | the header's back button shows the rating dialog |
| ChatScreen.ChatScreen.OnRatingClose | components/chat-screen.tsx:110 | the dialog's `onClose` hides it |
| ChatScreen.ComposeScenario | components/chat-screen.tsx:60-75 | '  ' sends nothing, so the empty store stays empty; 'Hello' while replying to message '3' leaves exactly one record, a user message 'Hello' replying to '3', and clears both the input and the pending reply |
| ChatRatingModal.RatingDialog.CurrentPhase | components/chat-rating-modal.tsx:34 | the thank-you face is shown iff the rating was submitted |
| ChatRatingModal.RatingDialog.FilledCountUpTo | components/chat-rating-modal.tsx:45 | among stars 1..n, exactly `min(n, rating)` are drawn filled |
| ChatRatingModal.RatingDialog.FilledStarsShowRating | components/chat-rating-modal.tsx:38-50 | of the five stars exactly `rating` are filled, and the filled ones come first |
| ChatRatingModal.RatingDialog.SubmitDisabled | components/chat-rating-modal.tsx:54 | the Submit button is disabled exactly while no star is filled |
| ChatRatingModal.RatingDialog.constructor | components/chat-rating-modal.tsx:12-13 | rating 0, not submitted |
| ChatRatingModal.RatingDialog.PressStar | components/chat-rating-modal.tsx:38-50 | on the visible picking face, star n sets the rating to n and star k is then filled iff k <= n; the invariant (rating in 0..5, submitted implies at least 1) is kept |
| ChatRatingModal.RatingDialog.HandleSubmit | components/chat-rating-modal.tsx:15-19 | the dialog becomes submitted and the rating is kept |
| ChatRatingModal.RatingDialog.PressSubmit | components/chat-rating-modal.tsx:52-58 | the button submits iff the dialog is visible and the rating is not 0; the rating is kept |
| ChatRatingModal.RatingDialog.HandleClose | components/chat-rating-modal.tsx:21-26 | resets the rating to 0 and submitted to false, then calls `onClose` once |
| ChatRatingModal.RatingDialog.PressClose | components/chat-rating-modal.tsx:64-69 | on the visible thank-you face, resets and calls `onClose` once; otherwise nothing happens |
| ChatRatingModal.RatingDialog.RequestClose | components/chat-rating-modal.tsx:31 | the system back button calls `onClose` without resetting, and only while visible |
| ChatRatingModal.RatingScenario | components/chat-rating-modal.tsx:15-54 | four stars then submit leave rating 4 on the thank-you face; close then makes one `onClose` call and leaves rating 0 on the picking face |

## Findings

| source | as written | input that shows it | evidently intended | confidence | as-written member | corrected member |
|---|---|---|---|---|---|---|
| components/chat-message.tsx:124-132 | a like sends `('liked', null)` and then, on the line shared by all branches, `('liked', message.feedbackReason)` | an AI message stored as disliked with reason 'vague'; tap like; the store ends with 'liked' and 'vague' | liking clears the reason, as the null in the first call shows and `ChatScreen.FixedLikeClearsReason` proves of the correction | medium, not executed | ChatScreen.LikeKeepsOldReasonExample | ChatMessageItem.FeedbackClickCallsFixed |

The stale reason is not visible while the message is liked. It becomes
visible on the next dislike: that call re-sends the stored reason, so the
old chip comes back selected.

## Left out

- Animation: `withSpring`, `withTiming` and `interpolate` (reply-indicator opacity, chip height) are floating-point UI curves. `translateX` and `feedbackChipsAnim` hold the value their last assignment animates towards.
- `runOnJS`: this hands work from the gesture thread to the JavaScript thread, a concurrency boundary. Handlers run as one sequential step.
- Gesture recognition: the host gesture runtime decides when pan and long-press callbacks fire, including `activeOffsetX([-10, 10])` and the 500 ms hold. The handler methods are the callbacks.
- `Date.now()` and `toLocaleTimeString`: these are clock and locale calls. The id and timestamp are parameters, and the formatted time string is not modelled.
- Redux Toolkit, Immer, `useSelector`/`useDispatch` and React hooks: the store is the `MessageStore` object and the screen calls it directly. Each reducer is one step, so no reader sees a half-applied update.
- Optional callback props (`onReply?.()` and the others): the model assumes all three are wired, as `ChatScreen` always does. A missing callback would make no call. Likewise the default `allMessages = []` (components/chat-message.tsx:41) is not modelled: `ChatScreen` always passes `messages`, and with the default no reply preview would resolve.
- `Partial<Message>` with an explicit `undefined` for a required field such as `id` cannot be written as a `MessageChanges`. Optional fields can be set to undefined through `Put(None)` or `Put(Undefined)`.
- JavaScript strings are UTF-16. Here they are sequences of Unicode scalar values, and `trim`'s character set is written out.
- Numbers are unbounded integers. Timestamps are never fractional and the reducers do no arithmetic.
- `Sender` is a closed type, so the label mapping's "anything else gives 'System'" applies only to `system`.
- Layout and presentation: styles, which side the reaction bar and bubble sit on, the two-line truncation of the reply preview, icons, `Modal`, `BlurView`, `LayoutAnimation`, `KeyboardAvoidingView`, `StatusBar`, and the `Platform`/`UIManager` setup (components/chat-screen.tsx:36-41).
- components/chat-header.tsx renders the title and forwards three optional callbacks, `onBackPress`, `onPhonePress` and `onMorePress`. The screen wires only `onBackPress` (components/chat-screen.tsx:103-108), modelled as `ChatScreen.ChatScreen.OnBackPress`; the other two buttons do nothing. components/hello-wave.tsx is a decorative animation. Neither is otherwise part of this model.
- The unused `rating`/`ratingSubmitted` state of components/chat-screen.tsx:33-34, which nothing reads or writes.
- ChatRatingModal.RatingDialog.HandleSubmit: requires a non-zero rating, because its only caller is the Submit button, which is disabled at rating 0. `PressSubmit` models the press itself and needs no such requirement.
- ChatRatingModal.RatingDialog.PressStar: takes only stars 1 to 5, because those are the only star buttons rendered.
- ChatMessageItem.MessageItem.PressPickerButton: takes only indices of `EMOJI_REACTIONS`, because the picker renders one button per entry and no other.
