/**
 * Value types shared by the chat screen: optional and nullable fields, and the
 * closed string unions that the message record and the feedback table use.
 */
module Common {

  /** An optional field (`x?: T` in the source): absent, or present with a value. */
  datatype Option<T> = None | Some(value: T)

  /**
   * An optional field that may also hold `null` (`x?: T | null`): the source
   * distinguishes "never set" (undefined) from "explicitly cleared" (null).
   */
  datatype Nullable<T> = Undefined | Null | Value(value: T)

  /** `'user' | 'ai_astrologer' | 'human_astrologer' | 'system'` */
  datatype Sender = User | AiAstrologer | HumanAstrologer | System

  /** `'text' | 'event' | 'ai' | 'human'`, the message's `type` field */
  datatype MessageKind = Text | Event | Ai | Human

  /** `'liked' | 'disliked'` */
  datatype FeedbackType = Liked | Disliked

  /** `'inaccurate' | 'vague' | 'long'` */
  datatype FeedbackReason = Inaccurate | Vague | Long

  /**
   * JavaScript's `x || null` on a nullable field whose values are non-empty
   * strings (so every value is truthy): undefined and null both become null,
   * a value is kept.
   */
  function OrNull<T>(x: Nullable<T>): (r: Nullable<T>)
    ensures r != Undefined
    ensures r.Value? <==> x.Value?
    ensures x.Value? ==> r == x
  {
    if x.Value? then x else Null
  }
}
