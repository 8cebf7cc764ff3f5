/**
 * The static feedback-reason table: each reason key with its display label and
 * its localisation key, in declaration order, plus the two lookups over it.
 */
module FeedbackReasons {
  import opened Common

  /** One entry of the table (`FeedbackReasonConfig`). */
  datatype ReasonConfig = ReasonConfig(key: FeedbackReason, displayLabel: string, i18nKey: string)

  /**
   * `FEEDBACK_REASONS`, a record from property name to entry. A record's
   * string-keyed properties are enumerated in insertion order, so it is kept
   * here as the ordered list of its (property, entry) pairs.
   */
  const FEEDBACK_REASONS: seq<(string, ReasonConfig)> := [
    ("INACCURATE", ReasonConfig(Inaccurate, "Inaccurate", "feedback.reasons.inaccurate")),
    ("TOO_VAGUE", ReasonConfig(Vague, "Too Vague", "feedback.reasons.tooVague")),
    ("TOO_LONG", ReasonConfig(Long, "Too Long", "feedback.reasons.tooLong"))
  ]

  /** `Object.values`: the entries of a record, in enumeration order. */
  function Values(table: seq<(string, ReasonConfig)>): (r: seq<ReasonConfig>)
    ensures |r| == |table|
    ensures forall i :: 0 <= i < |table| ==> r[i] == table[i].1
  {
    if table == [] then [] else [table[0].1] + Values(table[1..])
  }

  /** The position of each key in the table (a helper for the proofs). */
  function KeyIndex(k: FeedbackReason): (i: nat)
    ensures i < 3
  {
    match k
    case Inaccurate => 0
    case Vague => 1
    case Long => 2
  }

  /** `getFeedbackReasonsArray`: the three entries, in table order. */
  function GetFeedbackReasonsArray(): (r: seq<ReasonConfig>)
    ensures |r| == 3
    ensures r[0] == ReasonConfig(Inaccurate, "Inaccurate", "feedback.reasons.inaccurate")
    ensures r[1] == ReasonConfig(Vague, "Too Vague", "feedback.reasons.tooVague")
    ensures r[2] == ReasonConfig(Long, "Too Long", "feedback.reasons.tooLong")
    ensures forall i, j :: 0 <= i < j < |r| ==> r[i].key != r[j].key
    ensures forall k: FeedbackReason :: r[KeyIndex(k)].key == k
  {
    Values(FEEDBACK_REASONS)
  }

  /** Index `i` holds the first entry of `rs` whose key is `key`. */
  predicate IsFirstWithKey(rs: seq<ReasonConfig>, key: FeedbackReason, i: int)
  {
    0 <= i < |rs| && rs[i].key == key && forall j :: 0 <= j < i ==> rs[j].key != key
  }

  /** `rs.find((r) => r.key === key)`: the first entry with that key, if any. */
  function FindByKey(rs: seq<ReasonConfig>, key: FeedbackReason): (r: Option<ReasonConfig>)
    ensures r.None? <==> forall i :: 0 <= i < |rs| ==> rs[i].key != key
    ensures forall i :: IsFirstWithKey(rs, key, i) ==> r == Some(rs[i])
  {
    if rs == [] then None
    else if rs[0].key == key then Some(rs[0])
    else
      assert forall i :: IsFirstWithKey(rs, key, i) ==> IsFirstWithKey(rs[1..], key, i - 1);
      FindByKey(rs[1..], key)
  }

  /** `find(...)?.displayLabel || ''` over an arbitrary list of entries. */
  function LabelIn(rs: seq<ReasonConfig>, key: FeedbackReason): (r: string)
    ensures (forall i :: 0 <= i < |rs| ==> rs[i].key != key) ==> r == ""
    ensures forall i :: IsFirstWithKey(rs, key, i) ==> r == rs[i].displayLabel
  {
    var found := FindByKey(rs, key);
    if found.Some? then found.value.displayLabel else ""
  }

  /** `getLabelByReasonKey`: the label of the table entry with key `key`, or `''`. */
  function GetLabelByReasonKey(key: FeedbackReason): (r: string)
    ensures forall i :: 0 <= i < 3 && GetFeedbackReasonsArray()[i].key == key ==> r == GetFeedbackReasonsArray()[i].displayLabel
    ensures r != ""
  {
    var rs := GetFeedbackReasonsArray();
    assert IsFirstWithKey(rs, key, KeyIndex(key));
    LabelIn(rs, key)
  }

  /** The three typed keys get the three labels of the table. */
  lemma LabelsOfKeys()
    ensures GetLabelByReasonKey(Inaccurate) == "Inaccurate"
    ensures GetLabelByReasonKey(Vague) == "Too Vague"
    ensures GetLabelByReasonKey(Long) == "Too Long"
  {
    var rs := GetFeedbackReasonsArray();
    assert rs[0].key == Inaccurate && rs[1].key == Vague && rs[2].key == Long;
  }
}
