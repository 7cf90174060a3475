/** Shapes of the Amazon Lex V2 fulfillment event and response shared by the
    three revisions of the pizza-ordering handler, the fixed slot order, the
    "first missing slot" specification and the string helpers the confirmation
    messages are built with. */
module Lex {

  datatype Option<+T> = None | Some(value: T)

  /** The Python exception a turn ends in when the handler does not return. */
  datatype Failure =
    | AttributeError    // `.get` called on None or on a value that is not a dict
    | ClassifierRaised  // the sentiment call raised and nothing caught it
    | UnboundSentiment  // the local `sentiment` was read before any assignment

  datatype Result<+T> = Ok(value: T) | Err(error: Failure)

  /** One entry of `intent.slots`, as far as the handlers look into it.
      Null stands for JSON null and for every other falsy value; a truthy
      value that is not a dict is NotADict; a non-empty dict is Entry, holding
      its `value.interpretedValue` when that is present (an empty dict is
      falsy and behaves as Entry(None) does in every revision). */
  datatype SlotEntry =
    | Null
    | NotADict
    | Entry(interpreted: Option<string>)

  type SlotMap = map<string, SlotEntry>

  /** `sessionState.intent` of the event. A missing `sessionState` or
      `intent` reads as an empty dict: no name and an empty slot map.
      `slots == None` is a slots value that is null or not a dict. */
  datatype Intent = Intent(name: Option<string>, slots: Option<SlotMap>)

  /** The turn event; a missing or null `inputTranscript` reads as "". */
  datatype Event = Event(intent: Intent, inputTranscript: string)

  /** The answer of the sentiment classifier to one call. */
  datatype Classification = Label(sentiment: string) | Raised

  /** The outcome of speech synthesis followed by the upload of the audio. */
  datatype Synthesis = Uploaded(url: string) | SynthesisRaised

  datatype IntentState = InProgress | Fulfilled

  /** The `intent` of a response: either the event's own intent echoed as
      received, or one rebuilt from the name, the slot map and a state. */
  datatype ResponseIntent =
    | Echoed(raw: Intent)
    | Rebuilt(name: Option<string>, slots: SlotMap, state: IntentState)

  /** `dialogAction`: ElicitSlot with the slot to ask for, or Close with
      fulfillmentState Fulfilled. */
  datatype DialogAction = Elicit(slotToElicit: string) | CloseFulfilled

  /** A response; every message has content type PlainText. */
  datatype Response = Response(dialogAction: DialogAction, intent: ResponseIntent, messages: seq<string>)

  /** The order in which every revision looks for a missing slot. */
  const RequiredSlots: seq<string> :=
    ["pizzatype", "pizzasize", "crusttype", "toppings", "Customer-Name", "Contact-Info", "Order-Time"]

  /** Python truthiness of an optional string: neither None nor "". */
  predicate Truthy(v: Option<string>)
  {
    v.Some? && v.value != ""
  }

  /** What a revision counts as missing: `is None`, or any falsy value. */
  datatype MissingTest = IsNoneTest | FalsyTest

  predicate Missing(test: MissingTest, v: Option<string>)
  {
    match test
    case IsNoneTest => v.None?
    case FalsyTest => !Truthy(v)
  }

  /** Index k holds the first missing value of vals. */
  predicate IsFirstMissing(test: MissingTest, vals: seq<Option<string>>, k: int)
  {
    0 <= k < |vals| && Missing(test, vals[k]) && forall j :: 0 <= j < k ==> !Missing(test, vals[j])
  }

  /** The reference definition of the slot scan: the index of the first
      missing value, or None when every value is present. */
  function FirstMissingIndex(test: MissingTest, vals: seq<Option<string>>): (r: Option<nat>)
    ensures r.Some? ==> IsFirstMissing(test, vals, r.value)
    ensures r.None? <==> forall j :: 0 <= j < |vals| ==> !Missing(test, vals[j])
  {
    if |vals| == 0 then None
    else if Missing(test, vals[0]) then Some(0)
    else
      match FirstMissingIndex(test, vals[1..])
      case Some(k) => Some(k + 1)
      case None => None
  }

  /** The first missing value is unique, so any index that is first missing
      is the one the scan returns. */
  lemma FirstMissingIsUnique(test: MissingTest, vals: seq<Option<string>>, k: int)
    requires IsFirstMissing(test, vals, k)
    ensures FirstMissingIndex(test, vals) == Some(k)
  {
  }

  /** A scan by falsiness stops no later than a scan by `is None`, and the
      two disagree exactly when the falsy scan stops at an empty string. */
  lemma FalsyScanStopsNoLater(vals: seq<Option<string>>)
    ensures FirstMissingIndex(IsNoneTest, vals).Some? ==>
      FirstMissingIndex(FalsyTest, vals).Some? &&
      FirstMissingIndex(FalsyTest, vals).value <= FirstMissingIndex(IsNoneTest, vals).value
    ensures FirstMissingIndex(FalsyTest, vals) != FirstMissingIndex(IsNoneTest, vals) <==>
      FirstMissingIndex(FalsyTest, vals).Some? && vals[FirstMissingIndex(FalsyTest, vals).value] == Some("")
  {
  }

  /** The concatenation of the pieces of an f-string, left to right. */
  function Concat(pieces: seq<string>): string
  {
    if |pieces| == 0 then "" else pieces[0] + Concat(pieces[1..])
  }

  /** `part` occurs in `text` starting at index i. */
  predicate OccursAt(text: string, part: string, i: int)
  {
    0 <= i <= |text| - |part| && text[i..i + |part|] == part
  }

  /** `part` occurs in `text` as a contiguous substring. */
  predicate Mentions(text: string, part: string)
  {
    exists i :: 0 <= i <= |text| && OccursAt(text, part, i)
  }

  lemma MentionsPrefix(part: string, rest: string)
    ensures Mentions(part + rest, part)
  {
    assert OccursAt(part + rest, part, 0);
  }

  lemma MentionsAfter(before: string, text: string, part: string)
    requires Mentions(text, part)
    ensures Mentions(before + text, part)
  {
    var i: int :| 0 <= i <= |text| && OccursAt(text, part, i);
    assert text[i..i + |part|] == part;
    assert (before + text)[|before| + i..|before| + i + |part|] == text[i..i + |part|];
    assert OccursAt(before + text, part, |before| + i);
  }

  /** Every piece of an f-string appears in the string it produces. */
  lemma {:induction false} ConcatMentionsEachPiece(pieces: seq<string>, k: int)
    requires 0 <= k < |pieces|
    ensures Mentions(Concat(pieces), pieces[k])
  {
    if k == 0 {
      MentionsPrefix(pieces[0], Concat(pieces[1..]));
    } else {
      ConcatMentionsEachPiece(pieces[1..], k - 1);
      MentionsAfter(pieces[0], Concat(pieces[1..]), pieces[k]);
    }
  }

  /** The ElicitSlot response built by `elicit_slot`, the same in all three
      revisions. */
  function ElicitSlot(intentName: Option<string>, slots: SlotMap, slotToElicit: string, message: string): Response
  {
    Response(Elicit(slotToElicit), Rebuilt(intentName, slots, InProgress), [message])
  }

  /** The Close/Fulfilled response with one message built by `close_order`
      in the two revisions without audio. */
  function CloseOrder(intentName: Option<string>, slots: SlotMap, message: string): Response
  {
    Response(CloseFulfilled, Rebuilt(intentName, slots, Fulfilled), [message])
  }
}
