/** The third revision of the handler (AWS-CS-ChatBot/Amazon-Polly-MP3.py).
    It tolerates a missing or malformed slot map, dispatches on the intent
    name, scans the seven slots for the first falsy value, and closes a
    complete order with a confirmation whose wording depends on a sentiment
    label, followed by a second message with the URL of an audio rendering
    when one could be produced. The sentiment classifier and the
    synthesis/upload are outside calls; their answers are parameters. */
module PollyBot {
  import opened Lex

  const MenuFallback: string := "I'm here to help you order a pizza or answer questions about our menu."
  const Welcome: string := "Welcome, to Pizza House! How may I help you?"

  /** The intent name, defaulting to "UnknownIntent" when the intent has none. */
  function IntentName(intent: Intent): string
  {
    if intent.name.Some? then intent.name.value else "UnknownIntent"
  }

  /** `get_slot_value`: None when there is no slot map, when the entry is
      absent or falsy, or when it is not a dict; otherwise the entry's
      interpreted value. It never raises. */
  function GetSlotValue(slots: Option<SlotMap>, slotName: string): (v: Option<string>)
    ensures v.Some? <==> slots.Some? && slotName in slots.value && slots.value[slotName].Entry? &&
                         slots.value[slotName].interpreted.Some?
    ensures v.Some? ==> slots.value[slotName] == Entry(v)
  {
    if slots.None? then None
    else if slotName !in slots.value then None
    else
      match slots.value[slotName]
      case Null => None
      case NotADict => None
      case Entry(v) => v
  }

  /** The values of RequiredSlots, in order. */
  function SlotValues(slots: Option<SlotMap>): seq<Option<string>>
  {
    seq(|RequiredSlots|, k requires 0 <= k < |RequiredSlots| => GetSlotValue(slots, RequiredSlots[k]))
  }

  /** `check_missing_slots`: the name of the first required slot whose value
      is falsy, or None when all seven are non-empty. */
  method CheckMissingSlots(slots: Option<SlotMap>) returns (missing: Option<string>)
    ensures missing.None? <==> FirstMissingIndex(FalsyTest, SlotValues(slots)).None?
    ensures missing.Some? ==> missing.value == RequiredSlots[FirstMissingIndex(FalsyTest, SlotValues(slots)).value]
  {
    var requiredSlots := RequiredSlots;
    for i := 0 to |requiredSlots|
      invariant forall j :: 0 <= j < i ==> Truthy(SlotValues(slots)[j])
    {
      if !Truthy(GetSlotValue(slots, requiredSlots[i])) {
        FirstMissingIsUnique(FalsyTest, SlotValues(slots), i);
        return Some(requiredSlots[i]);
      }
    }
    return None;
  }

  /** `analyze_sentiment`: the classifier's label, or "UNKNOWN" when the call raises. */
  function AnalyzeSentiment(reply: Classification): string
  {
    match reply
    case Label(s) => s
    case Raised => "UNKNOWN"
  }

  /** The sentiment step of the OrderingPizza branch: the classifier is
      consulted only for a non-empty transcript, and its failure never escapes. */
  function TranscriptSentiment(transcript: string, classify: string -> Classification): (sentiment: Option<string>)
    ensures sentiment.None? <==> transcript == ""
    ensures sentiment.Some? && classify(transcript).Raised? ==> sentiment.value == "UNKNOWN"
    ensures sentiment.Some? && classify(transcript).Label? ==> sentiment.value == classify(transcript).sentiment
  {
    if transcript != "" then Some(AnalyzeSentiment(classify(transcript))) else None
  }

  /** `create_order_message`. */
  function CreateOrderMessage(pizzasize: string, pizzatype: string, crusttype: string, toppings: string,
                              customerName: string, orderTime: string, contactInfo: string,
                              sentiment: Option<string>): string
  {
    if sentiment == Some("NEGATIVE") then
      Concat(["Thank you ", customerName, ". ", "Sorry you're not feeling great.", " Enjoy your ",
              pizzasize, " ", pizzatype, " pizza with ", crusttype, " crust and ", toppings, "!"])
    else
      Concat(["Thank you ", customerName, "! Your ", pizzasize, " ", pizzatype, " pizza with ", crusttype,
              " crust and ", toppings, " will be ready at ", orderTime, ". Contact: ", contactInfo, "."])
  }

  /** The NEGATIVE message apologises, repeats name, size, type, crust and
      toppings, and is the same whatever the order time and contact are. */
  lemma NegativeOrderMessageOmitsTimeAndContact(pizzasize: string, pizzatype: string, crusttype: string, toppings: string,
                                                customerName: string, orderTime: string, contactInfo: string,
                                                otherTime: string, otherContact: string)
    ensures var m := CreateOrderMessage(pizzasize, pizzatype, crusttype, toppings, customerName, orderTime, contactInfo, Some("NEGATIVE"));
      && m == CreateOrderMessage(pizzasize, pizzatype, crusttype, toppings, customerName, otherTime, otherContact, Some("NEGATIVE"))
      && Mentions(m, "Sorry you're not feeling great.")
      && Mentions(m, customerName) && Mentions(m, pizzasize) && Mentions(m, pizzatype)
      && Mentions(m, crusttype) && Mentions(m, toppings)
  {
    var pieces := ["Thank you ", customerName, ". ", "Sorry you're not feeling great.", " Enjoy your ",
                   pizzasize, " ", pizzatype, " pizza with ", crusttype, " crust and ", toppings, "!"];
    ConcatMentionsEachPiece(pieces, 1);
    ConcatMentionsEachPiece(pieces, 3);
    ConcatMentionsEachPiece(pieces, 5);
    ConcatMentionsEachPiece(pieces, 7);
    ConcatMentionsEachPiece(pieces, 9);
    ConcatMentionsEachPiece(pieces, 11);
  }

  /** Any other sentiment (None included) gives the standard message, which
      repeats all seven values: name, size, type, crust, toppings, time and
      contact. */
  lemma OtherOrderMessageMentionsOrder(pizzasize: string, pizzatype: string, crusttype: string, toppings: string,
                                       customerName: string, orderTime: string, contactInfo: string,
                                       sentiment: Option<string>)
    requires sentiment != Some("NEGATIVE")
    ensures var m := CreateOrderMessage(pizzasize, pizzatype, crusttype, toppings, customerName, orderTime, contactInfo, sentiment);
      && Mentions(m, customerName) && Mentions(m, pizzasize) && Mentions(m, pizzatype) && Mentions(m, crusttype)
      && Mentions(m, toppings) && Mentions(m, orderTime) && Mentions(m, contactInfo)
  {
    var pieces := ["Thank you ", customerName, "! Your ", pizzasize, " ", pizzatype, " pizza with ", crusttype,
                   " crust and ", toppings, " will be ready at ", orderTime, ". Contact: ", contactInfo, "."];
    ConcatMentionsEachPiece(pieces, 1);
    ConcatMentionsEachPiece(pieces, 3);
    ConcatMentionsEachPiece(pieces, 5);
    ConcatMentionsEachPiece(pieces, 7);
    ConcatMentionsEachPiece(pieces, 9);
    ConcatMentionsEachPiece(pieces, 11);
    ConcatMentionsEachPiece(pieces, 13);
  }

  /** The audio URL of a synthesis attempt: an exception leaves it None. */
  function AudioUrl(synthesis: Synthesis): Option<string>
  {
    match synthesis
    case Uploaded(url) => Some(url)
    case SynthesisRaised => None
  }

  const ListenPrefix: string := "You can listen to your order confirmation here: "

  /** `simple_response`: Close/Fulfilled echoing the event's intent as received. */
  function SimpleResponse(message: string, intent: Intent): Response
  {
    Response(CloseFulfilled, Echoed(intent), [message])
  }

  /** `close_order`: the confirmation, then a second message with the audio
      URL only when that URL is truthy. */
  method CloseOrder(intentName: string, slots: SlotMap, message: string, audioUrl: Option<string>) returns (r: Response)
    ensures r.dialogAction == CloseFulfilled && r.intent == Rebuilt(Some(intentName), slots, Fulfilled)
    ensures |r.messages| == (if Truthy(audioUrl) then 2 else 1) && r.messages[0] == message
    ensures Truthy(audioUrl) ==> r.messages[1] == ListenPrefix + audioUrl.value && Mentions(r.messages[1], audioUrl.value)
  {
    var messages := [message];
    if Truthy(audioUrl) {
      messages := messages + [ListenPrefix + audioUrl.value];
      assert OccursAt(audioUrl.value, audioUrl.value, 0);
      MentionsAfter(ListenPrefix, audioUrl.value, audioUrl.value);
    }
    r := Response(CloseFulfilled, Rebuilt(Some(intentName), slots, Fulfilled), messages);
  }

  /** One turn, given the classifier's answer for any text and the outcome
      of synthesising and uploading the confirmation. The classifier's
      answer appears in no clause: the sentiment is overwritten with
      NEGATIVE before it is used. */
  method LambdaHandler(event: Event, classify: string -> Classification, synthesis: Synthesis) returns (r: Response)
    ensures event.intent.slots.None? ==> r == SimpleResponse(MenuFallback, event.intent)
    ensures event.intent.slots.Some? && IntentName(event.intent) == "GreetIntent" ==>
      r == SimpleResponse(Welcome, event.intent)
    ensures event.intent.slots.Some? && IntentName(event.intent) !in {"GreetIntent", "OrderingPizza"} ==>
      r == SimpleResponse(MenuFallback, event.intent)
    ensures event.intent.slots.Some? && IntentName(event.intent) == "OrderingPizza" ==>
      var slots := event.intent.slots.value;
      var first := FirstMissingIndex(FalsyTest, SlotValues(event.intent.slots));
      first.Some? ==>
        r == ElicitSlot(Some("OrderingPizza"), slots, RequiredSlots[first.value],
                        "Could you please provide the " + RequiredSlots[first.value] + "?")
    ensures event.intent.slots.Some? && IntentName(event.intent) == "OrderingPizza" ==>
      var slots := event.intent.slots.value;
      var vals := SlotValues(event.intent.slots);
      var audioUrl := AudioUrl(synthesis);
      FirstMissingIndex(FalsyTest, vals).None? ==>
        && r.dialogAction == CloseFulfilled
        && r.intent == Rebuilt(Some("OrderingPizza"), slots, Fulfilled)
        && |r.messages| == (if Truthy(audioUrl) then 2 else 1)
        && r.messages[0] == CreateOrderMessage(vals[1].value, vals[0].value, vals[2].value, vals[3].value,
                                               vals[4].value, vals[6].value, vals[5].value, Some("NEGATIVE"))
        && (Truthy(audioUrl) ==> r.messages[1] == ListenPrefix + audioUrl.value)
  {
    var intent := event.intent;
    var intentName := IntentName(intent);
    var slots := intent.slots;
    if slots.None? {
      return SimpleResponse(MenuFallback, intent);
    }
    var pizzatype := GetSlotValue(slots, "pizzatype");
    var pizzasize := GetSlotValue(slots, "pizzasize");
    var crusttype := GetSlotValue(slots, "crusttype");
    var toppings := GetSlotValue(slots, "toppings");
    var customerName := GetSlotValue(slots, "Customer-Name");
    var contactInfo := GetSlotValue(slots, "Contact-Info");
    var orderTime := GetSlotValue(slots, "Order-Time");

    if intentName == "GreetIntent" {
      return SimpleResponse(Welcome, intent);
    } else if intentName == "OrderingPizza" {
      var sentiment := TranscriptSentiment(event.inputTranscript, classify);
      sentiment := Some("NEGATIVE");

      var missingSlot := CheckMissingSlots(slots);
      if missingSlot.Some? {
        return ElicitSlot(Some(intentName), slots.value, missingSlot.value,
                          "Could you please provide the " + missingSlot.value + "?");
      }
      ghost var vals := SlotValues(slots);
      assert Truthy(vals[0]) && Truthy(vals[1]) && Truthy(vals[2]) && Truthy(vals[3]);
      assert Truthy(vals[4]) && Truthy(vals[5]) && Truthy(vals[6]);
      var message := CreateOrderMessage(pizzasize.value, pizzatype.value, crusttype.value, toppings.value,
                                        customerName.value, orderTime.value, contactInfo.value, sentiment);
      var audioUrl := AudioUrl(synthesis);
      r := CloseOrder(intentName, slots.value, message, audioUrl);
    } else {
      return SimpleResponse(MenuFallback, intent);
    }
  }
}
