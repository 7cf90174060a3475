/** The first revision of the handler (AWS-CS-ChatBot/Amazon-LexBot-with-Lambda.py):
    it reads the seven slot values, asks for the first one that is None with
    a slot-specific prompt, and otherwise closes the order with a confirmation
    naming all seven values. It calls nothing outside itself. */
module LexBot {
  import opened Lex

  /** The prompt for each slot of RequiredSlots, in the same order. */
  const Prompts: seq<string> := [
    "What type of pizza would you like?",
    "What size pizza would you like? (Small, Medium, Large)",
    "What type of crust would you like?",
    "What toppings would you like?",
    "Can I have your name, please?",
    "Please provide your contact information.",
    OrderTimePrompt
  ]

  /** The Order-Time prompt, split where it quotes its two example answers. */
  const OrderTimePromptPieces: seq<string> := [
    "When would you like your pizza to be delivered or ready for pickup? You can say something like ",
    "'5 PM'", " or ", "'tomorrow at noon'", "."
  ]

  const OrderTimePrompt: string := Concat(OrderTimePromptPieces)

  /** The value of one slot, read as the handler reads it: an absent or
      falsy entry reads as None, a dict entry gives its interpreted value, and
      a truthy entry that is not a dict raises on the lookup inside it. */
  function SlotValue(slots: SlotMap, slotName: string): (r: Result<Option<string>>)
    ensures r.Err? <==> slotName in slots && slots[slotName] == NotADict
    ensures r.Err? ==> r.error == AttributeError
    ensures slotName !in slots ==> r == Ok(None)
    ensures slotName in slots && slots[slotName] == Null ==> r == Ok(None)
    ensures slotName in slots && slots[slotName].Entry? ==> r == Ok(slots[slotName].interpreted)
  {
    if slotName !in slots then Ok(None)
    else
      match slots[slotName]
      case Null => Ok(None)
      case NotADict => Err(AttributeError)
      case Entry(v) => Ok(v)
  }

  /** The slot extraction of the handler, one value per name in order; it
      fails as soon as one entry is a truthy non-dict. */
  function ExtractSlots(slots: SlotMap, names: seq<string>): (r: Result<seq<Option<string>>>)
    ensures r.Err? <==> exists k :: 0 <= k < |names| && SlotValue(slots, names[k]).Err?
    ensures r.Err? ==> r.error == AttributeError
    ensures r.Ok? ==> |r.value| == |names|
    ensures r.Ok? ==> forall k :: 0 <= k < |names| ==> SlotValue(slots, names[k]) == Ok(r.value[k])
  {
    if |names| == 0 then Ok([])
    else
      match SlotValue(slots, names[0])
      case Err(e) => Err(e)
      case Ok(v) =>
        match ExtractSlots(slots, names[1..])
        case Err(e) => Err(e)
        case Ok(rest) => Ok([v] + rest)
  }

  /** The confirmation f-string of the close response. */
  function ConfirmationMessage(customerName: string, pizzasize: string, pizzatype: string, crusttype: string,
                               toppings: string, orderTime: string, contactInfo: string): string
  {
    Concat(["Thank you ", customerName, "! Your ", pizzasize, " ", pizzatype, " pizza with ", crusttype,
            " crust and ", toppings, " will be ready at ", orderTime, ". We'll contact you at ", contactInfo, "."])
  }

  /** The confirmation names the customer and repeats every value of the
      order: size, type, crust, toppings, time and contact. */
  lemma ConfirmationMentionsOrder(customerName: string, pizzasize: string, pizzatype: string, crusttype: string,
                                  toppings: string, orderTime: string, contactInfo: string)
    ensures var m := ConfirmationMessage(customerName, pizzasize, pizzatype, crusttype, toppings, orderTime, contactInfo);
      && Mentions(m, customerName) && Mentions(m, pizzasize) && Mentions(m, pizzatype) && Mentions(m, crusttype)
      && Mentions(m, toppings) && Mentions(m, orderTime) && Mentions(m, contactInfo)
  {
    var pieces := ["Thank you ", customerName, "! Your ", pizzasize, " ", pizzatype, " pizza with ", crusttype,
                   " crust and ", toppings, " will be ready at ", orderTime, ". We'll contact you at ", contactInfo, "."];
    ConcatMentionsEachPiece(pieces, 1);
    ConcatMentionsEachPiece(pieces, 3);
    ConcatMentionsEachPiece(pieces, 5);
    ConcatMentionsEachPiece(pieces, 7);
    ConcatMentionsEachPiece(pieces, 9);
    ConcatMentionsEachPiece(pieces, 11);
    ConcatMentionsEachPiece(pieces, 13);
  }

  /** The Order-Time prompt offers '5 PM' and 'tomorrow at noon' as examples. */
  lemma OrderTimePromptGivesExamples()
    ensures RequiredSlots[6] == "Order-Time"
    ensures Mentions(Prompts[6], "'5 PM'") && Mentions(Prompts[6], "'tomorrow at noon'")
  {
    ConcatMentionsEachPiece(OrderTimePromptPieces, 1);
    ConcatMentionsEachPiece(OrderTimePromptPieces, 3);
  }

  /** One turn: the value of the event is the response, or the exception. */
  function LambdaHandler(event: Event): (r: Result<Response>)
    ensures r.Err? <==> event.intent.slots.None? || ExtractSlots(event.intent.slots.value, RequiredSlots).Err?
    ensures r.Err? ==> r.error == AttributeError
    ensures r.Ok? ==> |r.value.messages| == 1
    ensures r.Ok? ==>
      r.value.intent == Rebuilt(event.intent.name, event.intent.slots.value, if r.value.dialogAction.Elicit? then InProgress else Fulfilled)
  {
    match event.intent.slots
    case None => Err(AttributeError)
    case Some(slots) =>
      match ExtractSlots(slots, RequiredSlots)
      case Err(e) => Err(e)
      case Ok(vals) =>
        var intentName := event.intent.name;
        var pizzatype, pizzasize, crusttype, toppings := vals[0], vals[1], vals[2], vals[3];
        var customerName, contactInfo, orderTime := vals[4], vals[5], vals[6];
        if pizzatype.None? then Ok(ElicitSlot(intentName, slots, "pizzatype", Prompts[0]))
        else if pizzasize.None? then Ok(ElicitSlot(intentName, slots, "pizzasize", Prompts[1]))
        else if crusttype.None? then Ok(ElicitSlot(intentName, slots, "crusttype", Prompts[2]))
        else if toppings.None? then Ok(ElicitSlot(intentName, slots, "toppings", Prompts[3]))
        else if customerName.None? then Ok(ElicitSlot(intentName, slots, "Customer-Name", Prompts[4]))
        else if contactInfo.None? then Ok(ElicitSlot(intentName, slots, "Contact-Info", Prompts[5]))
        else if orderTime.None? then Ok(ElicitSlot(intentName, slots, "Order-Time", Prompts[6]))
        else Ok(CloseOrder(intentName, slots, ConfirmationMessage(customerName.value, pizzasize.value, pizzatype.value,
                                                                   crusttype.value, toppings.value, orderTime.value, contactInfo.value)))
  }

  /** When a slot value is None, the handler asks for the first such slot in
      the declared order, with that slot's prompt; empty strings count as
      present. */
  lemma ElicitsFirstMissing(name: Option<string>, slots: SlotMap, transcript: string, k: int)
    requires ExtractSlots(slots, RequiredSlots).Ok?
    requires IsFirstMissing(IsNoneTest, ExtractSlots(slots, RequiredSlots).value, k)
    ensures LambdaHandler(Event(Intent(name, Some(slots)), transcript)) ==
      Ok(ElicitSlot(name, slots, RequiredSlots[k], Prompts[k]))
  {
    var vals := ExtractSlots(slots, RequiredSlots).value;
    assert vals[k].None? && forall j :: 0 <= j < k ==> vals[j].Some?;
  }

  /** When no slot value is None, the handler closes the order with the
      confirmation built from the seven values. */
  lemma ClosesWhenComplete(name: Option<string>, slots: SlotMap, transcript: string)
    requires ExtractSlots(slots, RequiredSlots).Ok?
    requires FirstMissingIndex(IsNoneTest, ExtractSlots(slots, RequiredSlots).value).None?
    ensures var vals := ExtractSlots(slots, RequiredSlots).value;
      LambdaHandler(Event(Intent(name, Some(slots)), transcript)) ==
      Ok(CloseOrder(name, slots, ConfirmationMessage(vals[4].value, vals[1].value, vals[0].value, vals[2].value,
                                                     vals[3].value, vals[6].value, vals[5].value)))
  {
  }
}
