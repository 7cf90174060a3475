/** The second revision of the handler (AWS-CS-ChatBot/Comprehend-Analysis.py).
    Slot extraction, the elicitation chain and the response builders are
    those of the first revision (only the Order-Time prompt is shorter); new
    is a sentiment classification of the customer's name, whose label picks
    an apologetic or a standard confirmation. The classifier call is not
    guarded: when it raises, the turn raises. */
module ComprehendBot {
  import opened Lex
  import LexBot

  /** The first six prompts are those of the first revision; the Order-Time
      prompt drops the two example answers. */
  const Prompts: seq<string> :=
    LexBot.Prompts[..6] + ["When would you like your pizza to be delivered or ready for pickup?"]

  /** `analyze_sentiment`: the label of the classifier; its exception is not caught. */
  function AnalyzeSentiment(reply: Classification): (r: Result<string>)
    ensures r.Err? <==> reply.Raised?
    ensures r.Err? ==> r.error == ClassifierRaised
    ensures r.Ok? ==> r.value == reply.sentiment
  {
    match reply
    case Label(s) => Ok(s)
    case Raised => Err(ClassifierRaised)
  }

  /** The confirmation for a complete order: apologetic for a NEGATIVE
      label, otherwise the first revision's confirmation. */
  function ConfirmationMessage(customerName: string, pizzasize: string, pizzatype: string, crusttype: string,
                               toppings: string, orderTime: string, contactInfo: string, sentiment: string): string
  {
    if sentiment == "NEGATIVE" then
      Concat(["Thank you ", customerName, ". ", "I'm sorry to hear you might not be feeling great.", " We hope our ",
              pizzasize, " ", pizzatype, " pizza with ", crusttype, " crust and ", toppings, " will cheer you up!"])
    else
      LexBot.ConfirmationMessage(customerName, pizzasize, pizzatype, crusttype, toppings, orderTime, contactInfo)
  }

  /** The NEGATIVE confirmation apologises and repeats name, size, type,
      crust and toppings, and leaves out time and contact: it is the same
      whatever they are. */
  lemma NegativeConfirmationOmitsTimeAndContact(customerName: string, pizzasize: string, pizzatype: string,
                                                crusttype: string, toppings: string,
                                                orderTime: string, contactInfo: string,
                                                otherTime: string, otherContact: string)
    ensures var m := ConfirmationMessage(customerName, pizzasize, pizzatype, crusttype, toppings, orderTime, contactInfo, "NEGATIVE");
      && m == ConfirmationMessage(customerName, pizzasize, pizzatype, crusttype, toppings, otherTime, otherContact, "NEGATIVE")
      && Mentions(m, "I'm sorry to hear you might not be feeling great.")
      && Mentions(m, customerName) && Mentions(m, pizzasize) && Mentions(m, pizzatype)
      && Mentions(m, crusttype) && Mentions(m, toppings)
  {
    var pieces := ["Thank you ", customerName, ". ", "I'm sorry to hear you might not be feeling great.", " We hope our ",
                   pizzasize, " ", pizzatype, " pizza with ", crusttype, " crust and ", toppings, " will cheer you up!"];
    ConcatMentionsEachPiece(pieces, 1);
    ConcatMentionsEachPiece(pieces, 3);
    ConcatMentionsEachPiece(pieces, 5);
    ConcatMentionsEachPiece(pieces, 7);
    ConcatMentionsEachPiece(pieces, 9);
    ConcatMentionsEachPiece(pieces, 11);
  }

  /** Any label other than NEGATIVE gives the standard confirmation, which
      repeats the order time and the contact as well. */
  lemma OtherConfirmationMentionsTimeAndContact(customerName: string, pizzasize: string, pizzatype: string,
                                                crusttype: string, toppings: string,
                                                orderTime: string, contactInfo: string, sentiment: string)
    requires sentiment != "NEGATIVE"
    ensures var m := ConfirmationMessage(customerName, pizzasize, pizzatype, crusttype, toppings, orderTime, contactInfo, sentiment);
      && m == LexBot.ConfirmationMessage(customerName, pizzasize, pizzatype, crusttype, toppings, orderTime, contactInfo)
      && Mentions(m, orderTime) && Mentions(m, contactInfo) && Mentions(m, customerName)
  {
    LexBot.ConfirmationMentionsOrder(customerName, pizzasize, pizzatype, crusttype, toppings, orderTime, contactInfo);
  }

  /** One turn, given the classifier's answer for any text. */
  function LambdaHandler(event: Event, classify: string -> Classification): (r: Result<Response>)
    ensures r == Err(AttributeError) <==>
      event.intent.slots.None? || LexBot.ExtractSlots(event.intent.slots.value, RequiredSlots).Err?
    ensures r.Ok? ==> |r.value.messages| == 1
    ensures r.Ok? ==>
      r.value.intent == Rebuilt(event.intent.name, event.intent.slots.value, if r.value.dialogAction.Elicit? then InProgress else Fulfilled)
  {
    match event.intent.slots
    case None => Err(AttributeError)
    case Some(slots) =>
      match LexBot.ExtractSlots(slots, RequiredSlots)
      case Err(e) => Err(e)
      case Ok(vals) => Respond(event.intent.name, slots, vals, classify)
  }

  /** The rest of the turn once the seven values are read, in the order of
      RequiredSlots: classify a truthy name, then the elicitation chain,
      then the confirmation. */
  function Respond(intentName: Option<string>, slots: SlotMap, vals: seq<Option<string>>,
                   classify: string -> Classification): (r: Result<Response>)
    requires |vals| == |RequiredSlots|
    ensures r.Err? ==> r.error != AttributeError
    ensures r.Ok? ==> |r.value.messages| == 1
    ensures r.Ok? ==>
      r.value.intent == Rebuilt(intentName, slots, if r.value.dialogAction.Elicit? then InProgress else Fulfilled)
  {
    var pizzatype, pizzasize, crusttype, toppings := vals[0], vals[1], vals[2], vals[3];
    var customerName, contactInfo, orderTime := vals[4], vals[5], vals[6];
    // `sentiment` is bound only when the name is truthy, before any slot is checked
    var sentiment := if Truthy(customerName) then Some(AnalyzeSentiment(classify(customerName.value))) else None;
    if sentiment.Some? && sentiment.value.Err? then Err(sentiment.value.error)
    else if pizzatype.None? then Ok(ElicitSlot(intentName, slots, "pizzatype", Prompts[0]))
    else if pizzasize.None? then Ok(ElicitSlot(intentName, slots, "pizzasize", Prompts[1]))
    else if crusttype.None? then Ok(ElicitSlot(intentName, slots, "crusttype", Prompts[2]))
    else if toppings.None? then Ok(ElicitSlot(intentName, slots, "toppings", Prompts[3]))
    else if customerName.None? then Ok(ElicitSlot(intentName, slots, "Customer-Name", Prompts[4]))
    else if contactInfo.None? then Ok(ElicitSlot(intentName, slots, "Contact-Info", Prompts[5]))
    else if orderTime.None? then Ok(ElicitSlot(intentName, slots, "Order-Time", Prompts[6]))
    else if sentiment.None? then Err(UnboundSentiment)
    else Ok(CloseOrder(intentName, slots, ConfirmationMessage(customerName.value, pizzasize.value, pizzatype.value,
                                                               crusttype.value, toppings.value, orderTime.value,
                                                               contactInfo.value, sentiment.value.value)))
  }

  /** Besides a malformed event, a turn fails in two ways: the classifier
      raises on a non-empty name (whatever slots are missing), or every slot
      is present but the name is the empty string, so no sentiment was ever
      assigned. */
  lemma FailureCases(name: Option<string>, slots: SlotMap, transcript: string, classify: string -> Classification)
    requires LexBot.ExtractSlots(slots, RequiredSlots).Ok?
    ensures var vals := LexBot.ExtractSlots(slots, RequiredSlots).value;
      var r := LambdaHandler(Event(Intent(name, Some(slots)), transcript), classify);
      && (r == Err(ClassifierRaised) <==> Truthy(vals[4]) && classify(vals[4].value).Raised?)
      && (r == Err(UnboundSentiment) <==> FirstMissingIndex(IsNoneTest, vals).None? && vals[4] == Some(""))
      && (r.Err? ==> r == Err(ClassifierRaised) || r == Err(UnboundSentiment))
  {
    var vals := LexBot.ExtractSlots(slots, RequiredSlots).value;
    RespondFailures(name, slots, vals, classify);
    assert FirstMissingIndex(IsNoneTest, vals).None? <==> forall j :: 0 <= j < |vals| ==> vals[j].Some?;
  }

  /** The failure cases of Respond, on any seven values. */
  lemma RespondFailures(name: Option<string>, slots: SlotMap, vals: seq<Option<string>>,
                        classify: string -> Classification)
    requires |vals| == |RequiredSlots|
    ensures var r := Respond(name, slots, vals, classify);
      && (r == Err(ClassifierRaised) <==> Truthy(vals[4]) && classify(vals[4].value).Raised?)
      && (r == Err(UnboundSentiment) <==> (forall j :: 0 <= j < |vals| ==> vals[j].Some?) && vals[4] == Some(""))
      && (r.Err? ==> r == Err(ClassifierRaised) || r == Err(UnboundSentiment))
  {
  }

  /** Unless the classifier raises, the first slot that is None in the
      declared order is asked for with its prompt. */
  lemma ElicitsFirstMissing(name: Option<string>, slots: SlotMap, transcript: string,
                            classify: string -> Classification, k: int)
    requires LexBot.ExtractSlots(slots, RequiredSlots).Ok?
    requires var vals := LexBot.ExtractSlots(slots, RequiredSlots).value;
      IsFirstMissing(IsNoneTest, vals, k) && !(Truthy(vals[4]) && classify(vals[4].value).Raised?)
    ensures LambdaHandler(Event(Intent(name, Some(slots)), transcript), classify) ==
      Ok(ElicitSlot(name, slots, RequiredSlots[k], Prompts[k]))
  {
  }

  /** With every slot present and a label for the non-empty name, the order
      closes with the confirmation that label selects. */
  lemma ClosesWithLabelledConfirmation(name: Option<string>, slots: SlotMap, transcript: string,
                                       classify: string -> Classification)
    requires LexBot.ExtractSlots(slots, RequiredSlots).Ok?
    requires var vals := LexBot.ExtractSlots(slots, RequiredSlots).value;
      FirstMissingIndex(IsNoneTest, vals).None? && Truthy(vals[4]) && classify(vals[4].value).Label?
    ensures var vals := LexBot.ExtractSlots(slots, RequiredSlots).value;
      LambdaHandler(Event(Intent(name, Some(slots)), transcript), classify) ==
      Ok(CloseOrder(name, slots, ConfirmationMessage(vals[4].value, vals[1].value, vals[0].value, vals[2].value,
                                                     vals[3].value, vals[6].value, vals[5].value,
                                                     classify(vals[4].value).sentiment)))
  {
  }

  /** The sentiment is that of the customer's name: the transcript plays no
      part, and two classifiers that agree on the name (or a name that is
      not classified at all) give the same turn. */
  lemma SentimentComesFromCustomerName(name: Option<string>, slots: SlotMap, transcript: string, otherTranscript: string,
                                       classify: string -> Classification, otherClassify: string -> Classification)
    requires LexBot.ExtractSlots(slots, RequiredSlots).Ok?
    requires var customerName := LexBot.ExtractSlots(slots, RequiredSlots).value[4];
      Truthy(customerName) ==> classify(customerName.value) == otherClassify(customerName.value)
    ensures LambdaHandler(Event(Intent(name, Some(slots)), transcript), classify) ==
      LambdaHandler(Event(Intent(name, Some(slots)), otherTranscript), otherClassify)
  {
  }
}
