# Pizza-ordering Lex V2 fulfillment handler, in Dafny

This project models the fulfillment Lambda behind an Amazon Lex V2 bot that takes
pizza orders, in the three successive revisions kept in `AWS-CS-ChatBot/`. On each
turn the handler reads seven slots (`pizzatype`, `pizzasize`, `crusttype`, `toppings`,
`Customer-Name`, `Contact-Info`, `Order-Time`) from the event. It then answers in one
of two ways. It can send an **ElicitSlot** response asking for the first missing slot,
with the intent `InProgress` and the slot map echoed. Or it can send a
**Close/Fulfilled** response with a confirmation message.

- `lex.dfy` (module `Lex`) holds what the three revisions share:
  - the event and response shapes;
  - the fixed slot order `RequiredSlots`;
  - the two tests for "missing" (`is None`, or falsy);
  - the reference definition `FirstMissingIndex` of "first missing slot in declared order";
  - the `elicit_slot` / `close_order` dict builders;
  - `Concat` and `Mentions`, for f-strings and "the message repeats this value".
- `lexbot.dfy` (module `LexBot`) models `Amazon-LexBot-with-Lambda.py`. It is pure and
  makes no outside calls, so `LexBot.LambdaHandler` is a function of the event alone.
- `comprehend.dfy` (module `ComprehendBot`) models `Comprehend-Analysis.py`. It classifies
  the customer's name, and the label picks the confirmation. The classifier is a
  parameter `classify: string -> Classification`.
- `polly.dfy` (module `PollyBot`) models `Amazon-Polly-MP3.py`:
  - it dispatches on the intent name;
  - the falsy-slot scan is a method with a loop;
  - `close_order` builds its message list and appends to it;
  - the audio step is a parameter `synthesis` (an uploaded URL, or an exception).
- `revisions.dfy` (module `Revisions`) states where the revisions disagree on the same event.

Python exceptions that end a turn are a `Result` error:
- `AttributeError`: `.get` on a slot map that is None, or on a truthy entry that is not a dict;
- `ClassifierRaised`: the unguarded classifier call in the second revision raised;
- `UnboundSentiment`: the second revision read `sentiment` before assigning it.

Outside values and how the event is read:
- The two outside services are parameters: the sentiment classifier and the speech
  synthesis with its upload.
- A missing `sessionState` or `intent` reads as an intent with no name and an empty
  slot map. This is what the `.get(..., {})` defaults give.

None of the three files validates values against allowed sets, parses toppings,
normalises times, trims values, or defaults the sentiment to NEUTRAL when there is no
utterance. The model follows the code:
- The sentiment that drives the third revision's confirmation is hard-coded to
  `"NEGATIVE"`.
- The second revision classifies the customer's name, not the utterance.
- The first two revisions raise on a slot map of the wrong shape instead of treating it
  as absent.

## Model

| member | source | states |
|---|---|---|
| `Lex.FirstMissingIndex` | AWS-CS-ChatBot/Amazon-Polly-MP3.py:93-98 | The scan result is the index of the first missing value in declared order, with every earlier value present. It is None exactly when no value is missing. |
| `Lex.FalsyScanStopsNoLater` | AWS-CS-ChatBot/Amazon-Polly-MP3.py:96 | A falsy scan (`not value`) stops no later than an `is None` scan. The two disagree exactly when the falsy scan stops at an empty string. |
| `Lex.ElicitSlot` | AWS-CS-ChatBot/Amazon-LexBot-with-Lambda.py:48-67 | No contract of its own: the ElicitSlot response with the slot to ask for, the intent rebuilt InProgress and one message. `LexBot.ElicitsFirstMissing`, `ComprehendBot.ElicitsFirstMissing` and `PollyBot.LambdaHandler` state when it is sent and with which slot and prompt. |
| `Lex.CloseOrder` | AWS-CS-ChatBot/Amazon-LexBot-with-Lambda.py:70-89 | No contract of its own: the Close/Fulfilled response with the intent rebuilt Fulfilled and one message, as in Comprehend-Analysis.py:85-104 too. `LexBot.ClosesWhenComplete` and `ComprehendBot.ClosesWithLabelledConfirmation` state when it is sent and with which message. |
| `LexBot.SlotValue` | AWS-CS-ChatBot/Amazon-LexBot-with-Lambda.py:14-20 | Reading one slot raises AttributeError exactly when its entry is a truthy non-dict. An absent or falsy entry reads as None, and a dict entry reads as its interpreted value. |
| `LexBot.ExtractSlots` | AWS-CS-ChatBot/Amazon-LexBot-with-Lambda.py:14-20 | Extraction fails (AttributeError) exactly when some named entry is a truthy non-dict. Otherwise it yields one value per slot, in order: None for an absent or falsy entry, else `value.interpretedValue`. |
| `LexBot.LambdaHandler` | AWS-CS-ChatBot/Amazon-LexBot-with-Lambda.py:3-45 | The turn raises exactly when the slot map is None or extraction fails. Every response has one message and echoes the received slot map. Its state is InProgress for ElicitSlot and Fulfilled for Close. |
| `LexBot.ElicitsFirstMissing` | AWS-CS-ChatBot/Amazon-LexBot-with-Lambda.py:27-67 | If slot k is the first slot whose value is None, the response is ElicitSlot for `RequiredSlots[k]` with that slot's prompt. An empty string counts as present. |
| `LexBot.ClosesWhenComplete` | AWS-CS-ChatBot/Amazon-LexBot-with-Lambda.py:44-89 | With no value None, the response is Close/Fulfilled with the confirmation built from the seven values. |
| `LexBot.ConfirmationMessage` | AWS-CS-ChatBot/Amazon-LexBot-with-Lambda.py:45 | No contract of its own: the confirmation f-string. `LexBot.ConfirmationMentionsOrder` states what it contains. |
| `LexBot.ConfirmationMentionsOrder` | AWS-CS-ChatBot/Amazon-LexBot-with-Lambda.py:45 | The confirmation contains the name, size, type, crust, toppings, time and contact. |
| `LexBot.OrderTimePromptGivesExamples` | AWS-CS-ChatBot/Amazon-LexBot-with-Lambda.py:42 | The Order-Time prompt quotes '5 PM' and 'tomorrow at noon'. |
| `ComprehendBot.LambdaHandler` | AWS-CS-ChatBot/Comprehend-Analysis.py:9-55 | AttributeError exactly when the slot map is None or one of the seven required entries is a truthy non-dict. Every response has one message and echoes the slot map, InProgress for ElicitSlot and Fulfilled for Close. |
| `ComprehendBot.Respond` | AWS-CS-ChatBot/Comprehend-Analysis.py:28-55 | The turn after the seven values are read never ends in AttributeError. Every response has one message and echoes the slot map, InProgress for ElicitSlot and Fulfilled for Close. |
| `ComprehendBot.RespondFailures` | AWS-CS-ChatBot/Comprehend-Analysis.py:29-50 | On any seven values, the classifier's exception is the outcome exactly when the name is truthy and the call raised. UnboundSentiment is the outcome exactly when all seven are present and the name is "". There is no other failure. |
| `ComprehendBot.FailureCases` | AWS-CS-ChatBot/Comprehend-Analysis.py:29-50 | On a readable slot map the turn raises in only two cases. The classifier raises on a non-empty name, even when a slot is still missing. Or all seven are present and the name is "", so `sentiment` is unbound. |
| `ComprehendBot.ElicitsFirstMissing` | AWS-CS-ChatBot/Comprehend-Analysis.py:34-47 | Unless the classifier raises, the first slot whose value is None is elicited with this revision's prompt. Later slots play no part. |
| `ComprehendBot.ClosesWithLabelledConfirmation` | AWS-CS-ChatBot/Comprehend-Analysis.py:49-55 | With all slots present and a label for the non-empty name, the response is Close/Fulfilled with the confirmation that label selects. |
| `ComprehendBot.AnalyzeSentiment` | AWS-CS-ChatBot/Comprehend-Analysis.py:58-60 | The result is the classifier's label, and the classifier's exception propagates as ClassifierRaised: nothing catches it. |
| `ComprehendBot.ConfirmationMessage` | AWS-CS-ChatBot/Comprehend-Analysis.py:50-53 | No contract of its own: the label picks one of two f-strings. `ComprehendBot.NegativeConfirmationOmitsTimeAndContact` and `ComprehendBot.OtherConfirmationMentionsTimeAndContact` state what each contains. |
| `ComprehendBot.NegativeConfirmationOmitsTimeAndContact` | AWS-CS-ChatBot/Comprehend-Analysis.py:50-51 | The NEGATIVE confirmation apologises and repeats name, size, type, crust and toppings. It is identical for any order time and contact. |
| `ComprehendBot.OtherConfirmationMentionsTimeAndContact` | AWS-CS-ChatBot/Comprehend-Analysis.py:52-53 | Any other label gives the standard confirmation, which contains the time, the contact and the name. |
| `ComprehendBot.SentimentComesFromCustomerName` | AWS-CS-ChatBot/Comprehend-Analysis.py:28-31 | The turn does not depend on the transcript. It depends on the classifier only through its answer for a non-empty customer name. |
| `PollyBot.IntentName` | AWS-CS-ChatBot/Amazon-Polly-MP3.py:19 | No contract of its own: the intent name, or "UnknownIntent" when there is none. `PollyBot.LambdaHandler` states that such a name gets the fallback. |
| `PollyBot.GetSlotValue` | AWS-CS-ChatBot/Amazon-Polly-MP3.py:80-91 | The value is present exactly when there is a slot map and the entry is a dict carrying an interpreted value. A None map, an absent, falsy or non-dict entry gives None and never raises. |
| `PollyBot.CheckMissingSlots` | AWS-CS-ChatBot/Amazon-Polly-MP3.py:93-98 | Returns the name of the first slot, in declared order, whose value is falsy. Returns None exactly when all seven are non-empty. |
| `PollyBot.AnalyzeSentiment` | AWS-CS-ChatBot/Amazon-Polly-MP3.py:100-108 | No contract of its own: the classifier's label, or "UNKNOWN" when the call raises. `PollyBot.TranscriptSentiment` states it. |
| `PollyBot.TranscriptSentiment` | AWS-CS-ChatBot/Amazon-Polly-MP3.py:48-53 | The classifier is consulted only for a non-empty transcript. A raising call yields "UNKNOWN" (`analyze_sentiment`, lines 100-108); otherwise the label. |
| `PollyBot.CreateOrderMessage` | AWS-CS-ChatBot/Amazon-Polly-MP3.py:111-118 | No contract of its own: the NEGATIVE or the standard f-string. `PollyBot.NegativeOrderMessageOmitsTimeAndContact` and `PollyBot.OtherOrderMessageMentionsOrder` state what each contains. |
| `PollyBot.NegativeOrderMessageOmitsTimeAndContact` | AWS-CS-ChatBot/Amazon-Polly-MP3.py:114-116 | The NEGATIVE message apologises and repeats name, size, type, crust and toppings. It is identical for any order time and contact. |
| `PollyBot.OtherOrderMessageMentionsOrder` | AWS-CS-ChatBot/Amazon-Polly-MP3.py:117-118 | Any other sentiment gives the message that contains all seven values, time and contact included. |
| `PollyBot.AudioUrl` | AWS-CS-ChatBot/Amazon-Polly-MP3.py:67-72 | No contract of its own: the uploaded URL, or None when synthesis or upload raised. `PollyBot.LambdaHandler` states that the audio message follows exactly when this URL is truthy. |
| `PollyBot.SimpleResponse` | AWS-CS-ChatBot/Amazon-Polly-MP3.py:131-147 | No contract of its own: Close/Fulfilled with the event's intent echoed as received and one message. `PollyBot.LambdaHandler` states when it is sent and with which message. |
| `PollyBot.CloseOrder` | AWS-CS-ChatBot/Amazon-Polly-MP3.py:171-190 | Close/Fulfilled with the slot map echoed. One message when the audio URL is None or empty. Two when it is set, the second embedding the URL. |
| `PollyBot.LambdaHandler` | AWS-CS-ChatBot/Amazon-Polly-MP3.py:12-78 | See the list below this table. |
| `Revisions.AccessorsAgree` | AWS-CS-ChatBot/Amazon-Polly-MP3.py:80-91 | On a slot map the first revision can read, the third revision reads the same seven values. |
| `Revisions.EmptyValueSplitsRevisions` | AWS-CS-ChatBot/Amazon-Polly-MP3.py:96 | A slot filled with "" counts as present in the first revision, which closes the order. The third revision's slot scan stops at the first such slot, so an OrderingPizza turn elicits it. |
| `Revisions.NonDictEntrySplitsRevisions` | AWS-CS-ChatBot/Amazon-LexBot-with-Lambda.py:14-20 | A required entry that is a truthy non-dict makes the first two revisions raise AttributeError. The third reads it as absent. |

What `PollyBot.LambdaHandler` states:
- A None or non-dict slot map gives the menu fallback, before any dispatch, so GreetIntent gets it too.
- GreetIntent gets the welcome message.
- An unknown or missing name (the default is `'UnknownIntent'`) gets the fallback.
- For OrderingPizza with a missing slot, the response elicits exactly the first falsy slot with "Could you please provide the <slot>?". The state is InProgress and the slot map is echoed.
- Otherwise the response is Close/Fulfilled with the NEGATIVE confirmation, whatever the classifier said. The audio message follows exactly when synthesis produced a non-empty URL.

## Left out

- The classifier (`detect_sentiment`, language `en`), speech synthesis (mp3, voice Joanna) and the upload are outside calls. The model takes their answers as parameters: a label or an exception, and a URL or an exception.
- `generate_speech_and_upload` builds its file name and URL from the clock (`datetime.now()`) and the bucket name. This is not modelled: the URL is an opaque string.
- Logging with `print` and `json.dumps` has no effect on the response and is not modelled.
- Event shapes on which every revision raises are excluded by the types, not modelled as errors. Examples: a slot entry whose `value` is null (Amazon-Polly-MP3.py:89), a non-dict `value`, an `intent` or `sessionState` that is not a dict.
- `interpretedValue` is taken to be a string. No revision rejects other types, and they are not represented: a truthy non-string would be formatted into the messages, and a falsy one (0, False, an empty list) would split the revisions as "" does.
- An absent intent name and a null one are one case (`Intent.name == None`). In the third revision both fall into the fallback, and elsewhere both are echoed as None.
- `sessionAttributes` is read by no revision, and the response's `contentType` is always PlainText. Neither is represented. An intent echoed by `simple_response` keeps only its name and slot map.
- Topping parsing, allowed-set validation and time normalisation appear in none of the three files, so there is nothing to model.
