/** How the three revisions of the handler differ on the same event: what
    counts as a missing slot, and what a slot entry of the wrong shape does. */
module Revisions {
  import opened Lex
  import LexBot
  import ComprehendBot
  import PollyBot

  /** On a slot map the first two revisions can read, all three revisions
      read the same seven values. */
  lemma AccessorsAgree(slots: SlotMap)
    requires LexBot.ExtractSlots(slots, RequiredSlots).Ok?
    ensures LexBot.ExtractSlots(slots, RequiredSlots).value == PollyBot.SlotValues(Some(slots))
  {
  }

  /** A slot filled with the empty string is present for the first
      revision, which closes the order, and missing for the third, whose
      slot scan stops at the first such slot. */
  lemma EmptyValueSplitsRevisions(name: Option<string>, slots: SlotMap, transcript: string, k: int)
    requires LexBot.ExtractSlots(slots, RequiredSlots).Ok?
    requires var vals := LexBot.ExtractSlots(slots, RequiredSlots).value;
      FirstMissingIndex(IsNoneTest, vals).None? && IsFirstMissing(FalsyTest, vals, k)
    ensures LexBot.LambdaHandler(Event(Intent(name, Some(slots)), transcript)).Ok?
    ensures LexBot.LambdaHandler(Event(Intent(name, Some(slots)), transcript)).value.dialogAction == CloseFulfilled
    ensures FirstMissingIndex(FalsyTest, PollyBot.SlotValues(Some(slots))) == Some(k)
    ensures PollyBot.SlotValues(Some(slots))[k] == Some("")
  {
    var vals := LexBot.ExtractSlots(slots, RequiredSlots).value;
    LexBot.ClosesWhenComplete(name, slots, transcript);
    AccessorsAgree(slots);
    FirstMissingIsUnique(FalsyTest, vals, k);
  }

  /** A required slot whose entry is a truthy value that is not a dict makes
      the first two revisions raise, and reads as absent in the third. */
  lemma NonDictEntrySplitsRevisions(name: Option<string>, slots: SlotMap, transcript: string,
                                    classify: string -> Classification, k: int)
    requires 0 <= k < |RequiredSlots| && RequiredSlots[k] in slots && slots[RequiredSlots[k]] == NotADict
    ensures LexBot.LambdaHandler(Event(Intent(name, Some(slots)), transcript)) == Err(AttributeError)
    ensures ComprehendBot.LambdaHandler(Event(Intent(name, Some(slots)), transcript), classify) == Err(AttributeError)
    ensures PollyBot.SlotValues(Some(slots))[k] == None
  {
  }
}
