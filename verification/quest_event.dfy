/**
 * The quest event record (`QuestEvent`): a mutable payload that the simulation
 * resets, fills in through chained setters and hands to one dispatch.
 *
 * Fields that hold foreign objects (the acting and receiving mobs, the item and
 * zone-data slices, the spawn list) are opaque references: the dispatch engine
 * only stores and forwards them, never looks inside.
 */
module QuestEvents {
  import opened EventKinds

  /** An unsigned 32-bit value (`uint32`). */
  newtype u32 = x: int | 0 <= x < 0x1_0000_0000

  /** An opaque reference: Go's `nil` or the identity of some foreign object. */
  datatype Ref = Nil | Addr(id: nat)

  /** The value of every field of a `QuestEvent` at one moment. */
  datatype EventData = EventData(
    eventType: EventKind,
    actor: Ref,
    receiver: Ref,
    item: Ref,
    zoneData: Ref,
    encounterName: string,
    extraData: u32,
    spellId: u32,
    itemArray: Ref,
    actorArray: Ref,
    stringArray: seq<string>)

  /** Go's zero value of `QuestEvent`: kind `EventSay`, nil references, empty text and list. */
  const ZeroEvent := EventData(EventSay, Nil, Nil, Nil, Nil, "", 0, 0, Nil, Nil, [])

  class QuestEvent {
    var eventType: EventKind
    var actor: Ref
    var receiver: Ref
    var item: Ref
    var zoneData: Ref
    var encounterName: string
    var extraData: u32
    var spellId: u32
    var itemArray: Ref
    var actorArray: Ref
    var stringArray: seq<string>

    /** The record's current contents as a value. */
    function Data(): EventData
      reads this
    {
      EventData(eventType, actor, receiver, item, zoneData, encounterName,
                extraData, spellId, itemArray, actorArray, stringArray)
    }

    /** `&QuestEvent{}`: a fresh record holds the zero value. */
    constructor ()
      ensures Data() == ZeroEvent
    {
      eventType, actor, receiver, item, zoneData := EventSay, Nil, Nil, Nil, Nil;
      encounterName, extraData, spellId := "", 0, 0;
      itemArray, actorArray, stringArray := Nil, Nil, [];
    }

    /** Zeroes every field, so nothing from the previous event survives. */
    method Reset() returns (r: QuestEvent)
      modifies this
      ensures r == this
      ensures Data() == ZeroEvent
    {
      eventType, actor, receiver, item, zoneData := EventSay, Nil, Nil, Nil, Nil;
      encounterName, extraData, spellId := "", 0, 0;
      itemArray, actorArray, stringArray := Nil, Nil, [];
      r := this;
    }

    /** Sets the event kind and nothing else. */
    method Type(t: EventKind) returns (r: QuestEvent)
      modifies this
      ensures r == this
      ensures Data() == old(Data()).(eventType := t)
    {
      eventType := t;
      r := this;
    }

    /** Sets the acting mob and nothing else. */
    method SetActor(a: Ref) returns (r: QuestEvent)
      modifies this
      ensures r == this
      ensures Data() == old(Data()).(actor := a)
    {
      actor := a;
      r := this;
    }

    /** Sets the receiving mob and nothing else. */
    method SetReceiver(rcv: Ref) returns (r: QuestEvent)
      modifies this
      ensures r == this
      ensures Data() == old(Data()).(receiver := rcv)
    {
      receiver := rcv;
      r := this;
    }

    /** Sets the spell id and nothing else. */
    method Spell(id: u32) returns (r: QuestEvent)
      modifies this
      ensures r == this
      ensures Data() == old(Data()).(spellId := id)
    {
      spellId := id;
      r := this;
    }

    /** Sets the extra numeric data and nothing else. */
    method Extra(d: u32) returns (r: QuestEvent)
      modifies this
      ensures r == this
      ensures Data() == old(Data()).(extraData := d)
    {
      extraData := d;
      r := this;
    }

    /** Sets the encounter name and nothing else. */
    method Encounter(name: string) returns (r: QuestEvent)
      modifies this
      ensures r == this
      ensures Data() == old(Data()).(encounterName := name)
    {
      encounterName := name;
      r := this;
    }

    /**
     * Replaces the string list by `vals`: the old list is truncated to empty
     * and `vals` appended, so none of its previous entries remain.
     */
    method Strings(vals: seq<string>) returns (r: QuestEvent)
      modifies this
      ensures r == this
      ensures Data() == old(Data()).(stringArray := vals)
    {
      stringArray := stringArray[..0];
      stringArray := stringArray + vals;
      r := this;
    }
  }
}
