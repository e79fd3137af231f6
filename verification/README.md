# Quest event dispatch engine: a Dafny model

This project models the quest event dispatch engine of a zone server
(`server/internal/quest/quest-manager.go`). It covers four parts:

- **Event catalog** (`EventKinds`): the `QuestEventType` kinds. These are
  `uint16` values numbered by position from `EventSay = 0` to
  `EventReadItem = 142`. The sentinel `LargestEventId` is 143, the number
  of real kinds.
- **Event record** (`QuestEvents`): the `QuestEvent` class. It has `Reset`
  and the chained setters, and each setter returns the record itself.
  `EventData` is the record's value at one moment.
- **Handler registry** (`HandlerRegistry`): the script name → event kind →
  handler map, given as a value. It holds the functions that give the state
  `Register` and `Unregister` leave, the `Invoke` lookup (`Dispatch`), and
  the lemmas relating them.
- **`ZoneQuestInterface`** (`ZoneQuest`): the class whose methods update the
  map in place. Each method is proved to leave exactly the state those
  functions describe.

`Register` takes a variadic `...any` list. The model gives it as a sequence of
`Arg` values: `KindArg(k)`, `HandlerArg(h)` or `OtherArg`, where `OtherArg` is
any other dynamic type. The three ways it can panic are returned as a
`RegisterError`, which carries the index of the offending argument:

- an even position that is not a kind;
- an odd-length list, where `events[i+1]` is out of range;
- an odd position that is not a handler.

A malformed call is not atomic. The state at the panic is kept: the name's
entry already exists, even when it is empty, and the pairs before the bad
argument stay installed (`RegisterMalformed`, `RegisterOddLength`).

A handler is a function from the event's contents to `bool`. Go's nil
registry is the empty map, because every operation treats the two alike.

## Model

| member | source | states |
|---|---|---|
| `EventKinds.CatalogBounds` | server/internal/quest/quest-manager.go:45-192 | The kinds run contiguously from `EventSay = 0` to `EventReadItem`. The sentinel is one past the last of them, so it exceeds every real kind and is not itself catalogued. |
| `QuestEvents.QuestEvent.constructor` | server/internal/quest/quest-manager.go:195-207 | A new record holds Go's zero value: kind 0, nil references, empty name and list, zero numbers. |
| `QuestEvents.QuestEvent.Reset` | server/internal/quest/quest-manager.go:276-281 | Every field becomes its zero value whatever it held before, and the same record is returned. |
| `QuestEvents.QuestEvent.Type` | server/internal/quest/quest-manager.go:284-287 | Only the kind changes, to the given one; returns the receiver. |
| `QuestEvents.QuestEvent.SetActor` | server/internal/quest/quest-manager.go:288-291 | Only the actor changes; returns the receiver. |
| `QuestEvents.QuestEvent.SetReceiver` | server/internal/quest/quest-manager.go:292-295 | Only the receiver changes; returns the receiver. |
| `QuestEvents.QuestEvent.Spell` | server/internal/quest/quest-manager.go:296-299 | Only the spell id changes; returns the receiver. |
| `QuestEvents.QuestEvent.Extra` | server/internal/quest/quest-manager.go:300-303 | Only the extra data changes; returns the receiver. |
| `QuestEvents.QuestEvent.Encounter` | server/internal/quest/quest-manager.go:304-307 | Only the encounter name changes; returns the receiver. |
| `QuestEvents.QuestEvent.Strings` | server/internal/quest/quest-manager.go:308-312 | The string list becomes exactly the given values, none of its old entries remaining; nothing else changes; returns the receiver. |
| `HandlerRegistry.GoodPairs` | server/internal/quest/quest-manager.go:229-241 | The number of well-formed kind/handler pairs at the head of the argument list: every position before it holds a pair and the one at it does not. |
| `HandlerRegistry.PairsTableNames` | server/internal/quest/quest-manager.go:229-241 | A kind is in the table of a list's pairs exactly when some well-formed leading pair names it. |
| `HandlerRegistry.PairsTableLastWins` | server/internal/quest/quest-manager.go:229-241 | Every pair's kind is in the table and maps to that pair's handler unless a later pair names the same kind: within one call, the later pair overwrites the earlier. |
| `HandlerRegistry.Install` | server/internal/quest/quest-manager.go:229-241 | Register's loop: pairs go in from left to right until the first bad element, whose index is reported. Installing never removes a kind. A run without a panic consumed an even number of arguments. |
| `HandlerRegistry.InstallOverlays` | server/internal/quest/quest-manager.go:229-242 | Register's loop leaves the old table overlaid with the pairs' table. It panics exactly when the list is malformed, at the first bad position and with the matching error. |
| `HandlerRegistry.PairsTableOfPrefix` | server/internal/quest/quest-manager.go:229-241 | Only the well-formed head of a list contributes pairs; the elements from the first bad one on contribute nothing. |
| `HandlerRegistry.AfterRegister` | server/internal/quest/quest-manager.go:220-243 | The state Register leaves: the name's entry is created first (empty if new), then the loop runs. The names afterwards are the old ones plus this one, other names' tables are unchanged, and the name's old kinds all remain. |
| `HandlerRegistry.RegisterWellFormed` | server/internal/quest/quest-manager.go:220-243 | A well-formed call does not panic. It overlays the name's old table (or an empty one) with the pairs, a later pair winning, and leaves every other name as it was. |
| `HandlerRegistry.RegisterMalformed` | server/internal/quest/quest-manager.go:226-241 | A malformed call panics at its first bad argument. The entry for the name exists, and exactly the pairs before the bad argument are installed. |
| `HandlerRegistry.RegisterKeepsOtherNames` | server/internal/quest/quest-manager.go:226-241 | Register never adds, removes or changes another name's entry. |
| `HandlerRegistry.RegisterNothing` | server/internal/quest/quest-manager.go:226-228 | With no pairs, Register still creates an empty entry for a new name and changes nothing else. |
| `HandlerRegistry.RegisterOddLength` | server/internal/quest/quest-manager.go:226-241 | A lone kind panics with the second argument missing, after the entry for the name was created. |
| `HandlerRegistry.RegisterReplaces` | server/internal/quest/quest-manager.go:234-238 | Registering (name, kind) twice, in two calls or as two pairs of one call, leaves only the second handler to answer. |
| `HandlerRegistry.RegisterThenInvoke` | server/internal/quest/quest-manager.go:220-274 | A handler registered for a new script answers events of its kind; events of any other kind for that script are not handled. |
| `HandlerRegistry.AfterUnregister` | server/internal/quest/quest-manager.go:245-265 | The state Unregister leaves: a no-op for an absent name; with no kinds the whole entry goes; otherwise the listed kinds go and an entry left empty is removed. No name is added, other names are unchanged, and a kept entry is non-empty and holds exactly its old kinds minus the listed ones. |
| `HandlerRegistry.UnregisterKinds` | server/internal/quest/quest-manager.go:249-264 | Unregistering a list of kinds removes exactly those kinds under the name and keeps every other (name, kind) handler. It leaves no empty entry for the name. |
| `HandlerRegistry.UnregisterAll` | server/internal/quest/quest-manager.go:253-256 | With no kinds, the name's whole entry is removed and nothing else. |
| `HandlerRegistry.UnregisterAbsent` | server/internal/quest/quest-manager.go:249-251 | A name with no entry makes Unregister a no-op. |
| `HandlerRegistry.UnregisterKeepsOtherNames` | server/internal/quest/quest-manager.go:245-265 | Unregister never adds, removes or changes another name's entry. |
| `HandlerRegistry.Dispatch` | server/internal/quest/quest-manager.go:267-274 | When the name has a handler for the event's kind, the result is that handler's answer on the event; otherwise it is false. |
| `HandlerRegistry.InvokeAfterRegister` | server/internal/quest/quest-manager.go:220-274 | After a well-formed Register, an event for the name whose kind the list names goes to the last handler the list gives for it; every other dispatch answers as before. |
| `HandlerRegistry.InvokeAfterUnregisterAll` | server/internal/quest/quest-manager.go:253-256 | After Unregister(name) with no kinds, no event for the name is handled. |
| `HandlerRegistry.InvokeAfterUnregister` | server/internal/quest/quest-manager.go:245-274 | After Unregister(name, kinds...), events of the listed kinds for the name go unhandled and every other dispatch answers as before. |
| `ZoneQuest.ZoneQuestInterface.constructor` | server/internal/quest/quest-manager.go:210-214 | The zero value has no facade bound and no handlers. |
| `ZoneQuest.ZoneQuestInterface.SetZoneAccess` | server/internal/quest/quest-manager.go:216-218 | Binds the facade and leaves the handlers untouched. |
| `ZoneQuest.ZoneQuestInterface.Register` | server/internal/quest/quest-manager.go:220-243 | The in-place loop leaves exactly the state and the panic outcome that `AfterRegister` gives, and the facade untouched. |
| `ZoneQuest.ZoneQuestInterface.Unregister` | server/internal/quest/quest-manager.go:245-265 | The deletion loop and clean-up leave exactly the state that `AfterUnregister` gives, and the facade untouched. |
| `ZoneQuest.ZoneQuestInterface.Invoke` | server/internal/quest/quest-manager.go:267-274 | Returns the registered handler's answer on the record's contents when the name has a handler for the record's kind, and false otherwise. It reads the registry and changes nothing. |

## Left out

- The `sync.RWMutex` and its locking in `Register` and `Unregister` are left
  out. They are concurrency and do not change the sequential map semantics.
  `Invoke` takes no lock in the code, and the model claims none.
- The `ZoneAccess` interface and `ClientEntry` are foreign database and
  session types with no implementation here. The facade bound by
  `SetZoneAccess` is an opaque reference.
- Handler bodies are left out. A handler is a pure function of the event's
  field values. A handler that mutates the record, the zone or the registry
  while `Invoke` runs is not captured.
- The concrete `entity.Moblike`, `items.ItemInstance` and `model.Spawn2`
  types are left out. The fields that hold them are opaque references (`Ref`).
- Panic messages are not modelled. Each panic is a `RegisterError` carrying
  the same argument index as the message. The odd-length case is Go's runtime
  index-out-of-range panic.
- A typed nil handler (`QuestHandler(nil)`) is not modelled. Go's type switch
  accepts it, and a later `Invoke` would panic calling it. Here every
  `HandlerArg` holds a function.
- A nil inner map stored under a name is not modelled. Only code outside
  `Register` could store one, because `Register` always creates inner maps
  with `make`.
- A nil `evt` pointer passed to `Invoke` is not modelled. Dafny's record
  reference is non-null.
- Slice backing-array reuse in `Strings` is left out. Only the resulting
  contents are modelled.
- Panic recovery is left out because the code has none. A panicking handler
  propagates out of `Invoke`, and a malformed `Register` list propagates its
  panic to the caller.
- `ZoneQuest.ZoneQuestInterface.Unregister` deletes the listed kinds from the
  name's table and then writes the table back once. Go deletes through the
  shared inner map. The end state is the same, but aliasing of the inner map
  is not modelled.
- `EventKinds.CatalogBounds` is weaker than "all 143 constants are numbered
  by position". Each constant is declared with its position as its value,
  but no single lemma ties all of them to their positions. The reason is that
  Dafny's verifier cannot evaluate indexing into a 143-element sequence of
  the constants for a symbolic index. So neither an empty proof, nor an
  equality with `seq(143, i => i)`, nor one assertion per index closes that
  statement. The lemma states only that `EventSay` is 0 and that the
  sentinel is one past `EventReadItem`. Its "exceeds every real kind" clause
  holds by definition, because `IsCatalogued` is defined as
  `< LargestEventId`.
