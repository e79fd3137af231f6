/**
 * The handler registry of a zone (`ZoneQuestInterface.Handlers`) as a value:
 * a two-level map from script name to event kind to handler, with the state
 * that `Register`, `Unregister` and `Invoke` produce or observe written as
 * functions of the state before.
 *
 * Go's nil registry and an empty one behave alike under every operation, so
 * both are the empty map here. The inner maps are only ever created by
 * `Register`, never nil.
 */
module HandlerRegistry {
  import opened Wrappers
  import opened EventKinds
  import opened QuestEvents

  /** A content-script handler: given the event, it says whether it handled it. */
  type Handler = EventData -> bool

  type Table = map<EventKind, Handler>

  type Registry = map<string, Table>

  /**
   * One element of `Register`'s variadic `...any` list: an event kind, a
   * handler (a `QuestHandler` or a plain `func(*QuestEvent) bool`), or a value
   * of any other dynamic type.
   */
  datatype Arg = KindArg(kind: EventKind) | HandlerArg(handler: Handler) | OtherArg

  /** Why `Register` panics; `index` is the position of the offending argument. */
  datatype RegisterError =
    | NotAKind(index: nat)       // an even position holds something other than a kind
    | MissingHandler(index: nat) // the list has odd length: `events[i+1]` is out of range
    | NotAHandler(index: nat)    // an odd position holds something other than a handler

  // ---------------------------------------------------------------------------
  // Argument lists
  // ---------------------------------------------------------------------------

  /** Position `i` starts a well-formed kind/handler pair. */
  predicate PairAt(args: seq<Arg>, i: int)
  {
    0 <= i && i + 1 < |args| && i % 2 == 0 && args[i].KindArg? && args[i + 1].HandlerArg?
  }

  /**
   * The number of well-formed pairs at the head of `args`: all pairs before
   * it are well-formed and the one at that position is not.
   */
  function GoodPairs(args: seq<Arg>): (p: nat)
    ensures 2 * p <= |args|
    ensures forall i :: 0 <= i < 2 * p && i % 2 == 0 ==> PairAt(args, i)
    ensures !PairAt(args, 2 * p)
    decreases |args|
  {
    if PairAt(args, 0) then
      var p := 1 + GoodPairs(args[2..]);
      assert forall i :: 2 <= i < 2 * p && i % 2 == 0 ==> PairAt(args[2..], i - 2);
      p
    else 0
  }

  /** The whole list is made of kind/handler pairs. */
  predicate WellFormed(args: seq<Arg>)
  {
    2 * GoodPairs(args) == |args|
  }

  /**
   * The table that the well-formed pairs at the head of `args` describe, the
   * later pair winning when two name the same kind. Built from the right:
   * a pair whose kind a later pair names contributes nothing.
   */
  function PairsTable(args: seq<Arg>): Table
    decreases |args|
  {
    if PairAt(args, 0) then
      var rest := PairsTable(args[2..]);
      if args[0].kind in rest then rest else rest[args[0].kind := args[1].handler]
    else map[]
  }

  /** Some well-formed pair of the head of `args` names kind `k`. */
  ghost predicate Names(args: seq<Arg>, k: EventKind)
  {
    exists i :: 0 <= i < 2 * GoodPairs(args) && PairAt(args, i) && args[i].kind == k
  }

  lemma {:induction false} PairsTableNames(args: seq<Arg>, k: EventKind)
    ensures k in PairsTable(args) <==> Names(args, k)
    decreases |args|
  {
    if PairAt(args, 0) {
      var rest := args[2..];
      PairsTableNames(rest, k);
      if Names(rest, k) {
        var i :| 0 <= i < 2 * GoodPairs(rest) && PairAt(rest, i) && rest[i].kind == k;
        assert PairAt(args, i + 2) && args[i + 2].kind == k;
      }
      if Names(args, k) && args[0].kind != k {
        var i :| 0 <= i < 2 * GoodPairs(args) && PairAt(args, i) && args[i].kind == k;
        assert i != 0;
        assert PairAt(rest, i - 2) && rest[i - 2].kind == k;
      }
    }
  }

  /**
   * Every well-formed pair's kind ends up in the table, and it maps to that
   * pair's handler when no later pair names the same kind: the last pair wins.
   */
  lemma {:induction false} PairsTableLastWins(args: seq<Arg>, i: nat)
    requires i < 2 * GoodPairs(args) && PairAt(args, i)
    ensures args[i].kind in PairsTable(args)
    ensures (forall j :: i < j < 2 * GoodPairs(args) && PairAt(args, j) ==> args[j].kind != args[i].kind)
            ==> PairsTable(args)[args[i].kind] == args[i + 1].handler
    decreases i
  {
    var rest := args[2..];
    if i == 0 {
      if forall j :: 0 < j < 2 * GoodPairs(args) && PairAt(args, j) ==> args[j].kind != args[0].kind {
        forall j | 0 <= j < 2 * GoodPairs(rest) && PairAt(rest, j)
          ensures rest[j].kind != args[0].kind
        {
          assert PairAt(args, j + 2);
        }
        PairsTableNames(rest, args[0].kind);
      }
    } else {
      assert PairAt(args, 0) && PairAt(rest, i - 2);
      PairsTableLastWins(rest, i - 2);
      if forall j :: i < j < 2 * GoodPairs(args) && PairAt(args, j) ==> args[j].kind != args[i].kind {
        forall j | i - 2 < j < 2 * GoodPairs(rest) && PairAt(rest, j)
          ensures rest[j].kind != rest[i - 2].kind
        {
          assert PairAt(args, j + 2);
        }
      }
    }
  }

  // ---------------------------------------------------------------------------
  // Register
  // ---------------------------------------------------------------------------

  /** The inner table after `Register`'s loop, and the panic that stopped it, if any. */
  datatype Installed = Installed(table: Table, failure: Option<RegisterError>)

  /**
   * `Register`'s loop from position `base` on: install pairs left to right
   * into `table`, stopping at the first malformed element. Pairs installed
   * before the failure stay.
   */
  function Install(table: Table, args: seq<Arg>, base: nat): (r: Installed)
    ensures table.Keys <= r.table.Keys
    ensures r.failure.None? ==> |args| % 2 == 0
    ensures r.failure.Some? ==> base <= r.failure.value.index <= base + |args|
    decreases |args|
  {
    if |args| == 0 then Installed(table, None)
    else if !args[0].KindArg? then Installed(table, Some(NotAKind(base)))
    else if |args| == 1 then Installed(table, Some(MissingHandler(base + 1)))
    else if !args[1].HandlerArg? then Installed(table, Some(NotAHandler(base + 1)))
    else Install(table[args[0].kind := args[1].handler], args[2..], base + 2)
  }

  /** The panic a malformed list raises, judged from its first defective pair. */
  function Defect(args: seq<Arg>, base: nat): Option<RegisterError>
  {
    var g := 2 * GoodPairs(args);
    if g == |args| then None
    else if !args[g].KindArg? then Some(NotAKind(base + g))
    else if g + 1 == |args| then Some(MissingHandler(base + g + 1))
    else Some(NotAHandler(base + g + 1))
  }

  /**
   * The loop's outcome in closed form: the old table overlaid with the table
   * of the well-formed leading pairs (last one winning), and a panic exactly
   * when the list is not well formed, reported at the first bad position.
   */
  lemma {:induction false} InstallOverlays(table: Table, args: seq<Arg>, base: nat)
    ensures Install(table, args, base).table == table + PairsTable(args)
    ensures Install(table, args, base).failure == Defect(args, base)
    ensures Install(table, args, base).failure.None? <==> WellFormed(args)
    decreases |args|
  {
    if PairAt(args, 0) {
      var rest := args[2..];
      var k, h := args[0].kind, args[1].handler;
      InstallOverlays(table[k := h], rest, base + 2);
      var pt := PairsTable(rest);
      if k in pt {
        assert table[k := h] + pt == table + pt;
      } else {
        assert table[k := h] + pt == table + pt[k := h];
      }
      var g := 2 * GoodPairs(rest);
      if g < |rest| {
        assert args[g + 2] == rest[g];
        assert g + 1 < |rest| ==> args[g + 3] == rest[g + 1];
      }
    }
  }

  /** The state `Register(name, args...)` leaves, and the panic it raises, if any. */
  datatype Registration = Registration(registry: Registry, failure: Option<RegisterError>)

  /** The table registered under `name`, or the empty one. */
  function TableOf(reg: Registry, name: string): Table
  {
    if name in reg then reg[name] else map[]
  }

  /**
   * `Register(name, args...)`: the entry for `name` is created if missing, then
   * the pairs are installed into it from left to right.
   */
  function AfterRegister(reg: Registry, name: string, args: seq<Arg>): (r: Registration)
    ensures r.registry.Keys == reg.Keys + {name}
    ensures forall n :: n in reg && n != name ==> r.registry[n] == reg[n]
    ensures name in reg ==> reg[name].Keys <= r.registry[name].Keys
    ensures r.failure.Some? ==> r.failure.value.index <= |args|
  {
    var done := Install(TableOf(reg, name), args, 0);
    Registration(reg[name := done.table], done.failure)
  }

  /**
   * Registering a well-formed list for `name`: `name` gets the old table
   * overlaid with the pairs (last one winning, within the call and over
   * earlier calls); every other name keeps its entry, or its absence.
   */
  lemma RegisterWellFormed(reg: Registry, name: string, args: seq<Arg>)
    requires WellFormed(args)
    ensures AfterRegister(reg, name, args).failure == None
    ensures AfterRegister(reg, name, args).registry == reg[name := TableOf(reg, name) + PairsTable(args)]
  {
    InstallOverlays(TableOf(reg, name), args, 0);
  }

  /**
   * A malformed list panics at its first bad position, and the pairs before
   * it stay installed; the entry for `name` exists even if no pair was.
   */
  lemma RegisterMalformed(reg: Registry, name: string, args: seq<Arg>)
    requires !WellFormed(args)
    ensures AfterRegister(reg, name, args).failure == Defect(args, 0)
    ensures AfterRegister(reg, name, args).failure.Some?
    ensures AfterRegister(reg, name, args).registry
         == reg[name := TableOf(reg, name) + PairsTable(args[..2 * GoodPairs(args)])]
  {
    InstallOverlays(TableOf(reg, name), args, 0);
    PairsTableOfPrefix(args);
  }

  /** Only the well-formed head of a list contributes to its table. */
  lemma {:induction false} PairsTableOfPrefix(args: seq<Arg>)
    ensures GoodPairs(args[..2 * GoodPairs(args)]) == GoodPairs(args)
    ensures PairsTable(args[..2 * GoodPairs(args)]) == PairsTable(args)
    decreases |args|
  {
    var pre := args[..2 * GoodPairs(args)];
    if PairAt(args, 0) {
      var rest := args[2..];
      PairsTableOfPrefix(rest);
      assert PairAt(pre, 0);
      assert pre[2..] == rest[..2 * GoodPairs(rest)];
    }
  }

  /** Registering touches no other name: its entry, or its absence, is kept. */
  lemma RegisterKeepsOtherNames(reg: Registry, name: string, args: seq<Arg>, other: string)
    requires other != name
    ensures other in AfterRegister(reg, name, args).registry <==> other in reg
    ensures other in reg ==> AfterRegister(reg, name, args).registry[other] == reg[other]
  {
  }

  /** Even with no pairs, `Register` leaves an (empty, if new) entry for `name`. */
  lemma RegisterNothing(reg: Registry, name: string)
    ensures AfterRegister(reg, name, []) == Registration(reg[name := TableOf(reg, name)], None)
    ensures name !in reg ==> AfterRegister(reg, name, []).registry[name] == map[]
  {
  }

  // ---------------------------------------------------------------------------
  // Unregister
  // ---------------------------------------------------------------------------

  /** The kinds a list names. */
  function KindSet(kinds: seq<EventKind>): set<EventKind>
  {
    set k | k in kinds
  }

  /**
   * `Unregister(name, kinds...)`: nothing happens when `name` has no entry;
   * with no kinds the entry goes; otherwise the listed kinds go, and so does
   * the entry if that leaves it empty.
   */
  function AfterUnregister(reg: Registry, name: string, kinds: seq<EventKind>): (r: Registry)
    ensures r.Keys <= reg.Keys
    ensures forall n :: n in reg && n != name ==> n in r && r[n] == reg[n]
    ensures name !in reg ==> r == reg
    ensures |kinds| == 0 ==> name !in r
    ensures name in r ==> |r[name]| > 0 && r[name].Keys == reg[name].Keys - KindSet(kinds)
  {
    if name !in reg then reg
    else if |kinds| == 0 then reg - {name}
    else
      var left := reg[name] - KindSet(kinds);
      if |left| == 0 then reg - {name} else reg[name := left]
  }

  /** The handler registered for (`name`, `kind`), if any. */
  function Lookup(reg: Registry, name: string, kind: EventKind): Option<Handler>
  {
    if name in reg && kind in reg[name] then Some(reg[name][kind]) else None
  }

  /**
   * Unregistering a list of kinds removes exactly those kinds under `name`
   * and keeps every other (name, kind) handler; it leaves no empty entry
   * for `name` behind.
   */
  lemma UnregisterKinds(reg: Registry, name: string, kinds: seq<EventKind>, n: string, k: EventKind)
    requires |kinds| > 0
    ensures Lookup(AfterUnregister(reg, name, kinds), n, k)
         == if n == name && k in kinds then None else Lookup(reg, n, k)
    ensures name in AfterUnregister(reg, name, kinds) ==> |AfterUnregister(reg, name, kinds)[name]| > 0
  {
    if name in reg && n == name && k !in kinds && k in reg[name] {
      assert k in reg[name] - KindSet(kinds);
    }
  }

  /** Unregistering a name with no kinds removes its whole entry and nothing else. */
  lemma UnregisterAll(reg: Registry, name: string)
    ensures AfterUnregister(reg, name, []) == reg - {name}
  {
  }

  /** Unregistering under a name that has no entry changes nothing. */
  lemma UnregisterAbsent(reg: Registry, name: string, kinds: seq<EventKind>)
    requires name !in reg
    ensures AfterUnregister(reg, name, kinds) == reg
  {
  }

  /** Other names are never touched by `Unregister`. */
  lemma UnregisterKeepsOtherNames(reg: Registry, name: string, kinds: seq<EventKind>, other: string)
    requires other != name
    ensures other in AfterUnregister(reg, name, kinds) <==> other in reg
    ensures other in reg ==> AfterUnregister(reg, name, kinds)[other] == reg[other]
  {
  }

  // ---------------------------------------------------------------------------
  // Invoke
  // ---------------------------------------------------------------------------

  /**
   * `Invoke(name, evt)`: the handler registered for `name` and the event's
   * kind decides the result; with no such handler the event is not handled.
   */
  function Dispatch(reg: Registry, name: string, evt: EventData): (handled: bool)
    ensures name in reg && evt.eventType in reg[name] ==> handled == reg[name][evt.eventType](evt)
    ensures name !in reg || evt.eventType !in reg[name] ==> !handled
  {
    match Lookup(reg, name, evt.eventType)
    case Some(h) => h(evt)
    case None => false
  }

  /**
   * After a well-formed `Register(name, args...)`, an event for `name` whose
   * kind the list names goes to the last handler the list gives for it;
   * every other dispatch answers as before.
   */
  lemma InvokeAfterRegister(reg: Registry, name: string, args: seq<Arg>, n: string, evt: EventData)
    requires WellFormed(args)
    ensures Dispatch(AfterRegister(reg, name, args).registry, n, evt)
         == if n == name && evt.eventType in PairsTable(args)
            then PairsTable(args)[evt.eventType](evt)
            else Dispatch(reg, n, evt)
  {
    RegisterWellFormed(reg, name, args);
  }

  /** After `Unregister(name)` with no kinds, no event for `name` is handled. */
  lemma InvokeAfterUnregisterAll(reg: Registry, name: string, evt: EventData)
    ensures !Dispatch(AfterUnregister(reg, name, []), name, evt)
  {
  }

  /**
   * After `Unregister(name, kinds...)`, events of the listed kinds for `name`
   * go unhandled and every other dispatch answers as before.
   */
  lemma InvokeAfterUnregister(reg: Registry, name: string, kinds: seq<EventKind>, n: string, evt: EventData)
    requires |kinds| > 0
    ensures Dispatch(AfterUnregister(reg, name, kinds), n, evt)
         == if n == name && evt.eventType in kinds then false else Dispatch(reg, n, evt)
  {
    UnregisterKinds(reg, name, kinds, n, evt.eventType);
  }

  // ---------------------------------------------------------------------------
  // Scenarios
  // ---------------------------------------------------------------------------

  /**
   * Registering the same (name, kind) twice, in two calls or as two pairs of
   * one call: only the second handler is ever invoked for it.
   */
  lemma RegisterReplaces(reg: Registry, name: string, k: EventKind, h1: Handler, h2: Handler, evt: EventData)
    requires evt.eventType == k
    ensures var once := AfterRegister(reg, name, [KindArg(k), HandlerArg(h1)]).registry;
            Dispatch(AfterRegister(once, name, [KindArg(k), HandlerArg(h2)]).registry, name, evt) == h2(evt)
    ensures Dispatch(AfterRegister(reg, name, [KindArg(k), HandlerArg(h1), KindArg(k), HandlerArg(h2)]).registry, name, evt)
         == h2(evt)
  {
    var once := AfterRegister(reg, name, [KindArg(k), HandlerArg(h1)]).registry;
    var one := [KindArg(k), HandlerArg(h2)];
    assert PairAt(one, 0) && one[2..] == [];
    InvokeAfterRegister(once, name, one, name, evt);
    var two := [KindArg(k), HandlerArg(h1), KindArg(k), HandlerArg(h2)];
    assert two[2..] == one;
    InvokeAfterRegister(reg, name, two, name, evt);
  }

  /**
   * A handler registered for a new script answers events of its kind, and
   * events of any other kind for that script go unhandled.
   */
  lemma RegisterThenInvoke(reg: Registry, name: string, k: EventKind, h: Handler, evt: EventData)
    requires name !in reg
    ensures Dispatch(AfterRegister(reg, name, [KindArg(k), HandlerArg(h)]).registry, name, evt)
         == (evt.eventType == k && h(evt))
  {
    var one := [KindArg(k), HandlerArg(h)];
    assert PairAt(one, 0) && one[2..] == [];
    InvokeAfterRegister(reg, name, one, name, evt);
  }

  /**
   * A lone kind with no handler panics when the loop reaches the missing
   * second element, after the (empty) entry for `name` was already created.
   */
  lemma RegisterOddLength(reg: Registry, name: string, k: EventKind)
    ensures AfterRegister(reg, name, [KindArg(k)])
         == Registration(reg[name := TableOf(reg, name)], Some(MissingHandler(1)))
  {
  }
}
