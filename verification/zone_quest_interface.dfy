/**
 * `ZoneQuestInterface`: one zone's quest registry object. Its methods update
 * the `Handlers` map in place; each is proved to leave exactly the state the
 * matching function of `HandlerRegistry` describes.
 *
 * The reader/writer lock that `Register` and `Unregister` take is not part of
 * this model (`Invoke` takes none); the zone-access facade is an opaque
 * reference.
 */
module ZoneQuest {
  import opened Wrappers
  import opened EventKinds
  import opened QuestEvents
  import opened HandlerRegistry

  class ZoneQuestInterface {
    var zoneAccess: Ref
    var handlers: Registry

    /** The zero value: no facade bound, no handlers. */
    constructor ()
      ensures zoneAccess == Nil && handlers == map[]
    {
      zoneAccess := Nil;
      handlers := map[];
    }

    /** Binds the zone-access facade; the handlers are untouched. */
    method SetZoneAccess(za: Ref)
      modifies this
      ensures zoneAccess == za && handlers == old(handlers)
    {
      zoneAccess := za;
    }

    /**
     * Installs the kind/handler pairs of `args` under `name`, left to right.
     * A malformed element stops the loop with the panic it raises; the pairs
     * before it stay installed.
     */
    method Register(name: string, args: seq<Arg>) returns (failure: Option<RegisterError>)
      modifies this
      ensures handlers == AfterRegister(old(handlers), name, args).registry
      ensures failure == AfterRegister(old(handlers), name, args).failure
      ensures zoneAccess == old(zoneAccess)
    {
      if name !in handlers {
        handlers := handlers[name := map[]];
      }
      ghost var start := handlers[name];
      assert start == TableOf(old(handlers), name);
      var i := 0;
      while i < |args|
        invariant 0 <= i <= |args|
        invariant name in handlers
        invariant handlers == old(handlers)[name := handlers[name]]
        invariant Install(start, args, 0) == Install(handlers[name], args[i..], i)
        invariant zoneAccess == old(zoneAccess)
        decreases |args| - i
      {
        assert args[i..][0] == args[i];
        if !args[i].KindArg? {
          return Some(NotAKind(i));
        }
        if i + 1 >= |args| {
          return Some(MissingHandler(i + 1));
        }
        assert args[i..][1] == args[i + 1];
        if !args[i + 1].HandlerArg? {
          return Some(NotAHandler(i + 1));
        }
        assert args[i..][2..] == args[i + 2..];
        handlers := handlers[name := handlers[name][args[i].kind := args[i + 1].handler]];
        i := i + 2;
      }
      return None;
    }

    /**
     * Removes the entry for `name` (no kinds given) or the listed kinds under
     * it, dropping the entry if that leaves it empty; a name with no entry is
     * left alone.
     */
    method Unregister(name: string, kinds: seq<EventKind>)
      modifies this
      ensures handlers == AfterUnregister(old(handlers), name, kinds)
      ensures zoneAccess == old(zoneAccess)
    {
      if name !in handlers {
        return;
      }
      if |kinds| == 0 {
        handlers := handlers - {name};
        return;
      }
      var table := handlers[name];
      assert KindSet(kinds[..0]) == {};
      assert table - {} == table;
      for j := 0 to |kinds|
        invariant table == old(handlers)[name] - KindSet(kinds[..j])
        invariant handlers == old(handlers) && zoneAccess == old(zoneAccess)
      {
        assert kinds[..j + 1] == kinds[..j] + [kinds[j]];
        table := table - {kinds[j]};
      }
      assert kinds[..|kinds|] == kinds;
      if |table| == 0 {
        handlers := handlers - {name};
      } else {
        handlers := handlers[name := table];
      }
    }

    /**
     * Dispatches `evt` to the handler registered for `name` and its kind and
     * returns that handler's answer; with no such handler, `false`.
     */
    function Invoke(name: string, evt: QuestEvent): (handled: bool)
      reads this, evt
      ensures name in handlers && evt.eventType in handlers[name]
              ==> handled == handlers[name][evt.eventType](evt.Data())
      ensures name !in handlers || evt.eventType !in handlers[name] ==> !handled
    {
      Dispatch(handlers, name, evt.Data())
    }
  }
}
