/**
  `UPsWebServerWrapper`: owns at most one running CivetWeb engine (`Server`)
  and a registry of handlers keyed by URI (`BinnedHandlers`).
 */
module ServerWrapper {
  import Options
  import Civet
  import CaseFold

  /** A `UPsWebServerHandler`: the registry only stores references to it. */
  class Handler {
  }

  class PsWebServerWrapper {
    /** `Server`: the current engine, or null. */
    var server: Civet.CivetServer?
    /**
      `BinnedHandlers`: the handler recorded for each URI. The map is keyed by
      `FString`, which compares ignoring case, so each URI is filed under its
      case-folded form.
     */
    var handlers: map<string, Handler>
    /** Every engine this wrapper has created. */
    ghost var engines: set<Civet.CivetServer>

    /**
      The current engine is among those created, no other one still listens,
      and every registry key is a folded URI.
     */
    ghost predicate Valid()
      reads this, engines
    {
      (server != null ==> server in engines) &&
      (forall k :: k in handlers ==> CaseFold.Fold(k) == k) &&
      forall e :: e in engines && e != server ==> !e.hasContext
    }

    /** At most one engine created by this wrapper is listening. */
    ghost predicate AtMostOneListening()
      reads this, engines
    {
      forall e1, e2 :: e1 in engines && e2 in engines && e1.hasContext && e2.hasContext ==> e1 == e2
    }

    /** No engine created by this wrapper is listening. */
    ghost predicate NoneListening()
      reads this, engines
    {
      forall e :: e in engines ==> !e.hasContext
    }

    constructor ()
      ensures Valid() && server == null && handlers == map[] && engines == {}
    {
      server := null;
      handlers := map[];
      engines := {};
    }

    /** Destruction stops the engine first, so none outlives the wrapper. */
    method BeginDestroy()
      requires Valid()
      modifies this, server
      ensures Valid() && server == null && NoneListening()
      ensures handlers == old(handlers) && engines == old(engines)
    {
      StopServer();
    }

    /**
      Builds the options from the settings, stops any existing engine and
      creates a new one. A new engine whose context did not come up is a fatal
      error (the process is aborted); `fatal` reports that outcome.
     */
    method StartServer(settings: Options.Settings, contextUp: bool) returns (fatal: bool)
      requires Valid()
      modifies this, server
      ensures Valid() && AtMostOneListening()
      ensures server != null && fresh(server) && engines == old(engines) + {server}
      ensures server.options == Options.CivetOptions(settings)
      ensures server.hasContext == contextUp && server.paths == {}
      ensures fatal <==> !contextUp
      ensures old(server) != null ==> !old(server).hasContext && old(server).paths == {}
      ensures handlers == old(handlers)
    {
      var options := Options.CivetOptions(settings);
      if server != null {
        StopServer();
      }
      server := new Civet.CivetServer(options, contextUp);
      engines := engines + {server};
      fatal := !server.hasContext;
    }

    /** Starts the engine and registers the built-in example handler at "/example" on it. */
    method StartExampleServer(settings: Options.Settings, contextUp: bool) returns (fatal: bool)
      requires Valid()
      modifies this, server
      ensures Valid() && AtMostOneListening()
      ensures server != null && fresh(server) && engines == old(engines) + {server}
      ensures server.options == Options.CivetOptions(settings)
      ensures server.hasContext == contextUp
      ensures fatal <==> !contextUp
      ensures server.paths == if fatal then {} else {"/example"}
      ensures handlers == old(handlers)
    {
      fatal := StartServer(settings, contextUp);
      if !fatal {
        server.AddHandler("/example");
      }
    }

    /** Closes and drops the current engine, if any; the registry is left as it is. */
    method StopServer()
      requires Valid()
      modifies this, server
      ensures Valid() && server == null && engines == old(engines)
      ensures old(server) != null ==> !old(server).hasContext && old(server).paths == {}
      ensures handlers == old(handlers)
    {
      if server != null {
        server.Close();
        server := null;
      }
    }

    /**
      Adds `handler` at `uri`: first removes any previous entry (and the
      engine's handler at `uri`), then records the handler when binding it
      succeeds. `bindOk` is the result of `UPsWebServerHandler::BindHandler`.
      Binding is taken to register `uri` on a running engine; the contract
      leaves open whether `uri` is on the engine after a successful bind.
     */
    method AddHandler(handler: Handler, uri: string, bindOk: bool) returns (ok: bool)
      requires Valid()
      modifies this, server
      ensures Valid() && server == old(server) && engines == old(engines)
      ensures ok == bindOk
      ensures ok ==> handlers == old(handlers)[CaseFold.Fold(uri) := handler]
      ensures !ok ==> handlers == if server != null then old(handlers) - {CaseFold.Fold(uri)} else old(handlers)
      ensures server != null ==>
        server.paths - {uri} == old(server.paths) - {uri} && server.hasContext == old(server.hasContext)
      ensures server != null && !ok ==> uri !in server.paths
    {
      var _ := RemoveHandler(uri);
      if bindOk {
        if server != null {
          server.AddHandler(uri);
        }
        CaseFold.FoldIdempotent(uri);
        handlers := handlers[CaseFold.Fold(uri) := handler];
        return true;
      }
      return false;
    }

    /**
      Removes the entry for `uri` (matched ignoring case), and the engine's
      handler at exactly `uri`, whether or not an entry was recorded. Fails
      only when there is no engine.
     */
    method RemoveHandler(uri: string) returns (ok: bool)
      requires Valid()
      modifies this, server
      ensures Valid() && server == old(server) && engines == old(engines)
      ensures ok <==> server != null
      ensures handlers == if ok then old(handlers) - {CaseFold.Fold(uri)} else old(handlers)
      ensures server != null ==>
        server.paths == old(server.paths) - {uri} && server.hasContext == old(server.hasContext)
    {
      if server != null {
        var key := CaseFold.Fold(uri);
        if key in handlers {
          handlers := handlers - {key};
        }
        server.RemoveHandler(uri);
        return true;
      }
      return false;
    }
  }

  /**
    What a caller can conclude from the contracts alone: a second start leaves
    the first engine stopped, removing without an engine fails, and a recorded
    handler survives a stop/start cycle while the engine's handlers do not.
   */
  method LifecycleClient(settings: Options.Settings, h: Handler)
  {
    var w := new PsWebServerWrapper();
    var removed := w.RemoveHandler("/api");
    assert !removed && w.handlers == map[];
    var fatal := w.StartServer(settings, true);
    var first := w.server;
    fatal := w.StartServer(settings, true);
    assert !first.hasContext && w.server.hasContext && !fatal;
    var key := CaseFold.Fold("/api");
    var added := w.AddHandler(h, "/api", true);
    assert added && w.handlers == map[key := h];
    w.StopServer();
    w.StopServer();
    fatal := w.StartServer(settings, true);
    assert key in w.handlers && "/api" !in w.server.paths;
    w.BeginDestroy();
    assert !first.hasContext && w.NoneListening();
  }

  /** Registry keys match ignoring case: "/API" replaces and removes the entry added as "/api". */
  method CaseInsensitiveClient(w: PsWebServerWrapper, h1: Handler, h2: Handler)
    requires w.Valid() && w.server != null
    modifies w, w.server
  {
    var key := CaseFold.Fold("/api");
    assert CaseFold.Fold("/API") == key;
    var added := w.AddHandler(h1, "/api", true);
    added := w.AddHandler(h2, "/API", true);
    assert w.handlers[key] == h2;
    var removed := w.RemoveHandler("/API");
    assert removed && key !in w.handlers;
  }
}
