/**
  The CivetWeb engine as the wrapper sees it: the options it was created with,
  whether its context came up, and the set of paths it has a handler for.
  Sockets, request parsing and worker threads are outside this model.
 */
module Civet {
  class CivetServer {
    /** The flat key/value option vector passed at creation. */
    const options: seq<string>
    /** `getContext() != nullptr`: the engine is listening. */
    var hasContext: bool
    /** The URIs with a registered handler. */
    var paths: set<string>

    /**
      Creates an engine from the options; whether its context comes up (the
      address could be bound) is decided by the network, given here as `contextUp`.
     */
    constructor (options: seq<string>, contextUp: bool)
      ensures this.options == options && hasContext == contextUp && paths == {}
    {
      this.options := options;
      hasContext := contextUp;
      paths := {};
    }

    method AddHandler(uri: string)
      modifies this
      ensures paths == old(paths) + {uri} && hasContext == old(hasContext)
    {
      paths := paths + {uri};
    }

    method RemoveHandler(uri: string)
      modifies this
      ensures paths == old(paths) - {uri} && hasContext == old(hasContext)
    {
      paths := paths - {uri};
    }

    /** Stops the engine: the context is released and with it every handler. */
    method Close()
      modifies this
      ensures !hasContext && paths == {}
    {
      hasContext := false;
      paths := {};
    }
  }
}
