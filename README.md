# PsWebServer wrapper — a Dafny model

This project models `UPsWebServerWrapper`, the lifecycle and registry layer of
the PsWebServer plugin over the embedded CivetWeb HTTP engine:

- **Option translation.** `StartServer` turns a settings snapshot into CivetWeb's flat
  option vector of four key/value pairs (`Options.CivetOptions`). The listening address is
  suffixed with `:port` only for a non-zero port. A disabled keep-alive forces the timeout to `"0"`.
  Numbers are rendered as `FString::FromInt` does (`Decimal.IntToString`), which
  is proved to be a bijection with canonical decimal text (`Decimal.ParseInt`).
- **Listener lifecycle.** `PsWebServerWrapper.server` is null or one engine. Start stops any
  previous engine first. Stop is idempotent. Destruction stops. The ghost set `engines` records
  every engine the wrapper created, and `Valid()` states that none but the current one still listens.
- **Handler registry.** `PsWebServerWrapper.handlers` (`BinnedHandlers`) is a map from URI to
  handler. Adding is "remove, then record if binding succeeded". Removing fails only when there
  is no engine. The map is keyed by `FString`, whose comparison and hash ignore case, so the
  model files each URI under its case-folded form (`CaseFold.Fold`). The engine's own handler
  paths are exact strings.

The CivetWeb engine is the class `Civet.CivetServer`: its creation options, a
"context present" flag and the set of paths with a handler. Whether a new
engine's context comes up (whether the address could be bound) is a parameter
(`contextUp`). The result of `UPsWebServerHandler::BindHandler` is a parameter too (`bindOk`).

Files: `wrappers.dfy` (Option), `casefold.dfy`, `decimal.dfy`, `options.dfy`, `civet.dfy`, `server_wrapper.dfy`.

Behaviour of the code worth noting:

- `StopServer` does not clear `BinnedHandlers`, so recorded entries survive a
  stop/start cycle (`LifecycleClient` shows this). The engine-level handlers do not survive it.
- A start whose engine context is null is a fatal error that aborts the process.
  It is not a recoverable error returned to the caller.
- `AddHandler` and `RemoveHandler` return booleans. `AddHandler` records
  the handler whenever `BindHandler` reports success, whether or not an engine exists.
- `StartExampleServer` registers `/example` on the engine only, never in `BinnedHandlers`.

## Model

| member | source | states |
|---|---|---|
| CaseFold.Fold | Source/PsWebServer/Private/PsWebServerWrapper.cpp:149-151 | the key a URI is filed under has the URI's length and each character upper-cased as `TChar::ToUpper` does |
| CaseFold.FoldEqualIff | Source/PsWebServer/Private/PsWebServerWrapper.cpp:149-151 | two URIs share a key exactly when they are equal ignoring case, which is how `FString` keys compare |
| CaseFold.FoldIdempotent | Source/PsWebServer/Private/PsWebServerWrapper.cpp:134 | a stored key is its own folded form |
| Decimal.NatToString | Source/PsWebServer/Private/PsWebServerWrapper.cpp:67 | the digits of a natural number are non-empty, all decimal digits, and start with '0' exactly for zero; one digit exactly below 10 |
| Decimal.IntToString | Source/PsWebServer/Private/PsWebServerWrapper.cpp:74 | `FromInt` text is non-empty, starts with '-' exactly for negative numbers, and contains no ':' |
| Decimal.ParseIntToString | Source/PsWebServer/Private/PsWebServerWrapper.cpp:67 | reading back the decimal text of any integer gives that integer |
| Decimal.IntToStringOfParse | Source/PsWebServer/Private/PsWebServerWrapper.cpp:81 | every canonical decimal string is the `FromInt` text of its value, so rendering is onto canonical text |
| Decimal.IntToStringInjective | Source/PsWebServer/Private/PsWebServerWrapper.cpp:74 | different numbers never render to the same text |
| Options.CivetOptions | Source/PsWebServer/Private/PsWebServerWrapper.cpp:70-89 | the option vector has exactly 8 strings, with the keys listening_ports, num_threads, enable_keep_alive, keep_alive_timeout_ms at the even positions in that order |
| Options.ListeningUrlParts | Source/PsWebServer/Private/PsWebServerWrapper.cpp:64-68 | with port 0 the listening address is exactly the server address; otherwise its last ':' follows the server address and the rest parses back to the port |
| Options.OptionValues | Source/PsWebServer/Private/PsWebServerWrapper.cpp:70-89 | the values read back for the four keys are the listening address, decimal(NumTreads), "yes"/"no", and decimal(KeepAliveTimeout) when enabled but "0" when disabled |
| Options.DisabledKeepAliveIgnoresTimeout | Source/PsWebServer/Private/PsWebServerWrapper.cpp:83-89 | with keep-alive disabled, the configured timeout does not change the option vector |
| Options.LoopbackScenario | Source/PsWebServer/Private/PsWebServerWrapper.cpp:62-89 | 127.0.0.1, port 8080, 4 threads, keep-alive off with timeout 5000 gives listening_ports "127.0.0.1:8080", num_threads "4", enable_keep_alive "no", keep_alive_timeout_ms "0" |
| Civet.CivetServer.constructor | Source/PsWebServer/Private/PsWebServerWrapper.cpp:99 | a new engine keeps its options, has a context exactly when it came up, and has no handlers |
| Civet.CivetServer.AddHandler | Source/PsWebServer/Private/PsWebServerWrapper.cpp:55 | registering adds the path and leaves the context as it was |
| Civet.CivetServer.RemoveHandler | Source/PsWebServer/Private/PsWebServerWrapper.cpp:155 | unregistering removes the path, whether or not it was registered |
| Civet.CivetServer.Close | Source/PsWebServer/Private/PsWebServerWrapper.cpp:118 | a closed engine has no context and no handlers |
| ServerWrapper.PsWebServerWrapper.constructor | Source/PsWebServer/Private/PsWebServerWrapper.cpp:33-39 | a new wrapper has no engine and an empty registry |
| ServerWrapper.PsWebServerWrapper.BeginDestroy | Source/PsWebServer/Private/PsWebServerWrapper.cpp:41-46 | destruction leaves no engine and no engine created by the wrapper still listening |
| ServerWrapper.PsWebServerWrapper.StartServer | Source/PsWebServer/Private/PsWebServerWrapper.cpp:59-107 | any previous engine is closed before a fresh one is created with the translated options; on return there is an engine, at most one engine listens, the registry is unchanged, and a context that did not come up is reported fatal |
| ServerWrapper.PsWebServerWrapper.StartExampleServer | Source/PsWebServer/Private/PsWebServerWrapper.cpp:48-57 | after a start that is not fatal, "/example" is the engine's only path and the registry is unchanged |
| ServerWrapper.PsWebServerWrapper.StopServer | Source/PsWebServer/Private/PsWebServerWrapper.cpp:113-124 | afterwards there is no engine; a previous engine is closed; with none it changes nothing; the registry is never touched |
| ServerWrapper.PsWebServerWrapper.AddHandler | Source/PsWebServer/Private/PsWebServerWrapper.cpp:126-142 | succeeds exactly when binding does, and then maps the URI's case-folded key to the handler with every other entry kept; on failure the URI's entry is removed if there is an engine and nothing is added; the engine's other paths and its context are unchanged, and after a failed bind the URI is not on the engine |
| ServerWrapper.PsWebServerWrapper.RemoveHandler | Source/PsWebServer/Private/PsWebServerWrapper.cpp:144-162 | succeeds exactly when there is an engine, and then every entry equal to the URI ignoring case is gone from the registry, the exact URI is gone from the engine, and every other entry is kept; with no engine nothing changes |

## Left out

- `ExampleHandler::handleGet` writes a fixed HTTP response to a connection; that is I/O and is not modelled.
- The body of `UPsWebServerHandler::BindHandler` is not part of this model. Its boolean result is the parameter `bindOk`. The model takes a successful bind to register the URI on a running engine, but the `AddHandler` contract leaves open whether the URI is on the engine after a successful bind.
- CaseFold.Fold: folds only the ASCII letters, as `TChar::ToUpper` does for them; case folding of other characters is not modelled.
- ServerWrapper.PsWebServerWrapper.AddHandler: the registry stores the folded URI as the key, not the casing the URI was added with. Nothing in this file reads the stored keys back.
- CivetWeb itself (sockets, request parsing, worker threads, `num_threads` concurrency) is abstracted to `Civet.CivetServer`; whether its context comes up is the parameter `contextUp`.
- The settings lookup through the plugin module is replaced by a `Settings` value passed in.
- Logging is left out. The one fatal log is the `fatal` result of `StartServer`. The process abort that follows it is not modelled: the method returns.
- `TCHAR_TO_ANSI` is taken as the identity on strings.
- Unreal object plumbing (`FObjectInitializer`, `Super::BeginDestroy`) is left out.
- The builds without CivetWeb support are left out. There `StartServer` only logs an error, `StopServer` does nothing, and both handler operations return false.
- A null `Handler` pointer, which the code would dereference, cannot be passed: handlers are non-null references.
