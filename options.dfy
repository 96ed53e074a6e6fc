/**
  Translation of the plugin settings into CivetWeb's flat option vector, as
  `UPsWebServerWrapper::StartServer` builds it before creating the engine.
 */
module Options {
  import opened Wrappers
  import Decimal

  /** The settings hold plain 32-bit signed integers. */
  type Int32 = x: int | -0x8000_0000 <= x < 0x8000_0000

  /**
    The snapshot of the settings object that `StartServer` reads
    (`ServerAddress`, `ServerPort`, `NumTreads`, `bEnableKeepAlive`,
    `KeepAliveTimeout`).
   */
  datatype Settings = Settings(
    serverAddress: string,
    serverPort: Int32,
    numThreads: Int32,
    enableKeepAlive: bool,
    keepAliveTimeout: Int32)

  /** The option names, in the order they are pushed. */
  const OptionKeys: seq<string> :=
    ["listening_ports", "num_threads", "enable_keep_alive", "keep_alive_timeout_ms"]

  /** The listening address: the server address, suffixed with ":port" unless the port is 0. */
  function ListeningUrl(s: Settings): string {
    if s.serverPort != 0 then s.serverAddress + ":" + Decimal.IntToString(s.serverPort)
    else s.serverAddress
  }

  /** The option vector handed to the engine: key, value, key, value, ... */
  function CivetOptions(s: Settings): (opts: seq<string>)
    ensures |opts| == 2 * |OptionKeys|
    ensures forall i :: 0 <= i < |OptionKeys| ==> opts[2 * i] == OptionKeys[i]
  {
    var keepAlive :=
      if s.enableKeepAlive then
        ["enable_keep_alive", "yes", "keep_alive_timeout_ms", Decimal.IntToString(s.keepAliveTimeout)]
      else
        ["enable_keep_alive", "no", "keep_alive_timeout_ms", "0"];
    ["listening_ports", ListeningUrl(s), "num_threads", Decimal.IntToString(s.numThreads)] + keepAlive
  }

  /**
    Reads the value paired with `key` in a key/value option vector. It is
    applied here only to vectors whose keys are distinct, so which of several
    equal keys it picks does not matter.
   */
  function Lookup(opts: seq<string>, key: string): (r: Option<string>)
    ensures r.Some? ==> exists i :: 0 <= i && 2 * i + 1 < |opts| && opts[2 * i] == key && opts[2 * i + 1] == r.value
    decreases |opts|
  {
    if |opts| < 2 then None
    else if opts[0] == key then
      assert opts[2 * 0] == key && opts[2 * 0 + 1] == opts[1];
      Some(opts[1])
    else
      var r := Lookup(opts[2..], key);
      if r.Some? then
        var i :| 0 <= i && 2 * i + 1 < |opts| - 2 && opts[2..][2 * i] == key && opts[2..][2 * i + 1] == r.value;
        assert opts[2 * (i + 1)] == key && opts[2 * (i + 1) + 1] == r.value;
        r
      else r
  }

  /** The index of the last ':' of a string, if it has one. */
  function LastColon(u: string): (r: Option<nat>)
    ensures r.Some? ==> r.value < |u| && u[r.value] == ':' && ':' !in u[r.value + 1..]
    ensures r.None? ==> ':' !in u
    decreases |u|
  {
    if |u| == 0 then None
    else if u[|u| - 1] == ':' then Some(|u| - 1)
    else
      var r := LastColon(u[..|u| - 1]);
      assert u == u[..|u| - 1] + [u[|u| - 1]];
      r
  }

  lemma LastColonOfSuffix(a: string, t: string)
    requires ':' !in t
    ensures LastColon(a + ":" + t) == Some(|a|)
  {
    var u := a + ":" + t;
    assert u[|a|] == ':';
  }

  /**
    The listening address is exactly the server address when the port is 0;
    otherwise the text after its last ':' is the decimal port, and the text
    before it is the server address.
   */
  lemma ListeningUrlParts(s: Settings)
    ensures s.serverPort == 0 ==> ListeningUrl(s) == s.serverAddress
    ensures s.serverPort != 0 ==>
      var u, n := ListeningUrl(s), |s.serverAddress|;
      LastColon(u) == Some(n) && u[..n] == s.serverAddress &&
      Decimal.ParseInt(u[n + 1..]) == Some(s.serverPort as int)
  {
    if s.serverPort != 0 {
      var u, n, p := ListeningUrl(s), |s.serverAddress|, Decimal.IntToString(s.serverPort);
      LastColonOfSuffix(s.serverAddress, p);
      assert u[..n] == s.serverAddress;
      assert u[n + 1..] == p;
      Decimal.ParseIntToString(s.serverPort);
    }
  }

  /**
    What the engine reads back from the option vector: the listening address,
    the decimal thread count, and the keep-alive pair, which is ("no", "0")
    whenever keep-alive is disabled.
   */
  lemma OptionValues(s: Settings)
    ensures Lookup(CivetOptions(s), "listening_ports") == Some(ListeningUrl(s))
    ensures Lookup(CivetOptions(s), "num_threads") == Some(Decimal.IntToString(s.numThreads))
    ensures Lookup(CivetOptions(s), "enable_keep_alive") == Some(if s.enableKeepAlive then "yes" else "no")
    ensures Lookup(CivetOptions(s), "keep_alive_timeout_ms") ==
      Some(if s.enableKeepAlive then Decimal.IntToString(s.keepAliveTimeout) else "0")
  {
    var o := CivetOptions(s);
    var timeout := if s.enableKeepAlive then Decimal.IntToString(s.keepAliveTimeout) else "0";
    assert o[4..] == ["enable_keep_alive", o[5], "keep_alive_timeout_ms", timeout];
    assert Lookup(o[6..], "keep_alive_timeout_ms") == Some(timeout);
    assert Lookup(o[4..], "keep_alive_timeout_ms") == Some(timeout);
    assert Lookup(o[2..], "keep_alive_timeout_ms") == Some(timeout);
    assert Lookup(o[4..], "enable_keep_alive") == Some(o[5]);
    assert Lookup(o[2..], "enable_keep_alive") == Some(o[5]);
  }

  /** With keep-alive disabled, the configured timeout has no effect on the options. */
  lemma DisabledKeepAliveIgnoresTimeout(s: Settings, timeout: Int32)
    requires !s.enableKeepAlive
    ensures CivetOptions(s.(keepAliveTimeout := timeout)) == CivetOptions(s)
  {
  }

  /**
    Address 127.0.0.1, port 8080, 4 threads, keep-alive disabled with a
    configured timeout of 5000.
   */
  lemma LoopbackScenario()
    ensures CivetOptions(Settings("127.0.0.1", 8080, 4, false, 5000)) ==
      ["listening_ports", "127.0.0.1:8080", "num_threads", "4",
       "enable_keep_alive", "no", "keep_alive_timeout_ms", "0"]
  {
    assert Decimal.NatToString(8) == "8";
    assert Decimal.NatToString(80) == "80";
    assert Decimal.NatToString(808) == "808";
    assert Decimal.NatToString(8080) == "8080";
    assert Decimal.NatToString(4) == "4";
    assert Decimal.IntToString(8080) == "8080" && Decimal.IntToString(4) == "4";
    assert ListeningUrl(Settings("127.0.0.1", 8080, 4, false, 5000)) == "127.0.0.1:8080";
  }
}
