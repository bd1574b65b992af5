/**
 `connection::connect`: applying connection options and opening the native connection.

 Options are applied by native setters in a fixed order; any of them, or the native connect, may
 fail. What reaches nats.c is a log of setter calls, and the settings of the native connection.
 */
module Connect {
  import opened Common

  // ---------------------------------------------------------------- options

  /** The six callbacks of an options object, and of a handler block. */
  datatype Callbacks = Callbacks(
    closed: Option<int>, disconnected: Option<int>, reconnected: Option<int>,
    error: Option<int>, lameDuckMode: Option<int>, discoveredServers: Option<int>)

  /** `connection_options`. Durations are in milliseconds; functions and closures are identities. */
  datatype Options = Options(
    url: string,
    urls: seq<string>,
    retryOnFailedConnect: bool,
    // authentication
    token: Option<string>,
    user: Option<string>, password: Option<string>,
    userCredentialsFile: Option<string>, userNkeySeedFile: Option<string>,
    nkeyPublic: Option<string>, nkeySignatureCb: Option<int>, nkeySignatureClosure: int,
    tokenHandlerCb: Option<int>, tokenHandlerClosure: int,
    // TLS
    secure: Option<bool>,
    caTrustedCertificatesFile: Option<string>,
    caCertsPath: Option<string>,
    certificatesChainFile: Option<string>, privateKeyFile: Option<string>,
    skipServerVerification: Option<bool>,
    expectedHostname: Option<string>,
    ciphers: Option<string>,
    cipherSuites: Option<string>,
    // lifecycle callbacks
    callbacks: Callbacks,
    // reconnect behaviour
    reconnectWait: Option<int>,
    maxReconnect: Option<int>,
    allowReconnect: Option<bool>,
    noRandomize: Option<bool>,
    maxPingsOut: Option<int>,
    reconnectBufSize: Option<int>,
    reconnectJitter: Option<(int, int)>,
    // back-pressure, I/O, server discovery
    maxPendingMsgs: Option<int>,
    maxPendingBytes: Option<int>,
    ioBufSize: Option<int>,
    sendAsap: Option<bool>,
    failRequestsOnDisconnect: Option<bool>,
    ignoreDiscoveredServers: Option<bool>,
    // protocol tweaks
    disableNoResponders: Option<bool>,
    useOldRequestStyle: Option<bool>,
    customInboxPrefix: Option<string>,
    pedantic: Option<bool>,
    verbose: Option<bool>,
    // connection tuning
    pingInterval: Option<int>,
    timeout: Option<int>,
    name: Option<string>,
    noEcho: Option<bool>)

  /** A native option, by the place its setter has in the source. */
  type Field = int

  const SERVERS: Field := 0
  const URL: Field := 1
  const TOKEN: Field := 2
  const TOKEN_HANDLER: Field := 3
  const NKEY: Field := 4
  const CREDENTIALS: Field := 5
  const USER_INFO: Field := 6
  const SECURE: Field := 7
  const CA_CERTIFICATES: Field := 8
  const CA_PATH: Field := 9
  const CERTIFICATES_CHAIN: Field := 10
  const SKIP_VERIFICATION: Field := 11
  const HOSTNAME: Field := 12
  const CIPHERS: Field := 13
  const CIPHER_SUITES: Field := 14
  const CLOSED_CB: Field := 15
  const DISCONNECTED_CB: Field := 16
  const RECONNECTED_CB: Field := 17
  const ERROR_HANDLER: Field := 18
  const LAME_DUCK_MODE_CB: Field := 19
  const DISCOVERED_SERVERS_CB: Field := 20
  const RECONNECT_WAIT: Field := 21
  const MAX_RECONNECT: Field := 22
  const ALLOW_RECONNECT: Field := 23
  const NO_RANDOMIZE: Field := 24
  const MAX_PINGS_OUT: Field := 25
  const RECONNECT_BUF_SIZE: Field := 26
  const RECONNECT_JITTER: Field := 27
  const MAX_PENDING_MSGS: Field := 28
  const MAX_PENDING_BYTES: Field := 29
  const IO_BUF_SIZE: Field := 30
  const SEND_ASAP: Field := 31
  const FAIL_REQUESTS_ON_DISCONNECT: Field := 32
  const IGNORE_DISCOVERED_SERVERS: Field := 33
  const DISABLE_NO_RESPONDERS: Field := 34
  const USE_OLD_REQUEST_STYLE: Field := 35
  const CUSTOM_INBOX_PREFIX: Field := 36
  const PEDANTIC: Field := 37
  const VERBOSE: Field := 38
  const PING_INTERVAL: Field := 39
  const TIMEOUT: Field := 40
  const NAME: Field := 41
  const NO_ECHO: Field := 42
  const RETRY_ON_FAILED_CONNECT: Field := 43

  /** The arguments of a native setter. */
  datatype Value =
    | Text(s: string)
    | Texts(ss: seq<string>)
    | Both(first: string, second: string)
    | Files(credentials: string, seed: Option<string>)
    | Signed(nkey: string, cb: Option<int>, closure: int)
    | Function(cb: Option<int>, closure: int)
    | Flag(b: bool)
    | Number(n: int)
    | Jitter(plain: int, tls: int)
    | Handler(block: int)          // a bridge function with the handler block as closure

  datatype Setter = Setter(field: Field, value: Value)

  type Settings = map<Field, Value>

  // ---------------------------------------------------------------- what options ask for

  function TextOf(x: Option<string>): Option<Value> { if x.None? then None else Some(Text(x.value)) }

  function FlagOf(x: Option<bool>): Option<Value> { if x.None? then None else Some(Flag(x.value)) }

  function NumberOf(x: Option<int>): Option<Value> { if x.None? then None else Some(Number(x.value)) }

  function HandlerOf(x: Option<int>, block: int): Option<Value> { if x.None? then None else Some(Handler(block)) }

  /** Two fields that count only together. */
  function BothOf(x: Option<string>, y: Option<string>): Option<Value> {
    if x.None? || y.None? then None else Some(Both(x.value, y.value))
  }

  function CredentialsOf(x: Option<string>, seed: Option<string>): Option<Value> {
    if x.None? then None else Some(Files(x.value, seed))
  }

  function ServersOf(urls: seq<string>): Option<Value> { if urls == [] then None else Some(Texts(urls)) }

  function UrlOf(o: Options): Option<Value> { if o.urls == [] then Some(Text(o.url)) else None }

  function TokenHandlerOf(o: Options): Option<Value> {
    if o.tokenHandlerCb.None? then None else Some(Function(o.tokenHandlerCb, o.tokenHandlerClosure))
  }

  function NKeyOf(o: Options): Option<Value> {
    if o.nkeyPublic.None? then None else Some(Signed(o.nkeyPublic.value, o.nkeySignatureCb, o.nkeySignatureClosure))
  }

  function JitterOf(x: Option<(int, int)>): Option<Value> { if x.None? then None else Some(Jitter(x.value.0, x.value.1)) }

  function RetryOf(retry: bool): Option<Value> { if retry then Some(Flag(true)) else None }

  // ---------------------------------------------------------------- setter calls in order

  /** Native options one after another, each with the value to set, if any. */
  datatype Plan = Done | Then(field: Field, value: Option<Value>, rest: Plan)

  function ServerPlan(o: Options, rest: Plan): Plan {
    Then(SERVERS, ServersOf(o.urls),
    Then(URL, UrlOf(o), rest))
  }

  function AuthPlan(o: Options, rest: Plan): Plan {
    Then(TOKEN, TextOf(o.token),
    Then(TOKEN_HANDLER, TokenHandlerOf(o),
    Then(NKEY, NKeyOf(o),
    Then(CREDENTIALS, CredentialsOf(o.userCredentialsFile, o.userNkeySeedFile),
    Then(USER_INFO, BothOf(o.user, o.password), rest)))))
  }

  function TlsPlan(o: Options, rest: Plan): Plan {
    Then(SECURE, FlagOf(o.secure),
    Then(CA_CERTIFICATES, TextOf(o.caTrustedCertificatesFile),
    Then(CA_PATH, TextOf(o.caCertsPath),
    Then(CERTIFICATES_CHAIN, BothOf(o.certificatesChainFile, o.privateKeyFile), rest))))
  }

  function PeerPlan(o: Options, rest: Plan): Plan {
    Then(SKIP_VERIFICATION, FlagOf(o.skipServerVerification),
    Then(HOSTNAME, TextOf(o.expectedHostname),
    Then(CIPHERS, TextOf(o.ciphers),
    Then(CIPHER_SUITES, TextOf(o.cipherSuites), rest))))
  }

  function CallbacksPlan(o: Options, block: int, rest: Plan): Plan {
    Then(CLOSED_CB, HandlerOf(o.callbacks.closed, block),
    Then(DISCONNECTED_CB, HandlerOf(o.callbacks.disconnected, block),
    Then(RECONNECTED_CB, HandlerOf(o.callbacks.reconnected, block), rest)))
  }

  function EventsPlan(o: Options, block: int, rest: Plan): Plan {
    Then(ERROR_HANDLER, HandlerOf(o.callbacks.error, block),
    Then(LAME_DUCK_MODE_CB, HandlerOf(o.callbacks.lameDuckMode, block),
    Then(DISCOVERED_SERVERS_CB, HandlerOf(o.callbacks.discoveredServers, block), rest)))
  }

  function ReconnectPlan(o: Options, rest: Plan): Plan {
    Then(RECONNECT_WAIT, NumberOf(o.reconnectWait),
    Then(MAX_RECONNECT, NumberOf(o.maxReconnect),
    Then(ALLOW_RECONNECT, FlagOf(o.allowReconnect),
    Then(NO_RANDOMIZE, FlagOf(o.noRandomize), rest))))
  }

  function LimitsPlan(o: Options, rest: Plan): Plan {
    Then(MAX_PINGS_OUT, NumberOf(o.maxPingsOut),
    Then(RECONNECT_BUF_SIZE, NumberOf(o.reconnectBufSize),
    Then(RECONNECT_JITTER, JitterOf(o.reconnectJitter), rest)))
  }

  function TuningPlan(o: Options, rest: Plan): Plan {
    Then(MAX_PENDING_MSGS, NumberOf(o.maxPendingMsgs),
    Then(MAX_PENDING_BYTES, NumberOf(o.maxPendingBytes),
    Then(IO_BUF_SIZE, NumberOf(o.ioBufSize),
    Then(SEND_ASAP, FlagOf(o.sendAsap), rest))))
  }

  function ClusterPlan(o: Options, rest: Plan): Plan {
    Then(FAIL_REQUESTS_ON_DISCONNECT, FlagOf(o.failRequestsOnDisconnect),
    Then(IGNORE_DISCOVERED_SERVERS, FlagOf(o.ignoreDiscoveredServers), rest))
  }

  function ProtocolPlan(o: Options, rest: Plan): Plan {
    Then(DISABLE_NO_RESPONDERS, FlagOf(o.disableNoResponders),
    Then(USE_OLD_REQUEST_STYLE, FlagOf(o.useOldRequestStyle),
    Then(CUSTOM_INBOX_PREFIX, TextOf(o.customInboxPrefix),
    Then(PEDANTIC, FlagOf(o.pedantic),
    Then(VERBOSE, FlagOf(o.verbose), rest)))))
  }

  function TimingPlan(o: Options, rest: Plan): Plan {
    Then(PING_INTERVAL, NumberOf(o.pingInterval),
    Then(TIMEOUT, NumberOf(o.timeout),
    Then(NAME, TextOf(o.name),
    Then(NO_ECHO, FlagOf(o.noEcho), rest))))
  }

  function RetryPlan(o: Options): Plan { Then(RETRY_ON_FAILED_CONNECT, RetryOf(o.retryOnFailedConnect), Done) }

  /** Everything after the callbacks. */
  function BehaviourPlan(o: Options, rest: Plan): Plan {
    ReconnectPlan(o, LimitsPlan(o, TuningPlan(o, ClusterPlan(o, ProtocolPlan(o, TimingPlan(o, rest))))))
  }

  /** The setters of `apply_nats_options` in source order. */
  function NatsOptionsPlan(o: Options, block: int, rest: Plan): Plan {
    ServerPlan(o, AuthPlan(o, TlsPlan(o, PeerPlan(o, CallbacksPlan(o, block, EventsPlan(o, block, BehaviourPlan(o, rest)))))))
  }

  function ConnectPlan(o: Options, block: int): Plan { NatsOptionsPlan(o, block, RetryPlan(o)) }

  /** The setter calls a plan consists of. */
  function Calls(plan: Plan): seq<Setter> {
    match plan
    case Done => []
    case Then(f, v, rest) => if v.None? then Calls(rest) else [Setter(f, v.value)] + Calls(rest)
  }

  /** No call among `calls` fails. */
  predicate Clean(calls: seq<Setter>, failing: set<Setter>) {
    forall c :: c in calls ==> c !in failing
  }

  /** The calls up to and including the first that fails. */
  function Attempted(calls: seq<Setter>, failing: set<Setter>): seq<Setter> {
    if calls == [] then [] else if calls[0] in failing then [calls[0]] else [calls[0]] + Attempted(calls[1..], failing)
  }

  /** Nothing comes after the first failure, and nothing before it is left out. */
  lemma {:induction false} AttemptedIs(calls: seq<Setter>, failing: set<Setter>)
    ensures
      var done := Attempted(calls, failing);
      && done <= calls
      && (forall i :: 0 <= i < |done| - 1 ==> done[i] !in failing)
      && (if Clean(calls, failing) then done == calls else done != [] && done[|done| - 1] in failing)
  {
    if calls != [] {
      AttemptedIs(calls[1..], failing);
      assert calls == [calls[0]] + calls[1..];
    }
  }

  /** Calls that stopped at the first failure, with `left` still to come. */
  lemma {:induction false} StoppedIsAttempted(done: seq<Setter>, left: seq<Setter>, failing: set<Setter>)
    requires done != [] && done[|done| - 1] in failing && Clean(done[..|done| - 1], failing)
    ensures Attempted(done + left, failing) == done
  {
    if |done| > 1 {
      assert done[0] in done[..|done| - 1];
      assert done[1..][..|done| - 2] == done[..|done| - 1][1..];
      StoppedIsAttempted(done[1..], left, failing);
      assert (done + left)[1..] == done[1..] + left;
    }
  }

  /** Options `t` after the calls `calls`. */
  function Override(t: Settings, calls: seq<Setter>): Settings {
    if calls == [] then t
    else
      var last := calls[|calls| - 1];
      Override(t, calls[..|calls| - 1])[last.field := last.value]
  }

  // ---------------------------------------------------------------- the native side

  /** A natsOptions object. `failing` are the setter calls that will fail on it. */
  class NativeOptions {
    var settings: Settings
    var inUse: bool
    const defaults: Settings
    const failing: set<Setter>
    ghost var log: seq<Setter>      // the setter calls made on it

    constructor (defaults: Settings, failing: set<Setter>)
      ensures Ready() && log == [] && this.defaults == defaults && this.failing == failing
    {
      settings, this.defaults, this.failing := defaults, defaults, failing;
      inUse, log := true, [];
    }

    /** No call failed, and the settings are the defaults overridden by the calls so far. */
    ghost predicate Ready()
      reads this
    {
      inUse && Clean(log, failing) && settings == Override(defaults, log)
    }

    /** The last call is the first that failed. */
    ghost predicate Stopped()
      reads this
    {
      inUse && log != [] && log[|log| - 1] in failing && Clean(log[..|log| - 1], failing)
    }

    /** The calls made, and those of the plan `left`, are the calls `before` and those of `plan`; all
        went well, or the last one failed. */
    ghost predicate Follows(before: seq<Setter>, plan: Plan, left: Plan, ok: bool)
      reads this
    {
      && (if ok then Ready() else Stopped())
      && log + Calls(left) == before + Calls(plan)
    }

    /** natsOptions_SetXxx and natsOptions_LoadXxx; `left` is what is still to be done. */
    method Set(f: Field, v: Value, ghost left: Plan) returns (ok: bool)
      requires Ready() && left.Then? && left.field == f && left.value == Some(v)
      modifies this`settings, this`log
      ensures if ok then Ready() else Stopped()
      ensures log + Calls(left.rest) == old(log) + Calls(left)
    {
      ok := Setter(f, v) !in failing;
      if ok {
        settings := settings[f := v];
      }
      log := log + [Setter(f, v)];
      assert old(log) == log[..|log| - 1];
    }
  }

  // ---------------------------------------------------------------- apply_nats_options

  /** The server list takes precedence over the single URL. */
  method ApplyServer(n: NativeOptions, o: Options, ghost rest: Plan) returns (ok: bool, ghost left: Plan)
    requires n.Ready()
    modifies n`settings, n`log
    ensures ok ==> left == rest
    ensures n.Follows(old(n.log), ServerPlan(o, rest), left, ok)
  {
    left := ServerPlan(o, rest);
    if o.urls != [] {
      var servers := [];
      for i := 0 to |o.urls|
        invariant servers == o.urls[..i]
      {
        servers := servers + [o.urls[i]];
      }
      assert servers == o.urls;
      ok := n.Set(SERVERS, Texts(servers), left);
    } else {
      ok := n.Set(URL, Text(o.url), left.rest);
    }
    left := rest;
    assert ServerPlan(o, rest).rest.rest == rest;
  }

  /** Authentication. */
  method ApplyAuth(n: NativeOptions, o: Options, ghost rest: Plan) returns (ok: bool, ghost left: Plan)
    requires n.Ready()
    modifies n`settings, n`log
    ensures ok ==> left == rest
    ensures n.Follows(old(n.log), AuthPlan(o, rest), left, ok)
  {
    left := AuthPlan(o, rest);
    ghost var all := n.log + Calls(left);
    if o.token.Some? {
      ok := n.Set(TOKEN, Text(o.token.value), left);
      if !ok { left := left.rest; return; }
    }
    left := left.rest;
    assert n.log + Calls(left) == all;
    if o.tokenHandlerCb.Some? {
      ok := n.Set(TOKEN_HANDLER, Function(o.tokenHandlerCb, o.tokenHandlerClosure), left);
      if !ok { left := left.rest; return; }
    }
    left := left.rest;
    assert n.log + Calls(left) == all;
    if o.nkeyPublic.Some? {
      ok := n.Set(NKEY, Signed(o.nkeyPublic.value, o.nkeySignatureCb, o.nkeySignatureClosure), left);
      if !ok { left := left.rest; return; }
    }
    left := left.rest;
    assert n.log + Calls(left) == all;
    if o.userCredentialsFile.Some? {
      ok := n.Set(CREDENTIALS, Files(o.userCredentialsFile.value, o.userNkeySeedFile), left);
      if !ok { left := left.rest; return; }
    }
    left := left.rest;
    assert n.log + Calls(left) == all;
    if o.user.Some? && o.password.Some? {
      ok := n.Set(USER_INFO, Both(o.user.value, o.password.value), left);
      if !ok { left := left.rest; return; }
    }
    left := left.rest;
    assert n.log + Calls(left) == all;
    ok := true;
  }

  /** TLS certificates. In a build without TLS the CA path and the cipher suites always fail when asked for. */
  method ApplyTls(n: NativeOptions, o: Options, ghost rest: Plan) returns (ok: bool, ghost left: Plan)
    requires n.Ready()
    modifies n`settings, n`log
    ensures ok ==> left == rest
    ensures n.Follows(old(n.log), TlsPlan(o, rest), left, ok)
  {
    left := TlsPlan(o, rest);
    ghost var all := n.log + Calls(left);
    if o.secure.Some? {
      ok := n.Set(SECURE, Flag(o.secure.value), left);
      if !ok { left := left.rest; return; }
    }
    left := left.rest;
    assert n.log + Calls(left) == all;
    if o.caTrustedCertificatesFile.Some? {
      ok := n.Set(CA_CERTIFICATES, Text(o.caTrustedCertificatesFile.value), left);
      if !ok { left := left.rest; return; }
    }
    left := left.rest;
    assert n.log + Calls(left) == all;
    if o.caCertsPath.Some? {
      ok := n.Set(CA_PATH, Text(o.caCertsPath.value), left);
      if !ok { left := left.rest; return; }
    }
    left := left.rest;
    assert n.log + Calls(left) == all;
    if o.certificatesChainFile.Some? && o.privateKeyFile.Some? {
      ok := n.Set(CERTIFICATES_CHAIN, Both(o.certificatesChainFile.value, o.privateKeyFile.value), left);
      if !ok { left := left.rest; return; }
    }
    left := left.rest;
    assert n.log + Calls(left) == all;
    ok := true;
  }

  /** What TLS demands of the server, and its ciphers. */
  method ApplyPeer(n: NativeOptions, o: Options, ghost rest: Plan) returns (ok: bool, ghost left: Plan)
    requires n.Ready()
    modifies n`settings, n`log
    ensures ok ==> left == rest
    ensures n.Follows(old(n.log), PeerPlan(o, rest), left, ok)
  {
    left := PeerPlan(o, rest);
    ghost var all := n.log + Calls(left);
    if o.skipServerVerification.Some? {
      ok := n.Set(SKIP_VERIFICATION, Flag(o.skipServerVerification.value), left);
      if !ok { left := left.rest; return; }
    }
    left := left.rest;
    assert n.log + Calls(left) == all;
    if o.expectedHostname.Some? {
      ok := n.Set(HOSTNAME, Text(o.expectedHostname.value), left);
      if !ok { left := left.rest; return; }
    }
    left := left.rest;
    assert n.log + Calls(left) == all;
    if o.ciphers.Some? {
      ok := n.Set(CIPHERS, Text(o.ciphers.value), left);
      if !ok { left := left.rest; return; }
    }
    left := left.rest;
    assert n.log + Calls(left) == all;
    if o.cipherSuites.Some? {
      ok := n.Set(CIPHER_SUITES, Text(o.cipherSuites.value), left);
      if !ok { left := left.rest; return; }
    }
    left := left.rest;
    assert n.log + Calls(left) == all;
    ok := true;
  }

  /** Lifecycle callbacks: a bridge function with the handler block as closure. */
  method ApplyCallbacks(n: NativeOptions, o: Options, block: int, ghost rest: Plan) returns (ok: bool, ghost left: Plan)
    requires n.Ready()
    modifies n`settings, n`log
    ensures ok ==> left == rest
    ensures n.Follows(old(n.log), CallbacksPlan(o, block, rest), left, ok)
  {
    left := CallbacksPlan(o, block, rest);
    ghost var all := n.log + Calls(left);
    if o.callbacks.closed.Some? {
      ok := n.Set(CLOSED_CB, Handler(block), left);
      if !ok { left := left.rest; return; }
    }
    left := left.rest;
    assert n.log + Calls(left) == all;
    if o.callbacks.disconnected.Some? {
      ok := n.Set(DISCONNECTED_CB, Handler(block), left);
      if !ok { left := left.rest; return; }
    }
    left := left.rest;
    assert n.log + Calls(left) == all;
    if o.callbacks.reconnected.Some? {
      ok := n.Set(RECONNECTED_CB, Handler(block), left);
      if !ok { left := left.rest; return; }
    }
    left := left.rest;
    assert n.log + Calls(left) == all;
    ok := true;
  }

  /** Callbacks for errors, lame duck mode and discovered servers. */
  method ApplyEvents(n: NativeOptions, o: Options, block: int, ghost rest: Plan) returns (ok: bool, ghost left: Plan)
    requires n.Ready()
    modifies n`settings, n`log
    ensures ok ==> left == rest
    ensures n.Follows(old(n.log), EventsPlan(o, block, rest), left, ok)
  {
    left := EventsPlan(o, block, rest);
    ghost var all := n.log + Calls(left);
    if o.callbacks.error.Some? {
      ok := n.Set(ERROR_HANDLER, Handler(block), left);
      if !ok { left := left.rest; return; }
    }
    left := left.rest;
    assert n.log + Calls(left) == all;
    if o.callbacks.lameDuckMode.Some? {
      ok := n.Set(LAME_DUCK_MODE_CB, Handler(block), left);
      if !ok { left := left.rest; return; }
    }
    left := left.rest;
    assert n.log + Calls(left) == all;
    if o.callbacks.discoveredServers.Some? {
      ok := n.Set(DISCOVERED_SERVERS_CB, Handler(block), left);
      if !ok { left := left.rest; return; }
    }
    left := left.rest;
    assert n.log + Calls(left) == all;
    ok := true;
  }

  /** Reconnect behaviour. */
  method ApplyReconnect(n: NativeOptions, o: Options, ghost rest: Plan) returns (ok: bool, ghost left: Plan)
    requires n.Ready()
    modifies n`settings, n`log
    ensures ok ==> left == rest
    ensures n.Follows(old(n.log), ReconnectPlan(o, rest), left, ok)
  {
    left := ReconnectPlan(o, rest);
    ghost var all := n.log + Calls(left);
    if o.reconnectWait.Some? {
      ok := n.Set(RECONNECT_WAIT, Number(o.reconnectWait.value), left);
      if !ok { left := left.rest; return; }
    }
    left := left.rest;
    assert n.log + Calls(left) == all;
    if o.maxReconnect.Some? {
      ok := n.Set(MAX_RECONNECT, Number(o.maxReconnect.value), left);
      if !ok { left := left.rest; return; }
    }
    left := left.rest;
    assert n.log + Calls(left) == all;
    if o.allowReconnect.Some? {
      ok := n.Set(ALLOW_RECONNECT, Flag(o.allowReconnect.value), left);
      if !ok { left := left.rest; return; }
    }
    left := left.rest;
    assert n.log + Calls(left) == all;
    if o.noRandomize.Some? {
      ok := n.Set(NO_RANDOMIZE, Flag(o.noRandomize.value), left);
      if !ok { left := left.rest; return; }
    }
    left := left.rest;
    assert n.log + Calls(left) == all;
    ok := true;
  }

  /** Reconnect limits. */
  method ApplyLimits(n: NativeOptions, o: Options, ghost rest: Plan) returns (ok: bool, ghost left: Plan)
    requires n.Ready()
    modifies n`settings, n`log
    ensures ok ==> left == rest
    ensures n.Follows(old(n.log), LimitsPlan(o, rest), left, ok)
  {
    left := LimitsPlan(o, rest);
    ghost var all := n.log + Calls(left);
    if o.maxPingsOut.Some? {
      ok := n.Set(MAX_PINGS_OUT, Number(o.maxPingsOut.value), left);
      if !ok { left := left.rest; return; }
    }
    left := left.rest;
    assert n.log + Calls(left) == all;
    if o.reconnectBufSize.Some? {
      ok := n.Set(RECONNECT_BUF_SIZE, Number(o.reconnectBufSize.value), left);
      if !ok { left := left.rest; return; }
    }
    left := left.rest;
    assert n.log + Calls(left) == all;
    if o.reconnectJitter.Some? {
      ok := n.Set(RECONNECT_JITTER, Jitter(o.reconnectJitter.value.0, o.reconnectJitter.value.1), left);
      if !ok { left := left.rest; return; }
    }
    left := left.rest;
    assert n.log + Calls(left) == all;
    ok := true;
  }

  /** Back-pressure and I/O. */
  method ApplyTuning(n: NativeOptions, o: Options, ghost rest: Plan) returns (ok: bool, ghost left: Plan)
    requires n.Ready()
    modifies n`settings, n`log
    ensures ok ==> left == rest
    ensures n.Follows(old(n.log), TuningPlan(o, rest), left, ok)
  {
    left := TuningPlan(o, rest);
    ghost var all := n.log + Calls(left);
    if o.maxPendingMsgs.Some? {
      ok := n.Set(MAX_PENDING_MSGS, Number(o.maxPendingMsgs.value), left);
      if !ok { left := left.rest; return; }
    }
    left := left.rest;
    assert n.log + Calls(left) == all;
    if o.maxPendingBytes.Some? {
      ok := n.Set(MAX_PENDING_BYTES, Number(o.maxPendingBytes.value), left);
      if !ok { left := left.rest; return; }
    }
    left := left.rest;
    assert n.log + Calls(left) == all;
    if o.ioBufSize.Some? {
      ok := n.Set(IO_BUF_SIZE, Number(o.ioBufSize.value), left);
      if !ok { left := left.rest; return; }
    }
    left := left.rest;
    assert n.log + Calls(left) == all;
    if o.sendAsap.Some? {
      ok := n.Set(SEND_ASAP, Flag(o.sendAsap.value), left);
      if !ok { left := left.rest; return; }
    }
    left := left.rest;
    assert n.log + Calls(left) == all;
    ok := true;
  }

  /** Cluster and server discovery. */
  method ApplyCluster(n: NativeOptions, o: Options, ghost rest: Plan) returns (ok: bool, ghost left: Plan)
    requires n.Ready()
    modifies n`settings, n`log
    ensures ok ==> left == rest
    ensures n.Follows(old(n.log), ClusterPlan(o, rest), left, ok)
  {
    left := ClusterPlan(o, rest);
    ghost var all := n.log + Calls(left);
    if o.failRequestsOnDisconnect.Some? {
      ok := n.Set(FAIL_REQUESTS_ON_DISCONNECT, Flag(o.failRequestsOnDisconnect.value), left);
      if !ok { left := left.rest; return; }
    }
    left := left.rest;
    assert n.log + Calls(left) == all;
    if o.ignoreDiscoveredServers.Some? {
      ok := n.Set(IGNORE_DISCOVERED_SERVERS, Flag(o.ignoreDiscoveredServers.value), left);
      if !ok { left := left.rest; return; }
    }
    left := left.rest;
    assert n.log + Calls(left) == all;
    ok := true;
  }

  /** Protocol tweaks. */
  method ApplyProtocol(n: NativeOptions, o: Options, ghost rest: Plan) returns (ok: bool, ghost left: Plan)
    requires n.Ready()
    modifies n`settings, n`log
    ensures ok ==> left == rest
    ensures n.Follows(old(n.log), ProtocolPlan(o, rest), left, ok)
  {
    left := ProtocolPlan(o, rest);
    ghost var all := n.log + Calls(left);
    if o.disableNoResponders.Some? {
      ok := n.Set(DISABLE_NO_RESPONDERS, Flag(o.disableNoResponders.value), left);
      if !ok { left := left.rest; return; }
    }
    left := left.rest;
    assert n.log + Calls(left) == all;
    if o.useOldRequestStyle.Some? {
      ok := n.Set(USE_OLD_REQUEST_STYLE, Flag(o.useOldRequestStyle.value), left);
      if !ok { left := left.rest; return; }
    }
    left := left.rest;
    assert n.log + Calls(left) == all;
    if o.customInboxPrefix.Some? {
      ok := n.Set(CUSTOM_INBOX_PREFIX, Text(o.customInboxPrefix.value), left);
      if !ok { left := left.rest; return; }
    }
    left := left.rest;
    assert n.log + Calls(left) == all;
    if o.pedantic.Some? {
      ok := n.Set(PEDANTIC, Flag(o.pedantic.value), left);
      if !ok { left := left.rest; return; }
    }
    left := left.rest;
    assert n.log + Calls(left) == all;
    if o.verbose.Some? {
      ok := n.Set(VERBOSE, Flag(o.verbose.value), left);
      if !ok { left := left.rest; return; }
    }
    left := left.rest;
    assert n.log + Calls(left) == all;
    ok := true;
  }

  /** Connection tuning. */
  method ApplyTiming(n: NativeOptions, o: Options, ghost rest: Plan) returns (ok: bool, ghost left: Plan)
    requires n.Ready()
    modifies n`settings, n`log
    ensures ok ==> left == rest
    ensures n.Follows(old(n.log), TimingPlan(o, rest), left, ok)
  {
    left := TimingPlan(o, rest);
    ghost var all := n.log + Calls(left);
    if o.pingInterval.Some? {
      ok := n.Set(PING_INTERVAL, Number(o.pingInterval.value), left);
      if !ok { left := left.rest; return; }
    }
    left := left.rest;
    assert n.log + Calls(left) == all;
    if o.timeout.Some? {
      ok := n.Set(TIMEOUT, Number(o.timeout.value), left);
      if !ok { left := left.rest; return; }
    }
    left := left.rest;
    assert n.log + Calls(left) == all;
    if o.name.Some? {
      ok := n.Set(NAME, Text(o.name.value), left);
      if !ok { left := left.rest; return; }
    }
    left := left.rest;
    assert n.log + Calls(left) == all;
    if o.noEcho.Some? {
      ok := n.Set(NO_ECHO, Flag(o.noEcho.value), left);
      if !ok { left := left.rest; return; }
    }
    left := left.rest;
    assert n.log + Calls(left) == all;
    ok := true;
  }

  /** Everything after the callbacks. */
  method ApplyBehaviour(n: NativeOptions, o: Options, ghost rest: Plan) returns (ok: bool, ghost left: Plan)
    requires n.Ready()
    modifies n`settings, n`log
    ensures ok ==> left == rest
    ensures n.Follows(old(n.log), BehaviourPlan(o, rest), left, ok)
  {
    ghost var timing := TimingPlan(o, rest);
    ghost var protocol := ProtocolPlan(o, timing);
    ghost var cluster := ClusterPlan(o, protocol);
    ghost var tuning := TuningPlan(o, cluster);
    ok, left := ApplyReconnect(n, o, LimitsPlan(o, tuning));
    if !ok { return; }
    ok, left := ApplyLimits(n, o, tuning);
    if !ok { return; }
    ok, left := ApplyTuning(n, o, cluster);
    if !ok { return; }
    ok, left := ApplyCluster(n, o, protocol);
    if !ok { return; }
    ok, left := ApplyProtocol(n, o, timing);
    if !ok { return; }
    ok, left := ApplyTiming(n, o, rest);
  }

  /** `apply_nats_options`: the planned setters in source order, up to the first that fails. */
  method ApplyNatsOptions(n: NativeOptions, o: Options, block: int, ghost rest: Plan) returns (ok: bool, ghost left: Plan)
    requires n.Ready()
    modifies n`settings, n`log
    ensures ok ==> left == rest
    ensures n.Follows(old(n.log), NatsOptionsPlan(o, block, rest), left, ok)
  {
    ghost var behaviour := BehaviourPlan(o, rest);
    ghost var events := EventsPlan(o, block, behaviour);
    ghost var callbacks := CallbacksPlan(o, block, events);
    ghost var peer := PeerPlan(o, callbacks);
    ghost var tls := TlsPlan(o, peer);
    ok, left := ApplyServer(n, o, AuthPlan(o, tls));
    if !ok { return; }
    ok, left := ApplyAuth(n, o, tls);
    if !ok { return; }
    ok, left := ApplyTls(n, o, peer);
    if !ok { return; }
    ok, left := ApplyPeer(n, o, callbacks);
    if !ok { return; }
    ok, left := ApplyCallbacks(n, o, block, events);
    if !ok { return; }
    ok, left := ApplyEvents(n, o, block, behaviour);
    if !ok { return; }
    ok, left := ApplyBehaviour(n, o, rest);
  }

  /** `apply_nats_options`, then the retry option that `connect` adds. */
  method ApplyEverything(n: NativeOptions, o: Options, block: int) returns (ok: bool)
    requires n.Ready() && n.log == []
    modifies n`settings, n`log
    ensures n.inUse && n.log == Attempted(Calls(ConnectPlan(o, block)), n.failing)
    ensures ok <==> Clean(Calls(ConnectPlan(o, block)), n.failing)
    ensures ok ==> n.settings == Override(n.defaults, Calls(ConnectPlan(o, block)))
  {
    ghost var calls := Calls(ConnectPlan(o, block));
    ghost var left;
    ok, left := ApplyNatsOptions(n, o, block, RetryPlan(o));
    if ok && o.retryOnFailedConnect {
      ok := n.Set(RETRY_ON_FAILED_CONNECT, Flag(true), left);
      left := Done;
    }
    assert n.log + Calls(left) == calls;
    if ok {
      assert n.log == calls;
      AttemptedIs(calls, n.failing);
    } else {
      StoppedIsAttempted(n.log, Calls(left), n.failing);
      assert n.log[|n.log| - 1] in calls;
    }
  }

  // ---------------------------------------------------------------- what the settings mean

  /** Option `f` has value `v`, or its default if there is none. */
  predicate Has(t: Settings, defaults: Settings, f: Field, v: Option<Value>) {
    if v.Some? then f in t && t[f] == v.value
    else if f in defaults then f in t && t[f] == defaults[f]
    else f !in t
  }

  /** What every option named in a plan has. */
  predicate AllHave(t: Settings, d: Settings, plan: Plan)
    decreases plan
  {
    match plan
    case Done => true
    case Then(f, v, rest) => Has(t, d, f, v) && AllHave(t, d, rest)
  }

  predicate Mentions(plan: Plan, f: Field)
    decreases plan
  {
    match plan
    case Done => false
    case Then(g, v, rest) => f == g || Mentions(rest, f)
  }

  /** Each option of the plan has the value the plan gives it, or else its default; no other option
      differs from its default. */
  ghost predicate Configured(t: Settings, d: Settings, plan: Plan) {
    AllHave(t, d, plan) && forall f :: !Mentions(plan, f) ==> Has(t, d, f, None)
  }

  lemma {:induction false} OverrideAppend(t: Settings, a: seq<Setter>, b: seq<Setter>)
    ensures Override(t, a + b) == Override(Override(t, a), b)
  {
    if b == [] {
      assert a + b == a;
    } else {
      OverrideAppend(t, a, b[..|b| - 1]);
      assert (a + b)[..|a + b| - 1] == a + b[..|b| - 1];
    }
  }

  /** All calls of a plan except the first. */
  lemma {:induction false} OverrideFirst(t: Settings, plan: Plan)
    requires plan.Then?
    ensures Override(t, Calls(plan)) == Override(if plan.value.None? then t else t[plan.field := plan.value.value], Calls(plan.rest))
  {
    var v := plan.value;
    if v.Some? {
      var one := [Setter(plan.field, v.value)];
      OverrideAppend(t, one, Calls(plan.rest));
      assert one[..0] == [];
      assert Override(t, one) == Override(t, one[..0])[plan.field := v.value];
    }
  }

  /** The options of a plan come in the order of the source, from place `k` on. */
  predicate Ordered(plan: Plan, k: Field)
    decreases plan
  {
    match plan
    case Done => true
    case Then(f, v, rest) => k <= f && Ordered(rest, f + 1)
  }

  lemma {:induction false} OverrideKeeps(t: Settings, plan: Plan, f: Field)
    requires !Mentions(plan, f)
    ensures Has(Override(t, Calls(plan)), t, f, None)
    decreases plan
  {
    if plan.Then? {
      OverrideFirst(t, plan);
      OverrideKeeps(if plan.value.None? then t else t[plan.field := plan.value.value], plan.rest, f);
    }
  }

  lemma {:induction false} OrderedMentions(plan: Plan, k: Field, f: Field)
    requires Ordered(plan, k) && f < k
    ensures !Mentions(plan, f)
    decreases plan
  {
    if plan.Then? { OrderedMentions(plan.rest, plan.field + 1, f); }
  }

  /** Making all calls of a plan gives each option its value. */
  lemma {:induction false} OverrideMeans(t: Settings, d: Settings, plan: Plan, k: Field)
    requires Ordered(plan, k) && forall f :: k <= f ==> Has(t, d, f, None)
    ensures AllHave(Override(t, Calls(plan)), d, plan)
    decreases plan
  {
    if plan.Then? {
      var u := if plan.value.None? then t else t[plan.field := plan.value.value];
      OverrideFirst(t, plan);
      OrderedMentions(plan.rest, plan.field + 1, plan.field);
      OverrideKeeps(u, plan.rest, plan.field);
      assert Has(t, d, plan.field, None);
      forall f | plan.field + 1 <= f ensures Has(u, d, f, None) { assert Has(t, d, f, None); }
      OverrideMeans(u, d, plan.rest, plan.field + 1);
    }
  }

  lemma {:induction false} ServerOrdered(o: Options, rest: Plan)
    requires Ordered(rest, 2)
    ensures Ordered(ServerPlan(o, rest), 0)
  {
  }

  lemma {:induction false} AuthOrdered(o: Options, rest: Plan)
    requires Ordered(rest, 7)
    ensures Ordered(AuthPlan(o, rest), 2)
  {
    assert Ordered(AuthPlan(o, rest).rest.rest.rest.rest, 6);
    assert Ordered(AuthPlan(o, rest).rest.rest, 4);
  }

  lemma {:induction false} TlsOrdered(o: Options, rest: Plan)
    requires Ordered(rest, 11)
    ensures Ordered(TlsPlan(o, rest), 7)
  {
    assert Ordered(TlsPlan(o, rest).rest.rest, 9);
  }

  lemma {:induction false} PeerOrdered(o: Options, rest: Plan)
    requires Ordered(rest, 15)
    ensures Ordered(PeerPlan(o, rest), 11)
  {
    assert Ordered(PeerPlan(o, rest).rest.rest, 13);
  }

  lemma {:induction false} CallbacksOrdered(o: Options, block: int, rest: Plan)
    requires Ordered(rest, 18)
    ensures Ordered(CallbacksPlan(o, block, rest), 15)
  {
    assert Ordered(CallbacksPlan(o, block, rest).rest.rest, 17);
  }

  lemma {:induction false} EventsOrdered(o: Options, block: int, rest: Plan)
    requires Ordered(rest, 21)
    ensures Ordered(EventsPlan(o, block, rest), 18)
  {
    assert Ordered(EventsPlan(o, block, rest).rest.rest, 20);
  }

  lemma {:induction false} ReconnectOrdered(o: Options, rest: Plan)
    requires Ordered(rest, 25)
    ensures Ordered(ReconnectPlan(o, rest), 21)
  {
    assert Ordered(ReconnectPlan(o, rest).rest.rest, 23);
  }

  lemma {:induction false} LimitsOrdered(o: Options, rest: Plan)
    requires Ordered(rest, 28)
    ensures Ordered(LimitsPlan(o, rest), 25)
  {
    assert Ordered(LimitsPlan(o, rest).rest.rest, 27);
  }

  lemma {:induction false} TuningOrdered(o: Options, rest: Plan)
    requires Ordered(rest, 32)
    ensures Ordered(TuningPlan(o, rest), 28)
  {
    assert Ordered(TuningPlan(o, rest).rest.rest, 30);
  }

  lemma {:induction false} ClusterOrdered(o: Options, rest: Plan)
    requires Ordered(rest, 34)
    ensures Ordered(ClusterPlan(o, rest), 32)
  {
  }

  lemma {:induction false} ProtocolOrdered(o: Options, rest: Plan)
    requires Ordered(rest, 39)
    ensures Ordered(ProtocolPlan(o, rest), 34)
  {
    assert Ordered(ProtocolPlan(o, rest).rest.rest.rest.rest, 38);
    assert Ordered(ProtocolPlan(o, rest).rest.rest, 36);
  }

  lemma {:induction false} TimingOrdered(o: Options, rest: Plan)
    requires Ordered(rest, 43)
    ensures Ordered(TimingPlan(o, rest), 39)
  {
    assert Ordered(TimingPlan(o, rest).rest.rest, 41);
  }

  /** The plan follows the source order, so that each option comes once. */
  lemma {:induction false} ConnectPlanOrdered(o: Options, block: int)
    ensures Ordered(ConnectPlan(o, block), 0)
  {
    var timing := TimingPlan(o, RetryPlan(o));
    var protocol := ProtocolPlan(o, timing);
    var cluster := ClusterPlan(o, protocol);
    var tuning := TuningPlan(o, cluster);
    var limits := LimitsPlan(o, tuning);
    var reconnect := ReconnectPlan(o, limits);
    var events := EventsPlan(o, block, reconnect);
    var callbacks := CallbacksPlan(o, block, events);
    var peer := PeerPlan(o, callbacks);
    var tls := TlsPlan(o, peer);
    var auth := AuthPlan(o, tls);
    assert Ordered(RetryPlan(o), RETRY_ON_FAILED_CONNECT);
    TimingOrdered(o, RetryPlan(o));
    ProtocolOrdered(o, timing);
    ClusterOrdered(o, protocol);
    TuningOrdered(o, cluster);
    LimitsOrdered(o, tuning);
    ReconnectOrdered(o, limits);
    EventsOrdered(o, block, reconnect);
    CallbacksOrdered(o, block, events);
    PeerOrdered(o, callbacks);
    TlsOrdered(o, peer);
    AuthOrdered(o, tls);
    ServerOrdered(o, auth);
  }

  /** Making every planned call configures every native option as planned. */
  lemma {:induction false} CallsConfigure(d: Settings, o: Options, block: int)
    ensures Configured(Override(d, Calls(ConnectPlan(o, block))), d, ConnectPlan(o, block))
  {
    var plan := ConnectPlan(o, block);
    ConnectPlanOrdered(o, block);
    OverrideMeans(d, d, plan, 0);
    forall f | !Mentions(plan, f) ensures Has(Override(d, Calls(plan)), d, f, None) { OverrideKeeps(d, plan, f); }
  }

  // ---------------------------------------------------------------- option by option

  predicate Gets(t: Settings, f: Field, v: Value) { f in t && t[f] == v }

  predicate Keeps(t: Settings, d: Settings, f: Field) { if f in d then f in t && t[f] == d[f] else f !in t }

  predicate ServerSet(t: Settings, d: Settings, o: Options) {
    && (if o.urls != [] then Gets(t, SERVERS, Texts(o.urls)) else Keeps(t, d, SERVERS))
    && (if o.urls != [] then Keeps(t, d, URL) else Gets(t, URL, Text(o.url)))
  }

  predicate AuthSet(t: Settings, d: Settings, o: Options) {
    && (if o.token.Some? then Gets(t, TOKEN, Text(o.token.value)) else Keeps(t, d, TOKEN))
    && (if o.tokenHandlerCb.Some? then Gets(t, TOKEN_HANDLER, Function(o.tokenHandlerCb, o.tokenHandlerClosure)) else Keeps(t, d, TOKEN_HANDLER))
    && (if o.nkeyPublic.Some? then Gets(t, NKEY, Signed(o.nkeyPublic.value, o.nkeySignatureCb, o.nkeySignatureClosure)) else Keeps(t, d, NKEY))
    && (if o.userCredentialsFile.Some? then Gets(t, CREDENTIALS, Files(o.userCredentialsFile.value, o.userNkeySeedFile)) else Keeps(t, d, CREDENTIALS))
    && (if o.user.Some? && o.password.Some? then Gets(t, USER_INFO, Both(o.user.value, o.password.value)) else Keeps(t, d, USER_INFO))
  }

  predicate TlsSet(t: Settings, d: Settings, o: Options) {
    && (if o.secure.Some? then Gets(t, SECURE, Flag(o.secure.value)) else Keeps(t, d, SECURE))
    && (if o.caTrustedCertificatesFile.Some? then Gets(t, CA_CERTIFICATES, Text(o.caTrustedCertificatesFile.value)) else Keeps(t, d, CA_CERTIFICATES))
    && (if o.caCertsPath.Some? then Gets(t, CA_PATH, Text(o.caCertsPath.value)) else Keeps(t, d, CA_PATH))
    && (if o.certificatesChainFile.Some? && o.privateKeyFile.Some? then Gets(t, CERTIFICATES_CHAIN, Both(o.certificatesChainFile.value, o.privateKeyFile.value)) else Keeps(t, d, CERTIFICATES_CHAIN))
  }

  predicate PeerSet(t: Settings, d: Settings, o: Options) {
    && (if o.skipServerVerification.Some? then Gets(t, SKIP_VERIFICATION, Flag(o.skipServerVerification.value)) else Keeps(t, d, SKIP_VERIFICATION))
    && (if o.expectedHostname.Some? then Gets(t, HOSTNAME, Text(o.expectedHostname.value)) else Keeps(t, d, HOSTNAME))
    && (if o.ciphers.Some? then Gets(t, CIPHERS, Text(o.ciphers.value)) else Keeps(t, d, CIPHERS))
    && (if o.cipherSuites.Some? then Gets(t, CIPHER_SUITES, Text(o.cipherSuites.value)) else Keeps(t, d, CIPHER_SUITES))
  }

  predicate CallbacksSet(t: Settings, d: Settings, o: Options, block: int) {
    && (if o.callbacks.closed.Some? then Gets(t, CLOSED_CB, Handler(block)) else Keeps(t, d, CLOSED_CB))
    && (if o.callbacks.disconnected.Some? then Gets(t, DISCONNECTED_CB, Handler(block)) else Keeps(t, d, DISCONNECTED_CB))
    && (if o.callbacks.reconnected.Some? then Gets(t, RECONNECTED_CB, Handler(block)) else Keeps(t, d, RECONNECTED_CB))
  }

  predicate EventsSet(t: Settings, d: Settings, o: Options, block: int) {
    && (if o.callbacks.error.Some? then Gets(t, ERROR_HANDLER, Handler(block)) else Keeps(t, d, ERROR_HANDLER))
    && (if o.callbacks.lameDuckMode.Some? then Gets(t, LAME_DUCK_MODE_CB, Handler(block)) else Keeps(t, d, LAME_DUCK_MODE_CB))
    && (if o.callbacks.discoveredServers.Some? then Gets(t, DISCOVERED_SERVERS_CB, Handler(block)) else Keeps(t, d, DISCOVERED_SERVERS_CB))
  }

  predicate ReconnectSet(t: Settings, d: Settings, o: Options) {
    && (if o.reconnectWait.Some? then Gets(t, RECONNECT_WAIT, Number(o.reconnectWait.value)) else Keeps(t, d, RECONNECT_WAIT))
    && (if o.maxReconnect.Some? then Gets(t, MAX_RECONNECT, Number(o.maxReconnect.value)) else Keeps(t, d, MAX_RECONNECT))
    && (if o.allowReconnect.Some? then Gets(t, ALLOW_RECONNECT, Flag(o.allowReconnect.value)) else Keeps(t, d, ALLOW_RECONNECT))
    && (if o.noRandomize.Some? then Gets(t, NO_RANDOMIZE, Flag(o.noRandomize.value)) else Keeps(t, d, NO_RANDOMIZE))
  }

  predicate LimitsSet(t: Settings, d: Settings, o: Options) {
    && (if o.maxPingsOut.Some? then Gets(t, MAX_PINGS_OUT, Number(o.maxPingsOut.value)) else Keeps(t, d, MAX_PINGS_OUT))
    && (if o.reconnectBufSize.Some? then Gets(t, RECONNECT_BUF_SIZE, Number(o.reconnectBufSize.value)) else Keeps(t, d, RECONNECT_BUF_SIZE))
    && (if o.reconnectJitter.Some? then Gets(t, RECONNECT_JITTER, Jitter(o.reconnectJitter.value.0, o.reconnectJitter.value.1)) else Keeps(t, d, RECONNECT_JITTER))
  }

  predicate TuningSet(t: Settings, d: Settings, o: Options) {
    && (if o.maxPendingMsgs.Some? then Gets(t, MAX_PENDING_MSGS, Number(o.maxPendingMsgs.value)) else Keeps(t, d, MAX_PENDING_MSGS))
    && (if o.maxPendingBytes.Some? then Gets(t, MAX_PENDING_BYTES, Number(o.maxPendingBytes.value)) else Keeps(t, d, MAX_PENDING_BYTES))
    && (if o.ioBufSize.Some? then Gets(t, IO_BUF_SIZE, Number(o.ioBufSize.value)) else Keeps(t, d, IO_BUF_SIZE))
    && (if o.sendAsap.Some? then Gets(t, SEND_ASAP, Flag(o.sendAsap.value)) else Keeps(t, d, SEND_ASAP))
  }

  predicate ClusterSet(t: Settings, d: Settings, o: Options) {
    && (if o.failRequestsOnDisconnect.Some? then Gets(t, FAIL_REQUESTS_ON_DISCONNECT, Flag(o.failRequestsOnDisconnect.value)) else Keeps(t, d, FAIL_REQUESTS_ON_DISCONNECT))
    && (if o.ignoreDiscoveredServers.Some? then Gets(t, IGNORE_DISCOVERED_SERVERS, Flag(o.ignoreDiscoveredServers.value)) else Keeps(t, d, IGNORE_DISCOVERED_SERVERS))
  }

  predicate ProtocolSet(t: Settings, d: Settings, o: Options) {
    && (if o.disableNoResponders.Some? then Gets(t, DISABLE_NO_RESPONDERS, Flag(o.disableNoResponders.value)) else Keeps(t, d, DISABLE_NO_RESPONDERS))
    && (if o.useOldRequestStyle.Some? then Gets(t, USE_OLD_REQUEST_STYLE, Flag(o.useOldRequestStyle.value)) else Keeps(t, d, USE_OLD_REQUEST_STYLE))
    && (if o.customInboxPrefix.Some? then Gets(t, CUSTOM_INBOX_PREFIX, Text(o.customInboxPrefix.value)) else Keeps(t, d, CUSTOM_INBOX_PREFIX))
    && (if o.pedantic.Some? then Gets(t, PEDANTIC, Flag(o.pedantic.value)) else Keeps(t, d, PEDANTIC))
    && (if o.verbose.Some? then Gets(t, VERBOSE, Flag(o.verbose.value)) else Keeps(t, d, VERBOSE))
  }

  predicate TimingSet(t: Settings, d: Settings, o: Options) {
    && (if o.pingInterval.Some? then Gets(t, PING_INTERVAL, Number(o.pingInterval.value)) else Keeps(t, d, PING_INTERVAL))
    && (if o.timeout.Some? then Gets(t, TIMEOUT, Number(o.timeout.value)) else Keeps(t, d, TIMEOUT))
    && (if o.name.Some? then Gets(t, NAME, Text(o.name.value)) else Keeps(t, d, NAME))
    && (if o.noEcho.Some? then Gets(t, NO_ECHO, Flag(o.noEcho.value)) else Keeps(t, d, NO_ECHO))
  }

  /** Settings `t` option by option: what the field of `o` says where it is engaged, else the default. */
  predicate SetBy(t: Settings, d: Settings, o: Options, block: int) {
    && ServerSet(t, d, o) && AuthSet(t, d, o) && TlsSet(t, d, o) && PeerSet(t, d, o)
    && CallbacksSet(t, d, o, block) && EventsSet(t, d, o, block)
    && ReconnectSet(t, d, o) && LimitsSet(t, d, o) && TuningSet(t, d, o) && ClusterSet(t, d, o)
    && ProtocolSet(t, d, o) && TimingSet(t, d, o)
    && (if o.retryOnFailedConnect then Gets(t, RETRY_ON_FAILED_CONNECT, Flag(true)) else Keeps(t, d, RETRY_ON_FAILED_CONNECT))
  }

  lemma {:induction false} ServerMeans(t: Settings, d: Settings, o: Options, rest: Plan)
    requires AllHave(t, d, ServerPlan(o, rest))
    ensures ServerSet(t, d, o) && AllHave(t, d, rest)
  {
    assert AllHave(t, d, ServerPlan(o, rest).rest);
  }

  lemma {:induction false} AuthMeans(t: Settings, d: Settings, o: Options, rest: Plan)
    requires AllHave(t, d, AuthPlan(o, rest))
    ensures AuthSet(t, d, o) && AllHave(t, d, rest)
  {
    assert AllHave(t, d, AuthPlan(o, rest).rest);
    assert AllHave(t, d, AuthPlan(o, rest).rest.rest);
    assert AllHave(t, d, AuthPlan(o, rest).rest.rest.rest);
    assert AllHave(t, d, AuthPlan(o, rest).rest.rest.rest.rest);
  }

  lemma {:induction false} TlsMeans(t: Settings, d: Settings, o: Options, rest: Plan)
    requires AllHave(t, d, TlsPlan(o, rest))
    ensures TlsSet(t, d, o) && AllHave(t, d, rest)
  {
    assert AllHave(t, d, TlsPlan(o, rest).rest);
    assert AllHave(t, d, TlsPlan(o, rest).rest.rest);
    assert AllHave(t, d, TlsPlan(o, rest).rest.rest.rest);
  }

  lemma {:induction false} PeerMeans(t: Settings, d: Settings, o: Options, rest: Plan)
    requires AllHave(t, d, PeerPlan(o, rest))
    ensures PeerSet(t, d, o) && AllHave(t, d, rest)
  {
    assert AllHave(t, d, PeerPlan(o, rest).rest);
    assert AllHave(t, d, PeerPlan(o, rest).rest.rest);
    assert AllHave(t, d, PeerPlan(o, rest).rest.rest.rest);
  }

  lemma {:induction false} CallbacksMeans(t: Settings, d: Settings, o: Options, block: int, rest: Plan)
    requires AllHave(t, d, CallbacksPlan(o, block, rest))
    ensures CallbacksSet(t, d, o, block) && AllHave(t, d, rest)
  {
    assert AllHave(t, d, CallbacksPlan(o, block, rest).rest);
    assert AllHave(t, d, CallbacksPlan(o, block, rest).rest.rest);
  }

  lemma {:induction false} EventsMeans(t: Settings, d: Settings, o: Options, block: int, rest: Plan)
    requires AllHave(t, d, EventsPlan(o, block, rest))
    ensures EventsSet(t, d, o, block) && AllHave(t, d, rest)
  {
    assert AllHave(t, d, EventsPlan(o, block, rest).rest);
    assert AllHave(t, d, EventsPlan(o, block, rest).rest.rest);
  }

  lemma {:induction false} ReconnectMeans(t: Settings, d: Settings, o: Options, rest: Plan)
    requires AllHave(t, d, ReconnectPlan(o, rest))
    ensures ReconnectSet(t, d, o) && AllHave(t, d, rest)
  {
    assert AllHave(t, d, ReconnectPlan(o, rest).rest);
    assert AllHave(t, d, ReconnectPlan(o, rest).rest.rest);
    assert AllHave(t, d, ReconnectPlan(o, rest).rest.rest.rest);
  }

  lemma {:induction false} LimitsMeans(t: Settings, d: Settings, o: Options, rest: Plan)
    requires AllHave(t, d, LimitsPlan(o, rest))
    ensures LimitsSet(t, d, o) && AllHave(t, d, rest)
  {
    assert AllHave(t, d, LimitsPlan(o, rest).rest);
    assert AllHave(t, d, LimitsPlan(o, rest).rest.rest);
  }

  lemma {:induction false} TuningMeans(t: Settings, d: Settings, o: Options, rest: Plan)
    requires AllHave(t, d, TuningPlan(o, rest))
    ensures TuningSet(t, d, o) && AllHave(t, d, rest)
  {
    assert AllHave(t, d, TuningPlan(o, rest).rest);
    assert AllHave(t, d, TuningPlan(o, rest).rest.rest);
    assert AllHave(t, d, TuningPlan(o, rest).rest.rest.rest);
  }

  lemma {:induction false} ClusterMeans(t: Settings, d: Settings, o: Options, rest: Plan)
    requires AllHave(t, d, ClusterPlan(o, rest))
    ensures ClusterSet(t, d, o) && AllHave(t, d, rest)
  {
    assert AllHave(t, d, ClusterPlan(o, rest).rest);
  }

  lemma {:induction false} ProtocolMeans(t: Settings, d: Settings, o: Options, rest: Plan)
    requires AllHave(t, d, ProtocolPlan(o, rest))
    ensures ProtocolSet(t, d, o) && AllHave(t, d, rest)
  {
    assert AllHave(t, d, ProtocolPlan(o, rest).rest);
    assert AllHave(t, d, ProtocolPlan(o, rest).rest.rest);
    assert AllHave(t, d, ProtocolPlan(o, rest).rest.rest.rest);
    assert AllHave(t, d, ProtocolPlan(o, rest).rest.rest.rest.rest);
  }

  lemma {:induction false} TimingMeans(t: Settings, d: Settings, o: Options, rest: Plan)
    requires AllHave(t, d, TimingPlan(o, rest))
    ensures TimingSet(t, d, o) && AllHave(t, d, rest)
  {
    assert AllHave(t, d, TimingPlan(o, rest).rest);
    assert AllHave(t, d, TimingPlan(o, rest).rest.rest);
    assert AllHave(t, d, TimingPlan(o, rest).rest.rest.rest);
  }

  /** The plan says of every option what its fields say. */
  lemma {:induction false} ConnectPlanMeans(t: Settings, d: Settings, o: Options, block: int)
    requires AllHave(t, d, ConnectPlan(o, block))
    ensures SetBy(t, d, o, block)
  {
    var timing := TimingPlan(o, RetryPlan(o));
    var protocol := ProtocolPlan(o, timing);
    var cluster := ClusterPlan(o, protocol);
    var tuning := TuningPlan(o, cluster);
    var limits := LimitsPlan(o, tuning);
    var reconnect := ReconnectPlan(o, limits);
    var events := EventsPlan(o, block, reconnect);
    var callbacks := CallbacksPlan(o, block, events);
    var peer := PeerPlan(o, callbacks);
    var tls := TlsPlan(o, peer);
    ServerMeans(t, d, o, AuthPlan(o, tls));
    AuthMeans(t, d, o, tls);
    TlsMeans(t, d, o, peer);
    PeerMeans(t, d, o, callbacks);
    CallbacksMeans(t, d, o, block, events);
    EventsMeans(t, d, o, block, reconnect);
    ReconnectMeans(t, d, o, limits);
    LimitsMeans(t, d, o, tuning);
    TuningMeans(t, d, o, cluster);
    ClusterMeans(t, d, o, protocol);
    ProtocolMeans(t, d, o, timing);
    TimingMeans(t, d, o, RetryPlan(o));
  }

  /** The calls of an ordered plan come in strictly ascending order. */
  lemma {:induction false} CallsAscend(plan: Plan, k: Field)
    requires Ordered(plan, k)
    ensures forall i :: 0 <= i < |Calls(plan)| ==> k <= Calls(plan)[i].field
    ensures forall i, j :: 0 <= i < j < |Calls(plan)| ==> Calls(plan)[i].field < Calls(plan)[j].field
    decreases plan
  {
    if plan.Then? { CallsAscend(plan.rest, plan.field + 1); }
  }

  // ---------------------------------------------------------------- connect

  /** What nats.c holds: native connections with the settings they were opened with, and the options
      objects it was told to free. */
  class Nats {
    var connections: map<int, Settings>
    var freed: seq<NativeOptions>
    const defaults: Settings

    constructor (defaults: Settings)
      ensures this.defaults == defaults && freed == [] && connections == map[]
    {
      this.defaults := defaults;
      freed, connections := [], map[];
    }

    /** natsConnection_Connect reads an options object that is still allocated. */
    method Open(n: NativeOptions, raw: int)
      requires n.inUse && raw !in connections
      modifies this`connections
      ensures connections == old(connections)[raw := n.settings]
    {
      connections := connections[raw := n.settings];
    }

    /** natsOptions_Destroy. */
    method FreeOptions(n: NativeOptions)
      requires n.inUse
      modifies this`freed, n`inUse
      ensures !n.inUse && freed == old(freed) + [n]
    {
      freed, n.inUse := freed + [n], false;
    }
  }

  /** Which native calls will fail. */
  datatype Outcomes = Outcomes(create: bool, failing: set<Setter>, connect: bool)

  /** The block the bridge functions read, shared by the connection object and the deleter. */
  datatype HandlerBlock = HandlerBlock(id: int, callbacks: Callbacks)

  class Connection {
    var conn: Option<int>
    var handlers: Option<HandlerBlock>

    constructor ()
      ensures conn == None && handlers == None
    {
      conn, handlers := None, None;
    }

    /** `connect(options)`: `block` and `raw` are the identities of the handler block and the native
        connection this call makes; `n` is its options object. */
    method Connect(nats: Nats, o: Options, w: Outcomes, block: int, raw: int) returns (ok: bool, ghost n: NativeOptions?)
      requires raw !in nats.connections
      modifies this, nats
      ensures ok <==> w.create && w.connect && Clean(Calls(ConnectPlan(o, block)), w.failing)
      ensures !w.create ==> n == null && nats.freed == old(nats.freed)
      ensures w.create ==>
                && n != null && fresh(n) && !n.inUse && nats.freed == old(nats.freed) + [n]
                && n.log == Attempted(Calls(ConnectPlan(o, block)), w.failing)
                && (forall i, j :: 0 <= i < j < |n.log| ==> n.log[i].field < n.log[j].field)
      ensures !ok ==> conn == old(conn) && handlers == old(handlers) && nats.connections == old(nats.connections)
      ensures ok ==>
                && conn == Some(raw) && handlers == Some(HandlerBlock(block, o.callbacks))
                && raw in nats.connections && nats.connections == old(nats.connections)[raw := nats.connections[raw]]
                && Configured(nats.connections[raw], nats.defaults, ConnectPlan(o, block))
                && SetBy(nats.connections[raw], nats.defaults, o, block)
    {
      n := null;
      if !w.create {
        return false, n;
      }
      var nopts := new NativeOptions(nats.defaults, w.failing);
      n := nopts;
      var copied := HandlerBlock(block, Callbacks(o.callbacks.closed, o.callbacks.disconnected, o.callbacks.reconnected,
                                                  o.callbacks.error, o.callbacks.lameDuckMode, o.callbacks.discoveredServers));
      ok := ApplyEverything(nopts, o, block);
      ConnectPlanOrdered(o, block);
      CallsAscend(ConnectPlan(o, block), 0);
      AttemptedIs(Calls(ConnectPlan(o, block)), w.failing);
      if !ok || !w.connect {
        nats.FreeOptions(nopts);
        return false, n;
      }
      CallsConfigure(nats.defaults, o, block);
      ConnectPlanMeans(nopts.settings, nats.defaults, o, block);
      nats.Open(nopts, raw);
      conn, handlers := Some(raw), Some(copied);
      nats.FreeOptions(nopts);
      return true, n;
    }
  }
}
