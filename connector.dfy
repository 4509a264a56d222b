/**
 * The MQTT connector object (`MQTTConnector`): its settings with their
 * defaults, the lazily created subscription registry, broker clients and
 * worker pool, and the operations `subscribe`, the on-connect and
 * on-message handlers, `publish`, `fetch` and teardown. Outcomes the
 * broker or the JSON codec decide are inputs of each operation.
 */
module Connector {
  import opened Values
  import TopicMatcher
  import FetchAdapter
  import BrokerClient
  import opened Subscriptions
  import Dispatch

  const DEFAULT_PORT: int := 1883
  const DEFAULT_KEEPALIVE: int := 60
  const DEFAULT_TRANSPORT: string := "tcp"
  const DEFAULT_CLEAN_SESSION: bool := true

  /** The message half of a success tuple; the traceback text the source appends is not modelled. */
  datatype Msg =
    | Subscribed(topic: string, qos: int)
    | ConnectFailed
    | EncodeFailed
    | PublishFailed(topic: string)
    | PublishRejected(rc: int, mid: int, topic: string)
    | Published(mid: int, topic: string)

  /** A success tuple `(success, message)`. */
  datatype Reply = Reply(success: bool, message: Msg)

  /** A non-blocking `subscribe` returns; a blocking one loops forever once connected. */
  datatype SubscribeOutcome = Returned(reply: Reply) | RunsForever

  /** The warnings the on-connect handler issues. */
  datatype Warning = ReturnCodeWarning(rc: int, host: string) | CredentialsHint

  /** A worker pool, shared by every dispatch of the connector. */
  class Pool {
    constructor ()
    {
    }
  }

  // ---------------------------------------------------------------------
  // Settings
  // ---------------------------------------------------------------------

  /** A Python string is truthy when it is not empty; `None` is falsy. */
  predicate Truthy(s: Option<string>)
  {
    s.Some? && s.value != ""
  }

  /** `username_pw_set` is called only when both the username and the password are truthy. */
  function CredentialsFor(username: Option<string>, password: Option<string>): (c: Option<BrokerClient.Credentials>)
    ensures c.Some? <==> Truthy(username) && Truthy(password)
    ensures c.Some? ==> c.value.username == username.value && c.value.password == password.value
  {
    if Truthy(username) && Truthy(password) then Some(BrokerClient.Credentials(username.value, password.value)) else None
  }

  /** The warnings of the on-connect handler for a return code. */
  function ConnectWarnings(rc: int, host: string): (w: seq<Warning>)
    ensures w == [] <==> rc <= 0
    ensures rc > 0 ==> w[0] == ReturnCodeWarning(rc, host)
    ensures CredentialsHint in w <==> rc == 5
    ensures |w| == (if rc <= 0 then 0 else if rc == 5 then 2 else 1)
  {
    if rc <= 0 then []
    else if rc == 5 then [ReturnCodeWarning(rc, host), CredentialsHint]
    else [ReturnCodeWarning(rc, host)]
  }

  /** What is handed to the client's `publish`: the JSON text when encoding is asked for, the payload itself otherwise. */
  function WirePayload(payload: Value, encodePayload: bool, dumps: Value -> Option<string>): (w: Option<Value>)
    ensures !encodePayload ==> w == Some(payload)
    ensures encodePayload ==> (w.Some? <==> dumps(payload).Some?)
    ensures encodePayload && w.Some? ==> w.value == Str(dumps(payload).value)
  {
    if !encodePayload then Some(payload)
    else match dumps(payload)
      case Some(text) => Some(Str(text))
      case None => None
  }

  /** The reply of `publish` once each step's outcome is known; `wire` is `None` when encoding failed. */
  function PublishReply(topic: string, wire: Option<Value>, connectRaises: bool, outcome: BrokerClient.PublishOutcome): (r: Reply)
    ensures r.success <==> wire.Some? && !connectRaises && outcome.MessageInfo? && outcome.rc == 0
    ensures wire.None? ==> r.message == EncodeFailed
    ensures wire.Some? && connectRaises ==> r.message == ConnectFailed
    ensures wire.Some? && !connectRaises && outcome.PublishRaises? ==> r.message == PublishFailed(topic)
    ensures wire.Some? && !connectRaises && outcome.MessageInfo? && outcome.rc != 0 ==>
      r.message == PublishRejected(outcome.rc, outcome.mid, topic)
    ensures r.success ==> r.message == Published(outcome.mid, topic)
  {
    if wire.None? then Reply(false, EncodeFailed)
    else if connectRaises then Reply(false, ConnectFailed)
    else match outcome
      case PublishRaises => Reply(false, PublishFailed(topic))
      case MessageInfo(rc, mid) =>
        if rc == 0 then Reply(true, Published(mid, topic)) else Reply(false, PublishRejected(rc, mid, topic))
  }

  // ---------------------------------------------------------------------
  // What `fetch` does to the registry and the subscribe client
  // ---------------------------------------------------------------------

  /** The entry `fetch` registers for each of a pipe's topics: QoS 0, the shared callback, decoding on. */
  function FetchEntry(topic: string, handler: FetchAdapter.FetchHandler): Entry
  {
    NewEntry(topic, FetchCallback(handler), 0, true)
  }

  /** The registry's key order after subscribing to the first `n` of `topics` one after the other. */
  function KeysAfter(keys: seq<string>, topics: seq<string>, n: nat): seq<string>
    requires n <= |topics|
  {
    if n == 0 then keys else Insert(KeysAfter(keys, topics, n - 1), topics[n - 1])
  }

  /** Subscribing keeps the keys distinct and in place, and adds exactly the new patterns after them. */
  lemma {:induction false} KeysAfterExtends(keys: seq<string>, topics: seq<string>, n: nat)
    requires Distinct(keys) && n <= |topics|
    ensures Distinct(KeysAfter(keys, topics, n))
    ensures keys <= KeysAfter(keys, topics, n)
    ensures forall k :: k in KeysAfter(keys, topics, n) <==> k in keys || k in topics[..n]
  {
    if n > 0 {
      KeysAfterExtends(keys, topics, n - 1);
      InsertKeepsOrder(KeysAfter(keys, topics, n - 1), topics[n - 1]);
      assert topics[..n] == topics[..n - 1] + [topics[n - 1]];
    }
  }

  /** The registry's entries after subscribing to the first `n` of `topics`. */
  function EntriesAfter(entries: map<string, Entry>, topics: seq<string>, n: nat, handler: FetchAdapter.FetchHandler): map<string, Entry>
    requires n <= |topics|
  {
    if n == 0 then entries
    else EntriesAfter(entries, topics, n - 1, handler)[topics[n - 1] := FetchEntry(topics[n - 1], handler)]
  }

  /**
   * Every topic `fetch` subscribed to now holds the fetch entry, every
   * other pattern keeps its entry, and nothing else is stored.
   */
  lemma {:induction false} EntriesAfterMeaning(entries: map<string, Entry>, topics: seq<string>, n: nat, handler: FetchAdapter.FetchHandler)
    requires n <= |topics|
    ensures var m := EntriesAfter(entries, topics, n, handler);
      && (forall k :: k in m <==> k in entries || k in topics[..n])
      && (forall k :: k in topics[..n] ==> m[k] == FetchEntry(k, handler))
      && (forall k :: k in entries && k !in topics[..n] ==> m[k] == entries[k])
  {
    if n > 0 {
      EntriesAfterMeaning(entries, topics, n - 1, handler);
      assert topics[..n] == topics[..n - 1] + [topics[n - 1]];
    }
  }

  /** Whether the `i`-th connect attempt of a `fetch` raises; attempts beyond the given list succeed. */
  function Raises(connectRaises: seq<bool>, i: nat): bool
  {
    i < |connectRaises| && connectRaises[i]
  }

  /**
   * The subscribe client's calls during a `fetch` of `n` topics: per
   * topic a connect, then a loop start when that connect succeeded.
   */
  function AttemptLog(host: string, port: int, keepalive: int, n: nat, connectRaises: seq<bool>): seq<BrokerClient.Call>
  {
    if n == 0 then []
    else
      AttemptLog(host, port, keepalive, n - 1, connectRaises)
      + [BrokerClient.Connect(host, port, keepalive)]
      + (if Raises(connectRaises, n - 1) then [] else [BrokerClient.LoopStart])
  }

  /** A log that has seen `n` attempts and then one more has seen `n + 1`. */
  lemma AttemptLogExtends(log0: seq<BrokerClient.Call>, host: string, port: int, keepalive: int, n: nat, connectRaises: seq<bool>)
    ensures log0 + AttemptLog(host, port, keepalive, 0, connectRaises) == log0
    ensures log0 + AttemptLog(host, port, keepalive, n + 1, connectRaises)
      == log0 + AttemptLog(host, port, keepalive, n, connectRaises) + [BrokerClient.Connect(host, port, keepalive)]
         + (if Raises(connectRaises, n) then [] else [BrokerClient.LoopStart])
  {
  }

  /** The indices below `n` whose connect attempt raises. */
  function RaisingAttempts(connectRaises: seq<bool>, n: nat): set<nat>
  {
    set i: nat | i < n && Raises(connectRaises, i)
  }

  lemma RaisingAttemptsStep(connectRaises: seq<bool>, n: nat)
    ensures RaisingAttempts(connectRaises, n + 1)
      == RaisingAttempts(connectRaises, n) + (if Raises(connectRaises, n) then {n} else {})
    ensures n !in RaisingAttempts(connectRaises, n)
  {
  }

  /** Each topic costs one connect attempt, and a loop start exactly when that attempt succeeds. */
  lemma {:induction false} AttemptLogCounts(host: string, port: int, keepalive: int, n: nat, connectRaises: seq<bool>)
    ensures |AttemptLog(host, port, keepalive, n, connectRaises)| == 2 * n - |RaisingAttempts(connectRaises, n)|
  {
    if n > 0 {
      AttemptLogCounts(host, port, keepalive, n - 1, connectRaises);
      RaisingAttemptsStep(connectRaises, n - 1);
    } else {
      assert RaisingAttempts(connectRaises, 0) == {};
    }
  }

  /** Every call of `log` is `connect` or a loop start, and every loop start comes right after a `connect`. */
  predicate ConnectsThenLoopStarts(log: seq<BrokerClient.Call>, connect: BrokerClient.Call)
  {
    && (forall p :: 0 <= p < |log| ==> log[p] == connect || log[p] == BrokerClient.LoopStart)
    && (forall p :: 0 <= p < |log| && log[p] == BrokerClient.LoopStart ==> p > 0 && log[p - 1] == connect)
  }

  /** How many times `c` occurs in `log`. */
  function Count(log: seq<BrokerClient.Call>, c: BrokerClient.Call): nat
  {
    if log == [] then 0 else (if log[0] == c then 1 else 0) + Count(log[1..], c)
  }

  lemma {:induction false} CountAppend(a: seq<BrokerClient.Call>, b: seq<BrokerClient.Call>, c: BrokerClient.Call)
    ensures Count(a + b, c) == Count(a, c) + Count(b, c)
  {
    if a != [] {
      assert (a + b)[1..] == a[1..] + b;
      CountAppend(a[1..], b, c);
    } else {
      assert a + b == b;
    }
  }

  /** The log of `n` attempts holds exactly `n` connects: one per topic. */
  lemma {:induction false} AttemptLogConnects(host: string, port: int, keepalive: int, n: nat, connectRaises: seq<bool>)
    ensures Count(AttemptLog(host, port, keepalive, n, connectRaises), BrokerClient.Connect(host, port, keepalive)) == n
  {
    if n > 0 {
      AttemptLogConnects(host, port, keepalive, n - 1, connectRaises);
      var prev := AttemptLog(host, port, keepalive, n - 1, connectRaises);
      var connect := BrokerClient.Connect(host, port, keepalive);
      var rest: seq<BrokerClient.Call> := if Raises(connectRaises, n - 1) then [] else [BrokerClient.LoopStart];
      CountAppend(prev, [connect], connect);
      CountAppend(prev + [connect], rest, connect);
      assert Count(rest, connect) == 0;
    }
  }

  /** The log of `n` attempts holds one loop start per attempt whose connect did not raise. */
  lemma {:induction false} AttemptLogLoopStarts(host: string, port: int, keepalive: int, n: nat, connectRaises: seq<bool>)
    ensures Count(AttemptLog(host, port, keepalive, n, connectRaises), BrokerClient.LoopStart)
      == n - |RaisingAttempts(connectRaises, n)|
  {
    if n > 0 {
      AttemptLogLoopStarts(host, port, keepalive, n - 1, connectRaises);
      RaisingAttemptsStep(connectRaises, n - 1);
      var prev := AttemptLog(host, port, keepalive, n - 1, connectRaises);
      var connect := BrokerClient.Connect(host, port, keepalive);
      var rest: seq<BrokerClient.Call> := if Raises(connectRaises, n - 1) then [] else [BrokerClient.LoopStart];
      CountAppend(prev, [connect], BrokerClient.LoopStart);
      CountAppend(prev + [connect], rest, BrokerClient.LoopStart);
      assert Count([connect], BrokerClient.LoopStart) == 0;
    } else {
      assert RaisingAttempts(connectRaises, 0) == {};
    }
  }

  /**
   * A `fetch` makes only connects and loop starts on the subscribe client,
   * and every loop start comes right after a connect.
   */
  lemma {:induction false} AttemptLogShape(host: string, port: int, keepalive: int, n: nat, connectRaises: seq<bool>)
    ensures ConnectsThenLoopStarts(AttemptLog(host, port, keepalive, n, connectRaises), BrokerClient.Connect(host, port, keepalive))
  {
    if n > 0 {
      AttemptLogShape(host, port, keepalive, n - 1, connectRaises);
      var prev := AttemptLog(host, port, keepalive, n - 1, connectRaises);
      var log := AttemptLog(host, port, keepalive, n, connectRaises);
      var connect := BrokerClient.Connect(host, port, keepalive);
      var rest: seq<BrokerClient.Call> := if Raises(connectRaises, n - 1) then [] else [BrokerClient.LoopStart];
      assert log == prev + [connect] + rest;
      forall p | 0 <= p < |log|
        ensures log[p] == connect || log[p] == BrokerClient.LoopStart
        ensures log[p] == BrokerClient.LoopStart ==> p > 0 && log[p - 1] == connect
      {
        if p < |prev| {
          assert log[p] == prev[p];
          if p > 0 {
            assert log[p - 1] == prev[p - 1];
          }
        } else if p == |prev| {
          assert log[p] == connect;
        } else {
          assert log[p] == rest[0] == BrokerClient.LoopStart;
          assert log[p - 1] == connect;
        }
      }
    }
  }

  // ---------------------------------------------------------------------
  // The code as written, where it differs from the corrected model
  // ---------------------------------------------------------------------

  /** The module-level names `_subscribe.py` and `_publish.py` define or import. */
  const SUBSCRIBE_MODULE_NAMES: set<string> :=
    {"re", "json", "functools", "SuccessTuple", "Callable", "Any", "Optional", "Union", "Dict",
     "warn", "error", "dprint", "get_pool", "subscribe", "_subscribe_on_connect", "_on_message", "mqtt_topic_to_regex"}
  const PUBLISH_MODULE_NAMES: set<string> := {"json", "traceback", "SuccessTuple", "Any", "publish"}

  /** The `except` branch of a failed connect in a module with the given names: it formats `traceback.format_exc()`. */
  function ConnectFailureBranch(moduleNames: set<string>): (r: Result<Reply, PyError>)
    ensures r.Ok? <==> "traceback" in moduleNames
    ensures r.Ok? ==> r.value == Reply(false, ConnectFailed)
    ensures r.Err? ==> r.error == NameError("traceback")
  {
    if "traceback" in moduleNames then Ok(Reply(false, ConnectFailed)) else Err(NameError("traceback"))
  }

  /**
   * Written as it is, a failed connect in `subscribe` raises a `NameError`
   * out of its own handler instead of returning the failure tuple; the
   * same branch in `publish` returns it.
   */
  lemma SubscribeConnectFailureRaises()
    ensures ConnectFailureBranch(SUBSCRIBE_MODULE_NAMES) == Err(NameError("traceback"))
    ensures ConnectFailureBranch(PUBLISH_MODULE_NAMES) == Ok(Reply(false, ConnectFailed))
  {
  }

  /**
   * The on-connect handler as written: for a positive return code the
   * warning's f-string reads `topic`, a local of the function that is
   * only bound later by the resubscription loop.
   */
  function OnConnectAsWritten(rc: int, host: string, items: seq<(string, Entry)>): (r: Result<(seq<Warning>, seq<BrokerClient.Call>), PyError>)
    ensures r.Err? <==> rc > 0
    ensures r.Err? ==> r.error == UnboundLocalError("topic")
  {
    if rc > 0 then Err(UnboundLocalError("topic")) else Ok(([], ResubscribeCalls(items)))
  }

  /**
   * As written the handler agrees with the corrected one on a successful
   * connect, and on every refused connect it raises before issuing the
   * warning (so the credentials hint for code 5 is never shown) and before
   * resubscribing.
   */
  lemma OnConnectAsWrittenDiffers(host: string, items: seq<(string, Entry)>)
    ensures forall rc :: rc <= 0 ==> OnConnectAsWritten(rc, host, items) == Ok((ConnectWarnings(rc, host), ResubscribeCalls(items)))
    ensures OnConnectAsWritten(5, host, items) == Err(UnboundLocalError("topic"))
    ensures ConnectWarnings(5, host) == [ReturnCodeWarning(5, host), CredentialsHint]
  {
  }

  // ---------------------------------------------------------------------
  // Resubscription
  // ---------------------------------------------------------------------

  /** The loop of the on-connect handler: subscribe the client to each item at its QoS, in order. */
  method Resubscribe(client: BrokerClient.Client, items: seq<(string, Entry)>)
    modifies client`log
    ensures client.log == old(client.log) + ResubscribeCalls(items)
  {
    for i := 0 to |items|
      invariant client.log == old(client.log) + ResubscribeCalls(items[..i])
    {
      assert items[..i + 1][..i] == items[..i];
      client.Subscribe(items[i].0, items[i].1.qos);
    }
    assert items[..|items|] == items;
  }

  // ---------------------------------------------------------------------
  // The connector
  // ---------------------------------------------------------------------

  class MqttConnector {
    const host: string
    /** The attributes the connector was configured with; `None` when absent. */
    const portSetting: Option<int>
    const keepaliveSetting: Option<int>
    const transportSetting: Option<string>
    const cleanSessionSetting: Option<bool>
    const username: Option<string>
    const password: Option<string>

    /** The lazily created `_topics`, `_client`, `_publish_client`, `_subscribe_client` and `_pool`. */
    var topicsCache: Registry?
    var clientCache: BrokerClient.Client?
    var publishCache: BrokerClient.Client?
    var subscribeCache: BrokerClient.Client?
    var poolCache: Pool?

    function Port(): int
    {
      if portSetting.Some? then portSetting.value else DEFAULT_PORT
    }

    function Keepalive(): int
    {
      if keepaliveSetting.Some? then keepaliveSetting.value else DEFAULT_KEEPALIVE
    }

    function Transport(): string
    {
      if transportSetting.Some? then transportSetting.value else DEFAULT_TRANSPORT
    }

    function CleanSession(): bool
    {
      if cleanSessionSetting.Some? then cleanSessionSetting.value else DEFAULT_CLEAN_SESSION
    }

    /** A client as `build_client` makes it from this connector's settings. */
    ghost predicate Built(c: BrokerClient.Client)
      reads c`credentials
    {
      c.cleanSession == CleanSession() && c.transport == Transport() && c.credentials == CredentialsFor(username, password)
    }

    /**
     * The registry is a well-formed ordered dictionary whose every entry
     * holds the compilation of its own pattern; each cached client was
     * built from the settings; the three clients are separate objects.
     */
    ghost predicate Valid()
      reads this`topicsCache, this`clientCache, this`publishCache, this`subscribeCache, topicsCache
      reads {clientCache, publishCache, subscribeCache}`credentials
    {
      && (topicsCache != null ==> topicsCache.Valid())
      && (clientCache != null ==> Built(clientCache) && clientCache != publishCache && clientCache != subscribeCache)
      && (publishCache != null ==> Built(publishCache) && publishCache != subscribeCache)
      && (subscribeCache != null ==> Built(subscribeCache))
    }

    /** The registry as the model sees it; an uncreated registry is empty. */
    ghost function TopicKeys(): seq<string>
      reads this`topicsCache, topicsCache
    {
      if topicsCache == null then [] else topicsCache.keys
    }

    ghost function TopicEntries(): map<string, Entry>
      reads this`topicsCache, topicsCache
    {
      if topicsCache == null then map[] else topicsCache.entries
    }

    ghost function TopicItems(): seq<(string, Entry)>
      reads this`topicsCache, topicsCache
      requires topicsCache != null ==> topicsCache.Valid()
    {
      if topicsCache == null then [] else topicsCache.Items()
    }

    /** The calls made on the subscribe and publish clients; an uncreated client has made none. */
    ghost function SubscribeLog(): seq<BrokerClient.Call>
      reads this`subscribeCache, {subscribeCache}`log
    {
      if subscribeCache == null then [] else subscribeCache.log
    }

    ghost function PublishLog(): seq<BrokerClient.Call>
      reads this`publishCache, {publishCache}`log
    {
      if publishCache == null then [] else publishCache.log
    }

    constructor (host: string, portSetting: Option<int>, keepaliveSetting: Option<int>, transportSetting: Option<string>,
                 cleanSessionSetting: Option<bool>, username: Option<string>, password: Option<string>)
      ensures Valid()
      ensures this.host == host && this.portSetting == portSetting && this.keepaliveSetting == keepaliveSetting
      ensures this.transportSetting == transportSetting && this.cleanSessionSetting == cleanSessionSetting
      ensures this.username == username && this.password == password
      ensures topicsCache == null && clientCache == null && publishCache == null && subscribeCache == null && poolCache == null
    {
      this.host := host;
      this.portSetting := portSetting;
      this.keepaliveSetting := keepaliveSetting;
      this.transportSetting := transportSetting;
      this.cleanSessionSetting := cleanSessionSetting;
      this.username := username;
      this.password := password;
      topicsCache := null;
      clientCache := null;
      publishCache := null;
      subscribeCache := null;
      poolCache := null;
    }

    /** `topics`: the registry, created empty on first use. */
    method Topics() returns (r: Registry)
      requires Valid()
      modifies this`topicsCache
      ensures Valid() && topicsCache == r
      ensures old(topicsCache) != null ==> r == old(topicsCache)
      ensures old(topicsCache) == null ==> fresh(r) && r.keys == [] && r.entries == map[]
    {
      if topicsCache != null {
        return topicsCache;
      }
      r := new Registry();
      topicsCache := r;
    }

    /** `build_client`: a new client with this connector's session flag, transport and credentials. */
    method BuildClient() returns (c: BrokerClient.Client)
      ensures fresh(c) && Built(c) && c.log == [] && !c.handlersInstalled
    {
      c := new BrokerClient.Client(CleanSession(), Transport());
      if Truthy(username) && Truthy(password) {
        c.SetCredentials(username.value, password.value);
      }
    }

    /** `client`: the general client, built on first use. */
    method GeneralClient() returns (c: BrokerClient.Client)
      requires Valid()
      modifies this`clientCache
      ensures Valid() && clientCache == c
      ensures old(clientCache) != null ==> c == old(clientCache)
      ensures old(clientCache) == null ==> fresh(c) && c.log == [] && !c.handlersInstalled
    {
      if clientCache != null {
        return clientCache;
      }
      c := BuildClient();
      clientCache := c;
    }

    /** `publish_client`: the publishing client, built on first use. */
    method PublishClient() returns (c: BrokerClient.Client)
      requires Valid()
      modifies this`publishCache
      ensures Valid() && publishCache == c
      ensures old(publishCache) != null ==> c == old(publishCache)
      ensures old(publishCache) == null ==> fresh(c) && c.log == [] && !c.handlersInstalled
    {
      if publishCache != null {
        return publishCache;
      }
      c := BuildClient();
      publishCache := c;
    }

    /** `subscribe_client`: the subscribing client, built on first use. */
    method SubscribeClient() returns (c: BrokerClient.Client)
      requires Valid()
      modifies this`subscribeCache
      ensures Valid() && subscribeCache == c
      ensures old(subscribeCache) != null ==> c == old(subscribeCache)
      ensures old(subscribeCache) == null ==> fresh(c) && c.log == [] && !c.handlersInstalled
    {
      if subscribeCache != null {
        return subscribeCache;
      }
      c := BuildClient();
      subscribeCache := c;
    }

    /** `pool`: the worker pool, created on first use. */
    method ThreadPool() returns (p: Pool)
      requires Valid()
      modifies this`poolCache
      ensures Valid() && poolCache == p
      ensures old(poolCache) != null ==> p == old(poolCache)
      ensures old(poolCache) == null ==> fresh(p)
    {
      if poolCache != null {
        return poolCache;
      }
      p := new Pool();
      poolCache := p;
    }

    /**
     * The first half of `subscribe`: route the subscribe client's events
     * to this connector and store the pattern's entry, replacing an
     * earlier one for the same pattern.
     */
    method Register(topic: string, callback: Callback, qos: int, decodePayload: bool) returns (client: BrokerClient.Client)
      requires Valid()
      modifies this`topicsCache, this`subscribeCache, topicsCache, {subscribeCache}`handlersInstalled
      ensures Valid()
      ensures topicsCache != null && subscribeCache == client
      ensures old(topicsCache) != null ==> topicsCache == old(topicsCache)
      ensures old(topicsCache) == null ==> fresh(topicsCache)
      ensures old(subscribeCache) != null ==> client == old(subscribeCache)
      ensures old(subscribeCache) == null ==> fresh(client) && client.log == []
      ensures TopicEntries() == old(TopicEntries())[topic := NewEntry(topic, callback, qos, decodePayload)]
      ensures TopicKeys() == Insert(old(TopicKeys()), topic)
      ensures client.handlersInstalled
    {
      var registry := Topics();
      client := SubscribeClient();
      client.InstallHandlers();
      registry.Put(topic, NewEntry(topic, callback, qos, decodePayload));
    }

    /**
     * `subscribe`: register the pattern, connect, and start the network
     * loop in the background or, when blocking, in the caller's thread.
     * A failed connect returns a failure tuple; the entry stays registered.
     */
    method Subscribe(topic: string, callback: Callback, qos: int, blocking: bool, decodePayload: bool, connectRaises: bool)
      returns (r: SubscribeOutcome)
      requires Valid()
      modifies this`topicsCache, this`subscribeCache, topicsCache, subscribeCache
      ensures Valid()
      ensures topicsCache != null && subscribeCache != null
      ensures old(topicsCache) != null ==> topicsCache == old(topicsCache)
      ensures old(topicsCache) == null ==> fresh(topicsCache)
      ensures old(subscribeCache) != null ==> subscribeCache == old(subscribeCache)
      ensures old(subscribeCache) == null ==> fresh(subscribeCache)
      ensures TopicEntries() == old(TopicEntries())[topic := NewEntry(topic, callback, qos, decodePayload)]
      ensures TopicKeys() == Insert(old(TopicKeys()), topic)
      ensures subscribeCache.handlersInstalled
      ensures SubscribeLog() == old(SubscribeLog()) + [BrokerClient.Connect(host, Port(), Keepalive())]
        + (if connectRaises then [] else if blocking then [BrokerClient.LoopForever] else [BrokerClient.LoopStart])
      ensures connectRaises ==> r == Returned(Reply(false, ConnectFailed))
      ensures !connectRaises && !blocking ==> r == Returned(Reply(true, Subscribed(topic, qos)))
      ensures !connectRaises && blocking ==> r == RunsForever
    {
      var client := Register(topic, callback, qos, decodePayload);
      var connected := client.Connect(host, Port(), Keepalive(), connectRaises);
      if !connected {
        return Returned(Reply(false, ConnectFailed));
      }
      if !blocking {
        client.LoopStart();
        r := Returned(Reply(true, Subscribed(topic, qos)));
      } else {
        client.LoopForever();
        r := RunsForever;
      }
    }

    /**
     * The on-connect handler: warn about a refused connect (with a hint
     * for code 5), then subscribe `client` to every registered pattern at
     * its QoS, in registration order. The registry is left as it was.
     */
    method OnConnect(client: BrokerClient.Client, rc: int) returns (warnings: seq<Warning>)
      requires Valid()
      modifies client`log, this`topicsCache
      ensures Valid() && topicsCache != null
      ensures TopicKeys() == old(TopicKeys()) && TopicEntries() == old(TopicEntries())
      ensures warnings == ConnectWarnings(rc, host)
      ensures client.log == old(client.log) + ResubscribeCalls(TopicItems())
    {
      warnings := ConnectWarnings(rc, host);
      var registry := Topics();
      Resubscribe(client, registry.Items());
    }

    /**
     * The on-message handler: one task per registered pattern that
     * matches the message topic, in registration order, each carrying its
     * own entry's callback and payload; the pool is created if needed.
     * `raised` says whether the pool's `map` re-raises a task's failure.
     */
    method OnMessage(msg: Dispatch.Message, decode: seq<byte> -> Option<Value>) returns (tasks: seq<Dispatch.Task>, raised: bool)
      requires Valid()
      modifies this`topicsCache, this`poolCache
      ensures Valid() && topicsCache != null && poolCache != null
      ensures old(poolCache) != null ==> poolCache == old(poolCache)
      ensures old(poolCache) == null ==> fresh(poolCache)
      ensures TopicKeys() == old(TopicKeys()) && TopicEntries() == old(TopicEntries())
      ensures tasks == Dispatch.Tasks(TopicItems(), msg, decode)
      ensures forall i :: 0 <= i < |tasks| ==> tasks[i].key in TopicEntries() && TopicMatcher.Matches(tasks[i].key, msg.topic)
      ensures forall k :: k in TopicEntries() && TopicMatcher.Matches(k, msg.topic) ==> exists i :: 0 <= i < |tasks| && tasks[i].key == k
      ensures forall i, j :: 0 <= i < j < |tasks| ==> tasks[i].key != tasks[j].key
      ensures raised <==> exists i :: 0 <= i < |tasks| && tasks[i].DecodeFailed?
    {
      var registry := Topics();
      var items := registry.Items();
      Dispatch.DispatchFollowsPatterns(registry.keys, registry.entries, msg, decode);
      tasks := Dispatch.Tasks(items, msg, decode);
      var pool := ThreadPool();
      raised := Dispatch.MapRaises(tasks);
    }

    /**
     * `publish`: encode, connect the publish client afresh, publish, and
     * read the return code. An encoding failure stops before the client
     * is even created; a failed connect stops before publishing.
     */
    method Publish(topic: string, payload: Value, qos: int, encodePayload: bool, dumps: Value -> Option<string>,
                   connectRaises: bool, outcome: BrokerClient.PublishOutcome) returns (r: Reply)
      requires Valid()
      modifies this`publishCache, publishCache
      ensures Valid()
      ensures r == PublishReply(topic, WirePayload(payload, encodePayload, dumps), connectRaises, outcome)
      ensures WirePayload(payload, encodePayload, dumps).None? ==>
        publishCache == old(publishCache) && PublishLog() == old(PublishLog())
      ensures WirePayload(payload, encodePayload, dumps).Some? ==>
        && publishCache != null
        && (old(publishCache) != null ==> publishCache == old(publishCache))
        && (old(publishCache) == null ==> fresh(publishCache))
        && PublishLog() == old(PublishLog()) + [BrokerClient.Connect(host, Port(), Keepalive())]
             + (if connectRaises then [] else [BrokerClient.Publish(topic, WirePayload(payload, encodePayload, dumps).value, qos)])
    {
      var wire := WirePayload(payload, encodePayload, dumps);
      if wire.None? {
        return Reply(false, EncodeFailed);
      }
      var client := PublishClient();
      var connected := client.Connect(host, Port(), Keepalive(), connectRaises);
      if !connected {
        return Reply(false, ConnectFailed);
      }
      var info := client.Publish(topic, wire.value, qos, outcome);
      match info
      case PublishRaises =>
        r := Reply(false, PublishFailed(topic));
      case MessageInfo(rc, mid) =>
        r := if rc == 0 then Reply(true, Published(mid, topic)) else Reply(false, PublishRejected(rc, mid, topic));
    }

    /**
     * The loop of `fetch`: subscribe the shared callback to each topic in
     * turn (QoS 0, non-blocking, decoding on). With the corrected
     * `subscribe`, every call returns, and its result is not used.
     */
    method SubscribeAll(topics: seq<string>, handler: FetchAdapter.FetchHandler, connectRaises: seq<bool>)
      requires Valid()
      modifies this`topicsCache, this`subscribeCache, topicsCache, subscribeCache
      ensures Valid()
      ensures old(topicsCache) != null ==> topicsCache == old(topicsCache)
      ensures old(topicsCache) == null ==> topicsCache == null || fresh(topicsCache)
      ensures old(subscribeCache) != null ==> subscribeCache == old(subscribeCache)
      ensures old(subscribeCache) == null ==> subscribeCache == null || fresh(subscribeCache)
      ensures TopicKeys() == KeysAfter(old(TopicKeys()), topics, |topics|)
      ensures TopicEntries() == EntriesAfter(old(TopicEntries()), topics, |topics|, handler)
      ensures SubscribeLog() == old(SubscribeLog()) + AttemptLog(host, Port(), Keepalive(), |topics|, connectRaises)
      ensures topics != [] ==> subscribeCache != null && subscribeCache.handlersInstalled
    {
      ghost var keys0 := TopicKeys();
      ghost var entries0 := TopicEntries();
      ghost var log0 := SubscribeLog();
      AttemptLogExtends(log0, host, Port(), Keepalive(), 0, connectRaises);
      for i := 0 to |topics|
        invariant Valid()
        invariant old(topicsCache) != null ==> topicsCache == old(topicsCache)
        invariant old(topicsCache) == null ==> topicsCache == null || fresh(topicsCache)
        invariant old(subscribeCache) != null ==> subscribeCache == old(subscribeCache)
        invariant old(subscribeCache) == null ==> subscribeCache == null || fresh(subscribeCache)
        invariant TopicKeys() == KeysAfter(keys0, topics, i)
        invariant TopicEntries() == EntriesAfter(entries0, topics, i, handler)
        invariant SubscribeLog() == log0 + AttemptLog(host, Port(), Keepalive(), i, connectRaises)
        invariant i > 0 ==> subscribeCache != null && subscribeCache.handlersInstalled
      {
        AttemptLogExtends(log0, host, Port(), Keepalive(), i, connectRaises);
        var outcome := Subscribe(topics[i], FetchCallback(handler), 0, false, true, Raises(connectRaises, i));
      }
    }

    /**
     * `fetch`: make the pipe's callback, then subscribe it to each of the
     * pipe's topics and return `True`, with the corrected `subscribe`.
     * Reading the topics, or iterating over a number, raises before
     * anything is subscribed.
     */
    method Fetch(pipe: FetchAdapter.Pipe, kwargs: map<string, Value>, connectRaises: seq<bool>)
      returns (r: Result<bool, PyError>, handler: FetchAdapter.FetchHandler)
      requires Valid()
      modifies this`topicsCache, this`subscribeCache, topicsCache, subscribeCache
      ensures Valid()
      ensures fresh(handler) && handler.pipe == pipe && handler.kwargs == kwargs && handler.syncs == []
      ensures FetchAdapter.FetchTopics(pipe).Err? ==>
        && r == Err(FetchAdapter.FetchTopics(pipe).error)
        && topicsCache == old(topicsCache) && subscribeCache == old(subscribeCache)
        && TopicKeys() == old(TopicKeys()) && TopicEntries() == old(TopicEntries()) && SubscribeLog() == old(SubscribeLog())
      ensures FetchAdapter.FetchTopics(pipe).Ok? ==>
        var topics := FetchAdapter.FetchTopics(pipe).value;
        && r == Ok(true)
        && TopicKeys() == KeysAfter(old(TopicKeys()), topics, |topics|)
        && TopicEntries() == EntriesAfter(old(TopicEntries()), topics, |topics|, handler)
        && SubscribeLog() == old(SubscribeLog()) + AttemptLog(host, Port(), Keepalive(), |topics|, connectRaises)
        && (topics != [] ==> subscribeCache != null && subscribeCache.handlersInstalled)
    {
      handler := new FetchAdapter.FetchHandler(pipe, kwargs);
      var topicsResult := FetchAdapter.FetchTopics(pipe);
      if topicsResult.Err? {
        return Err(topicsResult.error), handler;
      }
      SubscribeAll(topicsResult.value, handler, connectRaises);
      r := Ok(true);
    }

    /** Every client the connector has built. */
    ghost function Clients(): set<BrokerClient.Client>
      reads this
    {
      (if clientCache != null then {clientCache} else {})
      + (if subscribeCache != null then {subscribeCache} else {})
      + (if publishCache != null then {publishCache} else {})
    }

    /** `__del__`: disconnect each client that was built, once each; clients never built are not created. */
    method Destroy()
      requires Valid()
      modifies Clients()`log
      ensures clientCache != null ==> clientCache.log == old(clientCache.log) + [BrokerClient.Disconnect]
      ensures subscribeCache != null ==> subscribeCache.log == old(subscribeCache.log) + [BrokerClient.Disconnect]
      ensures publishCache != null ==> publishCache.log == old(publishCache.log) + [BrokerClient.Disconnect]
    {
      var clients := [clientCache, subscribeCache, publishCache];
      ghost var logs := [LogOf(clientCache), LogOf(subscribeCache), LogOf(publishCache)];
      for i := 0 to |clients|
        invariant forall j :: 0 <= j < |clients| && clients[j] != null ==>
          clients[j].log == logs[j] + (if j < i then [BrokerClient.Disconnect] else [])
      {
        if clients[i] != null {
          clients[i].Disconnect();
        }
      }
      assert clientCache == clients[0] && subscribeCache == clients[1] && publishCache == clients[2];
    }

    /** The log of a possibly uncreated client. */
    ghost function LogOf(c: BrokerClient.Client?): seq<BrokerClient.Call>
      reads c
    {
      if c == null then [] else c.log
    }
  }
}
