# MQTT connector: a verified model

This project models the MQTT connector plugin, `MQTTConnector`, and proves properties of the model. The connector does three things:

- **fetch:** it subscribes a pipe to broker topics and turns each delivered payload into records for the pipe's sink;
- **publish:** it sends payloads to a topic;
- **dispatch:** it routes every inbound message to the callbacks whose topic pattern matches it.

The model follows the branches of the connector's Python code. Where the code is wrong (see "## Findings"), the operations built on it follow the corrected code. Each module below corresponds to a part of that code.

- `TopicMatcher` (`topic_matcher.dfy`): the pattern-to-regex conversion `mqtt_topic_to_regex`. It is given three ways:
  - `Matches`, what a pattern means character by character;
  - `RegexSource`, the regex text the code builds;
  - `Compile` / `RegexMatches`, the compiled regex and how a backtracking regex engine runs it.

  The module proves that the three agree, and states what the wildcards match.
- `Subscriptions` (`subscriptions.dfy`): the `topics` dictionary.
  - It is an insertion-ordered `Registry` class, keyed by pattern, with last-write-wins `Put`.
  - `WellFormed` is its invariant.
  - It also holds the broker subscribe calls that resubscription derives from the registry.
- `Dispatch` (`dispatch.dfy`): `_on_message`.
  - It selects the entries whose compiled regex matches the topic and chooses each entry's payload (decoded JSON or raw bytes).
  - It yields one pool task per selected entry, runs one task, and says whether `pool.map` re-raises.
- `FetchAdapter` (`fetch_adapter.dfy`):
  - `get_topics_from_pipe`;
  - the callback's decision table (mapping, scalar, anything else);
  - the callback object, which shares one `kwargs` dictionary across calls.
- `BrokerClient` (`broker_client.dfy`): an abstract stand-in for the paho client.
  - It keeps the settings it was built with and a log of every call made on it.
  - Whether a connect or a publish succeeds is an input of the call.
- `Connector` (`connector.dfy`): the `MqttConnector` class.
  - Settings with their class defaults.
  - Lazily created caches: the registry, three clients and the pool.
  - `build_client` and its credentials rule.
  - `subscribe`, the on-connect and on-message handlers, `publish`, `fetch` and `__del__`.
  - The two findings below, each modelled as written and corrected.
- `Values` (`values.dfy`): the Python values that flow through the connector, and the Python errors the code can raise.

The matcher follows the code, not the MQTT 3.1.1 wildcard rules (sections 4.7.1.2 and 4.7.1.3 of the OASIS standard). The differences:

- `+` becomes `[^/]+`, so it is not confined to a whole level: `a+` matches `abc`.
- `#` becomes `.+`, so it needs at least one character: `sport/#` does not match `sport`.
- Patterns are not validated: `#` may appear anywhere, and the empty pattern matches only the empty topic.

The rest of the model also follows the code:

- Matching entries are selected by a filter over the registry's items, so they come in registration order. The contracts state which entries are selected, each once; they do not state the order.
- A decode failure makes `pool.map` re-raise; it is not isolated per entry.

### Definitions

Each of these functions models a source function. Where one has an `ensures`, it only spells out the definition; the lemmas in the table state the properties.

- `TopicMatcher.Matches`, `TopicMatcher.RegexSource`, `TopicMatcher.Compile` and `TopicMatcher.RegexMatches` model `mqtt_topic_to_regex` and the `re.match` that uses it (`plugins/mqtt-connector/_subscribe.py:119`, `:137-144`).
- `FetchAdapter.TopicsFromPipe` models `get_topics_from_pipe` (`plugins/mqtt-connector/_fetch.py:51-63`), with `OperandOf` for `x or []` and `Sum` for Python's `+`.
- `FetchAdapter.FetchTopics` models `get_topics_from_pipe` followed by the iteration at `plugins/mqtt-connector/_fetch.py:44-45`.
- `Connector.MqttConnector.Port`, `Keepalive`, `Transport` and `CleanSession` model the getters at `plugins/mqtt-connector/mqtt_connector.py:44-74`. Each is the configured attribute when there is one. Otherwise it is the class default: 1883, 60, `tcp` and `True` (`mqtt_connector.py:22-25`).
- `Subscriptions.ItemsOf` models `dict.items()` of the registry (`plugins/mqtt-connector/_subscribe.py:103`): one pair per key, in key order.
- `Dispatch.Tasks` models the list handed to `pool.map` (`plugins/mqtt-connector/_subscribe.py:133`): one task per selected item, in selection order.
- `Connector.KeysAfter`, `Connector.EntriesAfter` and `Connector.AttemptLog` give the registry and the subscribe client's log after the first `n` topics of a `fetch`.

## Model

| member | source | states |
|---|---|---|
| TopicMatcher.CompiledRegexAgrees | plugins/mqtt-connector/_subscribe.py:137-144 | Running the compiled regex of any pattern on any topic gives exactly the character-level `Matches` meaning. |
| TopicMatcher.RegexSourceIsCompiled | plugins/mqtt-connector/_subscribe.py:142-144 | For a pattern without regex metacharacters or newlines, the text `'^' + body + '$'` (after both replacements) reads back as exactly the compiled token sequence. |
| TopicMatcher.BodyIsPieces | plugins/mqtt-connector/_subscribe.py:143 | Replacing `+` first and then `#` replaces each pattern character by its own regex piece; the second pass never rewrites what the first one inserted. |
| TopicMatcher.PlusMatchSplits | plugins/mqtt-connector/_subscribe.py:143 | A match of `+` followed by the rest of the pattern consumes a non-empty run of non-`/` characters, then matches the rest. |
| TopicMatcher.PlusMatchJoins | plugins/mqtt-connector/_subscribe.py:143 | Any non-empty run of non-`/` characters followed by a match of the rest is a match of `+` plus the rest. |
| TopicMatcher.PlusMatchesOneOrMoreWithinLevel | plugins/mqtt-connector/_subscribe.py:143 | `+rest` matches a topic if and only if some non-empty, slash-free prefix of it is followed by a match of `rest`. |
| TopicMatcher.HashMatchesOneOrMore | plugins/mqtt-connector/_subscribe.py:143 | `#rest` matches a topic if and only if some non-empty prefix of it (slashes allowed) is followed by a match of `rest`. |
| TopicMatcher.MatchNeverShorter | plugins/mqtt-connector/_subscribe.py:142-144 | Every pattern character consumes at least one topic character, so a matched topic is at least as long as the pattern. |
| TopicMatcher.LiteralPatternMatchesOnlyItself | plugins/mqtt-connector/_subscribe.py:142-144 | Matching is anchored at both ends: a wildcard-free pattern matches a topic if and only if the topic equals it. |
| TopicMatcher.LiteralPrefix | plugins/mqtt-connector/_subscribe.py:142-144 | A common wildcard-free prefix can be removed from pattern and topic without changing whether they match. |
| TopicMatcher.WithoutHashLevelsAgree | plugins/mqtt-connector/_subscribe.py:143 | Without `#`, a matching topic has exactly as many `/` separators as the pattern. |
| TopicMatcher.SingleLevelExample | plugins/mqtt-connector/_subscribe.py:142-144 | `a/+/c` matches `a/b/c` and matches neither `a/b/b/c` nor `a/c`. |
| TopicMatcher.MultiLevelExample | plugins/mqtt-connector/_subscribe.py:142-144 | `a/#` matches `a/b/c` and matches neither `a` nor `a/`; `sport/#` does not match `sport`. |
| TopicMatcher.PlusInsideLevelExample | plugins/mqtt-connector/_subscribe.py:143 | `+` is not confined to a whole level: `a+` matches `abc`. |
| TopicMatcher.PlusMatchesAnyLevelName | plugins/mqtt-connector/_subscribe.py:143 | Between wildcard-free text, `+` matches any non-empty level name. |
| TopicMatcher.HashMatchesAnyRemainder | plugins/mqtt-connector/_subscribe.py:143 | A trailing `#` after wildcard-free text matches any non-empty remainder. |
| TopicMatcher.OverlappingPatterns | plugins/mqtt-connector/_subscribe.py:116-120 | A topic such as `sensors/1/temp` is matched by both the `+` pattern `sensors/+/temp` and the `#` pattern `sensors/#`, so both of their entries are selected. |
| Subscriptions.InsertKeepsOrder | plugins/mqtt-connector/_subscribe.py:62-69 | Assigning a key keeps the key order distinct. Old keys keep their places, a new key goes last, and the key set becomes the old set plus the key. |
| Subscriptions.Registry.constructor | plugins/mqtt-connector/mqtt_connector.py:37-41 | The registry is created empty and well formed. |
| Subscriptions.Registry.Put | plugins/mqtt-connector/_subscribe.py:62-69 | Storing an entry replaces only that pattern's entry and inserts the pattern into the key order. The registry stays well formed. |
| Subscriptions.ResubscribeCallsPointwise | plugins/mqtt-connector/_subscribe.py:103-104 | The i-th resubscribe call subscribes the i-th item's pattern at that item's QoS, and there is one call per item. |
| Subscriptions.ResubscriptionMirrorsRegistry | plugins/mqtt-connector/_subscribe.py:103-104 | Resubscribing subscribes every stored pattern exactly once, at its stored QoS, in insertion order, and makes no other call. |
| Dispatch.Matched | plugins/mqtt-connector/_subscribe.py:116-120 | The selected items are exactly the registry items whose regex matches the topic, and their keys stay distinct. |
| Dispatch.TaskFor | plugins/mqtt-connector/_subscribe.py:122-131 | A task carries its entry's callback. The payload is the raw bytes when decoding is off. When decoding is on, the payload is the decoded value, or there is a decode failure exactly when decoding fails. |
| Dispatch.TasksAreDistinct | plugins/mqtt-connector/_subscribe.py:116-133 | No two tasks of one message are for the same pattern. |
| Dispatch.TasksComeFromMatches | plugins/mqtt-connector/_subscribe.py:116-133 | Every task is the task of some item whose regex matches the topic. |
| Dispatch.MatchesGetTasks | plugins/mqtt-connector/_subscribe.py:116-133 | Every item whose regex matches the topic has its task among the tasks. |
| Dispatch.EachMatchedEntryOnce | plugins/mqtt-connector/_subscribe.py:116-133 | Combines the three above: each matching entry gets exactly one task, with its own callback and payload choice, and no other entry gets one. |
| Dispatch.MatchedByPattern | plugins/mqtt-connector/_subscribe.py:119 | For entries whose regex is compiled from their key, the regex accepts a topic if and only if the key `Matches` it. |
| Dispatch.CompiledItems | plugins/mqtt-connector/_subscribe.py:62-69 | The items of a well-formed registry have distinct keys, and each item's regex is compiled from its key. |
| Dispatch.TaskKeysMatch | plugins/mqtt-connector/_subscribe.py:107-133 | Every task of a message is for a registered pattern that `Matches` the topic. |
| Dispatch.MatchingKeysGetTasks | plugins/mqtt-connector/_subscribe.py:107-133 | Every registered pattern that `Matches` the topic has a task. |
| Dispatch.DispatchFollowsPatterns | plugins/mqtt-connector/_subscribe.py:107-133 | Over a well-formed registry, the tasks' keys are exactly the registered patterns that `Matches` the topic, each once. |
| Dispatch.RunTask | plugins/mqtt-connector/_subscribe.py:131 | Running the fetch callback's task calls it with the payload alone (its `topic` stays `None`) and changes nothing else. |
| Dispatch.MapRaises | plugins/mqtt-connector/_subscribe.py:133 | `pool.map` re-raises exactly when some task fails to decode its payload. |
| FetchAdapter.AddableSettings | plugins/mqtt-connector/_fetch.py:56-63 | Reading a `fetch` section succeeds if and only if Python's `+` accepts the two settings. Two list-valued settings give a list. Two non-empty tuples give their concatenation, which `fetch` iterates. Two non-zero numbers give their sum, which `fetch` cannot iterate. |
| FetchAdapter.StringIsOneElementList | plugins/mqtt-connector/_fetch.py:58-61 | On either key, a string gives the same result as the one-element list holding it. The empty string is one topic. |
| FetchAdapter.ListIsTopicThenTopics | plugins/mqtt-connector/_fetch.py:63 | A list result is the `topic` setting's topics followed by the `topics` setting's topics, each read as if it were the only one. |
| FetchAdapter.NoTopicsConfigured | plugins/mqtt-connector/_fetch.py:56-63 | Each of these gives no topics: a missing `fetch` section, or `topic`/`topics` settings that are all missing, `None`, empty or falsy. |
| FetchAdapter.MalformedSettingsRaise | plugins/mqtt-connector/_fetch.py:56-63 | A `fetch` value that is not a mapping raises `AttributeError`. Settings that `+` does not accept raise `TypeError`: a truthy value of no addable kind, or two truthy values of different kinds. |
| FetchAdapter.NumbersAndTuplesAreAdded | plugins/mqtt-connector/_fetch.py:45-63 | `topic: 5, topics: 6` is read as the number 11, which `fetch` cannot iterate. Two one-element tuples are read as both their topics. |
| FetchAdapter.Coerce | plugins/mqtt-connector/_fetch.py:27-39 | A mapping becomes one record: a copy with `topic` set, duplicates checked. A scalar becomes one record `{datetime column, value, topic}`, duplicates not checked. Anything else passes through unchanged, duplicates checked. |
| FetchAdapter.DispatchedRecordsHaveNoTopic | plugins/mqtt-connector/_fetch.py:23-36 | Called by dispatch (payload only), the callback builds records whose `topic` is `None`. |
| FetchAdapter.FetchHandler.constructor | plugins/mqtt-connector/_fetch.py:14-23 | The callback closes over the pipe and the `kwargs` of its own `fetch` call, and the sink has not been called yet. |
| FetchAdapter.FetchHandler.Call | plugins/mqtt-connector/_fetch.py:23-42 | Each call overwrites `check_existing` in the shared `kwargs` and then calls the sink once, with the coerced records and those `kwargs`. |
| Connector.CredentialsFor | plugins/mqtt-connector/mqtt_connector.py:117-128 | Credentials are set if and only if both the username and the password are truthy, and then they are exactly those two values. |
| Connector.ConnectWarnings | plugins/mqtt-connector/_subscribe.py:95-101 | There are no warnings exactly when the return code is at most 0. Otherwise there is exactly one warning naming the code and the host, followed by the credentials hint if and only if the code is 5. |
| Connector.WirePayload | plugins/mqtt-connector/_publish.py:44-48 | Without encoding, the payload is passed on unchanged. With encoding, it becomes the JSON text, or there is an encoding failure exactly when `json.dumps` fails. |
| Connector.PublishReply | plugins/mqtt-connector/_publish.py:44-68 | Publishing succeeds if and only if encoding, connect and publish all succeed and the return code is 0. Each failing step has its own message, and a success reports the message id. |
| Connector.KeysAfterExtends | plugins/mqtt-connector/_fetch.py:44-46 | Subscribing `fetch`'s topics keeps the key order distinct, with the old keys first, and adds exactly the pipe's topics. |
| Connector.EntriesAfterMeaning | plugins/mqtt-connector/_fetch.py:44-46 | After `fetch`, every pipe topic holds the fetch entry (QoS 0, shared callback, decoding on). Every other pattern keeps its entry, and nothing else is stored. |
| Connector.AttemptLogShape | plugins/mqtt-connector/_fetch.py:45-46 | During `fetch` the subscribe client receives only connects and loop starts, and every loop start comes right after a connect. |
| Connector.AttemptLogConnects | plugins/mqtt-connector/_fetch.py:45-46 | During `fetch` of `n` topics the subscribe client is connected exactly `n` times, once per topic. |
| Connector.AttemptLogLoopStarts | plugins/mqtt-connector/_fetch.py:45-46 | During `fetch` of `n` topics the background loop is started once per topic whose connect did not raise. |
| Connector.AttemptLogCounts | plugins/mqtt-connector/_fetch.py:45-46 | For n topics the log has 2n calls minus one per failed connect. |
| Connector.ConnectFailureBranch | plugins/mqtt-connector/_subscribe.py:71-75 | The connect-failure branch returns the failure tuple if and only if `traceback` is a name of its module; otherwise it raises `NameError`. |
| Connector.SubscribeConnectFailureRaises | plugins/mqtt-connector/_subscribe.py:9-15 | In the `subscribe` module the branch raises `NameError`. In the `publish` module, which imports `traceback`, it returns the failure tuple. |
| Connector.OnConnectAsWritten | plugins/mqtt-connector/_subscribe.py:95-104 | As written, the handler raises `UnboundLocalError` for `topic` exactly when the return code is positive. |
| Connector.OnConnectAsWrittenDiffers | plugins/mqtt-connector/_subscribe.py:95-104 | As written, the handler agrees with the corrected one on a successful connect. For code 5 it raises instead of warning with the credentials hint and resubscribing. |
| Connector.Resubscribe | plugins/mqtt-connector/_subscribe.py:103-104 | The loop appends to the client's log exactly the resubscribe calls of the items, in order. |
| Connector.MqttConnector.constructor | plugins/mqtt-connector/mqtt_connector.py:21-25 | A new connector keeps its configured attributes and has created no registry, client or pool. |
| Connector.MqttConnector.Topics | plugins/mqtt-connector/mqtt_connector.py:32-41 | The registry is created empty on first use, and later calls return the same object. |
| Connector.MqttConnector.BuildClient | plugins/mqtt-connector/mqtt_connector.py:113-130 | A fresh client carries the connector's clean-session flag, transport and credentials rule, and no call has been made on it. |
| Connector.MqttConnector.GeneralClient | plugins/mqtt-connector/mqtt_connector.py:77-86 | The general client is built on first use, and later calls return the same object. |
| Connector.MqttConnector.PublishClient | plugins/mqtt-connector/mqtt_connector.py:89-98 | The publishing client is built on first use, and later calls return the same object. |
| Connector.MqttConnector.SubscribeClient | plugins/mqtt-connector/mqtt_connector.py:101-110 | The subscribing client is built on first use, and later calls return the same object. |
| Connector.MqttConnector.ThreadPool | plugins/mqtt-connector/mqtt_connector.py:133-142 | The pool is created on first use, and later calls return the same object. |
| Connector.MqttConnector.Register | plugins/mqtt-connector/_subscribe.py:56-69 | The subscribe client's handlers are installed. The pattern's entry is stored (replacing an earlier one, keeping its place). Nothing else in the registry changes. |
| Connector.MqttConnector.Subscribe | plugins/mqtt-connector/_subscribe.py:56-82 | The entry is stored, and then there is one connect. A failed connect returns the failure tuple with the entry still registered. Otherwise `subscribe` starts the background loop and returns success, or, when blocking, loops forever. |
| Connector.MqttConnector.OnConnect | plugins/mqtt-connector/_subscribe.py:85-104 | The handler issues the warnings for the return code. It then resubscribes the client to every stored pattern at its QoS, in order, and leaves the registry unchanged. |
| Connector.MqttConnector.OnMessage | plugins/mqtt-connector/_subscribe.py:107-133 | There is one task per registered pattern that `Matches` the topic, each pattern once. No other pattern gets a task. `raised` is true exactly when some task fails to decode. The registry is unchanged, and the pool is created if it did not exist. |
| Connector.MqttConnector.Publish | plugins/mqtt-connector/_publish.py:44-68 | An encoding failure touches no client. Otherwise `publish` connects the publish client once and publishes only when that connect succeeded. The reply is `PublishReply` of the step outcomes. |
| Connector.MqttConnector.SubscribeAll | plugins/mqtt-connector/_fetch.py:44-46 | With the corrected `subscribe`, each pipe topic is subscribed in turn, at QoS 0 with the shared callback. The registry ends as `KeysAfter`/`EntriesAfter` and the client log as `AttemptLog`. |
| Connector.MqttConnector.Fetch | plugins/mqtt-connector/_fetch.py:14-48 | `fetch` creates the callback, then reads the topics. An error there, or a number that cannot be iterated, raises before anything is subscribed. Otherwise, with the corrected `subscribe`, it subscribes every topic and returns `True`. |
| Connector.MqttConnector.Destroy | plugins/mqtt-connector/mqtt_connector.py:145-156 | Each client that was built is disconnected exactly once. Clients never built are not created, and nothing but the clients' logs changes. |

## Left out

- No networking, no threads and no paho internals. Connect and publish outcomes and broker return codes are inputs. `loop_forever` is recorded as a call and the outcome `RunsForever`; it is not a loop.
- The worker pool: its concurrency, its chunking and the order in which tasks run. `OnMessage` returns the task list and `RunTask` runs one task, so the order of callback side effects across tasks is not modelled.
- External callbacks (anything other than the fetch adapter's closure) are opaque; what they do and whether they raise is not modelled.
- Dispatch.MapRaises: keeps only whether `pool.map` re-raises, not which exception nor its traceback.
- JSON and UTF-8 are abstract functions. `json.dumps` and `json.loads(payload.decode('utf-8'))` are parameters that fail or return a value; their formats are not modelled.
- Regex syntax beyond what the connector generates. Python's `.` does not match a newline and `$` also matches before a trailing newline. The agreement with the regex text is therefore stated only for patterns without regex metacharacters or newlines, and the model reads topics as containing no newline.
- Non-string topics and settings stored as `None` attributes. Each setting is either absent or present with a value of its type.
- The clock. The callback calls `datetime.utcnow()` twice and stores the second reading; the model takes that reading as a parameter.
- The sink. `print_tuple(pipe.sync(...))` is recorded as one sink call with its records and `kwargs`; the sink's reply and the printing are not modelled.
- `actions.py` and `__init__.py` (a test-message publisher and the plugin registration) are not part of this model.
- The traceback text in the failure messages. Each message is a datatype case carrying the values it interpolates.
- Connector.MqttConnector.Destroy: states that each built client is disconnected once; the order of the disconnects across the three clients is not part of its contract.
- Connector.MqttConnector.SubscribeAll: built on the corrected `subscribe`. As written, the first connect that raises makes `subscribe` raise `NameError` (first finding); that topic stays registered and the later topics are never subscribed. A blocking subscribe never occurs here, because `fetch` subscribes non-blocking.
- Connector.MqttConnector.Fetch: built on the corrected `subscribe`, like `SubscribeAll`. As written, a raising connect makes `fetch` raise `NameError` instead of returning `True`, with the later topics unregistered.
- Settings of other kinds. `bytes` and every other value besides strings, lists, tuples and numbers are read as values that `+` rejects. Python concatenates two `bytes` values, and the model does not. Numbers are reals: there is no NaN or infinity.

## Findings

| source | as written | input that shows it | evidently intended | confidence | as-written member | corrected member |
|---|---|---|---|---|---|---|
| plugins/mqtt-connector/_subscribe.py:74 | The connect-failure branch of `subscribe` calls `traceback.format_exc()`, but the module never imports `traceback`, so the branch raises `NameError`. | Any `subscribe` whose connect raises, for example an unreachable host. In `fetch`, that exception ends the loop at the first such topic. | Return `(False, "Failed to connect to MQTT host: …")`, as the same branch of `publish` does. | not executed | Connector.SubscribeConnectFailureRaises | Connector.MqttConnector.Subscribe |
| plugins/mqtt-connector/_subscribe.py:95-99 | The on-connect warning's f-string reads `topic`. The loop below assigns `topic`, which makes it a local of the handler that is still unbound when the warning is built, so the handler raises `UnboundLocalError`. | An on-connect call with return code 5 (refused credentials), or any positive code. | Warn (with the credentials hint for code 5), then resubscribe every stored pattern. | not executed | Connector.OnConnectAsWrittenDiffers | Connector.MqttConnector.OnConnect |
