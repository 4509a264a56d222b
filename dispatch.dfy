/**
 * Message dispatch (`_on_message`): select the registry entries whose
 * compiled matcher accepts the message topic, choose each entry's payload
 * (decoded JSON or the raw bytes), and hand one task per selected entry
 * to the worker pool. The pool's `map` is modelled as the plain sequence
 * of those tasks; `RunTask` is one worker running one of them.
 */
module Dispatch {
  import opened Values
  import TopicMatcher
  import FetchAdapter
  import opened Subscriptions

  /** An inbound message: its topic and raw payload bytes. */
  datatype Message = Message(topic: string, payload: seq<byte>)

  /**
   * One pool task: call `callback(payload)`, or fail because the payload
   * could not be decoded as UTF-8 JSON for an entry that asked for it.
   */
  datatype Task = Invoke(key: string, callback: Callback, payload: Value) | DecodeFailed(key: string)

  predicate DistinctKeys(items: seq<(string, Entry)>)
  {
    forall i, j :: 0 <= i < j < |items| ==> items[i].0 != items[j].0
  }

  /** `matched_topics`: the items whose stored regex matches the topic, in registry order. */
  function Matched(items: seq<(string, Entry)>, topic: string): (r: seq<(string, Entry)>)
    ensures forall i :: 0 <= i < |r| ==> r[i] in items && TopicMatcher.RegexMatches(r[i].1.regex, topic)
    ensures forall j :: 0 <= j < |items| && TopicMatcher.RegexMatches(items[j].1.regex, topic) ==> items[j] in r
    ensures DistinctKeys(items) ==> DistinctKeys(r)
  {
    if items == [] then []
    else
      var rest := Matched(items[1..], topic);
      assert forall i :: 0 <= i < |rest| ==> rest[i] in items;
      assert forall j :: 1 <= j < |items| ==> items[j] == items[1..][j - 1];
      if TopicMatcher.RegexMatches(items[0].1.regex, topic) then
        assert DistinctKeys(items) ==> forall i :: 0 <= i < |rest| ==> rest[i].0 != items[0].0 by {
          if DistinctKeys(items) {
            forall i | 0 <= i < |rest| ensures rest[i].0 != items[0].0 {
              var j :| 0 <= j < |items[1..]| && items[1..][j] == rest[i];
              assert items[j + 1] == rest[i];
            }
          }
        }
        [items[0]] + rest
      else rest
  }

  /** `json.loads(payload.decode('utf-8'))` when the entry asks for decoding, the raw bytes otherwise. */
  function Payload(entry: Entry, raw: seq<byte>, decode: seq<byte> -> Option<Value>): Option<Value>
  {
    if entry.decodePayload then decode(raw) else Some(Bytes(raw))
  }

  /** `parse_matched_topic` for one selected item. */
  function TaskFor(item: (string, Entry), msg: Message, decode: seq<byte> -> Option<Value>): (t: Task)
    ensures t.key == item.0
    ensures !item.1.decodePayload ==> t == Invoke(item.0, item.1.callback, Bytes(msg.payload))
    ensures item.1.decodePayload ==>
      (t.Invoke? <==> decode(msg.payload).Some?) &&
      (t.Invoke? ==> t.callback == item.1.callback && t.payload == decode(msg.payload).value)
  {
    match Payload(item.1, msg.payload, decode)
    case Some(v) => Invoke(item.0, item.1.callback, v)
    case None => DecodeFailed(item.0)
  }

  /** The tasks `pool.map` runs for one message: one per matched item, in order. */
  function Tasks(items: seq<(string, Entry)>, msg: Message, decode: seq<byte> -> Option<Value>): (t: seq<Task>)
    ensures |t| == |Matched(items, msg.topic)|
    ensures forall i :: 0 <= i < |t| ==> t[i] == TaskFor(Matched(items, msg.topic)[i], msg, decode)
  {
    var m := Matched(items, msg.topic);
    seq(|m|, i requires 0 <= i < |m| => TaskFor(m[i], msg, decode))
  }

  /** No two tasks of one message are for the same pattern. */
  lemma TasksAreDistinct(items: seq<(string, Entry)>, msg: Message, decode: seq<byte> -> Option<Value>)
    requires DistinctKeys(items)
    ensures var tasks := Tasks(items, msg, decode);
      forall i, j :: 0 <= i < j < |tasks| ==> tasks[i].key != tasks[j].key
  {
    var m := Matched(items, msg.topic);
    var tasks := Tasks(items, msg, decode);
    forall i, j | 0 <= i < j < |tasks| ensures tasks[i].key != tasks[j].key {
      assert tasks[i].key == m[i].0 && tasks[j].key == m[j].0;
    }
  }

  /** `t` is the task of some item whose matcher accepts the message topic. */
  predicate TaskOfMatch(items: seq<(string, Entry)>, msg: Message, decode: seq<byte> -> Option<Value>, t: Task)
  {
    exists j :: 0 <= j < |items| && TopicMatcher.RegexMatches(items[j].1.regex, msg.topic) && t == TaskFor(items[j], msg, decode)
  }

  /** Every task is the task of an item whose matcher accepts the topic. */
  lemma TasksComeFromMatches(items: seq<(string, Entry)>, msg: Message, decode: seq<byte> -> Option<Value>)
    ensures var tasks := Tasks(items, msg, decode);
      forall i :: 0 <= i < |tasks| ==> TaskOfMatch(items, msg, decode, tasks[i])
  {
    var m := Matched(items, msg.topic);
    var tasks := Tasks(items, msg, decode);
    forall i | 0 <= i < |tasks|
      ensures TaskOfMatch(items, msg, decode, tasks[i])
    {
      assert m[i] in items && TopicMatcher.RegexMatches(m[i].1.regex, msg.topic);
      var j :| 0 <= j < |items| && items[j] == m[i];
      assert TopicMatcher.RegexMatches(items[j].1.regex, msg.topic) && tasks[i] == TaskFor(items[j], msg, decode);
    }
  }

  /** Every item whose matcher accepts the topic has its task. */
  lemma MatchesGetTasks(items: seq<(string, Entry)>, msg: Message, decode: seq<byte> -> Option<Value>)
    ensures var tasks := Tasks(items, msg, decode);
      forall j :: 0 <= j < |items| && TopicMatcher.RegexMatches(items[j].1.regex, msg.topic) ==>
        exists i :: 0 <= i < |tasks| && tasks[i] == TaskFor(items[j], msg, decode)
  {
    var m := Matched(items, msg.topic);
    var tasks := Tasks(items, msg, decode);
    forall j | 0 <= j < |items| && TopicMatcher.RegexMatches(items[j].1.regex, msg.topic)
      ensures exists i :: 0 <= i < |tasks| && tasks[i] == TaskFor(items[j], msg, decode)
    {
      var i :| 0 <= i < |m| && m[i] == items[j];
      assert tasks[i] == TaskFor(items[j], msg, decode);
    }
  }

  /**
   * Each entry whose matcher accepts the topic gets exactly one task, no
   * other entry gets one, and each task carries its own entry's callback
   * and payload choice, whatever the other entries' decoding does.
   */
  lemma EachMatchedEntryOnce(items: seq<(string, Entry)>, msg: Message, decode: seq<byte> -> Option<Value>)
    requires DistinctKeys(items)
    ensures var tasks := Tasks(items, msg, decode);
      && (forall i, j :: 0 <= i < j < |tasks| ==> tasks[i].key != tasks[j].key)
      && (forall i :: 0 <= i < |tasks| ==> TaskOfMatch(items, msg, decode, tasks[i]))
      && (forall j :: 0 <= j < |items| && TopicMatcher.RegexMatches(items[j].1.regex, msg.topic) ==>
            exists i :: 0 <= i < |tasks| && tasks[i] == TaskFor(items[j], msg, decode))
  {
    TasksAreDistinct(items, msg, decode);
    TasksComeFromMatches(items, msg, decode);
    MatchesGetTasks(items, msg, decode);
  }

  /**
   * When every stored matcher is the compilation of its own pattern, an
   * item's matcher accepts a topic exactly when its pattern `Matches` it.
   */
  lemma MatchedByPattern(items: seq<(string, Entry)>, topic: string)
    requires forall i :: 0 <= i < |items| ==> items[i].1.regex == TopicMatcher.Compile(items[i].0)
    ensures forall j :: 0 <= j < |items| ==>
      (TopicMatcher.RegexMatches(items[j].1.regex, topic) <==> TopicMatcher.Matches(items[j].0, topic))
  {
    forall j | 0 <= j < |items|
      ensures TopicMatcher.RegexMatches(items[j].1.regex, topic) == TopicMatcher.Matches(items[j].0, topic)
    {
      TopicMatcher.CompiledRegexAgrees(items[j].0, topic);
    }
  }

  lemma CompiledItems(keys: seq<string>, entries: map<string, Entry>)
    requires WellFormed(keys, entries)
    ensures var items := ItemsOf(keys, entries);
      && DistinctKeys(items)
      && (forall i :: 0 <= i < |items| ==> items[i].1.regex == TopicMatcher.Compile(items[i].0))
  {
  }

  /** Every task of a message is for a registered pattern that `Matches` the topic. */
  lemma TaskKeysMatch(keys: seq<string>, entries: map<string, Entry>, msg: Message, decode: seq<byte> -> Option<Value>)
    requires WellFormed(keys, entries)
    ensures var tasks := Tasks(ItemsOf(keys, entries), msg, decode);
      forall i :: 0 <= i < |tasks| ==> tasks[i].key in entries && TopicMatcher.Matches(tasks[i].key, msg.topic)
  {
    var items := ItemsOf(keys, entries);
    var tasks := Tasks(items, msg, decode);
    TasksComeFromMatches(items, msg, decode);
    forall i | 0 <= i < |tasks|
      ensures tasks[i].key in entries && TopicMatcher.Matches(tasks[i].key, msg.topic)
    {
      assert TaskOfMatch(items, msg, decode, tasks[i]);
      var j :| 0 <= j < |items| && TopicMatcher.RegexMatches(items[j].1.regex, msg.topic) && tasks[i] == TaskFor(items[j], msg, decode);
      assert items[j] == (keys[j], entries[keys[j]]) && tasks[i].key == keys[j];
      TopicMatcher.CompiledRegexAgrees(keys[j], msg.topic);
    }
  }

  /** Every registered pattern that `Matches` the topic has a task. */
  lemma MatchingKeysGetTasks(keys: seq<string>, entries: map<string, Entry>, msg: Message, decode: seq<byte> -> Option<Value>)
    requires WellFormed(keys, entries)
    ensures var tasks := Tasks(ItemsOf(keys, entries), msg, decode);
      forall k :: k in entries && TopicMatcher.Matches(k, msg.topic) ==> exists i :: 0 <= i < |tasks| && tasks[i].key == k
  {
    var items := ItemsOf(keys, entries);
    var tasks := Tasks(items, msg, decode);
    CompiledItems(keys, entries);
    MatchedByPattern(items, msg.topic);
    MatchesGetTasks(items, msg, decode);
    forall k | k in entries && TopicMatcher.Matches(k, msg.topic)
      ensures exists i :: 0 <= i < |tasks| && tasks[i].key == k
    {
      var j :| 0 <= j < |keys| && keys[j] == k;
      assert items[j].0 == k;
      var i :| 0 <= i < |tasks| && tasks[i] == TaskFor(items[j], msg, decode);
      assert tasks[i].key == k;
    }
  }

  /**
   * Dispatch over a registry whose every entry holds the compilation of
   * its own pattern: the tasks' keys are exactly the registered patterns
   * that `Matches` the topic, each once.
   */
  lemma DispatchFollowsPatterns(keys: seq<string>, entries: map<string, Entry>, msg: Message, decode: seq<byte> -> Option<Value>)
    requires WellFormed(keys, entries)
    ensures var tasks := Tasks(ItemsOf(keys, entries), msg, decode);
      && (forall i :: 0 <= i < |tasks| ==> tasks[i].key in entries && TopicMatcher.Matches(tasks[i].key, msg.topic))
      && (forall k :: k in entries && TopicMatcher.Matches(k, msg.topic) ==> exists i :: 0 <= i < |tasks| && tasks[i].key == k)
      && (forall i, j :: 0 <= i < j < |tasks| ==> tasks[i].key != tasks[j].key)
  {
    CompiledItems(keys, entries);
    TaskKeysMatch(keys, entries, msg, decode);
    MatchingKeysGetTasks(keys, entries, msg, decode);
    TasksAreDistinct(ItemsOf(keys, entries), msg, decode);
  }

  /**
   * One worker running one task: `callback(payload)`, with the payload as
   * the only argument. Only the fetch adapter's callback is modelled; it
   * runs with `topic` left at `None`.
   */
  method RunTask(task: Task, now: Value)
    modifies if task.Invoke? && task.callback.FetchCallback? then {task.callback.handler} else {}
    ensures task.Invoke? && task.callback.FetchCallback? ==>
      var h := task.callback.handler;
      var c := FetchAdapter.Coerce(task.payload, Null, FetchAdapter.DatetimeColumn(h.pipe), now);
      && h.kwargs == old(h.kwargs)["check_existing" := Bool(c.checkExisting)]
      && h.syncs == old(h.syncs) + [FetchAdapter.SyncCall(c.records, h.kwargs)]
  {
    if task.Invoke? && task.callback.FetchCallback? {
      task.callback.handler.Call(task.payload, Null, now);
    }
  }

  /**
   * `pool.map` over the tasks as far as failure goes: the call re-raises
   * when some task fails to decode its payload.
   */
  method MapRaises(tasks: seq<Task>) returns (raised: bool)
    ensures raised <==> exists i :: 0 <= i < |tasks| && tasks[i].DecodeFailed?
  {
    raised := false;
    for i := 0 to |tasks|
      invariant raised <==> exists j :: 0 <= j < i && tasks[j].DecodeFailed?
    {
      if tasks[i].DecodeFailed? {
        raised := true;
      }
    }
  }
}
