/**
 * The fetch adapter (`_fetch.py`): which topics a pipe asks for, and how
 * the callback that `fetch` registers turns each delivered payload into
 * records for the pipe's sink.
 */
module FetchAdapter {
  import opened Values

  // ---------------------------------------------------------------------
  // Pipe configuration
  // ---------------------------------------------------------------------

  /**
   * The value found under `fetch.topic` or `fetch.topics`. `Absent` is a
   * missing key or `None`. Besides a string and a list of topics, two other
   * kinds of value can stand on either side of Python's `+`: a tuple of
   * topics, and a number (`int`, `float` or `bool`, read as its real value).
   * `Unaddable` is any other value (a mapping, a set, …), with its Python
   * truth value.
   */
  datatype Setting =
    | Absent
    | Text(s: string)
    | Texts(items: seq<string>)
    | Tuple(items: seq<string>)
    | Number(x: real)
    | Unaddable(truthy: bool)

  /** `parameters['fetch']`: missing, a mapping, or some value that is not a mapping. */
  datatype FetchSection = NoSection | Section(topic: Setting, topics: Setting) | NotAMapping

  datatype Pipe = Pipe(fetch: FetchSection, columns: map<string, string>)

  /** One side of `(_topic or []) + (_topics or [])`, once a string has been wrapped in a list. */
  datatype Operand = ListOperand(names: seq<string>) | TupleOperand(names: seq<string>) | NumberOperand(x: real) | OtherOperand

  /** What `get_topics_from_pipe` returns: a list, a tuple or a number. */
  datatype Topics = TopicList(names: seq<string>) | TopicTuple(names: seq<string>) | TopicNumber(x: real)

  /** A setting after the string wrap and `x or []`: every falsy value becomes the empty list. */
  function OperandOf(s: Setting): Operand
  {
    match s
    case Absent => ListOperand([])
    case Text(t) => ListOperand([t])
    case Texts(items) => ListOperand(items)
    case Tuple(items) => if items == [] then ListOperand([]) else TupleOperand(items)
    case Number(x) => if x == 0.0 then ListOperand([]) else NumberOperand(x)
    case Unaddable(truthy) => if truthy then OtherOperand else ListOperand([])
  }

  /** Python's `+`: lists and tuples concatenate with their own kind, numbers add, anything else raises. */
  function Sum(a: Operand, b: Operand): Result<Topics, PyError>
  {
    match (a, b)
    case (ListOperand(x), ListOperand(y)) => Ok(TopicList(x + y))
    case (TupleOperand(x), TupleOperand(y)) => Ok(TopicTuple(x + y))
    case (NumberOperand(x), NumberOperand(y)) => Ok(TopicNumber(x + y))
    case _ => Err(TypeError)
  }

  /** `get_topics_from_pipe`. */
  function TopicsFromPipe(pipe: Pipe): Result<Topics, PyError>
  {
    match pipe.fetch
    case NoSection => Ok(TopicList([]))
    case NotAMapping => Err(AttributeError)
    case Section(topic, topics) => Sum(OperandOf(topic), OperandOf(topics))
  }

  /**
   * The topics `fetch` iterates over at line 45: the elements of the list
   * or tuple `get_topics_from_pipe` returns; a number cannot be iterated.
   */
  function FetchTopics(pipe: Pipe): (r: Result<seq<string>, PyError>)
    ensures r.Ok? <==> TopicsFromPipe(pipe).Ok? && !TopicsFromPipe(pipe).value.TopicNumber?
    ensures r.Ok? ==> r.value == TopicsFromPipe(pipe).value.names
    ensures r.Err? && TopicsFromPipe(pipe).Ok? ==> r.error == TypeError
  {
    match TopicsFromPipe(pipe)
    case Err(e) => Err(e)
    case Ok(TopicNumber(_)) => Err(TypeError)
    case Ok(t) => Ok(t.names)
  }

  function SectionPipe(topic: Setting, topics: Setting, columns: map<string, string>): Pipe
  {
    Pipe(Section(topic, topics), columns)
  }

  predicate Falsy(s: Setting)
  {
    s.Absent? || s == Texts([]) || s == Tuple([]) || s == Number(0.0) || s == Unaddable(false)
  }

  /** A setting that ends up a list: missing, a string, a list, or any falsy value. */
  predicate ListValued(s: Setting)
  {
    s.Absent? || s.Text? || s.Texts? || Falsy(s)
  }

  /** The pairs of settings Python's `+` accepts at line 63. */
  predicate Addable(a: Setting, b: Setting)
  {
    || (ListValued(a) && ListValued(b))
    || (a.Tuple? && a.items != [] && b.Tuple? && b.items != [])
    || (a.Number? && a.x != 0.0 && b.Number? && b.x != 0.0)
  }

  /**
   * Reading a `fetch` section succeeds exactly for addable settings. Two
   * non-empty tuples give their concatenation, and two non-zero numbers
   * give their sum, which `fetch` then cannot iterate.
   */
  lemma AddableSettings(a: Setting, b: Setting, columns: map<string, string>)
    ensures TopicsFromPipe(SectionPipe(a, b, columns)).Ok? <==> Addable(a, b)
    ensures ListValued(a) && ListValued(b) ==> TopicsFromPipe(SectionPipe(a, b, columns)).value.TopicList?
    ensures a.Tuple? && a.items != [] && b.Tuple? && b.items != [] ==>
      TopicsFromPipe(SectionPipe(a, b, columns)) == Ok(TopicTuple(a.items + b.items))
      && FetchTopics(SectionPipe(a, b, columns)) == Ok(a.items + b.items)
    ensures a.Number? && a.x != 0.0 && b.Number? && b.x != 0.0 ==>
      TopicsFromPipe(SectionPipe(a, b, columns)) == Ok(TopicNumber(a.x + b.x))
      && FetchTopics(SectionPipe(a, b, columns)) == Err(TypeError)
  {
  }

  /**
   * Both keys are read the same way: a string counts as the one-element
   * list holding it, the empty string included.
   */
  lemma StringIsOneElementList(s: string, other: Setting, columns: map<string, string>)
    ensures TopicsFromPipe(SectionPipe(Text(s), other, columns)) == TopicsFromPipe(SectionPipe(Texts([s]), other, columns))
    ensures TopicsFromPipe(SectionPipe(other, Text(s), columns)) == TopicsFromPipe(SectionPipe(other, Texts([s]), columns))
    ensures TopicsFromPipe(SectionPipe(Text(s), Absent, columns)) == Ok(TopicList([s]))
  {
    assert [s] + [] == [s];
  }

  /**
   * A list of topics is the `topic` setting's topics followed by the
   * `topics` setting's topics, each read as if it were the only one.
   */
  lemma ListIsTopicThenTopics(a: Setting, b: Setting, columns: map<string, string>)
    ensures var r := TopicsFromPipe(SectionPipe(a, b, columns));
      var first := TopicsFromPipe(SectionPipe(a, Absent, columns));
      var second := TopicsFromPipe(SectionPipe(Absent, b, columns));
      r.Ok? && r.value.TopicList? ==>
        && first.Ok? && first.value.TopicList?
        && second.Ok? && second.value.TopicList?
        && r.value.names == first.value.names + second.value.names
  {
  }

  /** Missing, `None`, empty or falsy settings (or no `fetch` section at all) give no topics. */
  lemma NoTopicsConfigured(pipe: Pipe)
    requires pipe.fetch.NoSection? || (pipe.fetch.Section? && Falsy(pipe.fetch.topic) && Falsy(pipe.fetch.topics))
    ensures TopicsFromPipe(pipe) == Ok(TopicList([]))
    ensures FetchTopics(pipe) == Ok([])
  {
    if pipe.fetch.Section? {
      var none: seq<string> := [];
      assert OperandOf(pipe.fetch.topic) == ListOperand(none) && OperandOf(pipe.fetch.topics) == ListOperand(none);
      assert none + none == none;
    }
  }

  /**
   * A `fetch` value that is not a mapping has no `.get`. Settings that
   * cannot be added raise `TypeError`: a truthy value of no addable kind,
   * or two truthy values of different kinds (a list and a tuple, a tuple
   * and a number, …).
   */
  lemma MalformedSettingsRaise(pipe: Pipe)
    ensures pipe.fetch.NotAMapping? ==> TopicsFromPipe(pipe) == Err(AttributeError)
    ensures pipe.fetch.Section? && !Addable(pipe.fetch.topic, pipe.fetch.topics) ==> TopicsFromPipe(pipe) == Err(TypeError)
    ensures pipe.fetch.Section? && (pipe.fetch.topic == Unaddable(true) || pipe.fetch.topics == Unaddable(true))
      ==> TopicsFromPipe(pipe) == Err(TypeError)
  {
  }

  /**
   * `fetch: {topic: 5, topics: 6}` is read as the number 11, which `fetch`
   * cannot iterate; two one-element tuples are read as both topics.
   */
  lemma NumbersAndTuplesAreAdded(columns: map<string, string>)
    ensures TopicsFromPipe(SectionPipe(Number(5.0), Number(6.0), columns)) == Ok(TopicNumber(11.0))
    ensures FetchTopics(SectionPipe(Number(5.0), Number(6.0), columns)) == Err(TypeError)
    ensures FetchTopics(SectionPipe(Tuple(["a"]), Tuple(["b"]), columns)) == Ok(["a", "b"])
  {
    assert ["a"] + ["b"] == ["a", "b"];
  }

  // ---------------------------------------------------------------------
  // The payload-to-record decision table
  // ---------------------------------------------------------------------

  /** What the callback hands to the sink: the records and the `check_existing` flag. */
  datatype Coerced = Coerced(records: Value, checkExisting: bool)

  /** `int`, `float` and `str`; Python's `bool` is an `int`. */
  predicate IsScalar(v: Value)
  {
    v.Bool? || v.Int? || v.Float? || v.Str?
  }

  /** `pipe.columns.get('datetime', 'timestamp')`. */
  function DatetimeColumn(pipe: Pipe): string
  {
    if "datetime" in pipe.columns then pipe.columns["datetime"] else "timestamp"
  }

  /** The record built for one payload (`_on_message_callback`, before the sink call). */
  function Coerce(payload: Value, topic: Value, datetimeColumn: string, now: Value): (c: Coerced)
    // A mapping becomes one record: a copy of it with `topic` set; duplicates are checked.
    ensures payload.Dict? ==>
      && c.checkExisting
      && c.records.List? && |c.records.items| == 1 && c.records.items[0].Dict?
      && c.records.items[0].fields.Keys == payload.fields.Keys + {"topic"}
      && c.records.items[0].fields["topic"] == topic
      && (forall k :: k in payload.fields && k != "topic" ==> c.records.items[0].fields[k] == payload.fields[k])
    // A scalar becomes one record {datetime column, value, topic}; duplicates are not checked.
    ensures IsScalar(payload) ==>
      && !c.checkExisting
      && c.records.List? && |c.records.items| == 1 && c.records.items[0].Dict?
      && c.records.items[0].fields.Keys == {datetimeColumn, "value", "topic"}
      && c.records.items[0].fields["value"] == payload
      && c.records.items[0].fields["topic"] == topic
      && (datetimeColumn != "value" && datetimeColumn != "topic" ==> c.records.items[0].fields[datetimeColumn] == now)
    // Anything else is forwarded as it is; duplicates are checked.
    ensures !payload.Dict? && !IsScalar(payload) ==> c.records == payload && c.checkExisting
  {
    if payload.Dict? then
      Coerced(List([Dict(payload.fields["topic" := topic])]), true)
    else if IsScalar(payload) then
      Coerced(List([Dict(map[datetimeColumn := now]["value" := payload]["topic" := topic])]), false)
    else
      Coerced(payload, true)
  }

  /**
   * Dispatch calls the callback with the payload alone, so `topic` keeps
   * its default `None`: every record built from a mapping or a scalar
   * carries `topic: None`.
   */
  lemma DispatchedRecordsHaveNoTopic(payload: Value, datetimeColumn: string, now: Value)
    requires payload.Dict? || IsScalar(payload)
    ensures var c := Coerce(payload, Null, datetimeColumn, now);
      c.records.List? && |c.records.items| == 1 && c.records.items[0].Dict? &&
      c.records.items[0].fields["topic"] == Null
  {
  }

  // ---------------------------------------------------------------------
  // The callback object and its sink
  // ---------------------------------------------------------------------

  /** One call of `pipe.sync(df, **kwargs)`, as the sink receives it. */
  datatype SyncCall = SyncCall(records: Value, kwargs: map<string, Value>)

  /**
   * The closure `_on_message_callback` that one `fetch` call creates: it
   * shares that call's `kwargs` dictionary across every message and
   * records each sink call.
   */
  class FetchHandler {
    const pipe: Pipe
    var kwargs: map<string, Value>
    var syncs: seq<SyncCall>

    constructor (pipe: Pipe, kwargs: map<string, Value>)
      ensures this.pipe == pipe && this.kwargs == kwargs && syncs == []
    {
      this.pipe := pipe;
      this.kwargs := kwargs;
      syncs := [];
    }

    /**
     * Handles one payload: `check_existing` is written into the shared
     * `kwargs`, replacing the previous call's value, before the sink is
     * called with the coerced records and those `kwargs`.
     */
    method Call(payload: Value, topic: Value, now: Value)
      modifies this
      ensures var c := Coerce(payload, topic, DatetimeColumn(pipe), now);
        && kwargs == old(kwargs)["check_existing" := Bool(c.checkExisting)]
        && syncs == old(syncs) + [SyncCall(c.records, kwargs)]
    {
      var c := Coerce(payload, topic, DatetimeColumn(pipe), now);
      kwargs := kwargs["check_existing" := Bool(c.checkExisting)];
      syncs := syncs + [SyncCall(c.records, kwargs)];
    }
  }
}
