/**
 * The Kafka helpers: a process-wide producer created on first use, the
 * UTF-8 key serializer/deserializer pair, and a consumer that hands every
 * incoming record to a message handler. The aiokafka producer and consumer
 * are foreign; broker outcomes enter as boolean fault parameters. Record
 * values are opaque (type parameter V): their JSON encoding is not modelled.
 */
module KafkaClient {
  import opened Wrappers
  import Utf8

  /** A record as it travels through the broker: topic, serialized key (absent or bytes) and value. */
  datatype Record<V> = Record(topic: string, key: Option<seq<Utf8.byte>>, value: V)

  // ---------------------------------------------------------------------------
  // Key serializer and deserializer
  // ---------------------------------------------------------------------------

  /** The exception the consumer's key deserializer raises on bytes that are not UTF-8. */
  datatype DecodeError = UnicodeDecodeError

  /**
   * The consumer's `key_deserializer`: strict UTF-8 decoding of a truthy key.
   * A missing key and an empty byte string are both falsy and give None.
   */
  function DeserializeKey(k: Option<seq<Utf8.byte>>): (r: Result<Option<string>, DecodeError>)
    ensures (k.None? || k.value == []) ==> r == Ok(None)
    ensures k.Some? && k.value != [] ==>
      (r.Ok? <==> Utf8.Decode(k.value).Some?) &&
      (r.Ok? ==> r.value.Some? && Utf8.Encode(r.value.value) == k.value)
  {
    if k.None? || k.value == [] then Ok(None)
    else match Utf8.Decode(k.value)
      case None => Err(UnicodeDecodeError)
      case Some(s) => Utf8.EncodeDecode(k.value); Ok(Some(s))
  }

  /** Key round trip: a non-empty key comes back unchanged, but the empty key comes back as None. */
  lemma KeyRoundTrip(k: string)
    ensures DeserializeKey(Some(Utf8.Encode(k))) == if k == "" then Ok(None) else Ok(Some(k))
  {
    Utf8.DecodeEncode(k);
  }

  // ---------------------------------------------------------------------------
  // The aiokafka producer, seen from outside
  // ---------------------------------------------------------------------------

  /** The life of one aiokafka producer object. */
  datatype Phase = Created | Running | Closed

  /**
   * An `AIOKafkaProducer` configured with the UTF-8 key serializer. `sent` is
   * the sequence of records the broker acknowledged. Whether the network
   * lets an operation through is an input (`fault`).
   */
  class AioProducer<V> {
    var phase: Phase
    var sent: seq<Record<V>>

    constructor ()
      ensures phase == Created && sent == []
    {
      phase := Created;
      sent := [];
    }

    /** `await producer.start()`: raises when the broker cannot be reached. */
    method Start(fault: bool) returns (raised: bool)
      modifies this
      ensures raised == fault
      ensures phase == (if fault then old(phase) else Running)
      ensures sent == old(sent)
    {
      raised := fault;
      if !fault {
        phase := Running;
      }
    }

    /**
     * `await producer.send_and_wait(topic, key=key, value=value)`: the record
     * is acknowledged only by a running producer and when the broker does not
     * fail; otherwise the call raises and nothing is delivered.
     */
    method SendAndWait(topic: string, key: string, value: V, fault: bool) returns (raised: bool)
      modifies this
      ensures raised <==> fault || old(phase) != Running
      ensures phase == old(phase)
      ensures sent == if raised then old(sent) else old(sent) + [Record(topic, Some(Utf8.Encode(key)), value)]
    {
      raised := fault || phase != Running;
      if !raised {
        sent := sent + [Record(topic, Some(Utf8.Encode(key)), value)];
      }
    }

    /** `await producer.stop()`. */
    method Stop()
      modifies this
      ensures phase == Closed && sent == old(sent)
    {
      phase := Closed;
    }
  }

  // ---------------------------------------------------------------------------
  // KafkaProducer: the class-level singleton
  // ---------------------------------------------------------------------------

  /**
   * The state of `KafkaProducer._producer`: no producer yet, a producer whose
   * `start()` raised, a started producer, or a stopped one.
   */
  datatype ProducerState = Absent | NotStarted | Started | Stopped

  /**
   * `KafkaProducer`: one object of this class stands for the class itself,
   * whose class attribute `_producer` is the field `producer`. `created`
   * counts the aiokafka producers ever constructed.
   */
  class KafkaProducer<V> {
    var producer: AioProducer?<V>
    ghost var created: nat

    /** At most one aiokafka producer is ever made, and it is the one held. */
    ghost predicate Valid()
      reads this
    {
      created == if producer == null then 0 else 1
    }

    /** The class as it is before any call: `_producer = None`. */
    constructor ()
      ensures Valid() && producer == null && created == 0
    {
      producer := null;
      created := 0;
    }

    function State(): (st: ProducerState)
      reads this, producer
      ensures st == Absent <==> producer == null
    {
      if producer == null then Absent
      else match producer.phase
        case Created => NotStarted
        case Running => Started
        case Closed => Stopped
    }

    /** The records the held producer has had acknowledged. */
    function Sent(): seq<Record<V>>
      reads this, producer
    {
      if producer == null then [] else producer.sent
    }

    /**
     * `KafkaProducer.init()`: only when `_producer is None`, constructs a
     * producer, stores it, and starts it. The producer is stored before
     * `start()` runs, so a failing start leaves a producer that a later
     * `init` will not replace; the exception propagates (`raised`).
     */
    method Init(startFault: bool) returns (raised: bool)
      requires Valid()
      modifies this, producer
      ensures Valid() && producer != null && created == 1
      ensures old(producer) != null ==>
        && !raised && producer == old(producer)
        && producer.phase == old(producer.phase) && producer.sent == old(producer.sent)
      ensures old(producer) == null ==>
        && fresh(producer) && raised == startFault
        && State() == (if startFault then NotStarted else Started) && Sent() == []
    {
      raised := false;
      if producer == null {
        producer := new AioProducer<V>();
        created := created + 1;
        raised := producer.Start(startFault);
      }
    }

    /**
     * `KafkaProducer.send(topic, key, value)`: runs `init` first when no
     * producer exists, then sends. Every exception of the send itself is
     * caught and logged; only an exception of the lazy `init` escapes
     * (it is outside the `try`). A record is delivered exactly when the
     * producer is started at the moment of sending and the broker does not fail.
     */
    method Send(topic: string, key: string, value: V, startFault: bool, sendFault: bool)
      returns (raised: bool)
      requires Valid()
      modifies this, producer
      ensures Valid() && producer != null && created == 1
      ensures raised <==> old(producer) == null && startFault
      ensures old(producer) != null ==> producer == old(producer) && State() == old(State())
      ensures old(producer) == null ==> fresh(producer) && State() == (if startFault then NotStarted else Started)
      ensures var delivered := !sendFault && (old(State()) == Started || (old(State()) == Absent && !startFault));
        Sent() == old(Sent()) + (if delivered then [Record(topic, Some(Utf8.Encode(key)), value)] else [])
    {
      if producer == null {
        raised := Init(startFault);
        if raised {
          return;
        }
      }
      var failed := producer.SendAndWait(topic, key, value, sendFault);
      // a failed send is only logged
      raised := false;
    }

    /**
     * `KafkaProducer.close()`: stops the producer when there is one and does
     * nothing otherwise. `_producer` is not reset, so a later `init` creates
     * nothing and a later `send` goes to the stopped producer.
     */
    method Close()
      requires Valid()
      modifies producer
      ensures Valid() && producer == old(producer) && created == old(created)
      ensures State() == if old(producer) == null then Absent else Stopped
      ensures Sent() == old(Sent())
    {
      if producer != null {
        producer.Stop();
      }
    }
  }

  /**
   * A run of the singleton: `init`, `init`, `send`, `close`, `init`, `send`,
   * with every broker operation succeeding. The second `init` keeps the first
   * producer, the first `send` is delivered, and after `close` the last
   * `init` creates nothing and the last `send` returns normally on the
   * stopped producer without delivering.
   */
  method InitSendCloseSend<V>(topic: string, key: string, first: V, second: V)
    returns (state: ProducerState, delivered: seq<Record<V>>, raised: bool)
    ensures state == Stopped && !raised
    ensures delivered == [Record(topic, Some(Utf8.Encode(key)), first)]
  {
    var kp := new KafkaProducer<V>();
    var r := kp.Init(false);
    r := kp.Init(false);
    r := kp.Send(topic, key, first, false, false);
    kp.Close();
    r := kp.Init(false);
    raised := kp.Send(topic, key, second, false, false);
    state := kp.State();
    delivered := kp.Sent();
  }

  /**
   * A `send` on a class that was never initialised, whose lazy `start()`
   * raises: the exception escapes `send`, nothing is delivered, and the one
   * producer created stays unstarted, so a retried `send` is swallowed
   * instead of retrying the start.
   */
  method SendWithFailingStart<V>(topic: string, key: string, value: V)
    returns (firstRaised: bool, secondRaised: bool, state: ProducerState, delivered: seq<Record<V>>)
    ensures firstRaised && !secondRaised
    ensures state == NotStarted && delivered == []
  {
    var kp := new KafkaProducer<V>();
    firstRaised := kp.Send(topic, key, value, true, false);
    secondRaised := kp.Send(topic, key, value, false, false);
    state := kp.State();
    delivered := kp.Sent();
  }

  // ---------------------------------------------------------------------------
  // KafkaConsumer: the dispatch loop
  // ---------------------------------------------------------------------------

  /** One invocation of the message handler, with the deserialized key and the value. */
  datatype Call<V> = Call(key: Option<string>, value: V)

  /** Why the `async for` loop ended. */
  datatype Exit =
    | Exhausted        // no more records
    | HandlerRaised    // the handler raised on the last call
    | KeyDecodeFailed  // the next record's key was not UTF-8
    | StartFailed      // `consumer.start()` raised; the loop never ran

  datatype Dispatched<V> = Dispatched(calls: seq<Call<V>>, exit: Exit)

  /**
   * What the loop does with a stream of records when `raises(key, value)`
   * says whether the handler raises on a call: one call per record, in
   * order, until the records run out, a key does not decode, or the handler raises.
   */
  function Dispatch<V>(incoming: seq<Record<V>>, raises: (Option<string>, V) -> bool): (d: Dispatched<V>)
    ensures |d.calls| <= |incoming| && d.exit != StartFailed
    decreases |incoming|
  {
    if incoming == [] then Dispatched([], Exhausted)
    else match DeserializeKey(incoming[0].key)
      case Err(_) => Dispatched([], KeyDecodeFailed)
      case Ok(k) =>
        if raises(k, incoming[0].value) then Dispatched([Call(k, incoming[0].value)], HandlerRaised)
        else
          var rest := Dispatch(incoming[1..], raises);
          Dispatched([Call(k, incoming[0].value)] + rest.calls, rest.exit)
  }

  /** The handler is called once per record it reaches, in arrival order, with that record's key and value. */
  lemma {:induction false} DispatchInOrder<V>(incoming: seq<Record<V>>, raises: (Option<string>, V) -> bool, i: nat)
    requires i < |Dispatch(incoming, raises).calls|
    ensures DeserializeKey(incoming[i].key) == Ok(Dispatch(incoming, raises).calls[i].key)
    ensures Dispatch(incoming, raises).calls[i].value == incoming[i].value
    decreases |incoming|
  {
    if i > 0 {
      DispatchInOrder(incoming[1..], raises, i - 1);
    }
  }

  /**
   * How the loop ends: it stops early only at the first record whose key
   * does not decode or the first call that raises, and it reaches the end
   * of the stream otherwise.
   */
  lemma {:induction false} DispatchExit<V>(incoming: seq<Record<V>>, raises: (Option<string>, V) -> bool)
    ensures var d := Dispatch(incoming, raises);
      && (forall i :: 0 <= i < |d.calls| ==>
            (raises(d.calls[i].key, d.calls[i].value) <==> d.exit == HandlerRaised && i == |d.calls| - 1))
      && (d.exit == Exhausted ==> |d.calls| == |incoming|)
      && (d.exit == HandlerRaised ==> d.calls != [])
      && (d.exit == KeyDecodeFailed ==>
            |d.calls| < |incoming| && DeserializeKey(incoming[|d.calls|].key).Err?)
    decreases |incoming|
  {
    if incoming != [] && DeserializeKey(incoming[0].key).Ok? && !raises(DeserializeKey(incoming[0].key).value, incoming[0].value) {
      DispatchExit(incoming[1..], raises);
    }
  }

  /**
   * Fault isolation in the other direction: when every key decodes and the
   * handler never raises, every record is handled and the loop ends with the stream.
   */
  lemma {:induction false} DispatchAll<V>(incoming: seq<Record<V>>, raises: (Option<string>, V) -> bool)
    requires forall i :: 0 <= i < |incoming| ==> DeserializeKey(incoming[i].key).Ok?
    requires forall i :: 0 <= i < |incoming| ==> !raises(DeserializeKey(incoming[i].key).value, incoming[i].value)
    ensures Dispatch(incoming, raises).exit == Exhausted
    ensures |Dispatch(incoming, raises).calls| == |incoming|
    decreases |incoming|
  {
    if incoming != [] {
      assert forall i :: 0 <= i < |incoming[1..]| ==> incoming[1..][i] == incoming[i + 1];
      DispatchAll(incoming[1..], raises);
    }
  }

  /**
   * Records written by the producer reach the handler with the key the
   * producer was given, except that the empty key arrives as None.
   */
  lemma ProducedKeysArrive<V>(topic: string, keys: seq<string>, values: seq<V>, raises: (Option<string>, V) -> bool, i: nat)
    requires |keys| == |values|
    requires i < |Dispatch(seq(|keys|, j requires 0 <= j < |keys| => Record(topic, Some(Utf8.Encode(keys[j])), values[j])), raises).calls|
    ensures var d := Dispatch(seq(|keys|, j requires 0 <= j < |keys| => Record(topic, Some(Utf8.Encode(keys[j])), values[j])), raises);
      d.calls[i] == Call(if keys[i] == "" then None else Some(keys[i]), values[i])
  {
    var incoming := seq(|keys|, j requires 0 <= j < |keys| => Record(topic, Some(Utf8.Encode(keys[j])), values[j]));
    DispatchInOrder(incoming, raises, i);
    KeyRoundTrip(keys[i]);
  }

  /** The loop of `KafkaConsumer.start`: each record in turn goes to the handler as (key, value). */
  method DispatchLoop<V>(incoming: seq<Record<V>>, raises: (Option<string>, V) -> bool)
    returns (calls: seq<Call<V>>, exit: Exit)
    ensures Dispatched(calls, exit) == Dispatch(incoming, raises)
  {
    calls := [];
    exit := Exhausted;
    var i := 0;
    while i < |incoming|
      invariant 0 <= i <= |incoming|
      invariant |calls| == i
      invariant Dispatch(incoming, raises) ==
        Dispatched(calls + Dispatch(incoming[i..], raises).calls, Dispatch(incoming[i..], raises).exit)
    {
      ghost var rest := incoming[i..];
      assert rest[0] == incoming[i] && rest[1..] == incoming[i + 1..];
      var key := DeserializeKey(incoming[i].key);
      if key.Err? {
        assert Dispatch(rest, raises) == Dispatched([], KeyDecodeFailed);
        assert calls + [] == calls;
        exit := KeyDecodeFailed;
        return;
      }
      var call := Call(key.value, incoming[i].value);
      if raises(key.value, incoming[i].value) {
        assert Dispatch(rest, raises) == Dispatched([call], HandlerRaised);
        calls := calls + [call];
        exit := HandlerRaised;
        return;
      }
      assert Dispatch(rest, raises).calls == [call] + Dispatch(incoming[i + 1..], raises).calls;
      assert Dispatch(rest, raises).exit == Dispatch(incoming[i + 1..], raises).exit;
      calls := calls + [call];
      i := i + 1;
    }
  }

  /** The life of the aiokafka consumer object. */
  datatype ConsumerPhase = Idle | Consuming | Finished

  /** `KafkaConsumer(topic, group_id, message_handler)`. */
  class KafkaConsumer<V> {
    const topic: string
    const groupId: string
    /** Whether `message_handler(key, value)` raises on a call. */
    const handlerRaises: (Option<string>, V) -> bool
    var phase: ConsumerPhase

    constructor (topic: string, groupId: string, handlerRaises: (Option<string>, V) -> bool)
      ensures this.topic == topic && this.groupId == groupId && this.handlerRaises == handlerRaises
      ensures phase == Idle
    {
      this.topic := topic;
      this.groupId := groupId;
      this.handlerRaises := handlerRaises;
      phase := Idle;
    }

    /**
     * `KafkaConsumer.start()`: starts the consumer (an exception there
     * escapes before the `try`, and the consumer is not stopped), then
     * dispatches every incoming record to the handler; the `finally` stops
     * the consumer however the loop ends.
     */
    method Start(incoming: seq<Record<V>>, startFault: bool) returns (calls: seq<Call<V>>, exit: Exit)
      modifies this
      ensures startFault ==> calls == [] && exit == StartFailed && phase == old(phase)
      ensures !startFault ==> Dispatched(calls, exit) == Dispatch(incoming, handlerRaises) && phase == Finished
    {
      if startFault {
        calls, exit := [], StartFailed;
        return;
      }
      phase := Consuming;
      calls, exit := DispatchLoop(incoming, handlerRaises);
      phase := Finished;
    }
  }
}
