# Market-data helpers of trading-framework, in Dafny

This project models the two shared helpers of the trading framework's data
fetcher:

- **The Polygon.io query client** (`shared/utils/polygon_io_client.py`). It holds the
  interval table `INTERVAL_MAP`. `get_ohlcv` turns an interval token such as
  `"15m"` into an aggregates query `(ticker, multiplier, timespan, from, to, limit)`.
  `get_all_crypto_tickers` issues one fixed ticker listing. The REST client is
  foreign, so each query is modelled as the request that would be issued
  (`AggsRequest`, `TickersRequest`). An interval missing from the table is the
  `KeyError` case of a `Result`.
- **The Kafka helpers** (`shared/utils/kafka_client.py`):
  - `KafkaProducer` is a class-level singleton. Its `_producer` is created and
    started by `init`, created lazily by `send`, and stopped by `close`.
  - Keys are serialized as UTF-8 by the producer. The consumer deserializes them
    back, and turns a missing or empty key into `None`.
  - `KafkaConsumer.start` feeds every incoming record to a message handler and
    stops the consumer in a `finally`.

Files:

- `wrappers.dfy`: `Option` and `Result`.
- `utf8.dfy`: a strict UTF-8 encoder and decoder (RFC 3629). Both round trips
  are proved.
- `polygon_io_client.dfy`: the interval table, `int()`/`str()` on decimal
  literals with both round trips, `get_ohlcv` and `get_all_crypto_tickers`.
- `kafka_client.dfy`: the key codec, the aiokafka producer treated as an
  abstract object (`AioProducer`), the `KafkaProducer` singleton, the
  specification of the consumer loop (`Dispatch`) with its lemmas, the loop
  itself (`DispatchLoop`) and `KafkaConsumer`.

Modelling decisions:

- One `KafkaProducer` object stands for the Python class. Its field `producer`
  is the class attribute `_producer`. A ghost counter `created` counts the aiokafka
  producers ever constructed, and `Valid()` keeps it equal to 0 or 1.
- Each broker operation that may fail takes a boolean `fault` parameter, so
  every outcome is covered. This applies to `start()` and to `send_and_wait()`.
  This is an abstraction of aiokafka: a `send_and_wait` on a producer that is
  not running is taken to raise rather than block. That covers a stopped
  producer, and also an unstarted one, whose `start()` raised after it was
  already stored in `_producer`. Either way the exception is caught inside `send`.
- Two behaviours of the code are modelled as written:
  - `init`'s `is None` check is not a mutual-exclusion guard. Calls are
    modelled one after another only.
  - The lazy `init` inside `send` sits outside the `try`. A failing `start()`
    therefore escapes `send`. Also, `_producer` is stored before `start()` runs,
    so a failed start is never retried. `SendWithFailingStart` states this.
- The message handler is a predicate `raises(key, value)` that says whether the
  handler raises on that call. The `async for` stream is a finite sequence of records.
- Record values are opaque (a type parameter). A Dafny `char` is a Unicode
  scalar value, so every key can be encoded.

## Model

| member | source | states |
|---|---|---|
| `PolygonIOClient.IntervalTable` | shared/utils/polygon_io_client.py:9-15 | the table accepts exactly "1m", "5m", "15m", "1h", "1d"; the first three map to "minute", "1h" to "hour", "1d" to "day" |
| `PolygonIOClient.GetOhlcv` | shared/utils/polygon_io_client.py:26-29 | an interval not in the table gives KeyError(interval) and no request; otherwise the request's timespan is the table's entry, its multiplier is `int(interval[:-1])`, and ticker, from, to and limit are passed through unchanged |
| `PolygonIOClient.OhlcvAccepts` | shared/utils/polygon_io_client.py:27-29 | `get_ohlcv` succeeds if and only if the interval is in the table (never ValueError); the multiplier is positive, the unit letter agrees with the timespan, and the interval is the multiplier's decimal form followed by that letter |
| `PolygonIOClient.AcceptedIntervalShape` | shared/utils/polygon_io_client.py:9-15 | every table key is a canonical positive decimal followed by a letter whose unit (m/minute, h/hour, d/day) is the key's timespan |
| `PolygonIOClient.OhlcvExamples` | shared/utils/polygon_io_client.py:26-29 | "15m" gives (15, minute), "5m" gives (5, minute), "1h" gives (1, hour), "1d" gives (1, day); limit defaults to 100 |
| `PolygonIOClient.ParseInt` | shared/utils/polygon_io_client.py:28 | `int()` of a multiplier literal succeeds exactly on a non-empty string of decimal digits |
| `PolygonIOClient.ParseToDecimal` | shared/utils/polygon_io_client.py:28 | `int(str(n)) == n` for every natural n |
| `PolygonIOClient.ToDecimalParse` | shared/utils/polygon_io_client.py:28 | `str(int(s)) == s` for every digit string without a redundant leading zero |
| `PolygonIOClient.DropLast` | shared/utils/polygon_io_client.py:28 | the slice `s[:-1]` is `s` less its last character, and "" for "" |
| `PolygonIOClient.GetAllCryptoTickers` | shared/utils/polygon_io_client.py:23-24 | the ticker listing always asks for market "crypto", active "true", order "desc", limit 100, sort "market" |
| `Utf8.Encode` | shared/utils/kafka_client.py:29 | the producer's key serializer `k.encode('utf-8')`: empty exactly for the empty string and never shorter than the string |
| `Utf8.Decode` | shared/utils/kafka_client.py:62 | the strict `decode('utf-8')` of the key deserializer: the empty byte string decodes to "", and an accepted byte string never yields more characters than it has bytes |
| `Utf8.DecodeEncode` | shared/utils/kafka_client.py:62 | decoding the UTF-8 encoding of any string gives the string back |
| `Utf8.EncodeDecode` | shared/utils/kafka_client.py:62 | any bytes the strict decoder accepts are the encoding of what they decode to |
| `Utf8.DecodeFirstOfEncodeChar` | shared/utils/kafka_client.py:62 | the decoder reads back the one character the encoder wrote, whatever bytes follow it |
| `KafkaClient.DeserializeKey` | shared/utils/kafka_client.py:62 | a missing or empty key gives None; a non-empty key decodes if and only if it is valid UTF-8, and then it is that string's encoding |
| `KafkaClient.KeyRoundTrip` | shared/utils/kafka_client.py:29-62 | a serialized non-empty key deserializes to itself; the empty key comes back as None |
| `KafkaClient.AioProducer.constructor` | shared/utils/kafka_client.py:26-30 | a newly constructed aiokafka producer is not yet started and has had nothing acknowledged |
| `KafkaClient.AioProducer.Start` | shared/utils/kafka_client.py:31 | a started producer is running unless the broker faults, in which case start raises and the phase is unchanged |
| `KafkaClient.AioProducer.SendAndWait` | shared/utils/kafka_client.py:39 | raises exactly when the broker faults or the producer is not running; otherwise the record, with its UTF-8 key, is appended to the acknowledged records |
| `KafkaClient.AioProducer.Stop` | shared/utils/kafka_client.py:48 | the producer is stopped and its acknowledged records are kept |
| `KafkaClient.KafkaProducer.constructor` | shared/utils/kafka_client.py:21 | the class starts with no producer and none created |
| `KafkaClient.KafkaProducer.Init` | shared/utils/kafka_client.py:24-32 | with a producer present, init changes nothing and does not raise; otherwise it creates exactly one fresh producer, keeps it even if start raises, and is started unless start raised |
| `KafkaClient.KafkaProducer.Send` | shared/utils/kafka_client.py:35-43 | send runs init first only when no producer exists; afterwards exactly one producer has been created; it raises only when that lazy init's start raised; the record is delivered exactly when the producer is started and the broker does not fail |
| `KafkaClient.KafkaProducer.Close` | shared/utils/kafka_client.py:46-49 | with no producer, close is a no-op; otherwise the producer is stopped but not reset, and nothing else changes |
| `KafkaClient.InitSendCloseSend` | shared/utils/kafka_client.py:24-49 | a second init keeps the first producer; after close, init creates nothing and send returns normally to the stopped producer without delivering |
| `KafkaClient.SendWithFailingStart` | shared/utils/kafka_client.py:24-43 | when the lazy start fails, send raises, and a later send is swallowed on the unstarted producer with nothing delivered |
| `KafkaClient.Dispatch` | shared/utils/kafka_client.py:70-71 | the consumer loop never makes more handler calls than there are records |
| `KafkaClient.DispatchInOrder` | shared/utils/kafka_client.py:70-71 | the i-th handler call gets the i-th record's deserialized key and its value |
| `KafkaClient.DispatchExit` | shared/utils/kafka_client.py:69-73 | a handler call raises if and only if it is the last call and the loop ended with HandlerRaised, so the loop stops at the first call that raises; it ends with KeyDecodeFailed only at a record whose key does not decode; otherwise every record is handled |
| `KafkaClient.DispatchAll` | shared/utils/kafka_client.py:70-71 | when every key decodes and the handler never raises, every record is handled once and the loop ends with the stream |
| `KafkaClient.ProducedKeysArrive` | shared/utils/kafka_client.py:29-71 | records written with the producer's key serializer reach the handler with their original keys, except that the empty key arrives as None |
| `KafkaClient.DispatchLoop` | shared/utils/kafka_client.py:70-71 | the loop's handler calls and exit reason are exactly those of `Dispatch` |
| `KafkaClient.KafkaConsumer.constructor` | shared/utils/kafka_client.py:52-65 | the consumer keeps its topic, group and handler and is not yet started |
| `KafkaClient.KafkaConsumer.Start` | shared/utils/kafka_client.py:67-73 | when start raises, the handler is never called and the consumer is not stopped; otherwise it dispatches as `Dispatch` says and the consumer is stopped however the loop ended |

## Left out

- aiokafka's network I/O and broker behaviour. The producer and consumer are abstract objects, and their failures are fault parameters.
- asyncio scheduling and event loops. Calls are sequential, and no race freedom is claimed for `init`'s unlocked `is None` check.
- JSON value serialisation (`json.dumps`/`json.loads`). Values are opaque, so a `json.loads` failure in the consumer is not modelled.
- Polygon's `RESTClient` and its HTTP calls. Only the arguments that would be sent are modelled.
- Reading the environment (`KAFKA_BOOTSTRAP_SERVERS`, the Polygon API key), `load_dotenv` and the logging setup. These are configuration with no logic. Log lines are left out too.
- The `__main__` demo blocks of both files. They are manual test scripts.
- `services/data_fetcher/main.py`. It is process bootstrap only, and it imports a `PolygonWebSocketClient` that the Polygon client module does not define. No websocket subscription or event normalisation exists in the source, so none is modelled.
- PolygonIOClient.ParseInt: models `int()` on plain decimal digits only. Python also accepts signs, surrounding whitespace and underscores. Only the table's keys ever reach the parse, and their literals are "1", "5" and "15".
- KafkaClient.KafkaConsumer.Start: the endless `async for` is a finite sequence of records, and its end stands for the stream ending or being cancelled. The handler's outcome depends only on the key and value of the call.
- Python strings holding lone surrogates cannot be UTF-8 encoded, but they cannot be written as Dafny strings either.
