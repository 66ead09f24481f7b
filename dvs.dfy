/**
 * The DVS mapper's parser: a transport topic of the form
 * `<prefix>/<host>/<metric_group_key>/<metric_key>` and a payload holding one
 * numeric value are decoded into a `DvsMessage`.
 *
 * The standard-library routines the parser relies on are parameters:
 * `fromUtf8` is `std::str::from_utf8` (`None` for invalid UTF-8) and
 * `parseF64` is `str::parse::<f64>` (`None` when the text is not a number).
 * The lemmas hold for every choice of either.
 */
module Dvs {
  import opened Base
  import opened Text

  const TopicSeparator := '/'
  const PayloadSeparator := ':'

  /** A decoded measurement: the two keys from the topic and the value from the payload. */
  datatype DvsMessage = DvsMessage(metricGroupKey: string, metricKey: string, metricValue: F64)

  /** The failures of `DvsMessage::parse_from`; both carry the topic as received. */
  datatype DvsError =
    | InvalidMeasurementTopic(topic: string)
    | InvalidMeasurementPayload(topic: string, payloadError: DvsPayloadError)

  /** The two keys a valid topic carries. */
  datatype DvsTopic = DvsTopic(metricGroupKey: string, metricKey: string)

  /** The single failure of topic parsing; it carries no data. */
  datatype InvalidDvsTopicName = InvalidDvsTopicName

  /** A decoded payload. The timestamp field of an earlier payload format is no longer kept. */
  datatype DvsPayload = DvsPayload(metricValue: F64)

  /**
   * The failures of payload parsing. `InvalidMeasurementTimestamp` is declared
   * by the source but no longer produced (see `PayloadParseFrom`).
   */
  datatype DvsPayloadError =
    | NonUTF8MeasurementPayload(payload: seq<byte>)
    | InvalidMeasurementPayloadFormat(text: string)
    | InvalidMeasurementTimestamp(text: string)
    | InvalidMeasurementValue(text: string)

  /**
   * `DvsTopic::from_str`: the topic's iterator of `/`-segments must yield four
   * segments (prefix, host, group key, metric key) and then end. Each `next()`
   * of the iterator is an index into `Split(topic, '/')`. The keys of an
   * accepted topic hold no `/`.
   */
  function TopicFromStr(topic: string): (r: Result<DvsTopic, InvalidDvsTopicName>)
    ensures r.Ok? ==> TopicSeparator !in r.value.metricGroupKey && TopicSeparator !in r.value.metricKey
  {
    SplitSegmentsFree(topic, TopicSeparator);
    var segments := Split(topic, TopicSeparator);
    if |segments| < 4 then Err(InvalidDvsTopicName)      // one of the four `next()` calls gave `None`
    else if |segments| > 4 then Err(InvalidDvsTopicName) // a fifth segment follows
    else Ok(DvsTopic(segments[2], segments[3]))
  }

  /**
   * `DvsPayload::parse_from`, as the code stands: the first `:`-field is the
   * value, and any further field is a format error. The branch for a missing
   * first field is kept from the source although `Split` never yields zero fields.
   * A payload that is not UTF-8 is refused with its raw bytes, and only then;
   * the timestamp error is never returned.
   */
  function PayloadParseFrom(
    payload: seq<byte>,
    fromUtf8: seq<byte> -> Option<string>,
    parseF64: string -> Option<F64>
  ): (r: Result<DvsPayload, DvsPayloadError>)
    ensures fromUtf8(payload).None? <==> r == Err(NonUTF8MeasurementPayload(payload))
    ensures !(r.Err? && r.error.InvalidMeasurementTimestamp?)
  {
    match fromUtf8(payload)
    case None => Err(NonUTF8MeasurementPayload(payload))
    case Some(text) =>
      var fields := Split(text, PayloadSeparator);
      if |fields| == 0 then Err(InvalidMeasurementPayloadFormat(text))
      else
        match parseF64(fields[0])
        case None => Err(InvalidMeasurementValue(fields[0]))
        case Some(value) =>
          if |fields| > 1 then Err(InvalidMeasurementPayloadFormat(text))
          else Ok(DvsPayload(value))
  }

  /**
   * `DvsMessage::parse_from` on a message's topic name and its trimmed payload:
   * the topic is checked first, and a payload error is wrapped with the topic.
   * Every error carries the topic as received, and the keys of a decoded
   * message hold no `/`.
   */
  function MessageParseFrom(
    topic: string,
    payload: seq<byte>,
    fromUtf8: seq<byte> -> Option<string>,
    parseF64: string -> Option<F64>
  ): (r: Result<DvsMessage, DvsError>)
    ensures r.Err? ==> r.error.topic == topic
    ensures r.Ok? ==> TopicSeparator !in r.value.metricGroupKey && TopicSeparator !in r.value.metricKey
  {
    match TopicFromStr(topic)
    case Err(_) => Err(InvalidMeasurementTopic(topic))
    case Ok(dvsTopic) =>
      match PayloadParseFrom(payload, fromUtf8, parseF64)
      case Err(e) => Err(InvalidMeasurementPayload(topic, e))
      case Ok(dvsPayload) =>
        Ok(DvsMessage(dvsTopic.metricGroupKey, dvsTopic.metricKey, dvsPayload.metricValue))
  }

  // ---------------------------------------------------------------------------
  // Topic grammar

  /** A topic is accepted exactly when it holds three `/` separators, i.e. four segments. */
  lemma TopicValidIff(topic: string)
    ensures TopicFromStr(topic).Ok? <==> multiset(topic)[TopicSeparator] == 3
  {
    SplitCount(topic, TopicSeparator);
  }

  /**
   * The keys of an accepted topic are its third and fourth segments verbatim;
   * the first two segments, whatever they are, make up the rest of the topic.
   */
  lemma TopicKeys(topic: string)
    requires TopicFromStr(topic).Ok?
    ensures var t := TopicFromStr(topic).value;
      var segments := Split(topic, TopicSeparator);
      && TopicSeparator !in t.metricGroupKey && TopicSeparator !in t.metricKey
      && topic == Join([segments[0], segments[1], t.metricGroupKey, t.metricKey], TopicSeparator)
  {
    var segments := Split(topic, TopicSeparator);
    SplitSegmentsFree(topic, TopicSeparator);
    JoinSplit(topic, TopicSeparator);
    assert segments == [segments[0], segments[1], segments[2], segments[3]];
  }

  /** Any four `/`-free segments joined by `/` form a topic whose keys are the last two. */
  lemma TopicRoundTrip(prefix: string, host: string, groupKey: string, metricKey: string)
    requires TopicSeparator !in prefix && TopicSeparator !in host
    requires TopicSeparator !in groupKey && TopicSeparator !in metricKey
    ensures TopicFromStr(Join([prefix, host, groupKey, metricKey], TopicSeparator))
         == Ok(DvsTopic(groupKey, metricKey))
  {
    var parts := [prefix, host, groupKey, metricKey];
    SplitJoin(parts, TopicSeparator);
  }

  // ---------------------------------------------------------------------------
  // Payload grammar, as written

  /** A payload text without `:` is parsed whole: it succeeds exactly when `parseF64` accepts it. */
  lemma PayloadWithoutColon(payload: seq<byte>, fromUtf8: seq<byte> -> Option<string>, parseF64: string -> Option<F64>)
    requires fromUtf8(payload).Some? && PayloadSeparator !in fromUtf8(payload).value
    ensures var text := fromUtf8(payload).value;
      PayloadParseFrom(payload, fromUtf8, parseF64)
        == if parseF64(text).Some? then Ok(DvsPayload(parseF64(text).value))
           else Err(InvalidMeasurementValue(text))
  {
    SplitFree(fromUtf8(payload).value, PayloadSeparator);
  }

  /**
   * A payload text with a `:` is always rejected: with `InvalidMeasurementValue`
   * of the text before the first `:` when that does not parse, and otherwise with
   * `InvalidMeasurementPayloadFormat` of the whole text.
   */
  lemma PayloadWithColon(payload: seq<byte>, fromUtf8: seq<byte> -> Option<string>, parseF64: string -> Option<F64>)
    requires fromUtf8(payload).Some? && PayloadSeparator in fromUtf8(payload).value
    ensures var text := fromUtf8(payload).value;
      var first := text[..IndexOf(text, PayloadSeparator)];
      PayloadParseFrom(payload, fromUtf8, parseF64)
        == if parseF64(first).None? then Err(InvalidMeasurementValue(first))
           else Err(InvalidMeasurementPayloadFormat(text))
  {
    var text := fromUtf8(payload).value;
    SplitCount(text, PayloadSeparator);
    SplitFirst(text, PayloadSeparator);
  }

  /** The payload is accepted exactly when it is UTF-8 text without `:` that `parseF64` accepts. */
  lemma PayloadValidIff(payload: seq<byte>, fromUtf8: seq<byte> -> Option<string>, parseF64: string -> Option<F64>)
    ensures PayloadParseFrom(payload, fromUtf8, parseF64).Ok?
        <==> && fromUtf8(payload).Some?
             && PayloadSeparator !in fromUtf8(payload).value
             && parseF64(fromUtf8(payload).value).Some?
    ensures PayloadParseFrom(payload, fromUtf8, parseF64).Ok?
        ==> PayloadParseFrom(payload, fromUtf8, parseF64).value.metricValue
            == parseF64(fromUtf8(payload).value).value
  {
    if fromUtf8(payload).Some? {
      if PayloadSeparator in fromUtf8(payload).value {
        PayloadWithColon(payload, fromUtf8, parseF64);
      } else {
        PayloadWithoutColon(payload, fromUtf8, parseF64);
      }
    }
  }

  // ---------------------------------------------------------------------------
  // Message decoding

  /** A topic without exactly three `/` is reported as a topic error, whatever the payload. */
  lemma MessageTopicFirst(topic: string, payload: seq<byte>, fromUtf8: seq<byte> -> Option<string>, parseF64: string -> Option<F64>)
    requires multiset(topic)[TopicSeparator] != 3
    ensures MessageParseFrom(topic, payload, fromUtf8, parseF64) == Err(InvalidMeasurementTopic(topic))
  {
    TopicValidIff(topic);
  }

  /**
   * With a valid topic, a payload error is wrapped with the original topic, and a
   * decoded payload is combined with the topic's two keys.
   */
  lemma MessageWithValidTopic(topic: string, payload: seq<byte>, fromUtf8: seq<byte> -> Option<string>, parseF64: string -> Option<F64>)
    requires multiset(topic)[TopicSeparator] == 3
    ensures |Split(topic, TopicSeparator)| == 4
    ensures var segments := Split(topic, TopicSeparator);
      MessageParseFrom(topic, payload, fromUtf8, parseF64)
        == var p := PayloadParseFrom(payload, fromUtf8, parseF64);
           if p.Err? then Err(InvalidMeasurementPayload(topic, p.error))
           else Ok(DvsMessage(segments[2], segments[3], p.value.metricValue))
  {
    TopicValidIff(topic);
  }

  /**
   * A message is decoded exactly when its topic has four segments and its payload
   * is colon-free UTF-8 text that parses; the result then holds the third and
   * fourth topic segments and the parsed value.
   */
  lemma MessageValidIff(topic: string, payload: seq<byte>, fromUtf8: seq<byte> -> Option<string>, parseF64: string -> Option<F64>)
    ensures MessageParseFrom(topic, payload, fromUtf8, parseF64).Ok?
        <==> && multiset(topic)[TopicSeparator] == 3
             && fromUtf8(payload).Some?
             && PayloadSeparator !in fromUtf8(payload).value
             && parseF64(fromUtf8(payload).value).Some?
    ensures MessageParseFrom(topic, payload, fromUtf8, parseF64).Ok? ==>
      var segments := Split(topic, TopicSeparator);
      MessageParseFrom(topic, payload, fromUtf8, parseF64).value
        == DvsMessage(segments[2], segments[3], parseF64(fromUtf8(payload).value).value)
  {
    TopicValidIff(topic);
    PayloadValidIff(payload, fromUtf8, parseF64);
  }

  /** A topic built from any number of `/`-free levels other than four is rejected. */
  lemma TopicWrongLevels(levels: seq<string>)
    requires |levels| >= 1 && |levels| != 4
    requires forall i :: 0 <= i < |levels| ==> TopicSeparator !in levels[i]
    ensures TopicFromStr(Join(levels, TopicSeparator)) == Err(InvalidDvsTopicName)
  {
    SplitJoin(levels, TopicSeparator);
  }

  /**
   * A payload whose text continues after a first field that parses is a format
   * error carrying the whole text: the value is taken from the first field, and
   * the further field is refused.
   */
  lemma PayloadFieldAfterValue(
    payload: seq<byte>, fromUtf8: seq<byte> -> Option<string>, parseF64: string -> Option<F64>,
    first: string, rest: string)
    requires fromUtf8(payload) == Some(first + [PayloadSeparator] + rest)
    requires PayloadSeparator !in first && parseF64(first).Some?
    ensures PayloadParseFrom(payload, fromUtf8, parseF64)
         == Err(InvalidMeasurementPayloadFormat(first + [PayloadSeparator] + rest))
  {
    var tail := [PayloadSeparator] + rest;
    assert first + [PayloadSeparator] + rest == first + tail;
    SplitFreePrefix(first, tail, PayloadSeparator);
    assert tail[1..] == rest;
    assert Split(tail, PayloadSeparator) == [""] + Split(rest, PayloadSeparator);
    assert first + "" == first;
  }
}
