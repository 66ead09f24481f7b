# ThinEdge JSON serializer and DVS message parser, in Dafny

This project models two pieces of the thin-edge.io mapper.

**The ThinEdge JSON serializer** (`mapper/thin_edge_json/src/serialize.rs`).
`ThinEdgeJsonSerializer` consumes a stream of measurement events: a timestamp, a
named measurement, the start of a group, the end of a group. It writes them into
a JSON writer as one object, and `into_string` / `bytes` finish the object and
return it. The model is a Dafny `class` with the same five fields. The writer's
buffer is a `seq<Token>` of the writer calls received: `{`, `}`, `,`, a key, a
string value, a number value. Every operation is a `method` with the source's
branches and error cases. Each method states the whole new state of the
serializer, and keeps the invariant `Valid()`. The invariant has two parts:

* the buffer's shape: it opens with `{`, its nesting depth is right, and every
  separator stands between two members;
* until the object is first closed, the buffer is exactly the rendering of an
  abstract document. That document is a ghost list of top-level members
  (timestamp, scalar, group of scalars) plus the group being written, if any.

From the invariant, the first successful `into_string` returns exactly the
rendering of the members it received (`ObjectTokens`), and that rendering is
always one well-formed JSON object (`Document.ObjectWellFormed`). Here
well-formed means that the object opens first and closes last, nests at most
one group deep, has every `,` between two members, and pairs every key with
the value right after it (`Document.MalformedObjects` shows what this rules
out). The unit tests
of `serialize.rs` become methods in module `Scenarios` that drive the class and
state its exact output. A few more scenarios pin down behaviour the code has but
the tests do not exercise:

* the default timestamp is written last;
* a second top-level timestamp is accepted;
* `into_string` can be called twice, and the second call appends another `}`.

**The DVS parser** (`mapper/dvs_mapper/src/dvs.rs`). This part is pure. It
splits a topic `<prefix>/<host>/<metric_group_key>/<metric_key>` and a payload
into a `DvsMessage`, or reports which part was wrong. The model has functions
`TopicFromStr`, `PayloadParseFrom` and `MessageParseFrom` over Rust's
`str::split`, which is modelled in module `Text` together with its inverse
`Join`. Lemmas state exactly which topics and payloads are accepted, what is
extracted from them, and which error comes out otherwise.

**The payload format, as written.** The code reads a payload holding only
`<value>`. The first `:`-field is parsed as the value, and any further field
is a format error. The timestamp handling is commented out (`dvs.rs:111-117`).
The message text of `InvalidMeasurementPayloadFormat` (`dvs.rs:95`) agrees:
"Expected payload format: <value>". So do the topic tests (`dvs.rs:202-214`)
and `invalid_dvs_payload_more_seperators` (`dvs.rs:227-236`).

Several DVS unit tests still expect the older `<timestamp>:<value>` format, and
the code as written does not give their expected results:

* `dvs.rs:147-162` and `dvs.rs:165-180`: `"123456789:32.5"` gives a format error;
* `dvs.rs:193-200` and `dvs.rs:217-225`: `"123456789"` is accepted;
* `dvs.rs:239-247`: `"123456789:abc"` gives a format error, not a value error;
* `dvs.rs:249-258`: `"abc:98.6"` gives a value error, not a timestamp error;
* `dvs.rs:261-274`: `"123456789:<number>"` gives a format error.

The message text of `InvalidMeasurementTimestamp` (`dvs.rs:98`) also belongs to
the older format. This model follows the code
(`Dvs.PayloadValidIff`, `Dvs.PayloadWithColon`, `Dvs.PayloadFieldAfterValue`),
and the tests listed above are not restated as lemmas.

Modules: `Base` (Option, Result, byte, an opaque `F64`), `Text`, `Dvs`,
`JsonTokens` (tokens, nesting depth, separator placement), `Document` (the
abstract document and its rendering), `Serialize` (the class), `Scenarios`.

## Model

| member | source | states |
|---|---|---|
| `Serialize.ThinEdgeJsonSerializer.NewWithTimestamp` | mapper/thin_edge_json/src/serialize.rs:49-61 | the buffer holds just `{`, no group is open, no separator is pending, no timestamp is present, and the given default timestamp is stored; the invariant holds |
| `Serialize.ThinEdgeJsonSerializer.New` | mapper/thin_edge_json/src/serialize.rs:45-47 | as `new_with_timestamp(None)`: buffer `{`, no default timestamp (also what `Default` builds, lines 88-92) |
| `Serialize.ThinEdgeJsonSerializer.Timestamp` | mapper/thin_edge_json/src/serialize.rs:97-111 | inside a group: `UnexpectedTimestamp` and nothing changes; at top level: a separator when one is pending, then `"time"` and the RFC 3339 text; a separator becomes pending and a timestamp is present; the document gains a timestamp member; a second timestamp is not refused |
| `Serialize.ThinEdgeJsonSerializer.Measurement` | mapper/thin_edge_json/src/serialize.rs:113-121 | always succeeds; a separator when one is pending, then key and number; a separator becomes pending; at top level the document gains a scalar member, inside a group the open group gains it; group and timestamp flags are unchanged |
| `Serialize.ThinEdgeJsonSerializer.StartGroup` | mapper/thin_edge_json/src/serialize.rs:123-136 | inside a group: `UnexpectedStartOfGroup` and nothing changes (groups nest one level at most); otherwise a separator when one is pending, then the key and `{`; inside the group with no separator pending and an empty open group |
| `Serialize.ThinEdgeJsonSerializer.EndGroup` | mapper/thin_edge_json/src/serialize.rs:138-147 | at top level: `UnexpectedEndOfGroup` and nothing changes; inside a group it writes `}`, returns to top level with a separator pending, and the open group becomes the last top-level member |
| `Serialize.ThinEdgeJsonSerializer.End` | mapper/thin_edge_json/src/serialize.rs:63-76 | inside a group: `UnexpectedEndOfData` and nothing changes; otherwise the default timestamp is written exactly when none was written and a default exists, then `}`; the first time, the buffer is the rendering of the members received and a well-formed JSON object |
| `Serialize.ThinEdgeJsonSerializer.WriteDefaultTimestamp` | mapper/thin_edge_json/src/serialize.rs:68-72 | the default timestamp is written through `timestamp` exactly when no timestamp is present and a default was given; otherwise nothing changes |
| `Serialize.ThinEdgeJsonSerializer.IntoString` | mapper/thin_edge_json/src/serialize.rs:82-85 | the error of `end`, with nothing changed, or the whole buffer after `end`; the first successful call returns `ObjectTokens` of the members received, a well-formed object; each further call appends one more `}` |
| `Serialize.ThinEdgeJsonSerializer.Bytes` | mapper/thin_edge_json/src/serialize.rs:78-80 | the result of `into_string`: `UnexpectedEndOfData` inside a group; otherwise the buffer plus the default timestamp when it applies plus `}`, on every call, so one more `}` after an earlier `into_string`; without an earlier `into_string`, the rendering of the members received and a well-formed object |
| `Serialize.InitialInv` | mapper/thin_edge_json/src/serialize.rs:51-59 | the freshly built serializer satisfies the invariant with an empty document |
| `Serialize.TimestampStep` | mapper/thin_edge_json/src/serialize.rs:102-109 | writing a timestamp at top level keeps the invariant, with the document extended by a timestamp member |
| `Serialize.MeasurementStep` | mapper/thin_edge_json/src/serialize.rs:114-119 | writing a measurement keeps the invariant, with the scalar added to the open group or to the top level |
| `Serialize.StartGroupStep` | mapper/thin_edge_json/src/serialize.rs:128-134 | opening a group at top level keeps the invariant, with an empty open group |
| `Serialize.EndGroupStep` | mapper/thin_edge_json/src/serialize.rs:143-145 | closing the group keeps the invariant, with the group moved to the top-level members |
| `Serialize.EndStep` | mapper/thin_edge_json/src/serialize.rs:74 | closing the top-level object keeps the buffer's shape; the first time, the buffer equals `ObjectTokens` of the members and is a well-formed object |
| `Serialize.BufferAppendMember` | mapper/thin_edge_json/src/serialize.rs:102-107 | a key-and-value member written behind a separator exactly when one is pending keeps every separator between two members and moves the depth only by the member's own nesting |
| `Serialize.BufferAppendClose` | mapper/thin_edge_json/src/serialize.rs:143 | writing `}` lowers the depth by one and keeps separator placement |
| `Document.ObjectWellFormed` | mapper/thin_edge_json/src/serialize.rs:94-147 | whatever members are received, their rendering opens with `{`, closes with `}` and nowhere in between, nests at most one group deep, has every `,` between two members, and has every key followed by its value and every value (a group's `{` included) right after its key |
| `Document.MalformedObjects` | mapper/thin_edge_json/src/serialize.rs:94-147 | the well-formedness the serializer keeps rules out a key without a value (`{"a"}`), a value without a key (`{1}`) and an object directly inside another (`{{}}`) |
| `Document.GroupMember` | mapper/thin_edge_json/src/serialize.rs:123-147 | a group renders as a key and a balanced object of scalars, one level deep, with separators only between scalars |
| `Document.EntryMember` | mapper/thin_edge_json/src/serialize.rs:97-147 | each kind of top-level member renders as a key first, a value last, balanced, at most one object deep |
| `Document.EntriesMembers` | mapper/thin_edge_json/src/serialize.rs:102-104 | the top-level members, joined by separators, form a balanced run with separators only between members |
| `Document.OpenDocumentAddEntry` | mapper/thin_edge_json/src/serialize.rs:102-107 | appending a top-level member to the rendering of an open document writes a separator exactly when the document already has a member |
| `Document.OpenDocumentAddToGroup` | mapper/thin_edge_json/src/serialize.rs:114-118 | appending a scalar to the open group writes a separator exactly when the group already has a member |
| `Document.OpenDocumentStartGroup` | mapper/thin_edge_json/src/serialize.rs:128-132 | opening a group writes a separator exactly when the document has a member, then the key and `{` |
| `Document.OpenDocumentEndGroup` | mapper/thin_edge_json/src/serialize.rs:143 | writing `}` after the open group renders the document with that group as its last member |
| `Document.HasTimeAppend` | mapper/thin_edge_json/src/serialize.rs:109 | the document holds a timestamp after an append exactly when it held one before or the new member is one |
| `Dvs.TopicFromStr` | mapper/dvs_mapper/src/dvs.rs:67-81 | the four `next()` calls and the check for a fifth segment, over `Split(topic, '/')`; the keys of an accepted topic hold no `/`; `TopicValidIff`, `TopicKeys`, `TopicRoundTrip` and `TopicWrongLevels` give exactly which topics are accepted and what is extracted |
| `Dvs.TopicValidIff` | mapper/dvs_mapper/src/dvs.rs:67-81 | a topic is accepted exactly when it holds three `/`, so four segments |
| `Dvs.TopicKeys` | mapper/dvs_mapper/src/dvs.rs:71-78 | an accepted topic's keys are its third and fourth segments, free of `/`, and the topic is its four segments joined by `/` |
| `Dvs.TopicRoundTrip` | mapper/dvs_mapper/src/dvs.rs:67-81 | any four `/`-free segments joined by `/` parse to the last two as keys |
| `Dvs.TopicWrongLevels` | mapper/dvs_mapper/src/dvs.rs:69-79 | any number of `/`-free levels other than four is rejected with `InvalidDvsTopicName` (too few: a `next()` is `None`; too many: a fifth segment) |
| `Dvs.PayloadParseFrom` | mapper/dvs_mapper/src/dvs.rs:106-136 | a payload is refused with `NonUTF8MeasurementPayload` and its raw bytes exactly when it is not UTF-8; `InvalidMeasurementTimestamp` (dvs.rs:98-99) is never returned; `PayloadWithoutColon`, `PayloadWithColon`, `PayloadFieldAfterValue` and `PayloadValidIff` give the result for every UTF-8 text |
| `Dvs.PayloadWithoutColon` | mapper/dvs_mapper/src/dvs.rs:119-131 | UTF-8 text without `:` is parsed whole: the parsed value, or `InvalidMeasurementValue` of the text |
| `Dvs.PayloadWithColon` | mapper/dvs_mapper/src/dvs.rs:119-135 | text with a `:` is always rejected: `InvalidMeasurementValue` of the part before the first `:` when it does not parse, otherwise `InvalidMeasurementPayloadFormat` of the whole text |
| `Dvs.PayloadFieldAfterValue` | mapper/dvs_mapper/src/dvs.rs:127-135 | a first field that parses, followed by `:` and anything, gives `InvalidMeasurementPayloadFormat` of the whole text |
| `Dvs.PayloadValidIff` | mapper/dvs_mapper/src/dvs.rs:106-136 | a payload is accepted exactly when it is UTF-8 text without `:` that parses as `f64`, and the value is that number |
| `Dvs.MessageParseFrom` | mapper/dvs_mapper/src/dvs.rs:36-54 | every error carries the topic as received, and the keys of a decoded message hold no `/`; `MessageTopicFirst`, `MessageWithValidTopic` and `MessageValidIff` give the result for every topic and payload |
| `Dvs.MessageTopicFirst` | mapper/dvs_mapper/src/dvs.rs:39-44 | a topic without exactly three `/` gives `InvalidMeasurementTopic` with the topic, whatever the payload |
| `Dvs.MessageWithValidTopic` | mapper/dvs_mapper/src/dvs.rs:46-53 | with a valid topic, a payload error is wrapped with the topic, and a payload value is combined with the third and fourth topic segments |
| `Dvs.MessageValidIff` | mapper/dvs_mapper/src/dvs.rs:36-54 | a message is decoded exactly when the topic has four segments and the payload is acceptable; the result holds the third and fourth segments and the parsed value |
| `Text.Split` | mapper/dvs_mapper/src/dvs.rs:68-72 | Rust's `str::split` on one `char`, collected: always at least one segment; with `Join` as its inverse (`JoinSplit`, `SplitJoin`) and the lemmas below |
| `Text.SplitCount` | mapper/dvs_mapper/src/dvs.rs:68 | `split` yields one more segment than there are separators |
| `Text.SplitSegmentsFree` | mapper/dvs_mapper/src/dvs.rs:68 | no segment of `split` contains the separator |
| `Text.JoinSplit` | mapper/dvs_mapper/src/dvs.rs:68 | joining the segments with the separator gives back the string |
| `Text.SplitJoin` | mapper/dvs_mapper/src/dvs.rs:68 | splitting separator-free segments joined by the separator gives back the segments |
| `Text.SplitFree` | mapper/dvs_mapper/src/dvs.rs:109 | a string without the separator is a single segment |
| `Text.SplitFirst` | mapper/dvs_mapper/src/dvs.rs:119 | the first segment is everything before the first separator |
| `Scenarios.SingleValueMessage` | mapper/thin_edge_json/src/serialize.rs:160-173 | timestamp then `temperature` renders `{"time":<t>,"temperature":<v>}`, a well-formed object |
| `Scenarios.SingleValueNoTimestampMessage` | mapper/thin_edge_json/src/serialize.rs:175-183 | a lone measurement renders `{"temperature":<v>}` |
| `Scenarios.MultiValueMessage` | mapper/thin_edge_json/src/serialize.rs:185-202 | timestamp, scalar, a group of three scalars and a scalar render the four-member document, a well-formed object |
| `Scenarios.MultiValueRendering` | mapper/thin_edge_json/src/serialize.rs:197-198 | that document's tokens: `{"time":<t>,"temperature":<v>,"location":{"alti":..,"longi":..,"lati":..},"pressure":<p>}` |
| `Scenarios.LocationGroup` | mapper/thin_edge_json/src/serialize.rs:191-195 | start, three measurements and end add one group member with the three scalars in order |
| `Scenarios.LocationRendering` | mapper/thin_edge_json/src/serialize.rs:197 | the `location` group renders as its key and a nested object of three members |
| `Scenarios.EmptyMessage` | mapper/thin_edge_json/src/serialize.rs:204-211 | no events render `{}` |
| `Scenarios.TimestampMessage` | mapper/thin_edge_json/src/serialize.rs:213-222 | a lone timestamp renders `{"time":<t>}` |
| `Scenarios.TimestampWithinGroup` | mapper/thin_edge_json/src/serialize.rs:224-233 | a timestamp inside a group gives `UnexpectedTimestamp` and writes nothing |
| `Scenarios.UnexpectedEndOfGroupMessage` | mapper/thin_edge_json/src/serialize.rs:235-244 | ending a group never started gives `UnexpectedEndOfGroup` and writes nothing |
| `Scenarios.UnexpectedStartOfGroupMessage` | mapper/thin_edge_json/src/serialize.rs:246-256 | starting a group inside a group gives `UnexpectedStartOfGroup` and writes nothing |
| `Scenarios.UnexpectedEndOfMessage` | mapper/thin_edge_json/src/serialize.rs:258-268 | `into_string` with a group open gives `UnexpectedEndOfData` |
| `Scenarios.DefaultTimestampWrittenLast` | mapper/thin_edge_json/src/serialize.rs:68-72 | with a default and no timestamp in the stream, the default is written after the other members |
| `Scenarios.DefaultTimestampNotOverriding` | mapper/thin_edge_json/src/serialize.rs:68-72 | with a timestamp in the stream, the default is not written |
| `Scenarios.SecondTimestampAccepted` | mapper/thin_edge_json/src/serialize.rs:97-111 | a second top-level timestamp succeeds, and the object holds the key `time` twice |
| `Scenarios.IntoStringTwice` | mapper/thin_edge_json/src/serialize.rs:82-85 | a second `into_string` returns the first output plus `}`, which is no longer a well-formed object |
| `Scenarios.BytesAfterIntoString` | mapper/thin_edge_json/src/serialize.rs:78-85 | `bytes` after `into_string` returns the first output plus `}` |

## Left out

- The JSON writer's internals: string escaping, `f64` formatting, buffer capacity (the 1024 of `new_with_timestamp`), and conversion of the buffer to a `String`. The buffer is the sequence of writer calls, and the writer never fails. So `FormatError`, `JsonWriterError` and `InvalidUtf8ConversionToString` are declared but never produced.
- `f64` is an opaque 64-bit value (`F64`). No arithmetic or formatting is done on it.
- `chrono`'s `DateTime<FixedOffset>` is known only by its RFC 3339 text, which is what gets written. The clock used by the unit tests is replaced by a parameter.
- `std::str::from_utf8` and `str::parse::<f64>` are parameters of the DVS parser (`fromUtf8`, `parseF64`), and the lemmas hold for every choice of them.
- The `mqtt_client::Message` type and `payload_trimmed` are not part of this model. `MessageParseFrom` takes the topic name and the already trimmed payload bytes.
- The `Display` texts of the error enums, and the `tracing` imports, are not modelled. The error variants themselves are.
- The `GroupedMeasurementVisitor` trait is not modelled as a trait; its four methods are methods of the class.
- Serialize.ThinEdgeJsonSerializer.IntoString: relates its output to the abstract document only for the first successful call. Later calls are described on the buffer alone, because the source keeps appending `}` to the same buffer.
- Serialize.ThinEdgeJsonSerializer.Bytes: does not state the serializer's state afterwards, only its result. In the source `bytes` consumes the serializer, so nothing can observe that state; the model does not enforce the consumption.
- A `<timestamp>:<value>` payload is not read, because the code does not read one. See the note on the payload format above.
