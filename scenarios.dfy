/**
 * Event sequences driven through `ThinEdgeJsonSerializer`, with the exact
 * writer output each one produces. The first group follows the unit tests of
 * mapper/thin_edge_json/src/serialize.rs; the last group pins down behaviour
 * the code has but the tests do not exercise.
 */
module Scenarios {
  import opened Base
  import opened JsonTokens
  import opened Document
  import opened Serialize

  /** `{"time":<t>,"temperature":<v>}`. */
  method SingleValueMessage(t: DateTime, temperature: F64)
    returns (output: Result<seq<Token>, ThinEdgeJsonSerializationError>)
    ensures output == Ok([OpenObj, Key(TimeKey), Str(t.rfc3339), Sep, Key("temperature"), Num(temperature), CloseObj])
    ensures WellFormedObject(output.value)
  {
    var serializer := new ThinEdgeJsonSerializer.New();
    var _ := serializer.Timestamp(t);
    assert serializer.json == [OpenObj, Key(TimeKey), Str(t.rfc3339)];
    var _ := serializer.Measurement("temperature", temperature);
    assert serializer.json == [OpenObj, Key(TimeKey), Str(t.rfc3339), Sep, Key("temperature"), Num(temperature)];
    output := serializer.IntoString();
    assert serializer.json == [OpenObj, Key(TimeKey), Str(t.rfc3339), Sep, Key("temperature"), Num(temperature), CloseObj];
  }

  /** `{"temperature":<v>}`: without a timestamp and without a default, none is written. */
  method SingleValueNoTimestampMessage(temperature: F64)
    returns (output: Result<seq<Token>, ThinEdgeJsonSerializationError>)
    ensures output == Ok([OpenObj, Key("temperature"), Num(temperature), CloseObj])
  {
    var serializer := new ThinEdgeJsonSerializer.New();
    var _ := serializer.Measurement("temperature", temperature);
    assert serializer.json == [OpenObj, Key("temperature"), Num(temperature)];
    output := serializer.IntoString();
    assert serializer.json == [OpenObj, Key("temperature"), Num(temperature), CloseObj];
  }

  /** A timestamp, a scalar, a group of three scalars, and a scalar after the group. */
  method MultiValueMessage(t: DateTime, temperature: F64, alti: F64, longi: F64, lati: F64, pressure: F64)
    returns (output: Result<seq<Token>, ThinEdgeJsonSerializationError>)
    ensures output == Ok(ObjectTokens([
      TimeEntry(t),
      ScalarEntry(Scalar("temperature", temperature)),
      GroupEntry("location", [Scalar("alti", alti), Scalar("longi", longi), Scalar("lati", lati)]),
      ScalarEntry(Scalar("pressure", pressure))]))
    ensures WellFormedObject(output.value)
  {
    var serializer := new ThinEdgeJsonSerializer.New();
    var _ := serializer.Timestamp(t);
    var _ := serializer.Measurement("temperature", temperature);
    assert serializer.entries == [TimeEntry(t), ScalarEntry(Scalar("temperature", temperature))];
    LocationGroup(serializer, alti, longi, lati);
    var _ := serializer.Measurement("pressure", pressure);
    assert serializer.entries == [
      TimeEntry(t),
      ScalarEntry(Scalar("temperature", temperature)),
      GroupEntry("location", [Scalar("alti", alti), Scalar("longi", longi), Scalar("lati", lati)]),
      ScalarEntry(Scalar("pressure", pressure))];
    output := serializer.IntoString();
    assert output.value == ObjectTokens(serializer.entries);
    assert serializer.entries == [
      TimeEntry(t),
      ScalarEntry(Scalar("temperature", temperature)),
      GroupEntry("location", [Scalar("alti", alti), Scalar("longi", longi), Scalar("lati", lati)]),
      ScalarEntry(Scalar("pressure", pressure))];
    assert output.Ok?;
  }

  /** Three members, rendered with a separator between each pair of neighbours. */
  lemma JoinedThree<T>(x: T, y: T, z: T, item: T -> seq<Token>)
    ensures Joined([x, y, z], item) == item(x) + [Sep] + item(y) + [Sep] + item(z)
  {
    JoinedAppend([x], y, item);
    assert [x] + [y] == [x, y];
    JoinedAppend([x, y], z, item);
    assert [x, y] + [z] == [x, y, z];
  }

  /** Four members, rendered with a separator between each pair of neighbours. */
  lemma JoinedFour<T>(w: T, x: T, y: T, z: T, item: T -> seq<Token>)
    ensures Joined([w, x, y, z], item) == item(w) + [Sep] + item(x) + [Sep] + item(y) + [Sep] + item(z)
  {
    JoinedThree(w, x, y, item);
    JoinedAppend([w, x, y], z, item);
    assert [w, x, y] + [z] == [w, x, y, z];
  }

  /** The document of `MultiValueMessage`, rendered. */
  lemma MultiValueRendering(t: DateTime, temperature: F64, alti: F64, longi: F64, lati: F64, pressure: F64)
    ensures ObjectTokens([
      TimeEntry(t),
      ScalarEntry(Scalar("temperature", temperature)),
      GroupEntry("location", [Scalar("alti", alti), Scalar("longi", longi), Scalar("lati", lati)]),
      ScalarEntry(Scalar("pressure", pressure))])
      == [OpenObj] + [Key(TimeKey), Str(t.rfc3339)]
         + [Sep] + [Key("temperature"), Num(temperature)]
         + [Sep] + [Key("location"), OpenObj,
                      Key("alti"), Num(alti), Sep, Key("longi"), Num(longi), Sep, Key("lati"), Num(lati),
                    CloseObj]
         + [Sep] + [Key("pressure"), Num(pressure)]
         + [CloseObj]
  {
    var ms := [Scalar("alti", alti), Scalar("longi", longi), Scalar("lati", lati)];
    LocationRendering(alti, longi, lati);
    var es := [TimeEntry(t), ScalarEntry(Scalar("temperature", temperature)), GroupEntry("location", ms),
               ScalarEntry(Scalar("pressure", pressure))];
    JoinedFour(es[0], es[1], es[2], es[3], EntryTokens);
  }

  /** The `location` group of `MultiValueMessage`, rendered. */
  lemma LocationRendering(alti: F64, longi: F64, lati: F64)
    ensures EntryTokens(GroupEntry("location", [Scalar("alti", alti), Scalar("longi", longi), Scalar("lati", lati)]))
      == [Key("location"), OpenObj,
          Key("alti"), Num(alti), Sep, Key("longi"), Num(longi), Sep, Key("lati"), Num(lati),
          CloseObj]
  {
    JoinedThree(Scalar("alti", alti), Scalar("longi", longi), Scalar("lati", lati), ScalarTokens);
  }

  /** The `location` group of `MultiValueMessage`. */
  method LocationGroup(serializer: ThinEdgeJsonSerializer, alti: F64, longi: F64, lati: F64)
    requires serializer.Valid() && !serializer.isWithinGroup && serializer.ends == 0
    modifies serializer
    ensures serializer.Valid() && !serializer.isWithinGroup && serializer.ends == 0
    ensures serializer.timestampPresent == old(serializer.timestampPresent)
    ensures serializer.defaultTimestamp == old(serializer.defaultTimestamp)
    ensures serializer.entries == old(serializer.entries)
      + [GroupEntry("location", [Scalar("alti", alti), Scalar("longi", longi), Scalar("lati", lati)])]
  {
    var _ := serializer.StartGroup("location");
    var _ := serializer.Measurement("alti", alti);
    var _ := serializer.Measurement("longi", longi);
    var _ := serializer.Measurement("lati", lati);
    assert serializer.openGroup.value.members == [Scalar("alti", alti), Scalar("longi", longi), Scalar("lati", lati)];
    var _ := serializer.EndGroup();
  }

  /** `{}`. */
  method EmptyMessage() returns (output: Result<seq<Token>, ThinEdgeJsonSerializationError>)
    ensures output == Ok([OpenObj, CloseObj])
  {
    var serializer := new ThinEdgeJsonSerializer.New();
    output := serializer.IntoString();
    assert serializer.json == [OpenObj, CloseObj];
  }

  /** `{"time":<t>}`. */
  method TimestampMessage(t: DateTime) returns (output: Result<seq<Token>, ThinEdgeJsonSerializationError>)
    ensures output == Ok([OpenObj, Key(TimeKey), Str(t.rfc3339), CloseObj])
  {
    var serializer := new ThinEdgeJsonSerializer.New();
    var _ := serializer.Timestamp(t);
    assert serializer.json == [OpenObj, Key(TimeKey), Str(t.rfc3339)];
    output := serializer.IntoString();
    assert serializer.json == [OpenObj, Key(TimeKey), Str(t.rfc3339), CloseObj];
  }

  /** A timestamp inside a group is refused, and nothing is written for it. */
  method TimestampWithinGroup(t: DateTime)
    returns (result: Result<(), ThinEdgeJsonSerializationError>, written: seq<Token>)
    ensures result == Err(MeasurementCollectorError(UnexpectedTimestamp))
    ensures written == [OpenObj, Key("location"), OpenObj]
  {
    var serializer := new ThinEdgeJsonSerializer.New();
    var _ := serializer.StartGroup("location");
    assert serializer.json == [OpenObj, Key("location"), OpenObj];
    result := serializer.Timestamp(t);
    written := serializer.json;
  }

  /** Ending a group that was never started is refused. */
  method UnexpectedEndOfGroupMessage(alti: F64, longi: F64)
    returns (result: Result<(), ThinEdgeJsonSerializationError>, written: seq<Token>)
    ensures result == Err(MeasurementCollectorError(UnexpectedEndOfGroup))
    ensures written == [OpenObj, Key("alti"), Num(alti), Sep, Key("longi"), Num(longi)]
  {
    var serializer := new ThinEdgeJsonSerializer.New();
    var _ := serializer.Measurement("alti", alti);
    assert serializer.json == [OpenObj, Key("alti"), Num(alti)];
    var _ := serializer.Measurement("longi", longi);
    assert serializer.json == [OpenObj, Key("alti"), Num(alti), Sep, Key("longi"), Num(longi)];
    result := serializer.EndGroup();
    written := serializer.json;
  }

  /** Starting a group inside a group is refused: groups do not nest. */
  method UnexpectedStartOfGroupMessage(alti: F64, longi: F64)
    returns (result: Result<(), ThinEdgeJsonSerializationError>, written: seq<Token>)
    ensures result == Err(MeasurementCollectorError(UnexpectedStartOfGroup))
    ensures written == [OpenObj, Key("location"), OpenObj, Key("alti"), Num(alti), Sep, Key("longi"), Num(longi)]
  {
    var serializer := new ThinEdgeJsonSerializer.New();
    var _ := serializer.StartGroup("location");
    assert serializer.json == [OpenObj, Key("location"), OpenObj];
    var _ := serializer.Measurement("alti", alti);
    assert serializer.json == [OpenObj, Key("location"), OpenObj, Key("alti"), Num(alti)];
    var _ := serializer.Measurement("longi", longi);
    assert serializer.json == [OpenObj, Key("location"), OpenObj, Key("alti"), Num(alti), Sep, Key("longi"), Num(longi)];
    result := serializer.StartGroup("location");
    written := serializer.json;
  }

  /** Asking for the output while a group is open is refused. */
  method UnexpectedEndOfMessage(alti: F64, longi: F64)
    returns (output: Result<seq<Token>, ThinEdgeJsonSerializationError>)
    ensures output == Err(MeasurementCollectorError(UnexpectedEndOfData))
  {
    var serializer := new ThinEdgeJsonSerializer.New();
    var _ := serializer.StartGroup("location");
    var _ := serializer.Measurement("alti", alti);
    var _ := serializer.Measurement("longi", longi);
    assert serializer.isWithinGroup;
    output := serializer.IntoString();
  }

  /** The default timestamp is written last, when the stream gave none. */
  method DefaultTimestampWrittenLast(t: DateTime, temperature: F64)
    returns (output: Result<seq<Token>, ThinEdgeJsonSerializationError>)
    ensures output == Ok([OpenObj, Key("temperature"), Num(temperature), Sep, Key(TimeKey), Str(t.rfc3339), CloseObj])
  {
    var serializer := new ThinEdgeJsonSerializer.NewWithTimestamp(Some(t));
    var _ := serializer.Measurement("temperature", temperature);
    assert serializer.json == [OpenObj, Key("temperature"), Num(temperature)];
    output := serializer.IntoString();
    assert serializer.json == [OpenObj, Key("temperature"), Num(temperature), Sep, Key(TimeKey), Str(t.rfc3339), CloseObj];
  }

  /** The default timestamp is not written when the stream gave one. */
  method DefaultTimestampNotOverriding(t: DateTime, default: DateTime)
    returns (output: Result<seq<Token>, ThinEdgeJsonSerializationError>)
    ensures output == Ok([OpenObj, Key(TimeKey), Str(t.rfc3339), CloseObj])
  {
    var serializer := new ThinEdgeJsonSerializer.NewWithTimestamp(Some(default));
    var _ := serializer.Timestamp(t);
    assert serializer.json == [OpenObj, Key(TimeKey), Str(t.rfc3339)];
    output := serializer.IntoString();
    assert serializer.json == [OpenObj, Key(TimeKey), Str(t.rfc3339), CloseObj];
  }

  /**
   * A second top-level timestamp is accepted: the object then holds the key
   * `time` twice.
   */
  method SecondTimestampAccepted(t1: DateTime, t2: DateTime)
    returns (second: Result<(), ThinEdgeJsonSerializationError>, output: Result<seq<Token>, ThinEdgeJsonSerializationError>)
    ensures second == Ok(())
    ensures output == Ok([OpenObj, Key(TimeKey), Str(t1.rfc3339), Sep, Key(TimeKey), Str(t2.rfc3339), CloseObj])
  {
    var serializer := new ThinEdgeJsonSerializer.New();
    var _ := serializer.Timestamp(t1);
    assert serializer.json == [OpenObj, Key(TimeKey), Str(t1.rfc3339)];
    second := serializer.Timestamp(t2);
    assert serializer.json == [OpenObj, Key(TimeKey), Str(t1.rfc3339), Sep, Key(TimeKey), Str(t2.rfc3339)];
    output := serializer.IntoString();
    assert serializer.json == [OpenObj, Key(TimeKey), Str(t1.rfc3339), Sep, Key(TimeKey), Str(t2.rfc3339), CloseObj];
  }

  /**
   * `into_string` called twice: the second call closes the object again, so
   * its output is the first one with one more `}` and is no longer a
   * well-formed object.
   */
  method IntoStringTwice(temperature: F64)
    returns (first: Result<seq<Token>, ThinEdgeJsonSerializationError>,
             second: Result<seq<Token>, ThinEdgeJsonSerializationError>)
    ensures first == Ok([OpenObj, Key("temperature"), Num(temperature), CloseObj])
    ensures second == Ok(first.value + [CloseObj])
    ensures WellFormedObject(first.value)
    ensures !WellFormedObject(second.value)
  {
    var serializer := new ThinEdgeJsonSerializer.New();
    var _ := serializer.Measurement("temperature", temperature);
    assert serializer.json == [OpenObj, Key("temperature"), Num(temperature)];
    first := serializer.IntoString();
    assert serializer.json == [OpenObj, Key("temperature"), Num(temperature), CloseObj];
    second := serializer.IntoString();
    assert second.value == first.value + [CloseObj];
    assert Depth(second.value) == -1 by {
      DepthConcat(first.value, [CloseObj]);
      OneToken(CloseObj, -1, 0);
    }
  }

  /**
   * `bytes` after `into_string`: it ends the object once more, so its output is
   * that of `into_string` with one more `}`.
   */
  method BytesAfterIntoString(temperature: F64)
    returns (first: Result<seq<Token>, ThinEdgeJsonSerializationError>,
             bytes: Result<seq<Token>, ThinEdgeJsonSerializationError>)
    ensures first == Ok([OpenObj, Key("temperature"), Num(temperature), CloseObj])
    ensures bytes == Ok([OpenObj, Key("temperature"), Num(temperature), CloseObj, CloseObj])
  {
    var serializer := new ThinEdgeJsonSerializer.New();
    var _ := serializer.Measurement("temperature", temperature);
    assert serializer.json == [OpenObj, Key("temperature"), Num(temperature)];
    first := serializer.IntoString();
    assert serializer.json == [OpenObj, Key("temperature"), Num(temperature), CloseObj];
    bytes := serializer.Bytes();
    assert bytes.value == [OpenObj, Key("temperature"), Num(temperature), CloseObj, CloseObj];
  }
}
