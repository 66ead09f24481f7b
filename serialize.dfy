/**
 * `ThinEdgeJsonSerializer`: a consumer of the grouped-measurement event stream
 * (timestamp, measurement, start of group, end of group) that accumulates one
 * JSON object in a writer buffer and releases it on `into_string` / `bytes`.
 */
module Serialize {
  import opened Base
  import opened JsonTokens
  import opened Document

  /** The violations of the event protocol. */
  datatype MeasurementStreamError =
    | UnexpectedTimestamp
    | UnexpectedEndOfData
    | UnexpectedEndOfGroup
    | UnexpectedStartOfGroup

  /**
   * The serializer's errors. Only `MeasurementCollectorError` is produced in this
   * model: the other variants come from the writer, text formatting and UTF-8
   * conversion, which are outside it.
   */
  datatype ThinEdgeJsonSerializationError =
    | FormatError
    | MeasurementCollectorError(streamError: MeasurementStreamError)
    | InvalidUtf8ConversionToString
    | JsonWriterError

  class ThinEdgeJsonSerializer {
    /** The writer's buffer, as the tokens written to it. */
    var json: seq<Token>
    var isWithinGroup: bool
    var needsSeparator: bool
    var defaultTimestamp: Option<DateTime>
    var timestampPresent: bool

    /** The top-level members completed so far (meaningful until the first successful `End`). */
    ghost var entries: seq<Entry>
    /** The group being written, if any (meaningful until the first successful `End`). */
    ghost var openGroup: Option<OpenGroup>
    /** How many times `End` has succeeded: `into_string` may be called more than once. */
    ghost var ends: nat

    /** The object invariant: see `SerializerInv`. */
    ghost predicate Valid()
      reads this
    {
      SerializerInv(json, isWithinGroup, needsSeparator, timestampPresent, entries, openGroup, ends)
    }

    /** `ThinEdgeJsonSerializer::new_with_timestamp`: the buffer holds just `{`. */
    constructor NewWithTimestamp(defaultTimestamp: Option<DateTime>)
      ensures Valid()
      ensures json == [OpenObj]
      ensures !isWithinGroup && !needsSeparator && !timestampPresent
      ensures this.defaultTimestamp == defaultTimestamp
      ensures entries == [] && openGroup == None && ends == 0
    {
      json := [OpenObj];
      isWithinGroup := false;
      needsSeparator := false;
      this.defaultTimestamp := defaultTimestamp;
      timestampPresent := false;
      entries := [];
      openGroup := None;
      ends := 0;
      new;
      InitialInv();
    }

    /** `ThinEdgeJsonSerializer::new` (and `Default`): no default timestamp. */
    constructor New()
      ensures Valid()
      ensures json == [OpenObj]
      ensures !isWithinGroup && !needsSeparator && !timestampPresent
      ensures defaultTimestamp == None
      ensures entries == [] && openGroup == None && ends == 0
    {
      json := [OpenObj];
      isWithinGroup := false;
      needsSeparator := false;
      defaultTimestamp := None;
      timestampPresent := false;
      entries := [];
      openGroup := None;
      ends := 0;
      new;
      InitialInv();
    }

    /**
     * `timestamp`: refused inside a group, with nothing written. At top level it
     * writes `"time": <RFC 3339 text>`, after a separator when one is needed. A
     * second timestamp at top level is not refused.
     */
    method Timestamp(timestamp: DateTime) returns (r: Result<(), ThinEdgeJsonSerializationError>)
      requires Valid()
      modifies this
      ensures Valid()
      ensures old(isWithinGroup) ==>
        r == Err(MeasurementCollectorError(UnexpectedTimestamp)) && unchanged(this)
      ensures !old(isWithinGroup) ==>
        && r == Ok(())
        && json == old(json) + SeparatorIf(old(needsSeparator)) + [Key(TimeKey), Str(timestamp.rfc3339)]
        && needsSeparator && timestampPresent && !isWithinGroup
        && defaultTimestamp == old(defaultTimestamp) && ends == old(ends)
        && entries == old(entries) + [TimeEntry(timestamp)] && openGroup == None
    {
      if isWithinGroup {
        return Err(MeasurementCollectorError(UnexpectedTimestamp));
      }
      TimestampStep(json, needsSeparator, timestampPresent, entries, openGroup, ends, timestamp);
      json := json + SeparatorIf(needsSeparator) + [Key(TimeKey), Str(timestamp.rfc3339)];
      needsSeparator := true;
      timestampPresent := true;
      entries := entries + [TimeEntry(timestamp)];
      r := Ok(());
    }

    /**
     * `measurement`: accepted at top level and inside a group; writes
     * `name: value` into the innermost open object, after a separator when one
     * is needed.
     */
    method Measurement(name: string, value: F64) returns (r: Result<(), ThinEdgeJsonSerializationError>)
      requires Valid()
      modifies this
      ensures Valid()
      ensures r == Ok(())
      ensures json == old(json) + SeparatorIf(old(needsSeparator)) + [Key(name), Num(value)]
      ensures needsSeparator
      ensures isWithinGroup == old(isWithinGroup) && timestampPresent == old(timestampPresent)
      ensures defaultTimestamp == old(defaultTimestamp) && ends == old(ends)
      ensures !old(isWithinGroup) ==>
        entries == old(entries) + [ScalarEntry(Scalar(name, value))] && openGroup == None
      ensures old(isWithinGroup) ==>
        && entries == old(entries)
        && openGroup == Some(OpenGroup(old(openGroup).value.name, old(openGroup).value.members + [Scalar(name, value)]))
    {
      var s := Scalar(name, value);
      MeasurementStep(json, isWithinGroup, needsSeparator, timestampPresent, entries, openGroup, ends, s);
      json := json + SeparatorIf(needsSeparator) + [Key(name), Num(value)];
      needsSeparator := true;
      if isWithinGroup {
        openGroup := Some(OpenGroup(openGroup.value.name, openGroup.value.members + [s]));
      } else {
        entries := entries + [ScalarEntry(s)];
      }
      r := Ok(());
    }

    /**
     * `start_group`: refused inside a group, with nothing written, so groups nest
     * at most one level. At top level it writes `name: {` (after a separator when
     * one is needed) and enters the group with no separator pending.
     */
    method StartGroup(group: string) returns (r: Result<(), ThinEdgeJsonSerializationError>)
      requires Valid()
      modifies this
      ensures Valid()
      ensures old(isWithinGroup) ==>
        r == Err(MeasurementCollectorError(UnexpectedStartOfGroup)) && unchanged(this)
      ensures !old(isWithinGroup) ==>
        && r == Ok(())
        && json == old(json) + SeparatorIf(old(needsSeparator)) + [Key(group), OpenObj]
        && !needsSeparator && isWithinGroup
        && timestampPresent == old(timestampPresent)
        && defaultTimestamp == old(defaultTimestamp) && ends == old(ends)
        && entries == old(entries) && openGroup == Some(OpenGroup(group, []))
    {
      if isWithinGroup {
        return Err(MeasurementCollectorError(UnexpectedStartOfGroup));
      }
      StartGroupStep(json, needsSeparator, timestampPresent, entries, openGroup, ends, group);
      json := json + SeparatorIf(needsSeparator) + [Key(group), OpenObj];
      needsSeparator := false;
      isWithinGroup := true;
      openGroup := Some(OpenGroup(group, []));
      r := Ok(());
    }

    /**
     * `end_group`: refused at top level, with nothing written. Inside a group it
     * writes `}`, returns to top level, and the closed group becomes a member that
     * the next entry must be separated from.
     */
    method EndGroup() returns (r: Result<(), ThinEdgeJsonSerializationError>)
      requires Valid()
      modifies this
      ensures Valid()
      ensures !old(isWithinGroup) ==>
        r == Err(MeasurementCollectorError(UnexpectedEndOfGroup)) && unchanged(this)
      ensures old(isWithinGroup) ==>
        && r == Ok(())
        && json == old(json) + [CloseObj]
        && needsSeparator && !isWithinGroup
        && timestampPresent == old(timestampPresent)
        && defaultTimestamp == old(defaultTimestamp) && ends == old(ends)
      ensures old(isWithinGroup) ==>
        && entries == old(entries) + [GroupEntry(old(openGroup).value.name, old(openGroup).value.members)]
        && openGroup == None
    {
      if !isWithinGroup {
        return Err(MeasurementCollectorError(UnexpectedEndOfGroup));
      }
      EndGroupStep(json, needsSeparator, timestampPresent, entries, openGroup.value, ends);
      json, needsSeparator, isWithinGroup := json + [CloseObj], true, false;
      entries, openGroup := entries + [GroupEntry(openGroup.value.name, openGroup.value.members)], None;
      r := Ok(());
    }

    /**
     * `end`: refused inside a group, with nothing written. Otherwise it writes the
     * default timestamp exactly when no timestamp was written and a default was
     * given, then closes the top-level object. The first time, the buffer then
     * renders the members received, and is one well-formed JSON object.
     */
    method End() returns (r: Result<(), ThinEdgeJsonSerializationError>)
      requires Valid()
      modifies this
      ensures Valid()
      ensures old(isWithinGroup) ==>
        r == Err(MeasurementCollectorError(UnexpectedEndOfData)) && unchanged(this)
      ensures !old(isWithinGroup) ==>
        var writesDefault := !old(timestampPresent) && old(defaultTimestamp).Some?;
        && r == Ok(())
        && json == old(json)
                   + (if writesDefault
                      then SeparatorIf(old(needsSeparator)) + [Key(TimeKey), Str(old(defaultTimestamp).value.rfc3339)]
                      else [])
                   + [CloseObj]
        && needsSeparator == (old(needsSeparator) || writesDefault)
        && timestampPresent == (old(timestampPresent) || writesDefault)
        && !isWithinGroup && defaultTimestamp == old(defaultTimestamp)
        && ends == old(ends) + 1
        && entries == old(entries) + (if writesDefault then [TimeEntry(old(defaultTimestamp).value)] else [])
        && openGroup == None
      ensures !old(isWithinGroup) && old(ends) == 0 ==>
        json == ObjectTokens(entries) && WellFormedObject(json)
    {
      if isWithinGroup {
        return Err(MeasurementCollectorError(UnexpectedEndOfData));
      }
      WriteDefaultTimestamp();
      EndStep(json, needsSeparator, timestampPresent, entries, openGroup, ends);
      json := json + [CloseObj];
      ends := ends + 1;
      r := Ok(());
    }

    /**
     * The first step of `end` at top level: the default timestamp is written,
     * through `timestamp`, exactly when no timestamp was written and a default
     * was given.
     */
    method WriteDefaultTimestamp()
      requires Valid() && !isWithinGroup
      modifies this
      ensures Valid()
      ensures
        var writesDefault := !old(timestampPresent) && old(defaultTimestamp).Some?;
        && json == old(json)
                   + (if writesDefault
                      then SeparatorIf(old(needsSeparator)) + [Key(TimeKey), Str(old(defaultTimestamp).value.rfc3339)]
                      else [])
        && needsSeparator == (old(needsSeparator) || writesDefault)
        && timestampPresent == (old(timestampPresent) || writesDefault)
        && !isWithinGroup && defaultTimestamp == old(defaultTimestamp) && ends == old(ends)
        && entries == old(entries) + (if writesDefault then [TimeEntry(old(defaultTimestamp).value)] else [])
        && openGroup == None
    {
      if !timestampPresent {
        if defaultTimestamp.Some? {
          var written := Timestamp(defaultTimestamp.value);
        }
      }
    }

    /**
     * `into_string`: calls `end` and, when it succeeds, returns the whole buffer.
     * It takes the serializer by reference, so it can be called again; each
     * successful call appends one more `}`.
     */
    method IntoString() returns (r: Result<seq<Token>, ThinEdgeJsonSerializationError>)
      requires Valid()
      modifies this
      ensures Valid()
      ensures old(isWithinGroup) ==>
        r == Err(MeasurementCollectorError(UnexpectedEndOfData)) && unchanged(this)
      ensures !old(isWithinGroup) ==>
        var writesDefault := !old(timestampPresent) && old(defaultTimestamp).Some?;
        && r == Ok(json)
        && json == old(json)
                   + (if writesDefault
                      then SeparatorIf(old(needsSeparator)) + [Key(TimeKey), Str(old(defaultTimestamp).value.rfc3339)]
                      else [])
                   + [CloseObj]
        && needsSeparator == (old(needsSeparator) || writesDefault)
        && timestampPresent == (old(timestampPresent) || writesDefault)
        && !isWithinGroup && defaultTimestamp == old(defaultTimestamp)
        && ends == old(ends) + 1
        && entries == old(entries) + (if writesDefault then [TimeEntry(old(defaultTimestamp).value)] else [])
        && openGroup == None
      ensures !old(isWithinGroup) && old(ends) == 0 ==>
        r == Ok(ObjectTokens(entries)) && WellFormedObject(r.value)
    {
      var ended := End();
      if ended.Err? {
        return Err(ended.error);
      }
      r := Ok(json);
    }

    /**
     * `bytes`: `into_string` on a serializer that the call consumes, so in the
     * source nothing can follow it. An earlier `into_string` may precede it, and
     * then its result carries one more `}`.
     */
    method Bytes() returns (r: Result<seq<Token>, ThinEdgeJsonSerializationError>)
      requires Valid()
      modifies this
      ensures old(isWithinGroup) ==>
        r == Err(MeasurementCollectorError(UnexpectedEndOfData))
      ensures !old(isWithinGroup) ==>
        var writesDefault := !old(timestampPresent) && old(defaultTimestamp).Some?;
        r == Ok(old(json)
                + (if writesDefault
                   then SeparatorIf(old(needsSeparator)) + [Key(TimeKey), Str(old(defaultTimestamp).value.rfc3339)]
                   else [])
                + [CloseObj])
      ensures !old(isWithinGroup) && old(ends) == 0 ==>
        var writesDefault := !old(timestampPresent) && old(defaultTimestamp).Some?;
        r == Ok(ObjectTokens(old(entries) + (if writesDefault then [TimeEntry(old(defaultTimestamp).value)] else [])))
        && WellFormedObject(r.value)
    {
      r := IntoString();
    }
  }

  // ---------------------------------------------------------------------------
  // The invariant, and the steps that preserve it

  /**
   * The serializer's invariant, on the values of its fields: the buffer's shape
   * always, and until the first `end` also its exact content.
   */
  ghost predicate SerializerInv(
    json: seq<Token>, isWithinGroup: bool, needsSeparator: bool, timestampPresent: bool,
    entries: seq<Entry>, openGroup: Option<OpenGroup>, ends: nat)
  {
    && BufferInv(json, isWithinGroup, needsSeparator, ends)
    && isWithinGroup == openGroup.Some?
    && (ends == 0 ==> DocumentInv(json, needsSeparator, timestampPresent, entries, openGroup))
  }

  /**
   * The buffer starts with `{`; its depth is one for the document, one more
   * inside a group and one less per completed `end`; every separator stands
   * between two members; and a pending separator follows a member.
   */
  ghost predicate BufferInv(json: seq<Token>, isWithinGroup: bool, needsSeparator: bool, ends: nat)
  {
    && |json| > 0 && json[0] == OpenObj
    && Depth(json) == 1 + (if isWithinGroup then 1 else 0) - ends
    && SeparatorsBetweenEntries(json)
    && (needsSeparator ==> EndsEntry(json[|json| - 1]))
  }

  /**
   * The buffer renders the abstract document; a separator is pending exactly
   * when the innermost open object already has a member, and `timestampPresent`
   * holds exactly when the document has a timestamp.
   */
  ghost predicate DocumentInv(
    json: seq<Token>, needsSeparator: bool, timestampPresent: bool,
    entries: seq<Entry>, openGroup: Option<OpenGroup>)
  {
    && json == OpenDocument(entries, openGroup)
    && needsSeparator == (if openGroup.Some? then |openGroup.value.members| > 0 else |entries| > 0)
    && timestampPresent == HasTime(entries)
  }

  lemma InitialInv()
    ensures SerializerInv([OpenObj], false, false, false, [], None, 0)
  {
    assert OpenDocument([], None) == [OpenObj];
  }

  /**
   * A member written after the buffer, behind a separator exactly when one is
   * needed, keeps the buffer's shape; `member` moves the depth by `shift`.
   */
  lemma BufferAppendMember(
    json: seq<Token>, isWithinGroup: bool, needsSeparator: bool, ends: nat,
    member: seq<Token>, nowWithinGroup: bool)
    requires BufferInv(json, isWithinGroup, needsSeparator, ends)
    requires |member| == 2 && member[0].Key? && member[1] != Sep
    requires Depth(member) == (if nowWithinGroup then 1 else 0) - (if isWithinGroup then 1 else 0)
    ensures BufferInv(json + SeparatorIf(needsSeparator) + member, nowWithinGroup,
                      EndsEntry(member[1]), ends)
  {
    var t := json + SeparatorIf(needsSeparator) + member;
    assert SeparatorsBetweenEntries(member);
    DepthConcat(json, SeparatorIf(needsSeparator));
    DepthConcat(json + SeparatorIf(needsSeparator), member);
    if needsSeparator {
      OneToken(Sep, 0, 0);
    }
    if needsSeparator {
      SeparatorBetween(json, member);
    } else {
      SeparatorsConcat(json, member);
      assert t == json + member;
    }
    assert t[|t| - 1] == member[1];
  }

  /** Closing an object keeps the buffer's shape. */
  lemma BufferAppendClose(json: seq<Token>, isWithinGroup: bool, needsSeparator: bool, ends: nat,
                          nowWithinGroup: bool, nowNeedsSeparator: bool, nowEnds: nat)
    requires BufferInv(json, isWithinGroup, needsSeparator, ends)
    requires (if isWithinGroup then 1 else 0) - ends - 1 == (if nowWithinGroup then 1 else 0) - nowEnds
    ensures BufferInv(json + [CloseObj], nowWithinGroup, nowNeedsSeparator, nowEnds)
  {
    SeparatorsConcat(json, [CloseObj]);
    DepthConcat(json, [CloseObj]);
    OneToken(CloseObj, -1, 0);
  }

  lemma TimestampStep(
    json: seq<Token>, needsSeparator: bool, timestampPresent: bool,
    entries: seq<Entry>, openGroup: Option<OpenGroup>, ends: nat, timestamp: DateTime)
    requires SerializerInv(json, false, needsSeparator, timestampPresent, entries, openGroup, ends)
    ensures SerializerInv(
      json + SeparatorIf(needsSeparator) + [Key(TimeKey), Str(timestamp.rfc3339)],
      false, true, true, entries + [TimeEntry(timestamp)], openGroup, ends)
  {
    DepthPair(Key(TimeKey), Str(timestamp.rfc3339));
    BufferAppendMember(json, false, needsSeparator, ends, [Key(TimeKey), Str(timestamp.rfc3339)], false);
    if ends == 0 {
      OpenDocumentAddEntry(entries, TimeEntry(timestamp));
      HasTimeAppend(entries, TimeEntry(timestamp));
    }
  }

  lemma MeasurementStep(
    json: seq<Token>, isWithinGroup: bool, needsSeparator: bool, timestampPresent: bool,
    entries: seq<Entry>, openGroup: Option<OpenGroup>, ends: nat, s: Scalar)
    requires SerializerInv(json, isWithinGroup, needsSeparator, timestampPresent, entries, openGroup, ends)
    ensures SerializerInv(
      json + SeparatorIf(needsSeparator) + [Key(s.name), Num(s.value)],
      isWithinGroup, true, timestampPresent,
      if isWithinGroup then entries else entries + [ScalarEntry(s)],
      if isWithinGroup then Some(OpenGroup(openGroup.value.name, openGroup.value.members + [s])) else None,
      ends)
  {
    DepthPair(Key(s.name), Num(s.value));
    BufferAppendMember(json, isWithinGroup, needsSeparator, ends, [Key(s.name), Num(s.value)], isWithinGroup);
    if ends == 0 {
      if isWithinGroup {
        OpenDocumentAddToGroup(entries, openGroup.value, s);
      } else {
        OpenDocumentAddEntry(entries, ScalarEntry(s));
        HasTimeAppend(entries, ScalarEntry(s));
      }
    }
  }

  lemma StartGroupStep(
    json: seq<Token>, needsSeparator: bool, timestampPresent: bool,
    entries: seq<Entry>, openGroup: Option<OpenGroup>, ends: nat, group: string)
    requires SerializerInv(json, false, needsSeparator, timestampPresent, entries, openGroup, ends)
    ensures SerializerInv(
      json + SeparatorIf(needsSeparator) + [Key(group), OpenObj],
      true, false, timestampPresent, entries, Some(OpenGroup(group, [])), ends)
  {
    DepthPair(Key(group), OpenObj);
    BufferAppendMember(json, false, needsSeparator, ends, [Key(group), OpenObj], true);
    if ends == 0 {
      OpenDocumentStartGroup(entries, group);
    }
  }

  lemma EndGroupStep(
    json: seq<Token>, needsSeparator: bool, timestampPresent: bool,
    entries: seq<Entry>, g: OpenGroup, ends: nat)
    requires SerializerInv(json, true, needsSeparator, timestampPresent, entries, Some(g), ends)
    ensures SerializerInv(json + [CloseObj], false, true, timestampPresent,
                          entries + [GroupEntry(g.name, g.members)], None, ends)
  {
    BufferAppendClose(json, true, needsSeparator, ends, false, true, ends);
    if ends == 0 {
      OpenDocumentEndGroup(entries, g);
      HasTimeAppend(entries, GroupEntry(g.name, g.members));
    }
  }

  /** Closing the top-level object; the first time, the buffer is the whole document. */
  lemma EndStep(
    json: seq<Token>, needsSeparator: bool, timestampPresent: bool,
    entries: seq<Entry>, openGroup: Option<OpenGroup>, ends: nat)
    requires SerializerInv(json, false, needsSeparator, timestampPresent, entries, openGroup, ends)
    ensures SerializerInv(json + [CloseObj], false, needsSeparator, timestampPresent, entries, openGroup, ends + 1)
    ensures ends == 0 ==> json + [CloseObj] == ObjectTokens(entries) && WellFormedObject(json + [CloseObj])
  {
    BufferAppendClose(json, false, needsSeparator, ends, false, needsSeparator, ends + 1);
    if ends == 0 {
      ObjectWellFormed(entries);
    }
  }
}
