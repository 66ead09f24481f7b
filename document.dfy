/**
 * The measurement document the serializer builds, as a value: an ordered list
 * of top-level members (a timestamp, a scalar measurement, or a group of scalar
 * measurements), and its rendering as JSON writer tokens.
 */
module Document {
  import opened Base
  import opened JsonTokens

  /**
   * A `chrono::DateTime<FixedOffset>`, known to the model only through its
   * RFC 3339 rendering (section 5.6 of RFC 3339), which is what gets written.
   */
  datatype DateTime = DateTime(rfc3339: string)

  /** A `name: value` measurement. */
  datatype Scalar = Scalar(name: string, value: F64)

  /** A top-level member of the document. */
  datatype Entry =
    | TimeEntry(time: DateTime)
    | ScalarEntry(scalar: Scalar)
    | GroupEntry(group: string, members: seq<Scalar>)

  /** A group that has been opened and not yet closed, with the members written so far. */
  datatype OpenGroup = OpenGroup(name: string, members: seq<Scalar>)

  /** The key under which a timestamp is written. */
  const TimeKey: string := "time"

  /** Whether the document holds a timestamp member. */
  predicate HasTime(es: seq<Entry>)
  {
    exists e :: e in es && e.TimeEntry?
  }

  /** The renderings of `xs`, one after the other, with a separator between neighbours. */
  function Joined<T>(xs: seq<T>, item: T -> seq<Token>): seq<Token>
  {
    if |xs| == 0 then []
    else if |xs| == 1 then item(xs[0])
    else Joined(xs[..|xs| - 1], item) + [Sep] + item(xs[|xs| - 1])
  }

  function ScalarTokens(s: Scalar): seq<Token>
  {
    [Key(s.name), Num(s.value)]
  }

  function EntryTokens(e: Entry): seq<Token>
  {
    match e
    case TimeEntry(t) => [Key(TimeKey), Str(t.rfc3339)]
    case ScalarEntry(s) => ScalarTokens(s)
    case GroupEntry(g, ms) => [Key(g), OpenObj] + Joined(ms, ScalarTokens) + [CloseObj]
  }

  /**
   * The tokens written for a document that is still open: the top-level object
   * is open and, if a group is open, so is the group's object.
   */
  function OpenDocument(es: seq<Entry>, open: Option<OpenGroup>): seq<Token>
  {
    [OpenObj] + Joined(es, EntryTokens)
    + match open
      case None => []
      case Some(g) => SeparatorIf(|es| > 0) + [Key(g.name), OpenObj] + Joined(g.members, ScalarTokens)
  }

  /** The tokens of the finished document: the open top level, closed. */
  function ObjectTokens(es: seq<Entry>): seq<Token>
  {
    OpenDocument(es, None) + [CloseObj]
  }

  /**
   * The tokens of one member, or of several separated by commas: a key first, a
   * value last, keys and values paired, balanced, nested at most `h` deep.
   */
  ghost predicate MemberTokens(t: seq<Token>, h: int)
  {
    && |t| >= 2 && t[0].Key? && EndsEntry(t[|t| - 1])
    && SeparatorsBetweenEntries(t)
    && KeysPaired(t)
    && Depth(t) == 0
    && DepthBetween(t, 0, h)
  }

  /**
   * The finished document is one JSON object: it opens first, closes last and
   * nowhere in between, nests at most one group deep, every separator stands
   * between two members, and every member is a key followed by its value.
   */
  ghost predicate WellFormedObject(t: seq<Token>)
  {
    && |t| >= 2 && t[0] == OpenObj && t[|t| - 1] == CloseObj
    && Depth(t) == 0
    && (forall k :: 0 < k < |t| ==> 1 <= Depth(t[..k]) <= 2)
    && SeparatorsBetweenEntries(t)
    && KeysPaired(t)
  }

  /** Objects with a key but no value, a value but no key, or an object directly inside another are not well formed. */
  lemma MalformedObjects(k: string, v: F64)
    ensures !WellFormedObject([OpenObj, Key(k), CloseObj])
    ensures !WellFormedObject([OpenObj, Num(v), CloseObj])
    ensures !WellFormedObject([OpenObj, OpenObj, CloseObj, CloseObj])
  {
    assert KeyAt([OpenObj, Key(k), CloseObj], 1);
    assert ValueAt([OpenObj, Num(v), CloseObj], 1);
    assert ValueAt([OpenObj, OpenObj, CloseObj, CloseObj], 1);
  }

  // ---------------------------------------------------------------------------
  // Lemmas

  /** Appending an item to the list appends a separator (unless it is the first) and its rendering. */
  lemma JoinedAppend<T>(xs: seq<T>, x: T, item: T -> seq<Token>)
    ensures Joined(xs + [x], item) == Joined(xs, item) + SeparatorIf(|xs| > 0) + item(x)
  {
  }

  /** Two members glued with a separator form a run with the same properties. */
  lemma MembersWithSeparator(a: seq<Token>, b: seq<Token>, h: int)
    requires h >= 0 && MemberTokens(a, h) && MemberTokens(b, h)
    ensures MemberTokens(a + [Sep] + b, h)
  {
    SeparatorBetween(a, b);
    KeysPairedConcat(a, [Sep]);
    KeysPairedConcat(a + [Sep], b);
    OneToken(Sep, 0, h);
    DepthConcat(a, [Sep]);
    DepthConcat(a + [Sep], b);
    DepthBetweenConcat(a, [Sep], 0, h);
    DepthBetweenConcat(a + [Sep], b, 0, h);
  }

  /** Joining well-formed members gives a balanced run with separators only between members. */
  lemma {:induction false} JoinedMembers<T>(xs: seq<T>, item: T -> seq<Token>, h: int)
    requires h >= 0
    requires forall i :: 0 <= i < |xs| ==> MemberTokens(item(xs[i]), h)
    ensures |xs| == 0 ==> Joined(xs, item) == []
    ensures |xs| > 0 ==> MemberTokens(Joined(xs, item), h)
  {
    if |xs| > 1 {
      var front := xs[..|xs| - 1];
      assert forall i :: 0 <= i < |front| ==> front[i] == xs[i];
      JoinedMembers(front, item, h);
      MembersWithSeparator(Joined(front, item), item(xs[|xs| - 1]), h);
    }
  }

  /** A key followed by one value token is a member. */
  lemma KeyValueMember(key: string, value: Token, h: int)
    requires h >= 0 && (value.Str? || value.Num?)
    ensures MemberTokens([Key(key), value], h)
  {
    OneToken(Key(key), 0, h);
    OneToken(value, 0, h);
    DepthBetweenConcat([Key(key)], [value], 0, h);
    assert [Key(key)] + [value] == [Key(key), value];
  }

  /** The members of a group render as a flat run of scalars. */
  lemma ScalarsMembers(ms: seq<Scalar>)
    ensures |ms| == 0 ==> Joined(ms, ScalarTokens) == []
    ensures |ms| > 0 ==> MemberTokens(Joined(ms, ScalarTokens), 0)
  {
    forall i | 0 <= i < |ms| ensures MemberTokens(ScalarTokens(ms[i]), 0) {
      KeyValueMember(ms[i].name, Num(ms[i].value), 0);
    }
    JoinedMembers(ms, ScalarTokens, 0);
  }

  /** The depth profile of an object wrapped around a flat, balanced run. */
  lemma WrappedDepth(key: string, inner: seq<Token>)
    requires Depth(inner) == 0 && DepthBetween(inner, 0, 0)
    ensures Depth([Key(key), OpenObj] + inner + [CloseObj]) == 0
    ensures DepthBetween([Key(key), OpenObj] + inner + [CloseObj], 0, 1)
  {
    var head := [Key(key), OpenObj];
    OneToken(Key(key), 0, 1);
    OneToken(OpenObj, 0, 1);
    DepthBetweenConcat([Key(key)], [OpenObj], 0, 1);
    assert [Key(key)] + [OpenObj] == head;
    DepthPair(Key(key), OpenObj);
    DepthBetweenConcat(head, inner, 0, 1);
    DepthConcat(head, inner);
    OneToken(CloseObj, -1, 0);
    DepthBetweenConcat(head + inner, [CloseObj], 0, 1);
    DepthConcat(head + inner, [CloseObj]);
  }

  /** A group member: its key, then a nested object of scalars. */
  lemma GroupMember(g: string, ms: seq<Scalar>)
    ensures MemberTokens([Key(g), OpenObj] + Joined(ms, ScalarTokens) + [CloseObj], 1)
  {
    var inner := Joined(ms, ScalarTokens);
    var head := [Key(g), OpenObj];
    ScalarsMembers(ms);
    if |ms| == 0 {
      assert DepthBetween(inner, 0, 0) by {
        assert forall k :: 0 <= k <= |inner| ==> inner[..k] == [];
      }
    }
    WrappedDepth(g, inner);
    assert SeparatorsBetweenEntries(head);
    SeparatorsConcat(head, inner);
    SeparatorsConcat(head + inner, [CloseObj]);
    assert KeysPaired(head) by {
      assert forall i :: KeyAt(head, i) ==> i == 0;
    }
    KeysPairedConcat(head, inner);
    KeysPairedConcat(head + inner, [CloseObj]);
  }

  /** A top-level member nests at most one object deep. */
  lemma EntryMember(e: Entry)
    ensures MemberTokens(EntryTokens(e), 1)
  {
    match e
    case TimeEntry(ts) => KeyValueMember(TimeKey, Str(ts.rfc3339), 1);
    case ScalarEntry(s) => KeyValueMember(s.name, Num(s.value), 1);
    case GroupEntry(g, ms) => GroupMember(g, ms);
  }

  /** The top-level members render as a run nested at most one object deep. */
  lemma EntriesMembers(es: seq<Entry>)
    ensures |es| == 0 ==> Joined(es, EntryTokens) == []
    ensures |es| > 0 ==> MemberTokens(Joined(es, EntryTokens), 1)
  {
    forall i | 0 <= i < |es| ensures MemberTokens(EntryTokens(es[i]), 1) {
      EntryMember(es[i]);
    }
    JoinedMembers(es, EntryTokens, 1);
  }

  /** Whatever the members, the finished document is a single well-formed JSON object. */
  lemma ObjectWellFormed(es: seq<Entry>)
    ensures WellFormedObject(ObjectTokens(es))
  {
    var inner := Joined(es, EntryTokens);
    EntriesMembers(es);
    if |es| == 0 {
      assert DepthBetween(inner, 0, 1) by {
        assert forall k :: 0 <= k <= |inner| ==> inner[..k] == [];
      }
    }
    assert ObjectTokens(es) == [OpenObj] + inner + [CloseObj];
    WrappedObject(inner);
  }

  /** `{`, then a balanced run nested at most one deep, then `}`, is a well-formed object. */
  lemma WrappedObject(inner: seq<Token>)
    requires Depth(inner) == 0 && DepthBetween(inner, 0, 1) && SeparatorsBetweenEntries(inner)
    requires KeysPaired(inner) && (|inner| > 0 ==> inner[0].Key?)
    ensures WellFormedObject([OpenObj] + inner + [CloseObj])
  {
    var t := [OpenObj] + inner + [CloseObj];
    forall k | 0 < k < |t| ensures 1 <= Depth(t[..k]) <= 2 {
      assert t[..k] == [OpenObj] + inner[..k - 1];
      DepthAfterOpen(inner[..k - 1]);
    }
    DepthAfterOpen(inner);
    DepthConcat([OpenObj] + inner, [CloseObj]);
    OneToken(CloseObj, -1, 0);
    SeparatorsConcat([OpenObj], inner);
    SeparatorsConcat([OpenObj] + inner, [CloseObj]);
    KeysPairedConcat([OpenObj], inner);
    KeysPairedConcat([OpenObj] + inner, [CloseObj]);
  }

  /** An opening brace in front adds one to the depth. */
  lemma DepthAfterOpen(s: seq<Token>)
    ensures Depth([OpenObj] + s) == Depth(s) + 1
  {
    DepthConcat([OpenObj], s);
    OneToken(OpenObj, 0, 1);
  }

  // ---------------------------------------------------------------------------
  // How the rendering of an open document grows, event by event

  /** A top-level member is appended, behind a separator unless it is the first. */
  lemma OpenDocumentAddEntry(es: seq<Entry>, e: Entry)
    ensures OpenDocument(es, None) + SeparatorIf(|es| > 0) + EntryTokens(e) == OpenDocument(es + [e], None)
  {
  }

  /** A scalar is appended to the open group, behind a separator unless it is the group's first. */
  lemma OpenDocumentAddToGroup(es: seq<Entry>, g: OpenGroup, s: Scalar)
    ensures OpenDocument(es, Some(g)) + SeparatorIf(|g.members| > 0) + ScalarTokens(s)
         == OpenDocument(es, Some(OpenGroup(g.name, g.members + [s])))
  {
    JoinedAppend(g.members, s, ScalarTokens);
  }

  /** Opening a group writes its key and `{`, behind a separator unless it is the first member. */
  lemma OpenDocumentStartGroup(es: seq<Entry>, name: string)
    ensures OpenDocument(es, None) + SeparatorIf(|es| > 0) + [Key(name), OpenObj]
         == OpenDocument(es, Some(OpenGroup(name, [])))
  {
  }

  /** Closing the open group turns it into the last top-level member. */
  lemma OpenDocumentEndGroup(es: seq<Entry>, g: OpenGroup)
    ensures OpenDocument(es, Some(g)) + [CloseObj] == OpenDocument(es + [GroupEntry(g.name, g.members)], None)
  {
  }

  /** The document holds a timestamp once it held one or the new member is one. */
  lemma HasTimeAppend(es: seq<Entry>, e: Entry)
    ensures HasTime(es + [e]) == (HasTime(es) || e.TimeEntry?)
  {
    if e.TimeEntry? {
      assert e in es + [e];
    }
    if HasTime(es) {
      var x :| x in es && x.TimeEntry?;
      assert x in es + [e];
    }
  }
}
