/**
 * What the reference decoder promises: how many bytes each node takes as a
 * function of its counts and of the format version, which keys each record
 * has, how lists relate to the counts read, and how the assembler threads
 * earlier fields into later items.
 */
module Properties {
  import opened Values
  import opened Cursor
  import opened Layout
  import opened Decoding

  // ---------------------------------------------------------------------------
  // Primitive reads
  // ---------------------------------------------------------------------------

  /** A primitive node does one read of its kind's width, fails exactly when the
      bytes run out, and gives those bytes unmodified. */
  lemma ScalarNode(node: Node, ctx: Context, s: seq<byte>, p: nat, k: ScalarKind)
    requires TypeOf(node.typeName) == Prim(k)
    ensures ReadAt(node, ctx, s, p).Ok? <==> p + Width(k) <= |s|
    ensures ReadAt(node, ctx, s, p).Ok? ==>
      ReadAt(node, ctx, s, p).value == (Scalar(k, s[p..p + Width(k)]), p + Width(k))
  {
  }

  /** A string node always takes at least one byte, and never more than there are. */
  lemma StringNode(node: Node, ctx: Context, s: seq<byte>, p: nat)
    requires TypeOf(node.typeName) == Str
    ensures ReadAt(node, ctx, s, p).Ok? ==>
      ReadAt(node, ctx, s, p).value.0.Text? && p < ReadAt(node, ctx, s, p).value.1 <= |s|
    ensures p >= |s| ==> ReadAt(node, ctx, s, p).Err?
  {
  }

  /** A node of an unrecognised type reads nothing and gives back the context it was given. */
  lemma OtherNode(node: Node, ctx: Context, s: seq<byte>, p: nat)
    requires TypeOf(node.typeName) == Other
    ensures ReadAt(node, ctx, s, p) == Ok((Object(ctx), p))
  {
  }

  // ---------------------------------------------------------------------------
  // Field tables
  // ---------------------------------------------------------------------------

  lemma NamesSnoc(fields: seq<Field>, f: Field)
    ensures Names(fields + [f]) == Names(fields) + {f.name}
  {
    assert forall g :: g in fields + [f] <==> g in fields || g == f;
  }

  /** A table that succeeds has exactly one key per field name. */
  lemma {:induction false} FieldsKeys(fields: seq<Field>, s: seq<byte>, p: nat)
    requires FieldsAt(fields, s, p).Ok?
    ensures FieldsAt(fields, s, p).value.0.Keys == Names(fields)
    decreases |fields|
  {
    if |fields| > 0 {
      var prefix := fields[..|fields| - 1];
      FieldsKeys(prefix, s, p);
      assert fields == prefix + [fields[|fields| - 1]];
      NamesSnoc(prefix, fields[|fields| - 1]);
    }
  }

  /** The bytes a table of fixed-width fields takes. */
  function TableWidth(fields: seq<Field>): nat
  {
    if |fields| == 0 then 0
    else
      var last := fields[|fields| - 1];
      TableWidth(fields[..|fields| - 1]) + (if last.kind.Number? then Width(last.kind.kind) else 0)
  }

  predicate AllNumbers(fields: seq<Field>)
  {
    forall i :: 0 <= i < |fields| ==> fields[i].kind.Number?
  }

  /** A non-empty table of fixed-width fields succeeds exactly when its total width fits,
      and then takes exactly that. */
  lemma {:induction false} FieldsWidth(fields: seq<Field>, s: seq<byte>, p: nat)
    requires AllNumbers(fields)
    ensures FieldsAt(fields, s, p).Ok? <==> |fields| == 0 || p + TableWidth(fields) <= |s|
    ensures FieldsAt(fields, s, p).Ok? ==> FieldsAt(fields, s, p).value.1 == p + TableWidth(fields)
    decreases |fields|
  {
    if |fields| > 0 {
      var prefix := fields[..|fields| - 1];
      assert AllNumbers(prefix) by {
        forall i | 0 <= i < |prefix| ensures prefix[i].kind.Number? {
          assert prefix[i] == fields[i];
        }
      }
      FieldsWidth(prefix, s, p);
      var last := fields[|fields| - 1];
      assert last.kind.Number?;
      assert TableWidth(fields) == TableWidth(prefix) + Width(last.kind.kind);
      if FieldsAt(prefix, s, p).Ok? {
        var q := FieldsAt(prefix, s, p).value.1;
        assert FieldAt(last.kind, s, q) == ScalarAt(s, q, last.kind.kind);
      } else {
        assert FieldsAt(fields, s, p).Err?;
      }
    }
  }

  /** A table whose fields all have kind `k` is `Width(k)` bytes per field. */
  lemma {:induction false} UniformWidth(fields: seq<Field>, k: ScalarKind)
    requires forall i :: 0 <= i < |fields| ==> fields[i].kind == Number(k)
    ensures AllNumbers(fields) && TableWidth(fields) == |fields| * Width(k)
    decreases |fields|
  {
    if |fields| > 0 {
      var prefix := fields[..|fields| - 1];
      assert forall i :: 0 <= i < |prefix| ==> prefix[i] == fields[i];
      UniformWidth(prefix, k);
    }
  }

  /** No two fields of a table share a name, so no field is overwritten by a later one. */
  predicate DistinctNames(fields: seq<Field>)
  {
    forall i, j :: 0 <= i < j < |fields| ==> fields[i].name != fields[j].name
  }

  /** The value stored under field `i`'s name is what field `i`'s own read gives where
      the fields before it end, unless a later field has the same name. */
  lemma {:induction false} FieldsValue(fields: seq<Field>, s: seq<byte>, p: nat, i: nat)
    requires i < |fields| && FieldsAt(fields, s, p).Ok?
    requires forall j :: i < j < |fields| ==> fields[j].name != fields[i].name
    ensures FieldsAt(fields[..i], s, p).Ok?
    ensures FieldAt(fields[i].kind, s, FieldsAt(fields[..i], s, p).value.1).Ok?
    ensures fields[i].name in FieldsAt(fields, s, p).value.0
    ensures FieldsAt(fields, s, p).value.0[fields[i].name] ==
      FieldAt(fields[i].kind, s, FieldsAt(fields[..i], s, p).value.1).value.0
    decreases |fields|
  {
    var prefix := fields[..|fields| - 1];
    if i < |fields| - 1 {
      assert prefix[..i] == fields[..i];
      assert prefix[i] == fields[i];
      FieldsValue(prefix, s, p, i);
      assert fields[|fields| - 1].name != fields[i].name;
    } else {
      assert prefix == fields[..i];
    }
  }

  /** In a table of fields of one kind `k`, a field no later field shares a name with
      holds the `i`-th run of `Width(k)` bytes. */
  lemma UniformValue(fields: seq<Field>, k: ScalarKind, s: seq<byte>, p: nat, i: nat)
    requires forall j :: 0 <= j < |fields| ==> fields[j].kind == Number(k)
    requires i < |fields| && FieldsAt(fields, s, p).Ok?
    requires forall j :: i < j < |fields| ==> fields[j].name != fields[i].name
    ensures p + i * Width(k) + Width(k) <= |s|
    ensures fields[i].name in FieldsAt(fields, s, p).value.0
    ensures FieldsAt(fields, s, p).value.0[fields[i].name] == Scalar(k, s[p + i * Width(k)..p + i * Width(k) + Width(k)])
  {
    FieldsValue(fields, s, p, i);
    var prefix := fields[..i];
    assert forall j :: 0 <= j < |prefix| ==> prefix[j] == fields[j];
    UniformWidth(prefix, k);
    FieldsWidth(prefix, s, p);
  }

  /** No field from index `lo` up to `hi` shares its name with a later field. */
  predicate DistinctFrom(fields: seq<Field>, lo: nat, hi: nat)
  {
    forall i, j :: lo <= i < hi && i < j < |fields| ==> fields[i].name != fields[j].name
  }

  // The names of a table are checked a few rows at a time, which keeps each proof small.

  lemma HeaderDistinct0()
    ensures DistinctFrom(HeaderFields, 0, 3)
  {
  }

  lemma HeaderDistinct1()
    ensures DistinctFrom(HeaderFields, 3, 6)
  {
  }

  lemma HeaderDistinct2()
    ensures DistinctFrom(HeaderFields, 6, 14)
  {
  }

  /** The header fields have distinct names. */
  lemma HeaderDistinct()
    ensures DistinctNames(HeaderFields)
  {
    HeaderDistinct0();
    HeaderDistinct1();
    HeaderDistinct2();
    forall i, j | 0 <= i < j < |HeaderFields| ensures HeaderFields[i].name != HeaderFields[j].name {
      if i < 3 {
        assert DistinctFrom(HeaderFields, 0, 3);
      } else if i < 6 {
        assert DistinctFrom(HeaderFields, 3, 6);
      } else {
        assert DistinctFrom(HeaderFields, 6, 14);
      }
    }
  }

  lemma TailDistinct0()
    ensures DistinctFrom(TailFields, 0, 2)
  {
  }

  lemma TailDistinct1()
    ensures DistinctFrom(TailFields, 2, 4)
  {
  }

  lemma TailDistinct2()
    ensures DistinctFrom(TailFields, 4, 6)
  {
  }

  lemma TailDistinct3()
    ensures DistinctFrom(TailFields, 6, 8)
  {
  }

  lemma TailDistinct4()
    ensures DistinctFrom(TailFields, 8, 10)
  {
  }

  lemma TailDistinct5()
    ensures DistinctFrom(TailFields, 10, 11)
  {
  }

  lemma TailDistinct6()
    ensures DistinctFrom(TailFields, 11, 24)
  {
  }

  /** The tail fields have distinct names. */
  lemma TailDistinct()
    ensures DistinctNames(TailFields)
  {
    TailDistinct0();
    TailDistinct1();
    TailDistinct2();
    TailDistinct3();
    TailDistinct4();
    TailDistinct5();
    TailDistinct6();
    forall i, j | 0 <= i < j < |TailFields| ensures TailFields[i].name != TailFields[j].name {
      if i < 2 {
        assert DistinctFrom(TailFields, 0, 2);
      } else if i < 4 {
        assert DistinctFrom(TailFields, 2, 4);
      } else if i < 6 {
        assert DistinctFrom(TailFields, 4, 6);
      } else if i < 8 {
        assert DistinctFrom(TailFields, 6, 8);
      } else if i < 10 {
        assert DistinctFrom(TailFields, 8, 10);
      } else if i < 11 {
        assert DistinctFrom(TailFields, 10, 11);
      } else {
        assert DistinctFrom(TailFields, 11, 24);
      }
    }
  }

  /** Stage 2: each header field holds what its own read gives where the fields before it end. */
  lemma HeaderValues(s: seq<byte>, p: nat, i: nat)
    requires FieldsAt(HeaderFields, s, p).Ok? && i < |HeaderFields|
    ensures FieldsAt(HeaderFields[..i], s, p).Ok?
    ensures var at := FieldsAt(HeaderFields[..i], s, p).value.1;
      && FieldAt(HeaderFields[i].kind, s, at).Ok?
      && HeaderFields[i].name in FieldsAt(HeaderFields, s, p).value.0
      && FieldsAt(HeaderFields, s, p).value.0[HeaderFields[i].name] == FieldAt(HeaderFields[i].kind, s, at).value.0
  {
    HeaderDistinct();
    FieldsValue(HeaderFields, s, p, i);
  }

  /** Stage 8: each tail field holds what its own read gives where the fields before it end. */
  lemma TailValues(s: seq<byte>, p: nat, i: nat)
    requires FieldsAt(TailFields, s, p).Ok? && i < |TailFields|
    ensures FieldsAt(TailFields[..i], s, p).Ok?
    ensures var at := FieldsAt(TailFields[..i], s, p).value.1;
      && FieldAt(TailFields[i].kind, s, at).Ok?
      && TailFields[i].name in FieldsAt(TailFields, s, p).value.0
      && FieldsAt(TailFields, s, p).value.0[TailFields[i].name] == FieldAt(TailFields[i].kind, s, at).value.0
  {
    TailDistinct();
    FieldsValue(TailFields, s, p, i);
  }

  /** Stage 6: drain time, total time and preview offset are the three consecutive int32s. */
  lemma TimeValues(s: seq<byte>, p: nat)
    requires FieldsAt(TimeFields, s, p).Ok?
    ensures p + 12 <= |s|
    ensures var times := FieldsAt(TimeFields, s, p).value.0;
      && "drain_time" in times && times["drain_time"] == Scalar(Int32, s[p..p + 4])
      && "total_time" in times && times["total_time"] == Scalar(Int32, s[p + 4..p + 8])
      && "preview_offset" in times && times["preview_offset"] == Scalar(Int32, s[p + 8..p + 12])
  {
    UniformValue(TimeFields, Int32, s, p, 0);
    UniformValue(TimeFields, Int32, s, p, 1);
    UniformValue(TimeFields, Int32, s, p, 2);
  }

  /** Stages 3 and 4: four bytes of stats before the float-stats version, sixteen
      from it on (and with a missing version), then the eight-byte slider velocity. */
  lemma StatsGate(version: Option<int>, s: seq<byte>, p: nat)
    ensures var width := (if Before(version, FLOAT_STATS_VERSION) then 4 else 16) + 8;
      && (BeatmapStatsAt(version, s, p).Ok? <==> p + width <= |s|)
      && (BeatmapStatsAt(version, s, p).Ok? ==> BeatmapStatsAt(version, s, p).value.1 == p + width)
    ensures BeatmapStatsAt(version, s, p).Ok? ==>
      BeatmapStatsAt(version, s, p).value.0.Keys == StatsNames(version)
  {
    var fields := StatFields(version);
    UniformWidth(fields, StatKind(version));
    FieldsWidth(fields, s, p);
    if FieldsAt(fields, s, p).Ok? {
      FieldsKeys(fields, s, p);
    }
  }

  /** Stage 3 alone: the four stats are consecutive runs of `Width(k)` bytes read as `k`. */
  lemma StatFieldValues(version: Option<int>, s: seq<byte>, p: nat)
    requires FieldsAt(StatFields(version), s, p).Ok?
    ensures var k := StatKind(version);
      var w := Width(k);
      var stats := FieldsAt(StatFields(version), s, p).value.0;
      && p + 4 * w <= |s|
      && FieldsAt(StatFields(version), s, p).value.1 == p + 4 * w
      && "approach_rate" in stats && stats["approach_rate"] == Scalar(k, s[p..p + w])
      && "circle_size" in stats && stats["circle_size"] == Scalar(k, s[p + w..p + 2 * w])
      && "hp_drain" in stats && stats["hp_drain"] == Scalar(k, s[p + 2 * w..p + 3 * w])
      && "overall_difficulty" in stats && stats["overall_difficulty"] == Scalar(k, s[p + 3 * w..p + 4 * w])
  {
    var fields := StatFields(version);
    var k := StatKind(version);
    assert forall j :: 0 <= j < |fields| ==> fields[j].kind == Number(k);
    assert DistinctNames(fields);
    UniformWidth(fields, k);
    FieldsWidth(fields, s, p);
    UniformValue(fields, k, s, p, 0);
    UniformValue(fields, k, s, p, 1);
    UniformValue(fields, k, s, p, 2);
    UniformValue(fields, k, s, p, 3);
  }

  /** Stages 3 and 4: each stat holds its own run of bytes, read as a byte before the
      float-stats version and as a float from it on, and the slider velocity is the
      double after them. */
  lemma StatsValues(version: Option<int>, s: seq<byte>, p: nat)
    requires BeatmapStatsAt(version, s, p).Ok?
    ensures var k := if Before(version, FLOAT_STATS_VERSION) then Byte else Float;
      var w := Width(k);
      var stats := BeatmapStatsAt(version, s, p).value.0;
      && p + 4 * w + 8 <= |s|
      && "approach_rate" in stats && stats["approach_rate"] == Scalar(k, s[p..p + w])
      && "circle_size" in stats && stats["circle_size"] == Scalar(k, s[p + w..p + 2 * w])
      && "hp_drain" in stats && stats["hp_drain"] == Scalar(k, s[p + 2 * w..p + 3 * w])
      && "overall_difficulty" in stats && stats["overall_difficulty"] == Scalar(k, s[p + 3 * w..p + 4 * w])
      && "slider_velocity" in stats && stats["slider_velocity"] == Scalar(Double, s[p + 4 * w..p + 4 * w + 8])
  {
    StatFieldValues(version, s, p);
  }

  // ---------------------------------------------------------------------------
  // Counted runs of fixed-width elements
  // ---------------------------------------------------------------------------

  /** `n` int32 reads: exactly `4 * n` bytes, giving the `n` consecutive four-byte slices in order. */
  lemma {:induction false} Int32Run(s: seq<byte>, p: nat, n: nat)
    requires p <= |s|
    ensures Repeat(I32, s, p, n).Ok? <==> p + 4 * n <= |s|
    ensures Repeat(I32, s, p, n).Ok? ==>
      && Repeat(I32, s, p, n).value.1 == p + 4 * n
      && forall i :: 0 <= i < n ==> Repeat(I32, s, p, n).value.0[i] == Scalar(Int32, s[p + 4 * i..p + 4 * i + 4])
    decreases n
  {
    if n > 0 {
      Int32Run(s, p, n - 1);
    }
  }

  /** The count an int32 array's two-byte prefix at `p` gives (zero for a negative count). */
  function Int16Count(s: seq<byte>, p: nat): nat
    requires p + 2 <= |s|
  {
    Iterations(AsInteger(Scalar(Int16, s[p..p + 2])))
  }

  /** `int32array`: the int16 length, then exactly that many int32 values (none for a
      length of zero or less), `2 + 4 * n` bytes in all; a failure exactly when they do not fit. */
  lemma Int32ArrayLayout(s: seq<byte>, p: nat)
    requires p <= |s|
    ensures p + 2 > |s| ==> Int32ArrayAt(s, p) == Err(OutOfBounds)
    ensures p + 2 <= |s| ==>
      var n := Int16Count(s, p);
      && (Int32ArrayAt(s, p).Ok? <==> p + 2 + 4 * n <= |s|)
      && (Int32ArrayAt(s, p).Ok? ==>
        && Int32ArrayAt(s, p).value.1 == p + 2 + 4 * n
        && Int32ArrayAt(s, p).value.0.List?
        && |Int32ArrayAt(s, p).value.0.items| == n
        && forall i :: 0 <= i < n ==>
             Int32ArrayAt(s, p).value.0.items[i] == Scalar(Int32, s[p + 2 + 4 * i..p + 2 + 4 * i + 4]))
  {
    if p + 2 <= |s| {
      Int32Run(s, p + 2, Int16Count(s, p));
    }
  }

  /** The timing point `i` of a run starting at `p`: BPM, offset, inherited flag. */
  function TimingPointBytes(s: seq<byte>, p: nat, i: nat): Value
    requires p + 17 * i + 17 <= |s|
  {
    var q := p + 17 * i;
    List([Scalar(Double, s[q..q + 8]), Scalar(Double, s[q + 8..q + 16]), Scalar(Boolean, s[q + 16..q + 17])])
  }

  /** `n` timing points: exactly `17 * n` bytes, each point two doubles and a boolean, in order. */
  lemma {:induction false} TimingPointRun(s: seq<byte>, p: nat, n: nat)
    requires p <= |s|
    ensures Repeat(TimingPoint, s, p, n).Ok? <==> p + 17 * n <= |s|
    ensures Repeat(TimingPoint, s, p, n).Ok? ==>
      && Repeat(TimingPoint, s, p, n).value.1 == p + 17 * n
      && forall i :: 0 <= i < n ==> Repeat(TimingPoint, s, p, n).value.0[i] == TimingPointBytes(s, p, i)
    decreases n
  {
    if n > 0 {
      TimingPointRun(s, p, n - 1);
    }
  }


  /** The count an int32 prefix at `p` gives (zero for a negative count). */
  function Int32Count(s: seq<byte>, p: nat): nat
    requires p + 4 <= |s|
  {
    Iterations(AsInteger(Scalar(Int32, s[p..p + 4])))
  }

  /** Stage 7: an int32 count `n`, then `4 + 17 * n` bytes in all. */
  lemma TimingPointsLayout(s: seq<byte>, p: nat)
    requires p <= |s|
    ensures p + 4 > |s| ==> TimingPointsAt(s, p) == Err(OutOfBounds)
    ensures p + 4 <= |s| ==>
      var n := Int32Count(s, p);
      && (TimingPointsAt(s, p).Ok? <==> p + 4 + 17 * n <= |s|)
      && (TimingPointsAt(s, p).Ok? ==> TimingPointsAt(s, p).value.1 == p + 4 + 17 * n)
  {
    if p + 4 <= |s| {
      TimingPointRun(s, p + 4, Int32Count(s, p));
    }
  }

  // ---------------------------------------------------------------------------
  // Star ratings
  // ---------------------------------------------------------------------------

  /** The mode id of star-rating entry `j` of a run starting at `p` (the int32 at its offset 1). */
  function ModeAt(s: seq<byte>, p: nat, j: nat): int
    requires p + 14 * j + 14 <= |s|
  {
    IntValue(Int32, s[p + 14 * j + 1..p + 14 * j + 5])
  }

  /** The rating of star-rating entry `j` of a run starting at `p` (the double at its offset 6). */
  function RatingAt(s: seq<byte>, p: nat, j: nat): Value
    requires p + 14 * j + 14 <= |s|
  {
    Scalar(Double, s[p + 14 * j + 6..p + 14 * j + 14])
  }

  /** `n` star-rating entries: exactly `14 * n` bytes. */
  lemma {:induction false} StarEntriesWidth(s: seq<byte>, p: nat, n: nat)
    requires p <= |s|
    ensures StarEntriesAt(s, p, n).Ok? <==> p + 14 * n <= |s|
    ensures StarEntriesAt(s, p, n).Ok? ==> StarEntriesAt(s, p, n).value.1 == p + 14 * n
    decreases n
  {
    if n > 0 {
      StarEntriesWidth(s, p, n - 1);
    }
  }

  /** Entry `n` extends the table of the first `n` by its mode id and rating. */
  lemma StarEntriesNext(s: seq<byte>, p: nat, n: nat)
    requires p + 14 * (n + 1) <= |s|
    ensures StarEntriesAt(s, p, n).Ok? && StarEntriesAt(s, p, n + 1).Ok?
    ensures StarEntriesAt(s, p, n + 1).value.0 == StarEntriesAt(s, p, n).value.0[ModeAt(s, p, n) := RatingAt(s, p, n)]
  {
    StarEntriesWidth(s, p, n);
  }

  /** The index of the last of the first `n` entries whose mode id is `mode`, or -1 for none. */
  function LastEntry(s: seq<byte>, p: nat, n: nat, mode: int): (j: int)
    requires p + 14 * n <= |s|
    ensures -1 <= j < n
  {
    if n == 0 then -1
    else if ModeAt(s, p, n - 1) == mode then n - 1
    else LastEntry(s, p, n - 1, mode)
  }

  /** `LastEntry` is the last entry with that mode id: it has it, and no later entry does. */
  lemma {:induction false} LastEntryIsLast(s: seq<byte>, p: nat, n: nat, mode: int)
    requires p + 14 * n <= |s|
    ensures LastEntry(s, p, n, mode) >= 0 ==> ModeAt(s, p, LastEntry(s, p, n, mode)) == mode
    ensures forall k :: LastEntry(s, p, n, mode) < k < n ==> ModeAt(s, p, k) != mode
    decreases n
  {
    if n > 0 && ModeAt(s, p, n - 1) != mode {
      LastEntryIsLast(s, p, n - 1, mode);
    }
  }

  /** The table of `n` entries maps exactly the mode ids read, and each to the rating
      of the last entry with that id: a later entry for a mode overwrites an earlier one. */
  lemma {:induction false} StarEntriesLastWins(s: seq<byte>, p: nat, n: nat, mode: int)
    requires p + 14 * n <= |s|
    ensures StarEntriesAt(s, p, n).Ok?
    ensures mode in StarEntriesAt(s, p, n).value.0 <==> LastEntry(s, p, n, mode) >= 0
    ensures mode in StarEntriesAt(s, p, n).value.0 ==>
      StarEntriesAt(s, p, n).value.0[mode] == RatingAt(s, p, LastEntry(s, p, n, mode))
    decreases n
  {
    if n > 0 {
      StarEntriesLastWins(s, p, n - 1, mode);
      StarEntriesNext(s, p, n - 1);
    }
  }

  /** One mode's star ratings: an int32 count `n`, then `n` entries, `4 + 14 * n` bytes in all,
      gathered into a table keyed by mode id. */
  lemma StarGroupLayout(s: seq<byte>, p: nat)
    requires p <= |s|
    ensures p + 4 > |s| ==> StarGroupAt(s, p) == Err(OutOfBounds)
    ensures p + 4 <= |s| ==>
      var n := Int32Count(s, p);
      && (StarGroupAt(s, p).Ok? <==> p + 4 + 14 * n <= |s|)
      && (StarGroupAt(s, p).Ok? ==>
           StarGroupAt(s, p).value == (ModeMap(StarEntriesAt(s, p + 4, n).value.0), p + 4 + 14 * n))
  {
    if p + 4 <= |s| {
      StarEntriesWidth(s, p + 4, Int32Count(s, p));
    }
  }

  /** Stage 5: one table per game mode, under the four star-rating names. */
  lemma StarRatingsKeys(s: seq<byte>, p: nat)
    ensures StarRatingsAt(s, p).Ok? ==>
      && StarRatingsAt(s, p).value.0.Keys == StarKeys
      && forall key :: key in StarKeys ==> StarRatingsAt(s, p).value.0[key].ModeMap?
    decreases 1, 0, 0
  {
    if StarRatingsAt(s, p).Ok? {
      var groups := Repeat(StarGroup, s, p, 4).value.0;
      RepeatWellFormed(StarGroup, s, p, 4);
      assert groups[0].ModeMap? && groups[1].ModeMap? && groups[2].ModeMap? && groups[3].ModeMap?;
      assert StarRatingsAt(s, p).value.0 == map[
        "star_rating_standard" := groups[0], "star_rating_taiko" := groups[1],
        "star_rating_ctb" := groups[2], "star_rating_mania" := groups[3]];
    }
  }

  // ---------------------------------------------------------------------------
  // The version gates of a beatmap record
  // ---------------------------------------------------------------------------

  /** Stage 1: before the entry-size version a record starts with a four-byte size that
      is skipped; from it on (and with a missing version) the header starts at once.
      Either way the header has exactly the header names as keys. */
  lemma HeadGate(version: Option<int>, s: seq<byte>, p: nat)
    ensures BeatmapHeadAt(version, s, p) ==
      if !Before(version, NO_ENTRY_SIZE_VERSION) then FieldsAt(HeaderFields, s, p)
      else if p + 4 <= |s| then FieldsAt(HeaderFields, s, p + 4)
      else Err(OutOfBounds)
    ensures BeatmapHeadAt(version, s, p).Ok? ==> BeatmapHeadAt(version, s, p).value.0.Keys == Names(HeaderFields)
  {
    var p1 := if Before(version, NO_ENTRY_SIZE_VERSION) then p + 4 else p;
    if BeatmapHeadAt(version, s, p).Ok? {
      FieldsKeys(HeaderFields, s, p1);
    }
  }

  /** Stages 9 and 10: before the float-stats version an int16 is skipped first, so the
      closing fields take seven bytes; from it on (and with a missing version) five. */
  lemma ClosingGate(version: Option<int>, s: seq<byte>, p: nat)
    ensures var w := if Before(version, FLOAT_STATS_VERSION) then 7 else 5;
      && (ClosingAt(version, s, p).Ok? <==> p + w <= |s|)
      && (ClosingAt(version, s, p).Ok? ==> ClosingAt(version, s, p) == Ok((map[
           "last_modification_time_2" := Scalar(Int32, s[p + w - 5..p + w - 1]),
           "mania_scroll_speed" := Scalar(Byte, s[p + w - 1..p + w])], p + w)))
    ensures ClosingAt(version, s, p).Ok? ==> ClosingAt(version, s, p).value.0.Keys == ClosingKeys
  {
  }

  /** Stages 5 to 7: the star-rating names only from the float-stats version on,
      then the time names; the timing points leave no key. */
  lemma MiddleKeys(version: Option<int>, s: seq<byte>, p: nat)
    ensures BeatmapMiddleAt(version, s, p).Ok? ==>
      BeatmapMiddleAt(version, s, p).value.0.Keys == MiddleNames(version)
    decreases 1, 1, 0
  {
    if BeatmapMiddleAt(version, s, p).Ok? {
      var stars :=
        if AtLeast(version, FLOAT_STATS_VERSION) then StarRatingsAt(s, p).value else (map[], p);
      if AtLeast(version, FLOAT_STATS_VERSION) {
        StarRatingsKeys(s, p);
      }
      FieldsKeys(TimeFields, s, stars.1);
    }
  }

  /** Stages 8 to 10: the tail names, then the two closing names. */
  lemma EndKeys(version: Option<int>, s: seq<byte>, p: nat)
    ensures BeatmapEndAt(version, s, p).Ok? ==>
      BeatmapEndAt(version, s, p).value.0.Keys == EndNames()
  {
    if BeatmapEndAt(version, s, p).Ok? {
      FieldsKeys(TailFields, s, p);
      ClosingGate(version, s, FieldsAt(TailFields, s, p).value.1);
    }
  }

  /** The keys of a union of maps are the union of their keys. */
  lemma MergeKeys<K, V>(a: map<K, V>, b: map<K, V>, c: map<K, V>, d: map<K, V>)
    ensures (a + b + c + d).Keys == a.Keys + b.Keys + c.Keys + d.Keys
  {
  }

  /** A beatmap record has exactly the keys of the layout of its version. */
  lemma BeatmapRecordKeys(version: Option<int>, s: seq<byte>, p: nat)
    ensures BeatmapAt(version, s, p).Ok? ==> IsBeatmap(version, BeatmapAt(version, s, p).value.0)
    decreases 2, 0, 0
  {
    if BeatmapAt(version, s, p).Ok? {
      var head := BeatmapHeadAt(version, s, p).value;
      var stats := BeatmapStatsAt(version, s, head.1).value;
      var middle := BeatmapMiddleAt(version, s, stats.1).value;
      var end := BeatmapEndAt(version, s, middle.1).value;
      assert BeatmapAt(version, s, p).value.0.fields == head.0 + stats.0 + middle.0 + end.0;
      HeadGate(version, s, p);
      StatsGate(version, s, head.1);
      MiddleKeys(version, s, stats.1);
      EndKeys(version, s, middle.1);
      MergeKeys(head.0, stats.0, middle.0, end.0);
    }
  }

  // ---------------------------------------------------------------------------
  // Shapes of the elements of counted runs
  // ---------------------------------------------------------------------------

  /** Every element of a run that succeeds has the shape of its kind. */
  lemma {:induction false} RepeatWellFormed(e: Element, s: seq<byte>, p: nat, n: nat)
    ensures Repeat(e, s, p, n).Ok? ==>
      forall i :: 0 <= i < n ==> WellFormed(e, Repeat(e, s, p, n).value.0[i])
    decreases Rank(e), 2, n
  {
    if n > 0 && Repeat(e, s, p, n).Ok? {
      var xs := Repeat(e, s, p, n).value.0;
      RepeatLast(e, s, p, n);
      var before := Repeat(e, s, p, n - 1).value;
      RepeatWellFormed(e, s, p, n - 1);
      ElemWellFormed(e, s, before.1);
      AllWellFormedSnoc(e, before.0, ElemAt(e, s, before.1).value.0);
    }
  }

  lemma AllWellFormedSnoc(e: Element, xs: seq<Value>, x: Value)
    requires forall i :: 0 <= i < |xs| ==> WellFormed(e, xs[i])
    requires WellFormed(e, x)
    ensures forall i :: 0 <= i < |xs + [x]| ==> WellFormed(e, (xs + [x])[i])
  {
    forall i | 0 <= i < |xs + [x]| ensures WellFormed(e, (xs + [x])[i]) {
      if i < |xs| {
        assert (xs + [x])[i] == xs[i];
      }
    }
  }

  /** Every element that succeeds has the shape of its kind. */
  lemma {:induction false} ElemWellFormed(e: Element, s: seq<byte>, p: nat)
    ensures ElemAt(e, s, p).Ok? ==> WellFormed(e, ElemAt(e, s, p).value.0)
    decreases Rank(e), 1, 0
  {
    match e
    case I32 =>
    case Md5 =>
    case TimingPoint =>
    case StarGroup =>
      StarGroupWellFormed(s, p);
    case Collection =>
      CollectionWellFormed(s, p);
    case Beatmap(version) =>
      BeatmapRecordKeys(version, s, p);
  }

  lemma StarGroupWellFormed(s: seq<byte>, p: nat)
    ensures StarGroupAt(s, p).Ok? ==> WellFormed(StarGroup, StarGroupAt(s, p).value.0)
  {
    if StarGroupAt(s, p).Ok? {
      var count := ScalarAt(s, p, Int32).value;
      StarEntriesRatings(s, count.1, Iterations(AsInteger(count.0)));
    }
  }

  /** A collection record has its name, its count and exactly that many hashes. */
  lemma CollectionWellFormed(s: seq<byte>, p: nat)
    ensures CollectionAt(s, p).Ok? ==> IsCollection(CollectionAt(s, p).value.0)
    decreases 1, 0, 0
  {
    if CollectionAt(s, p).Ok? {
      var name := StringAt(s, p).value;
      var count := ScalarAt(s, name.1, Int32).value;
      RepeatWellFormed(Md5, s, count.1, Iterations(AsInteger(count.0)));
    }
  }

  /** Every rating in a star-rating table is a double. */
  lemma {:induction false} StarEntriesRatings(s: seq<byte>, p: nat, n: nat)
    ensures StarEntriesAt(s, p, n).Ok? ==>
      forall m :: m in StarEntriesAt(s, p, n).value.0 ==> IsScalarOf(StarEntriesAt(s, p, n).value.0[m], Double)
    decreases n
  {
    if n > 0 {
      StarEntriesRatings(s, p, n - 1);
    }
  }

  /** Runs are in read order: the first `k` elements of a run of `n` are the run of `k`. */
  lemma {:induction false} RepeatPrefix(e: Element, s: seq<byte>, p: nat, k: nat, n: nat)
    requires k <= n && Repeat(e, s, p, n).Ok?
    ensures Repeat(e, s, p, k).Ok?
    ensures Repeat(e, s, p, n).value.0[..k] == Repeat(e, s, p, k).value.0
    decreases n
  {
    if k < n {
      RepeatPrefix(e, s, p, k, n - 1);
      assert Repeat(e, s, p, n).value.0[..n - 1] == Repeat(e, s, p, n - 1).value.0;
    } else {
      assert Repeat(e, s, p, n).value.0[..k] == Repeat(e, s, p, n).value.0;
    }
  }

  /** The last element of a run that succeeded is read where the run of one fewer ended. */
  lemma RepeatLast(e: Element, s: seq<byte>, p: nat, n: nat)
    requires n > 0 && Repeat(e, s, p, n).Ok?
    ensures Repeat(e, s, p, n - 1).Ok?
    ensures Repeat(e, s, p, n).value.0 == Repeat(e, s, p, n - 1).value.0 + [Repeat(e, s, p, n).value.0[n - 1]]
    ensures ElemAt(e, s, Repeat(e, s, p, n - 1).value.1) == Ok((Repeat(e, s, p, n).value.0[n - 1], Repeat(e, s, p, n).value.1))
  {
  }

  /** Element `i` of a successful run is the element read where the first `i` ended. */
  lemma RunElement(e: Element, s: seq<byte>, p: nat, n: nat, i: nat)
    requires i < n && Repeat(e, s, p, n).Ok?
    ensures Repeat(e, s, p, i).Ok? && Repeat(e, s, p, i + 1).Ok?
    ensures ElemAt(e, s, Repeat(e, s, p, i).value.1) == Ok((Repeat(e, s, p, n).value.0[i], Repeat(e, s, p, i + 1).value.1))
  {
    RepeatPrefix(e, s, p, i + 1, n);
    RepeatLast(e, s, p, i + 1);
    assert Repeat(e, s, p, n).value.0[i] == Repeat(e, s, p, n).value.0[..i + 1][i];
  }

  /** Stage 5 reads the four groups in the order standard, taiko, ctb, mania: the group under
      the `i`-th name is the one read where the first `i` groups ended. */
  lemma StarRatingsOrder(s: seq<byte>, p: nat, i: nat)
    requires StarRatingsAt(s, p).Ok? && i < 4
    ensures Repeat(StarGroup, s, p, i).Ok?
    ensures var at := Repeat(StarGroup, s, p, i).value.1;
      StarGroupAt(s, at).Ok? && StarGroupAt(s, at).value.0 == StarRatingsAt(s, p).value.0[StarModeNames[i]]
  {
    StarRatingsGroup(s, p, i);
    RunElement(StarGroup, s, p, 4, i);
  }

  lemma StarRatingsGroup(s: seq<byte>, p: nat, i: nat)
    requires StarRatingsAt(s, p).Ok? && i < 4
    ensures Repeat(StarGroup, s, p, 4).Ok?
    ensures StarRatingsAt(s, p).value.0[StarModeNames[i]] == Repeat(StarGroup, s, p, 4).value.0[i]
  {
  }

  /** The `collections` node: a count that is not an integer is a failure; otherwise exactly
      as many collection records as the count says (none for a missing or negative count). */
  lemma CollectionsShape(ctx: Context, s: seq<byte>, p: nat)
    ensures Numeric(ctx, "collectionscount").Err? ==>
      CollectionsAt(ctx, s, p) == Err(NotAnInteger("collectionscount"))
    ensures "collectionscount" !in ctx ==> CollectionsAt(ctx, s, p) == Ok((List([]), p))
    ensures CollectionsAt(ctx, s, p).Ok? ==>
      var v := CollectionsAt(ctx, s, p).value.0;
      && v.List?
      && |v.items| == Iterations(Numeric(ctx, "collectionscount").value)
      && forall i :: 0 <= i < |v.items| ==> IsCollection(v.items[i])
  {
    if CollectionsAt(ctx, s, p).Ok? {
      RepeatWellFormed(Collection, s, p, Iterations(Numeric(ctx, "collectionscount").value));
    }
  }

  /** The `beatmaps` node: a version or count that is not an integer is a failure; otherwise
      exactly as many records as `beatmaps_count` says, each in the layout of `osuver`. */
  lemma BeatmapsShape(ctx: Context, s: seq<byte>, p: nat)
    ensures Numeric(ctx, "osuver").Err? ==> BeatmapsAt(ctx, s, p) == Err(NotAnInteger("osuver"))
    ensures Numeric(ctx, "osuver").Ok? && Numeric(ctx, "beatmaps_count").Err? ==>
      BeatmapsAt(ctx, s, p) == Err(NotAnInteger("beatmaps_count"))
    ensures "beatmaps_count" !in ctx && Numeric(ctx, "osuver").Ok? ==> BeatmapsAt(ctx, s, p) == Ok((List([]), p))
    ensures BeatmapsAt(ctx, s, p).Ok? ==>
      var v := BeatmapsAt(ctx, s, p).value.0;
      && v.List?
      && |v.items| == Iterations(Numeric(ctx, "beatmaps_count").value)
      && forall i :: 0 <= i < |v.items| ==> IsBeatmap(Numeric(ctx, "osuver").value, v.items[i])
  {
    if BeatmapsAt(ctx, s, p).Ok? {
      var version := Numeric(ctx, "osuver").value;
      RepeatWellFormed(Beatmap(version), s, p, Iterations(Numeric(ctx, "beatmaps_count").value));
    }
  }

  /** A table none of whose fields has a star-rating name contributes none. */
  lemma NoStarNames(fields: seq<Field>)
    requires forall i :: 0 <= i < |fields| ==> fields[i].name !in StarKeys
    ensures Names(fields) !! StarKeys
  {
    forall f | f in fields ensures f.name !in StarKeys {
      var i :| 0 <= i < |fields| && fields[i] == f;
    }
  }

  lemma HeaderNoStar()
    ensures Names(HeaderFields) !! StarKeys
  {
    NoStarNames(HeaderFields);
  }

  lemma StatsNoStar(version: Option<int>)
    ensures StatsNames(version) !! StarKeys
  {
    NoStarNames(StatFields(version));
  }

  lemma TimesNoStar()
    ensures Names(TimeFields) !! StarKeys
  {
    NoStarNames(TimeFields);
  }

  lemma TailNoStar()
    ensures Names(TailFields) !! StarKeys
  {
    NoStarNames(TailFields);
  }

  lemma ClosingNoStar()
    ensures ClosingKeys !! StarKeys
  {
  }

  lemma EndNoStar()
    ensures EndNames() !! StarKeys
  {
    TailNoStar();
    ClosingNoStar();
  }

  /** The star-rating keys come from stage 5 alone: a record has them exactly from
      the float-stats version on, and never with a missing version. */
  lemma StarKeysGate(version: Option<int>)
    ensures AtLeast(version, FLOAT_STATS_VERSION) ==> StarKeys <= BeatmapKeys(version)
    ensures !AtLeast(version, FLOAT_STATS_VERSION) ==> StarKeys !! BeatmapKeys(version)
  {
    HeaderNoStar();
    StatsNoStar(version);
    TimesNoStar();
    EndNoStar();
  }

  // ---------------------------------------------------------------------------
  // The values of a beatmap record
  // ---------------------------------------------------------------------------

  /** Rows `lo` to `hi` of a table have names among `names`. */
  predicate NamesWithin(fields: seq<Field>, lo: nat, hi: nat, names: set<string>)
  {
    forall i :: lo <= i < hi && i < |fields| ==> fields[i].name in names
  }

  lemma NamesWithinAll(fields: seq<Field>, names: set<string>)
    requires NamesWithin(fields, 0, |fields|, names)
    ensures Names(fields) <= names
  {
    forall x | x in Names(fields) ensures x in names {
      var f :| f in fields && f.name == x;
      var i :| 0 <= i < |fields| && fields[i] == f;
    }
  }

  /** Two tables whose names lie in disjoint sets share no name. */
  lemma NamesApart(a: seq<Field>, b: seq<Field>, inA: set<string>, inB: set<string>)
    requires NamesWithin(a, 0, |a|, inA) && NamesWithin(b, 0, |b|, inB) && inA !! inB
    ensures Names(a) !! Names(b)
  {
    NamesWithinAll(a, inA);
    NamesWithinAll(b, inB);
  }

  /** A table whose names lie in a set disjoint from `keys` has none of `keys`. */
  lemma NamesApartFrom(a: seq<Field>, inA: set<string>, keys: set<string>)
    requires NamesWithin(a, 0, |a|, inA) && inA !! keys
    ensures Names(a) !! keys
  {
    NamesWithinAll(a, inA);
  }

  /** Every header name is one of these. */
  lemma HeaderNameSet()
    ensures NamesWithin(HeaderFields, 0, |HeaderFields|, {
        "artist_name", "artist_name_unicode", "song_title", "song_title_unicode",
        "creator_name", "difficulty", "audio_file_name", "md5", "osu_file_name",
        "ranked_status", "n_hitcircles", "n_sliders", "n_spinners", "last_modification_time"})
  {
    assert NamesWithin(HeaderFields, 0, 7, {
        "artist_name", "artist_name_unicode", "song_title", "song_title_unicode",
        "creator_name", "difficulty", "audio_file_name", "md5", "osu_file_name",
        "ranked_status", "n_hitcircles", "n_sliders", "n_spinners", "last_modification_time"});
  }

  /** Every tail name is one of these. */
  lemma TailNameSet()
    ensures NamesWithin(TailFields, 0, |TailFields|, {
        "beatmap_id", "beatmapset_id", "thread_id", "grade_standard", "grade_taiko", "grade_ctb",
        "grade_mania", "local_beatmap_offset", "stack_leniency", "mode", "song_source", "song_tags",
        "online_offset", "title_font", "unplayed", "last_played", "osz2", "folder_name",
        "last_checked_against_repository", "ignore_sound", "ignore_skin", "disable_storyboard",
        "disable_video", "visual_override"})
  {
    assert NamesWithin(TailFields, 0, 8, {
        "beatmap_id", "beatmapset_id", "thread_id", "grade_standard", "grade_taiko", "grade_ctb",
        "grade_mania", "local_beatmap_offset", "stack_leniency", "mode", "song_source", "song_tags",
        "online_offset", "title_font", "unplayed", "last_played", "osz2", "folder_name",
        "last_checked_against_repository", "ignore_sound", "ignore_skin", "disable_storyboard",
        "disable_video", "visual_override"});
    assert NamesWithin(TailFields, 8, 16, {
        "beatmap_id", "beatmapset_id", "thread_id", "grade_standard", "grade_taiko", "grade_ctb",
        "grade_mania", "local_beatmap_offset", "stack_leniency", "mode", "song_source", "song_tags",
        "online_offset", "title_font", "unplayed", "last_played", "osz2", "folder_name",
        "last_checked_against_repository", "ignore_sound", "ignore_skin", "disable_storyboard",
        "disable_video", "visual_override"});
  }

  /** Every time name is one of these. */
  lemma TimeNameSet()
    ensures NamesWithin(TimeFields, 0, |TimeFields|, {"drain_time", "total_time", "preview_offset"})
  {
  }

  /** Every stat name is one of these, whatever the version. */
  lemma StatNameSet(version: Option<int>)
    ensures NamesWithin(StatFields(version), 0, |StatFields(version)|, {"approach_rate", "circle_size", "hp_drain", "overall_difficulty"})
  {
  }

  /** The header and the tail share no name. */
  lemma HeaderTailApart()
    ensures Names(HeaderFields) !! Names(TailFields)
  {
    HeaderNameSet();
    TailNameSet();
    NamesApart(HeaderFields, TailFields, {
        "artist_name", "artist_name_unicode", "song_title", "song_title_unicode",
        "creator_name", "difficulty", "audio_file_name", "md5", "osu_file_name",
        "ranked_status", "n_hitcircles", "n_sliders", "n_spinners", "last_modification_time"}, {
        "beatmap_id", "beatmapset_id", "thread_id", "grade_standard", "grade_taiko", "grade_ctb",
        "grade_mania", "local_beatmap_offset", "stack_leniency", "mode", "song_source", "song_tags",
        "online_offset", "title_font", "unplayed", "last_played", "osz2", "folder_name",
        "last_checked_against_repository", "ignore_sound", "ignore_skin", "disable_storyboard",
        "disable_video", "visual_override"});
  }

  /** The header shares no name with the stats and the slider velocity. */
  lemma HeaderStatsApart(version: Option<int>)
    ensures Names(HeaderFields) !! StatsNames(version)
  {
    HeaderNameSet();
    StatNameSet(version);
    NamesApart(HeaderFields, StatFields(version), {
        "artist_name", "artist_name_unicode", "song_title", "song_title_unicode",
        "creator_name", "difficulty", "audio_file_name", "md5", "osu_file_name",
        "ranked_status", "n_hitcircles", "n_sliders", "n_spinners", "last_modification_time"}, {"approach_rate", "circle_size", "hp_drain", "overall_difficulty"});
    NamesApartFrom(HeaderFields, {
        "artist_name", "artist_name_unicode", "song_title", "song_title_unicode",
        "creator_name", "difficulty", "audio_file_name", "md5", "osu_file_name",
        "ranked_status", "n_hitcircles", "n_sliders", "n_spinners", "last_modification_time"}, {"slider_velocity"});
  }

  /** The header shares no name with the times or the closing fields. */
  lemma HeaderTimeApart()
    ensures Names(HeaderFields) !! Names(TimeFields)
    ensures Names(HeaderFields) !! ClosingKeys
  {
    HeaderNameSet();
    TimeNameSet();
    NamesApart(HeaderFields, TimeFields, {
        "artist_name", "artist_name_unicode", "song_title", "song_title_unicode",
        "creator_name", "difficulty", "audio_file_name", "md5", "osu_file_name",
        "ranked_status", "n_hitcircles", "n_sliders", "n_spinners", "last_modification_time"}, {"drain_time", "total_time", "preview_offset"});
    NamesApartFrom(HeaderFields, {
        "artist_name", "artist_name_unicode", "song_title", "song_title_unicode",
        "creator_name", "difficulty", "audio_file_name", "md5", "osu_file_name",
        "ranked_status", "n_hitcircles", "n_sliders", "n_spinners", "last_modification_time"}, ClosingKeys);
  }

  /** The tail shares no name with the stats and the slider velocity. */
  lemma TailStatsApart(version: Option<int>)
    ensures Names(TailFields) !! StatsNames(version)
  {
    TailNameSet();
    StatNameSet(version);
    NamesApart(TailFields, StatFields(version), {
        "beatmap_id", "beatmapset_id", "thread_id", "grade_standard", "grade_taiko", "grade_ctb",
        "grade_mania", "local_beatmap_offset", "stack_leniency", "mode", "song_source", "song_tags",
        "online_offset", "title_font", "unplayed", "last_played", "osz2", "folder_name",
        "last_checked_against_repository", "ignore_sound", "ignore_skin", "disable_storyboard",
        "disable_video", "visual_override"}, {"approach_rate", "circle_size", "hp_drain", "overall_difficulty"});
    NamesApartFrom(TailFields, {
        "beatmap_id", "beatmapset_id", "thread_id", "grade_standard", "grade_taiko", "grade_ctb",
        "grade_mania", "local_beatmap_offset", "stack_leniency", "mode", "song_source", "song_tags",
        "online_offset", "title_font", "unplayed", "last_played", "osz2", "folder_name",
        "last_checked_against_repository", "ignore_sound", "ignore_skin", "disable_storyboard",
        "disable_video", "visual_override"}, {"slider_velocity"});
  }

  /** The tail shares no name with the times or the closing fields. */
  lemma TailTimeApart()
    ensures Names(TailFields) !! Names(TimeFields)
    ensures Names(TailFields) !! ClosingKeys
  {
    TailNameSet();
    TimeNameSet();
    NamesApart(TailFields, TimeFields, {
        "beatmap_id", "beatmapset_id", "thread_id", "grade_standard", "grade_taiko", "grade_ctb",
        "grade_mania", "local_beatmap_offset", "stack_leniency", "mode", "song_source", "song_tags",
        "online_offset", "title_font", "unplayed", "last_played", "osz2", "folder_name",
        "last_checked_against_repository", "ignore_sound", "ignore_skin", "disable_storyboard",
        "disable_video", "visual_override"}, {"drain_time", "total_time", "preview_offset"});
    NamesApartFrom(TailFields, {
        "beatmap_id", "beatmapset_id", "thread_id", "grade_standard", "grade_taiko", "grade_ctb",
        "grade_mania", "local_beatmap_offset", "stack_leniency", "mode", "song_source", "song_tags",
        "online_offset", "title_font", "unplayed", "last_played", "osz2", "folder_name",
        "last_checked_against_repository", "ignore_sound", "ignore_skin", "disable_storyboard",
        "disable_video", "visual_override"}, ClosingKeys);
  }

  /** The stats, the times and the closing fields share no name. */
  lemma SmallApart(version: Option<int>)
    ensures StatsNames(version) !! Names(TimeFields)
    ensures StatsNames(version) !! ClosingKeys
    ensures Names(TimeFields) !! ClosingKeys
  {
    StatNameSet(version);
    TimeNameSet();
    NamesApart(StatFields(version), TimeFields, {"approach_rate", "circle_size", "hp_drain", "overall_difficulty"}, {"drain_time", "total_time", "preview_offset"});
    NamesApartFrom(StatFields(version), {"approach_rate", "circle_size", "hp_drain", "overall_difficulty"}, ClosingKeys);
    NamesApartFrom(TimeFields, {"drain_time", "total_time", "preview_offset"}, {"slider_velocity"} + ClosingKeys);
  }

  /** The four stages of a record have pairwise disjoint keys. */
  lemma StagesApart(version: Option<int>)
    ensures Names(HeaderFields) !! StatsNames(version)
    ensures Names(HeaderFields) !! MiddleNames(version)
    ensures Names(HeaderFields) !! EndNames()
    ensures StatsNames(version) !! MiddleNames(version)
    ensures StatsNames(version) !! EndNames()
    ensures MiddleNames(version) !! EndNames()
  {
    HeaderTailApart();
    HeaderStatsApart(version);
    HeaderTimeApart();
    TailStatsApart(version);
    TailTimeApart();
    SmallApart(version);
    HeaderNoStar();
    StatsNoStar(version);
    EndNoStar();
  }

  /** Stages 5 to 7: a star-rating key holds its group and a time key its time. */
  lemma MiddleFieldValue(version: Option<int>, s: seq<byte>, p: nat, k: string)
    requires BeatmapMiddleAt(version, s, p).Ok?
    ensures var stars := if AtLeast(version, FLOAT_STATS_VERSION) then StarRatingsAt(s, p) else Ok((map[], p));
      && stars.Ok?
      && FieldsAt(TimeFields, s, stars.value.1).Ok?
      && var times := FieldsAt(TimeFields, s, stars.value.1).value.0;
      var middle := BeatmapMiddleAt(version, s, p).value.0;
      && (k in stars.value.0 ==> k in middle && middle[k] == stars.value.0[k])
      && (k in times ==> k in middle && middle[k] == times[k])
    decreases 1, 1, 0
  {
    var stars := if AtLeast(version, FLOAT_STATS_VERSION) then StarRatingsAt(s, p) else Ok((map[], p));
    if AtLeast(version, FLOAT_STATS_VERSION) {
      StarRatingsKeys(s, p);
    }
    FieldsKeys(TimeFields, s, stars.value.1);
    TimesNoStar();
  }

  /** Stages 8 to 10: a tail key holds its tail value and a closing key its closing value. */
  lemma EndFieldValue(version: Option<int>, s: seq<byte>, p: nat, k: string)
    requires BeatmapEndAt(version, s, p).Ok?
    ensures FieldsAt(TailFields, s, p).Ok?
    ensures var tail := FieldsAt(TailFields, s, p).value;
      && ClosingAt(version, s, tail.1).Ok?
      && var closing := ClosingAt(version, s, tail.1).value.0;
      var end := BeatmapEndAt(version, s, p).value.0;
      && (k in tail.0 ==> k in end && end[k] == tail.0[k])
      && (k in closing ==> k in end && end[k] == closing[k])
  {
    var tail := FieldsAt(TailFields, s, p).value;
    FieldsKeys(TailFields, s, p);
    ClosingGate(version, s, tail.1);
    TailTimeApart();
  }

  /** A beatmap record holds every key at the value of the stage that read it: no later
      stage overwrites a key of an earlier one. */
  lemma BeatmapFieldValue(version: Option<int>, s: seq<byte>, p: nat)
    requires BeatmapAt(version, s, p).Ok?
    ensures BeatmapHeadAt(version, s, p).Ok?
    ensures var head := BeatmapHeadAt(version, s, p).value;
      && BeatmapStatsAt(version, s, head.1).Ok?
      && var stats := BeatmapStatsAt(version, s, head.1).value;
      && BeatmapMiddleAt(version, s, stats.1).Ok?
      && var middle := BeatmapMiddleAt(version, s, stats.1).value;
      && BeatmapEndAt(version, s, middle.1).Ok?
      && var end := BeatmapEndAt(version, s, middle.1).value;
      var record := BeatmapAt(version, s, p).value.0.fields;
      && (forall k :: k in head.0 ==> k in record && record[k] == head.0[k])
      && (forall k :: k in stats.0 ==> k in record && record[k] == stats.0[k])
      && (forall k :: k in middle.0 ==> k in record && record[k] == middle.0[k])
      && (forall k :: k in end.0 ==> k in record && record[k] == end.0[k])
    decreases 2, 0, 0
  {
    var head := BeatmapHeadAt(version, s, p).value;
    var stats := BeatmapStatsAt(version, s, head.1).value;
    var middle := BeatmapMiddleAt(version, s, stats.1).value;
    var end := BeatmapEndAt(version, s, middle.1).value;
    assert BeatmapAt(version, s, p).value.0.fields == head.0 + stats.0 + middle.0 + end.0;
    HeadGate(version, s, p);
    StatsGate(version, s, head.1);
    MiddleKeys(version, s, stats.1);
    EndKeys(version, s, middle.1);
    StagesApart(version);
  }

  /** Where the header of a successful record ends. */
  function HeadEnd(version: Option<int>, s: seq<byte>, p: nat): nat
    requires BeatmapAt(version, s, p).Ok?
  {
    BeatmapHeadAt(version, s, p).value.1
  }

  /** Where the stats and the slider velocity of a successful record end. */
  function StatsEnd(version: Option<int>, s: seq<byte>, p: nat): nat
    requires BeatmapAt(version, s, p).Ok?
  {
    BeatmapStatsAt(version, s, HeadEnd(version, s, p)).value.1
  }

  /** Where the star ratings of a successful record end (where the stats end, without them). */
  function StarsEnd(version: Option<int>, s: seq<byte>, p: nat): nat
    requires BeatmapAt(version, s, p).Ok?
  {
    var q := StatsEnd(version, s, p);
    if AtLeast(version, FLOAT_STATS_VERSION) then StarRatingsAt(s, q).value.1 else q
  }

  /** Where the timing points of a successful record end, and the tail starts. */
  function MiddleEnd(version: Option<int>, s: seq<byte>, p: nat): nat
    requires BeatmapAt(version, s, p).Ok?
  {
    BeatmapMiddleAt(version, s, StatsEnd(version, s, p)).value.1
  }

  /** Header field `i` of a record holds its own read, taken after the entry size (if any)
      and the header fields before it. */
  lemma BeatmapHeaderValue(version: Option<int>, s: seq<byte>, p: nat, i: nat)
    requires BeatmapAt(version, s, p).Ok? && i < |HeaderFields|
    ensures var start := if Before(version, NO_ENTRY_SIZE_VERSION) then p + 4 else p;
      && FieldsAt(HeaderFields[..i], s, start).Ok?
      && var at := FieldsAt(HeaderFields[..i], s, start).value.1;
      && FieldAt(HeaderFields[i].kind, s, at).Ok?
      && var record := BeatmapAt(version, s, p).value.0.fields;
      && HeaderFields[i].name in record
      && record[HeaderFields[i].name] == FieldAt(HeaderFields[i].kind, s, at).value.0
  {
    var start := if Before(version, NO_ENTRY_SIZE_VERSION) then p + 4 else p;
    BeatmapFieldValue(version, s, p);
    HeadGate(version, s, p);
    HeaderValues(s, start, i);
  }

  lemma StatDistinct(version: Option<int>)
    ensures DistinctNames(StatFields(version))
  {
  }

  lemma TimeDistinct()
    ensures DistinctNames(TimeFields)
  {
  }

  /** Stat `i` of a record holds its own read, taken after the header and the stats before it. */
  lemma BeatmapStatValue(version: Option<int>, s: seq<byte>, p: nat, i: nat)
    requires BeatmapAt(version, s, p).Ok? && i < 4
    ensures var fields := StatFields(version);
      var start := HeadEnd(version, s, p);
      && FieldsAt(fields[..i], s, start).Ok?
      && var at := FieldsAt(fields[..i], s, start).value.1;
      && FieldAt(fields[i].kind, s, at).Ok?
      && var record := BeatmapAt(version, s, p).value.0.fields;
      && fields[i].name in record
      && record[fields[i].name] == FieldAt(fields[i].kind, s, at).value.0
  {
    var fields := StatFields(version);
    BeatmapFieldValue(version, s, p);
    StatNameSet(version);
    assert fields[i].name != "slider_velocity";
    StatDistinct(version);
    FieldsValue(fields, s, HeadEnd(version, s, p), i);
  }

  /** The slider velocity of a record is the double read where the stats end. */
  lemma BeatmapVelocityValue(version: Option<int>, s: seq<byte>, p: nat)
    requires BeatmapAt(version, s, p).Ok?
    ensures var stats := FieldsAt(StatFields(version), s, HeadEnd(version, s, p));
      && stats.Ok?
      && ScalarAt(s, stats.value.1, Double).Ok?
      && var record := BeatmapAt(version, s, p).value.0.fields;
      && "slider_velocity" in record
      && record["slider_velocity"] == ScalarAt(s, stats.value.1, Double).value.0
  {
    BeatmapFieldValue(version, s, p);
  }

  /** Time `i` of a record (drain, total, preview offset) holds its own read, taken after
      the star ratings (or, without them, the stats) and the times before it. */
  lemma BeatmapTimeValue(version: Option<int>, s: seq<byte>, p: nat, i: nat)
    requires BeatmapAt(version, s, p).Ok? && i < 3
    ensures var start := StarsEnd(version, s, p);
      && FieldsAt(TimeFields[..i], s, start).Ok?
      && var at := FieldsAt(TimeFields[..i], s, start).value.1;
      && FieldAt(TimeFields[i].kind, s, at).Ok?
      && var record := BeatmapAt(version, s, p).value.0.fields;
      && TimeFields[i].name in record
      && record[TimeFields[i].name] == FieldAt(TimeFields[i].kind, s, at).value.0
  {
    BeatmapFieldValue(version, s, p);
    MiddleFieldValue(version, s, StatsEnd(version, s, p), TimeFields[i].name);
    TimeDistinct();
    FieldsValue(TimeFields, s, StarsEnd(version, s, p), i);
  }

  /** Tail field `i` of a record holds its own read, taken after the timing points and
      the tail fields before it. */
  lemma BeatmapTailValue(version: Option<int>, s: seq<byte>, p: nat, i: nat)
    requires BeatmapAt(version, s, p).Ok? && i < |TailFields|
    ensures var start := MiddleEnd(version, s, p);
      && FieldsAt(TailFields[..i], s, start).Ok?
      && var at := FieldsAt(TailFields[..i], s, start).value.1;
      && FieldAt(TailFields[i].kind, s, at).Ok?
      && var record := BeatmapAt(version, s, p).value.0.fields;
      && TailFields[i].name in record
      && record[TailFields[i].name] == FieldAt(TailFields[i].kind, s, at).value.0
  {
    var start := MiddleEnd(version, s, p);
    BeatmapFieldValue(version, s, p);
    EndFieldValue(version, s, start, TailFields[i].name);
    TailValues(s, start, i);
  }

  // ---------------------------------------------------------------------------
  // Type names and `uses` lists
  // ---------------------------------------------------------------------------

  lemma LowerIdempotent(t: string)
    ensures Lower(Lower(t)) == Lower(t)
  {
  }

  /** The dispatch ignores the case of a type name. */
  lemma TypeOfIgnoresCase(t: string)
    ensures TypeOf(Lower(t)) == TypeOf(t)
  {
    LowerIdempotent(t);
  }

  /** A type name selects a primitive read exactly when, lower-cased, it is that primitive's name. */
  lemma PrimName(t: string, k: ScalarKind)
    ensures TypeOf(t) == Prim(k) <==> Lower(t) == ScalarName(k)
  {
    DispatchName(k);
  }

  lemma DispatchName(k: ScalarKind)
    ensures Dispatch(ScalarName(k)) == Prim(k)
  {
  }

  /** Joining the pieces of a split with the separator gives the list back. */
  lemma {:induction false} SplitJoin(s: string, sep: char)
    ensures Join(Split(s, sep), sep) == s
    ensures forall i :: 0 <= i < |Split(s, sep)| ==> sep !in Split(s, sep)[i]
    decreases |s|
  {
    if |s| > 0 {
      var rest := Split(s[1..], sep);
      SplitJoin(s[1..], sep);
      if s[0] == sep {
        assert Split(s, sep) == [""] + rest;
        assert Split(s, sep)[1..] == rest;
      } else {
        var parts := Split(s, sep);
        assert parts == [[s[0]] + rest[0]] + rest[1..];
        if |rest| == 1 {
          assert s == [s[0]] + s[1..];
        } else {
          assert parts[1..] == rest[1..];
          assert Join(rest, sep) == rest[0] + [sep] + Join(rest[1..], sep);
          assert s == [s[0]] + s[1..];
        }
        forall i | 0 <= i < |parts| ensures sep !in parts[i] {
          if i > 0 {
            assert parts[i] == rest[i];
          }
        }
      }
    }
  }

  /** An item with a non-empty `uses` list is decoded in a context holding exactly the
      listed names, none of which contains a comma, each with its value so far
      (`Undefined` for one not decoded yet); an item without one gets an empty context. */
  lemma UsesContextExact(item: Node, data: Context, key: string)
    ensures key in UsesContext(item, data) <==> |item.uses| > 0 && key in Split(item.uses, ',')
    ensures key in UsesContext(item, data) ==> UsesContext(item, data)[key] == Get(data, key) && ',' !in key
  {
    if |item.uses| > 0 {
      SplitJoin(item.uses, ',');
    }
  }

  // ---------------------------------------------------------------------------
  // The assembler
  // ---------------------------------------------------------------------------

  /** An assembly that succeeds decoded every item in list order: item `i` starts where
      the items before it ended, sees the fields they stored, and its value is stored
      under its name before item `i + 1` starts. */
  lemma AssembleOrder(items: seq<Node>, i: nat, s: seq<byte>, p: nat)
    requires i < |items| && AssembleAt(items, s, p).Ok?
    ensures AssembleAt(items[..i], s, p).Ok?
    ensures var (data, q) := AssembleAt(items[..i], s, p).value;
      var r := ReadAt(items[i], UsesContext(items[i], data), s, q);
      && r.Ok?
      && AssembleAt(items[..i + 1], s, p) == Ok((data[items[i].name := r.value.0], r.value.1))
  {
    if AssembleAt(items[..i + 1], s, p).Err? {
      AssembleStop(items, i + 1, s, p);
    }
    assert items[..i + 1][..i] == items[..i];
    assert items[..i + 1][i] == items[i];
  }

  /** A decode with a list layout gives an object keyed by exactly the item names;
      without input it gives `null`, without a layout `undefined`. */
  lemma UnmarshalShape(raw: Option<seq<byte>>, layout: LayoutArg)
    ensures raw.None? ==> UnmarshalAt(raw, layout) == Ok(Null)
    ensures raw.Some? && layout.Absent? ==> UnmarshalAt(raw, layout) == Ok(Undefined)
    ensures raw.Some? && layout.Items? && UnmarshalAt(raw, layout).Ok? ==>
      && UnmarshalAt(raw, layout).value.Object?
      && UnmarshalAt(raw, layout).value.fields.Keys == set item | item in layout.items :: item.name
  {
  }
}
