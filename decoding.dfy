/**
 * The reference decoder: what each layout node reads, as a function of the
 * buffer and the position it starts at. Every function gives the decoded
 * value and the position after it, or the failure that ends the decode.
 * The cursor methods of module Reader are proved to agree with these.
 */
module Decoding {
  import opened Values
  import opened Cursor
  import opened Layout

  // ---------------------------------------------------------------------------
  // Records written as a fixed run of reads (the object literals of a beatmap)
  // ---------------------------------------------------------------------------

  datatype FieldKind = Number(kind: ScalarKind) | OsuString
  datatype Field = Field(name: string, kind: FieldKind)

  function Names(fields: seq<Field>): set<string>
  {
    set f | f in fields :: f.name
  }

  /** Stage 2 of a beatmap: eight strings, the ranked status, the object counts, the modification time. */
  const HeaderFields: seq<Field> := [
    Field("artist_name", OsuString),
    Field("artist_name_unicode", OsuString),
    Field("song_title", OsuString),
    Field("song_title_unicode", OsuString),
    Field("creator_name", OsuString),
    Field("difficulty", OsuString),
    Field("audio_file_name", OsuString),
    Field("md5", OsuString),
    Field("osu_file_name", OsuString),
    Field("ranked_status", Number(Byte)),
    Field("n_hitcircles", Number(Int16)),
    Field("n_sliders", Number(Int16)),
    Field("n_spinners", Number(Int16)),
    Field("last_modification_time", Number(Int64))
  ]

  /** The kind the four difficulty stats are read as: a byte before the float-stats version, else a float. */
  function StatKind(version: Option<int>): ScalarKind
  {
    if Before(version, FLOAT_STATS_VERSION) then Byte else Float
  }

  /** Stage 3 of a beatmap: approach rate, circle size, HP drain, overall difficulty. */
  function StatFields(version: Option<int>): seq<Field>
  {
    var k := Number(StatKind(version));
    [Field("approach_rate", k), Field("circle_size", k), Field("hp_drain", k), Field("overall_difficulty", k)]
  }

  /** Stage 6 of a beatmap: drain time, total time, preview offset. */
  const TimeFields: seq<Field> := [
    Field("drain_time", Number(Int32)),
    Field("total_time", Number(Int32)),
    Field("preview_offset", Number(Int32))
  ]

  /** Stage 8 of a beatmap: identifiers, grades, offsets, strings and flags. */
  const TailFields: seq<Field> := [
    Field("beatmap_id", Number(Int32)),
    Field("beatmapset_id", Number(Int32)),
    Field("thread_id", Number(Int32)),
    Field("grade_standard", Number(Byte)),
    Field("grade_taiko", Number(Byte)),
    Field("grade_ctb", Number(Byte)),
    Field("grade_mania", Number(Byte)),
    Field("local_beatmap_offset", Number(Int16)),
    Field("stack_leniency", Number(Float)),
    Field("mode", Number(Byte)),
    Field("song_source", OsuString),
    Field("song_tags", OsuString),
    Field("online_offset", Number(Int16)),
    Field("title_font", OsuString),
    Field("unplayed", Number(Boolean)),
    Field("last_played", Number(Int64)),
    Field("osz2", Number(Boolean)),
    Field("folder_name", OsuString),
    Field("last_checked_against_repository", Number(Int64)),
    Field("ignore_sound", Number(Boolean)),
    Field("ignore_skin", Number(Boolean)),
    Field("disable_storyboard", Number(Boolean)),
    Field("disable_video", Number(Boolean)),
    Field("visual_override", Number(Boolean))
  ]

  /** The names the four star-rating groups are stored under, in read order. */
  const StarModeNames: seq<string> :=
    ["star_rating_standard", "star_rating_taiko", "star_rating_ctb", "star_rating_mania"]

  /** The keys the star ratings add to a record. */
  const StarKeys: set<string> := set n | n in StarModeNames

  const ClosingKeys: set<string> := {"last_modification_time_2", "mania_scroll_speed"}

  /** The keys of stages 3 and 4: the difficulty stats and the slider velocity. */
  function StatsNames(version: Option<int>): set<string>
  {
    Names(StatFields(version)) + {"slider_velocity"}
  }

  /** The keys of stages 5 to 7: the star ratings only from the float-stats version on, then the times. */
  function MiddleNames(version: Option<int>): set<string>
  {
    (if AtLeast(version, FLOAT_STATS_VERSION) then StarKeys else {}) + Names(TimeFields)
  }

  /** The keys of stages 8 to 10. */
  function EndNames(): set<string>
  {
    Names(TailFields) + ClosingKeys
  }

  /** The keys a beatmap record has, stage by stage. */
  function BeatmapKeys(version: Option<int>): set<string>
  {
    Names(HeaderFields) + StatsNames(version) + MiddleNames(version) + EndNames()
  }

  function FieldAt(kind: FieldKind, s: seq<byte>, p: nat): Result<(Value, nat)>
  {
    match kind
    case Number(k) => ScalarAt(s, p, k)
    case OsuString => StringAt(s, p)
  }

  /** The fields of a table read in order, each stored under its name. */
  function FieldsAt(fields: seq<Field>, s: seq<byte>, p: nat): (r: Result<(map<string, Value>, nat)>)
    ensures r.Ok? ==> p <= r.value.1 && (p <= |s| ==> r.value.1 <= |s|)
  {
    if |fields| == 0 then Ok((map[], p))
    else
      var last := fields[|fields| - 1];
      var before :- FieldsAt(fields[..|fields| - 1], s, p);
      var v :- FieldAt(last.kind, s, before.1);
      assert fields == fields[..|fields| - 1] + [last];
      Ok((before.0[last.name := v.0], v.1))
  }

  /** A read whose value is thrown away, made only when `present` holds. */
  function DiscardIf(present: bool, k: ScalarKind, s: seq<byte>, p: nat): Result<nat>
  {
    if present then var v :- ScalarAt(s, p, k); Ok(v.1) else Ok(p)
  }

  // ---------------------------------------------------------------------------
  // Count-prefixed repetition
  // ---------------------------------------------------------------------------

  /** The things the decoder reads a counted run of. */
  datatype Element =
    | I32                            // one entry of an int32 array
    | Md5                            // one beatmap hash of a collection
    | TimingPoint                    // BPM, offset, inherited flag
    | StarGroup                      // the star ratings of one game mode
    | Collection                     // one collection record
    | Beatmap(version: Option<int>)  // one beatmap record, in the layout of `version`

  function Rank(e: Element): nat
  {
    match e
    case Beatmap(_) => 2
    case Collection => 1
    case _ => 0
  }

  predicate IsScalarOf(v: Value, k: ScalarKind)
  {
    v.Scalar? && v.kind == k && |v.bits| == Width(k)
  }

  /** A collection record: its name, its count, and exactly that many hashes. */
  predicate IsCollection(v: Value)
  {
    && v.Object?
    && v.fields.Keys == {"name", "beatmapsCount", "beatmapsMd5"}
    && v.fields["name"].Text?
    && IsScalarOf(v.fields["beatmapsCount"], Int32)
    && var md5s := v.fields["beatmapsMd5"];
    && md5s.List?
    && |md5s.items| == Iterations(AsInteger(v.fields["beatmapsCount"]))
    && forall i :: 0 <= i < |md5s.items| ==> md5s.items[i].Text?
  }

  /** A beatmap record of the layout of `version`: an object with exactly the keys of that layout. */
  predicate IsBeatmap(version: Option<int>, v: Value)
  {
    && v.Object?
    && v.fields.Keys == BeatmapKeys(version)
  }

  /** The shape every element of kind `e` has. */
  predicate WellFormed(e: Element, v: Value)
  {
    match e
    case I32 => IsScalarOf(v, Int32)
    case Md5 => v.Text?
    case TimingPoint =>
      v.List? && |v.items| == 3
      && IsScalarOf(v.items[0], Double) && IsScalarOf(v.items[1], Double) && IsScalarOf(v.items[2], Boolean)
    case StarGroup => v.ModeMap? && forall m :: m in v.ratings ==> IsScalarOf(v.ratings[m], Double)
    case Collection => IsCollection(v)
    case Beatmap(version) => IsBeatmap(version, v)
  }

  /** `n` elements read one after another, in read order. */
  function Repeat(e: Element, s: seq<byte>, p: nat, n: nat): (r: Result<(seq<Value>, nat)>)
    ensures r.Ok? ==> |r.value.0| == n
    ensures r.Ok? ==> p <= r.value.1 && (p <= |s| ==> r.value.1 <= |s|)
    decreases Rank(e), 2, n
  {
    if n == 0 then Ok(([], p))
    else
      var before :- Repeat(e, s, p, n - 1);
      var x :- ElemAt(e, s, before.1);
      Ok((before.0 + [x.0], x.1))
  }

  /** One element; every element takes at least one byte. */
  function ElemAt(e: Element, s: seq<byte>, p: nat): (r: Result<(Value, nat)>)
    ensures r.Ok? ==> p < r.value.1 <= |s|
    decreases Rank(e), 1, 0
  {
    match e
    case I32 => ScalarAt(s, p, Int32)
    case Md5 => StringAt(s, p)
    case TimingPoint => TimingPointAt(s, p)
    case StarGroup => StarGroupAt(s, p)
    case Collection => CollectionAt(s, p)
    case Beatmap(version) => BeatmapAt(version, s, p)
  }

  /** One timing point: BPM and offset (doubles), then the inherited flag. */
  function TimingPointAt(s: seq<byte>, p: nat): (r: Result<(Value, nat)>)
    ensures r.Ok? <==> p + 17 <= |s|
    ensures r.Ok? ==> r.value.1 == p + 17
  {
    var bpm :- ScalarAt(s, p, Double);
    var offset :- ScalarAt(s, bpm.1, Double);
    var inherited :- ScalarAt(s, offset.1, Boolean);
    Ok((List([bpm.0, offset.0, inherited.0]), inherited.1))
  }

  // ---------------------------------------------------------------------------
  // Collections
  // ---------------------------------------------------------------------------

  /** A collection: its name, an int32 count, then that many hashes. */
  function CollectionAt(s: seq<byte>, p: nat): (r: Result<(Value, nat)>)
    ensures r.Ok? ==> p < r.value.1 <= |s|
    decreases 1, 0, 0
  {
    var name :- StringAt(s, p);
    var count :- ScalarAt(s, name.1, Int32);
    var md5s :- Repeat(Md5, s, count.1, Iterations(AsInteger(count.0)));
    Ok((Object(map["name" := name.0, "beatmapsCount" := count.0, "beatmapsMd5" := List(md5s.0)]), md5s.1))
  }

  /** The `collections` node: as many collections as the `collectionscount` field says. */
  function CollectionsAt(ctx: Context, s: seq<byte>, p: nat): (r: Result<(Value, nat)>)
    ensures r.Ok? ==> p <= r.value.1 && (p <= |s| ==> r.value.1 <= |s|)
  {
    var count :- Numeric(ctx, "collectionscount");
    var records :- Repeat(Collection, s, p, Iterations(count));
    Ok((List(records.0), records.1))
  }

  // ---------------------------------------------------------------------------
  // Beatmaps
  // ---------------------------------------------------------------------------

  /** One star-rating entry, 14 bytes: a marker byte, the int32 mode id, a marker byte and
      the double rating; it fails when the buffer ends before the last byte of the entry. */
  function StarEntryAt(s: seq<byte>, p: nat): (r: Result<((int, Value), nat)>)
    ensures r.Ok? ==> p < r.value.1 <= |s|
  {
    if p + 14 <= |s| then Ok(((IntValue(Int32, s[p + 1..p + 5]), Scalar(Double, s[p + 6..p + 14])), p + 14))
    else Err(OutOfBounds)
  }

  /** `n` star-rating entries gathered by mode id; a later entry for a mode replaces an earlier one. */
  function StarEntriesAt(s: seq<byte>, p: nat, n: nat): (r: Result<(map<int, Value>, nat)>)
    ensures r.Ok? ==> p <= r.value.1 && (p <= |s| ==> r.value.1 <= |s|)
  {
    if n == 0 then Ok((map[], p))
    else
      var before :- StarEntriesAt(s, p, n - 1);
      var entry :- StarEntryAt(s, before.1);
      Ok((before.0[entry.0.0 := entry.0.1], entry.1))
  }

  /** The star ratings of one mode: an int32 count, then that many entries. */
  function StarGroupAt(s: seq<byte>, p: nat): (r: Result<(Value, nat)>)
    ensures r.Ok? ==> p < r.value.1 <= |s|
  {
    var count :- ScalarAt(s, p, Int32);
    var entries :- StarEntriesAt(s, count.1, Iterations(AsInteger(count.0)));
    Ok((ModeMap(entries.0), entries.1))
  }

  /** Stage 5 of a beatmap: four star-rating groups, in the order standard, taiko, ctb, mania. */
  function StarRatingsAt(s: seq<byte>, p: nat): (r: Result<(map<string, Value>, nat)>)
    ensures r.Ok? ==> p < r.value.1 <= |s|
    decreases 1, 0, 0
  {
    var groups :- Repeat(StarGroup, s, p, 4);
    Ok((map[
      StarModeNames[0] := groups.0[0],
      StarModeNames[1] := groups.0[1],
      StarModeNames[2] := groups.0[2],
      StarModeNames[3] := groups.0[3]], groups.1))
  }

  /** Stage 7 of a beatmap: an int32 count, then that many timing points (read and not kept). */
  function TimingPointsAt(s: seq<byte>, p: nat): (r: Result<(Value, nat)>)
    ensures r.Ok? ==> p < r.value.1 <= |s|
    decreases 1, 0, 0
  {
    var count :- ScalarAt(s, p, Int32);
    var points :- Repeat(TimingPoint, s, count.1, Iterations(AsInteger(count.0)));
    Ok((List(points.0), points.1))
  }

  /** Stages 9 and 10 of a beatmap: an int16 only before the float-stats version, then an int32 and a byte. */
  function ClosingAt(version: Option<int>, s: seq<byte>, p: nat): (r: Result<(map<string, Value>, nat)>)
    ensures r.Ok? ==> p < r.value.1 <= |s|
  {
    var p1 :- DiscardIf(Before(version, FLOAT_STATS_VERSION), Int16, s, p);
    var modified :- ScalarAt(s, p1, Int32);
    var scrollSpeed :- ScalarAt(s, modified.1, Byte);
    Ok((map["last_modification_time_2" := modified.0, "mania_scroll_speed" := scrollSpeed.0], scrollSpeed.1))
  }

  /** Stages 1 and 2 of a beatmap: the entry size, only before the version that dropped it,
      then the header. */
  function BeatmapHeadAt(version: Option<int>, s: seq<byte>, p: nat): (r: Result<(map<string, Value>, nat)>)
    ensures r.Ok? ==> p < r.value.1 <= |s|
  {
    var p1 :- DiscardIf(Before(version, NO_ENTRY_SIZE_VERSION), Int32, s, p);
    var head :- FieldsAt(HeaderFields, s, p1);
    assert |HeaderFields| > 0 && p1 < head.1;
    Ok(head)
  }

  /** Stages 3 and 4 of a beatmap: the four difficulty stats, then the slider velocity. */
  function BeatmapStatsAt(version: Option<int>, s: seq<byte>, p: nat): (r: Result<(map<string, Value>, nat)>)
    ensures r.Ok? ==> p < r.value.1 <= |s|
  {
    var stats :- FieldsAt(StatFields(version), s, p);
    var velocity :- ScalarAt(s, stats.1, Double);
    Ok((stats.0["slider_velocity" := velocity.0], velocity.1))
  }

  /** Stages 5 to 7 of a beatmap: the star ratings (only from the float-stats version on),
      the three times, and the timing points, which are read and not kept. */
  function BeatmapMiddleAt(version: Option<int>, s: seq<byte>, p: nat): (r: Result<(map<string, Value>, nat)>)
    ensures r.Ok? ==> p < r.value.1 <= |s|
    decreases 1, 1, 0
  {
    var stars :-
      if AtLeast(version, FLOAT_STATS_VERSION) then StarRatingsAt(s, p)
      else Ok((map[], p));
    var times :- FieldsAt(TimeFields, s, stars.1);
    var timing :- TimingPointsAt(s, times.1);
    Ok((stars.0 + times.0, timing.1))
  }

  /** Stages 8 to 10 of a beatmap: the fixed tail, then the closing fields. */
  function BeatmapEndAt(version: Option<int>, s: seq<byte>, p: nat): (r: Result<(map<string, Value>, nat)>)
    ensures r.Ok? ==> p < r.value.1 <= |s|
  {
    var tail :- FieldsAt(TailFields, s, p);
    var closing :- ClosingAt(version, s, tail.1);
    Ok((tail.0 + closing.0, closing.1))
  }

  /** One beatmap record, in the layout of `version`. */
  function BeatmapAt(version: Option<int>, s: seq<byte>, p: nat): (r: Result<(Value, nat)>)
    ensures r.Ok? ==> p < r.value.1 <= |s|
    decreases 2, 0, 0
  {
    var head :- BeatmapHeadAt(version, s, p);
    var stats :- BeatmapStatsAt(version, s, head.1);
    var middle :- BeatmapMiddleAt(version, s, stats.1);
    var end :- BeatmapEndAt(version, s, middle.1);
    Ok((Object(head.0 + stats.0 + middle.0 + end.0), end.1))
  }

  /** The `beatmaps` node: as many beatmaps as `beatmaps_count` says, in the layout of `osuver`. */
  function BeatmapsAt(ctx: Context, s: seq<byte>, p: nat): (r: Result<(Value, nat)>)
    ensures r.Ok? ==> p <= r.value.1 && (p <= |s| ==> r.value.1 <= |s|)
  {
    var version :- Numeric(ctx, "osuver");
    var count :- Numeric(ctx, "beatmaps_count");
    var records :- Repeat(Beatmap(version), s, p, Iterations(count));
    Ok((List(records.0), records.1))
  }

  // ---------------------------------------------------------------------------
  // The interpreter and the assembler
  // ---------------------------------------------------------------------------

  /** The `int32array` node: an int16 length, then that many int32 values. */
  function Int32ArrayAt(s: seq<byte>, p: nat): (r: Result<(Value, nat)>)
    ensures r.Ok? ==> p < r.value.1 <= |s|
  {
    var len :- ScalarAt(s, p, Int16);
    var items :- Repeat(I32, s, len.1, Iterations(AsInteger(len.0)));
    Ok((List(items.0), items.1))
  }

  /** One node decoded in context `ctx`; an unrecognised type reads nothing and gives its context back. */
  function ReadAt(node: Node, ctx: Context, s: seq<byte>, p: nat): (r: Result<(Value, nat)>)
    ensures r.Ok? ==> p <= r.value.1 && (p <= |s| ==> r.value.1 <= |s|)
  {
    match TypeOf(node.typeName)
    case Prim(k) => ScalarAt(s, p, k)
    case Str => StringAt(s, p)
    case Int32Array => Int32ArrayAt(s, p)
    case Collections => CollectionsAt(ctx, s, p)
    case Beatmaps => BeatmapsAt(ctx, s, p)
    case Other => Ok((Object(ctx), p))
  }

  /** The items of a layout list decoded in order, each stored under its name before the next starts. */
  function AssembleAt(items: seq<Node>, s: seq<byte>, p: nat): (r: Result<(Context, nat)>)
    ensures r.Ok? ==> r.value.0.Keys == set item | item in items :: item.name
    ensures r.Ok? ==> p <= r.value.1 && (p <= |s| ==> r.value.1 <= |s|)
  {
    if |items| == 0 then Ok((map[], p))
    else
      var item := items[|items| - 1];
      var before :- AssembleAt(items[..|items| - 1], s, p);
      var v :- ReadAt(item, UsesContext(item, before.0), s, before.1);
      assert items == items[..|items| - 1] + [item];
      Ok((before.0[item.name := v.0], v.1))
  }

  /** The whole decode: `Null` without input, `Undefined` without a layout. */
  function UnmarshalAt(raw: Option<seq<byte>>, layout: LayoutArg): (r: Result<Value>)
    ensures r.Err? ==> raw.Some? && !layout.Absent?
    ensures raw.Some? && layout.Single? ==> (r.Ok? <==> ReadAt(layout.node, map[], raw.value, 0).Ok?)
    ensures raw.Some? && layout.Items? ==> (r.Ok? <==> AssembleAt(layout.items, raw.value, 0).Ok?)
  {
    match raw
    case None => Ok(Null)
    case Some(bytes) =>
      match layout
      case Items(items) => var d :- AssembleAt(items, bytes, 0); Ok(Object(d.0))
      case Single(node) => var v :- ReadAt(node, map[], bytes, 0); Ok(v.0)
      case Absent => Ok(Undefined)
  }

  // ---------------------------------------------------------------------------
  // A failure ends the decode: once a prefix of a run fails, the whole run fails the same way
  // ---------------------------------------------------------------------------

  lemma {:induction false} FieldsStop(fields: seq<Field>, k: nat, s: seq<byte>, p: nat)
    requires k <= |fields| && FieldsAt(fields[..k], s, p).Err?
    ensures FieldsAt(fields, s, p) == FieldsAt(fields[..k], s, p)
    decreases |fields|
  {
    if k < |fields| {
      var prefix := fields[..|fields| - 1];
      assert prefix[..k] == fields[..k];
      FieldsStop(prefix, k, s, p);
    } else {
      assert fields[..k] == fields;
    }
  }

  lemma {:induction false} RepeatStop(e: Element, s: seq<byte>, p: nat, k: nat, n: nat)
    requires k <= n && Repeat(e, s, p, k).Err?
    ensures Repeat(e, s, p, n) == Repeat(e, s, p, k)
    decreases n
  {
    if k < n {
      RepeatStop(e, s, p, k, n - 1);
    }
  }

  /** One more element extends a run that succeeded. */
  lemma RepeatStep(e: Element, s: seq<byte>, p: nat, n: nat, xs: seq<Value>, q: nat, x: Value, q2: nat)
    requires Repeat(e, s, p, n) == Ok((xs, q)) && ElemAt(e, s, q) == Ok((x, q2))
    ensures Repeat(e, s, p, n + 1) == Ok((xs + [x], q2))
  {
  }

  /** One more item extends an assembly that succeeded. */
  lemma AssembleStep(items: seq<Node>, i: nat, s: seq<byte>, p: nat, data: Context, q: nat, v: Value, q2: nat)
    requires i < |items| && AssembleAt(items[..i], s, p) == Ok((data, q))
    requires ReadAt(items[i], UsesContext(items[i], data), s, q) == Ok((v, q2))
    ensures AssembleAt(items[..i + 1], s, p) == Ok((data[items[i].name := v], q2))
  {
    assert items[..i + 1][..i] == items[..i];
  }

  lemma {:induction false} StarEntriesStop(s: seq<byte>, p: nat, k: nat, n: nat)
    requires k <= n && StarEntriesAt(s, p, k).Err?
    ensures StarEntriesAt(s, p, n) == StarEntriesAt(s, p, k)
    decreases n
  {
    if k < n {
      StarEntriesStop(s, p, k, n - 1);
    }
  }

  lemma {:induction false} AssembleStop(items: seq<Node>, k: nat, s: seq<byte>, p: nat)
    requires k <= |items| && AssembleAt(items[..k], s, p).Err?
    ensures AssembleAt(items, s, p) == AssembleAt(items[..k], s, p)
    decreases |items|
  {
    if k < |items| {
      var prefix := items[..|items| - 1];
      assert prefix[..k] == items[..k];
      AssembleStop(prefix, k, s, p);
    } else {
      assert items[..k] == items;
    }
  }
}
