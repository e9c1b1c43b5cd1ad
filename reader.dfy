/**
 * The interpreter and the assembler over a byte cursor. Each method moves the
 * cursor forward read by read and is proved to produce what the reference
 * decoder of module Decoding gives for the position it started at, leaving
 * the cursor where that decoder says the node ends.
 */
module Reader {
  import opened Values
  import opened Cursor
  import opened Layout
  import opened Decoding

  method ReadField(buff: OsuBuffer, kind: FieldKind) returns (r: Result<Value>)
    requires buff.Valid()
    modifies buff
    ensures buff.Valid() && Matches(r, buff.pos, FieldAt(kind, buff.data, old(buff.pos)))
  {
    match kind
    case Number(k) => r := buff.ReadScalar(k);
    case OsuString => r := buff.ReadOsuString();
  }

  /** The fields of a table, read in order and stored under their names. */
  method ReadFields(buff: OsuBuffer, fields: seq<Field>) returns (r: Result<map<string, Value>>)
    requires buff.Valid()
    modifies buff
    ensures buff.Valid() && Matches(r, buff.pos, FieldsAt(fields, buff.data, old(buff.pos)))
  {
    ghost var p0 := buff.pos;
    var record: map<string, Value> := map[];
    var i := 0;
    while i < |fields|
      invariant 0 <= i <= |fields| && buff.Valid()
      invariant FieldsAt(fields[..i], buff.data, p0) == Ok((record, buff.pos))
    {
      var v := ReadField(buff, fields[i].kind);
      assert fields[..i + 1][..i] == fields[..i];
      if v.Err? {
        FieldsStop(fields, i + 1, buff.data, p0);
        return Err(v.error);
      }
      record := record[fields[i].name := v.value];
      i := i + 1;
    }
    assert fields[..i] == fields;
    r := Ok(record);
  }

  /** One element of a counted run. */
  method ReadElem(buff: OsuBuffer, e: Element) returns (r: Result<Value>)
    requires buff.Valid()
    modifies buff
    ensures buff.Valid() && Matches(r, buff.pos, ElemAt(e, buff.data, old(buff.pos)))
    decreases Rank(e), 1
  {
    match e
    case I32 => r := buff.ReadScalar(Int32);
    case Md5 => r := buff.ReadOsuString();
    case TimingPoint => r := ReadTimingPoint(buff);
    case StarGroup => r := ReadStarGroup(buff);
    case Collection => r := ReadCollection(buff);
    case Beatmap(version) => r := ReadBeatmap(buff, version);
  }

  /** `n` elements read one after another, collected in read order. */
  method ReadRun(buff: OsuBuffer, e: Element, n: nat) returns (r: Result<seq<Value>>)
    requires buff.Valid()
    modifies buff
    ensures buff.Valid() && Matches(r, buff.pos, Repeat(e, buff.data, old(buff.pos), n))
    decreases Rank(e), 2
  {
    ghost var p0 := buff.pos;
    var items: seq<Value> := [];
    var i := 0;
    while i < n
      invariant 0 <= i <= n && buff.Valid()
      invariant Repeat(e, buff.data, p0, i) == Ok((items, buff.pos))
    {
      ghost var q := buff.pos;
      var x := ReadElem(buff, e);
      if x.Err? {
        RepeatStop(e, buff.data, p0, i + 1, n);
        return Err(x.error);
      }
      RepeatStep(e, buff.data, p0, i, items, q, x.value, buff.pos);
      items := items + [x.value];
      i := i + 1;
    }
    r := Ok(items);
  }

  /** `int32array`: an int16 length, then that many int32 values. */
  method ReadInt32Array(buff: OsuBuffer) returns (r: Result<Value>)
    requires buff.Valid()
    modifies buff
    ensures buff.Valid() && Matches(r, buff.pos, Int32ArrayAt(buff.data, old(buff.pos)))
  {
    var len :- buff.ReadScalar(Int16);
    var items :- ReadRun(buff, I32, Iterations(AsInteger(len)));
    r := Ok(List(items));
  }

  /** One collection: its name, its count, then that many hashes. */
  method ReadCollection(buff: OsuBuffer) returns (r: Result<Value>)
    requires buff.Valid()
    modifies buff
    ensures buff.Valid() && Matches(r, buff.pos, CollectionAt(buff.data, old(buff.pos)))
    decreases 1, 0
  {
    var name :- buff.ReadOsuString();
    var count :- buff.ReadScalar(Int32);
    var md5s :- ReadRun(buff, Md5, Iterations(AsInteger(count)));
    r := Ok(Object(map["name" := name, "beatmapsCount" := count, "beatmapsMd5" := List(md5s)]));
  }

  /** `collections`: as many collections as the context's `collectionscount`. */
  method ReadCollections(buff: OsuBuffer, data: Context) returns (r: Result<Value>)
    requires buff.Valid()
    modifies buff
    ensures buff.Valid() && Matches(r, buff.pos, CollectionsAt(data, buff.data, old(buff.pos)))
  {
    var count :- Numeric(data, "collectionscount");
    var records :- ReadRun(buff, Collection, Iterations(count));
    r := Ok(List(records));
  }

  method ReadStarEntry(buff: OsuBuffer) returns (r: Result<(int, Value)>)
    requires buff.Valid()
    modifies buff
    ensures buff.Valid() && Matches(r, buff.pos, StarEntryAt(buff.data, old(buff.pos)))
  {
    var lead :- buff.ReadScalar(Byte);
    var mode :- buff.ReadScalar(Int32);
    var gap :- buff.ReadScalar(Byte);
    var rating :- buff.ReadScalar(Double);
    r := Ok((IntValue(Int32, mode.bits), rating));
  }

  /** `n` star-rating entries written into a table by mode id. */
  method ReadStarEntries(buff: OsuBuffer, n: nat) returns (r: Result<map<int, Value>>)
    requires buff.Valid()
    modifies buff
    ensures buff.Valid() && Matches(r, buff.pos, StarEntriesAt(buff.data, old(buff.pos), n))
  {
    ghost var p0 := buff.pos;
    var diffs: map<int, Value> := map[];
    var i := 0;
    while i < n
      invariant 0 <= i <= n && buff.Valid()
      invariant StarEntriesAt(buff.data, p0, i) == Ok((diffs, buff.pos))
    {
      var entry := ReadStarEntry(buff);
      if entry.Err? {
        StarEntriesStop(buff.data, p0, i + 1, n);
        return Err(entry.error);
      }
      diffs := diffs[entry.value.0 := entry.value.1];
      i := i + 1;
    }
    r := Ok(diffs);
  }

  /** The star ratings of one mode: a count, then that many entries. */
  method ReadStarGroup(buff: OsuBuffer) returns (r: Result<Value>)
    requires buff.Valid()
    modifies buff
    ensures buff.Valid() && Matches(r, buff.pos, StarGroupAt(buff.data, old(buff.pos)))
  {
    var len :- buff.ReadScalar(Int32);
    var diffs :- ReadStarEntries(buff, Iterations(AsInteger(len)));
    r := Ok(ModeMap(diffs));
  }

  /** Four star-rating groups, stored as standard, taiko, ctb and mania. */
  method ReadStarRatings(buff: OsuBuffer) returns (r: Result<map<string, Value>>)
    requires buff.Valid()
    modifies buff
    ensures buff.Valid() && Matches(r, buff.pos, StarRatingsAt(buff.data, old(buff.pos)))
    decreases 1, 0
  {
    var groups :- ReadRun(buff, StarGroup, 4);
    r := Ok(map[
      StarModeNames[0] := groups[0],
      StarModeNames[1] := groups[1],
      StarModeNames[2] := groups[2],
      StarModeNames[3] := groups[3]]);
  }

  method ReadTimingPoint(buff: OsuBuffer) returns (r: Result<Value>)
    requires buff.Valid()
    modifies buff
    ensures buff.Valid() && Matches(r, buff.pos, TimingPointAt(buff.data, old(buff.pos)))
  {
    var bpm :- buff.ReadScalar(Double);
    var offset :- buff.ReadScalar(Double);
    var inherited :- buff.ReadScalar(Boolean);
    r := Ok(List([bpm, offset, inherited]));
  }

  /** A count, then that many timing points, returned as a list. */
  method ReadTimingPoints(buff: OsuBuffer) returns (r: Result<Value>)
    requires buff.Valid()
    modifies buff
    ensures buff.Valid() && Matches(r, buff.pos, TimingPointsAt(buff.data, old(buff.pos)))
    decreases 1, 0
  {
    var len :- buff.ReadScalar(Int32);
    var points :- ReadRun(buff, TimingPoint, Iterations(AsInteger(len)));
    r := Ok(List(points));
  }

  /** Stages 1 and 2: the entry size (only before the version that dropped it), then the header. */
  method ReadBeatmapHead(buff: OsuBuffer, version: Option<int>) returns (r: Result<map<string, Value>>)
    requires buff.Valid()
    modifies buff
    ensures buff.Valid() && Matches(r, buff.pos, BeatmapHeadAt(version, buff.data, old(buff.pos)))
  {
    if Before(version, NO_ENTRY_SIZE_VERSION) {
      var entrySize :- buff.ReadScalar(Int32);
    }
    r := ReadFields(buff, HeaderFields);
  }

  /** Stages 3 and 4: the four difficulty stats, then the slider velocity. */
  method ReadBeatmapStats(buff: OsuBuffer, version: Option<int>) returns (r: Result<map<string, Value>>)
    requires buff.Valid()
    modifies buff
    ensures buff.Valid() && Matches(r, buff.pos, BeatmapStatsAt(version, buff.data, old(buff.pos)))
  {
    var stats :- ReadFields(buff, StatFields(version));
    var velocity :- buff.ReadScalar(Double);
    r := Ok(stats["slider_velocity" := velocity]);
  }

  /** Stages 5 to 7: the star ratings (from the float-stats version on), the times, the timing points. */
  method ReadBeatmapMiddle(buff: OsuBuffer, version: Option<int>) returns (r: Result<map<string, Value>>)
    requires buff.Valid()
    modifies buff
    ensures buff.Valid() && Matches(r, buff.pos, BeatmapMiddleAt(version, buff.data, old(buff.pos)))
    decreases 1, 1
  {
    var stars: map<string, Value> := map[];
    if AtLeast(version, FLOAT_STATS_VERSION) {
      stars :- ReadStarRatings(buff);
    }
    var times :- ReadFields(buff, TimeFields);
    var timingPoints :- ReadTimingPoints(buff);
    r := Ok(stars + times);
  }

  /** Stages 8 to 10: the tail, the int16 only before the float-stats version, the closing fields. */
  method ReadBeatmapEnd(buff: OsuBuffer, version: Option<int>) returns (r: Result<map<string, Value>>)
    requires buff.Valid()
    modifies buff
    ensures buff.Valid() && Matches(r, buff.pos, BeatmapEndAt(version, buff.data, old(buff.pos)))
  {
    var tail :- ReadFields(buff, TailFields);
    if Before(version, FLOAT_STATS_VERSION) {
      var padding :- buff.ReadScalar(Int16);
    }
    var modified :- buff.ReadScalar(Int32);
    var scrollSpeed :- buff.ReadScalar(Byte);
    r := Ok(tail + map["last_modification_time_2" := modified, "mania_scroll_speed" := scrollSpeed]);
  }

  /** One beatmap record in the layout of `version`. */
  method ReadBeatmap(buff: OsuBuffer, version: Option<int>) returns (r: Result<Value>)
    requires buff.Valid()
    modifies buff
    ensures buff.Valid() && Matches(r, buff.pos, BeatmapAt(version, buff.data, old(buff.pos)))
    decreases 2, 0
  {
    var head :- ReadBeatmapHead(buff, version);
    var stats :- ReadBeatmapStats(buff, version);
    var middle :- ReadBeatmapMiddle(buff, version);
    var end :- ReadBeatmapEnd(buff, version);
    r := Ok(Object(head + stats + middle + end));
  }

  /** `beatmaps`: as many beatmaps as the context's `beatmaps_count`, in the layout of its `osuver`. */
  method ReadBeatmaps(buff: OsuBuffer, data: Context) returns (r: Result<Value>)
    requires buff.Valid()
    modifies buff
    ensures buff.Valid() && Matches(r, buff.pos, BeatmapsAt(data, buff.data, old(buff.pos)))
  {
    var version :- Numeric(data, "osuver");
    var count :- Numeric(data, "beatmaps_count");
    var records :- ReadRun(buff, Beatmap(version), Iterations(count));
    r := Ok(List(records));
  }

  /** The interpreter: one node, dispatched on its lower-cased type name. */
  method Read(buff: OsuBuffer, layout: Node, data: Context) returns (r: Result<Value>)
    requires buff.Valid()
    modifies buff
    ensures buff.Valid() && Matches(r, buff.pos, ReadAt(layout, data, buff.data, old(buff.pos)))
    ensures r.Ok? ==> old(buff.pos) <= buff.pos
  {
    match TypeOf(layout.typeName)
    case Prim(k) => r := buff.ReadScalar(k);
    case Str => r := buff.ReadOsuString();
    case Int32Array => r := ReadInt32Array(buff);
    case Collections => r := ReadCollections(buff, data);
    case Beatmaps => r := ReadBeatmaps(buff, data);
    case Other => r := Ok(Object(data));
  }

  /** The sub-context of a `uses` item: each listed name copied from the fields decoded so far. */
  method CopyFields(names: seq<string>, data: Context) returns (dater: Context)
    ensures dater == Pick(names, data)
  {
    dater := map[];
    var j := 0;
    while j < |names|
      invariant 0 <= j <= |names|
      invariant dater == map k | k in names[..j] :: Get(data, k)
    {
      assert forall k :: k in names[..j + 1] <==> k in names[..j] || k == names[j];
      dater := dater[names[j] := Get(data, names[j])];
      j := j + 1;
    }
    assert names[..j] == names;
  }

  /** One item of a list layout, in the context its `uses` list asks for. */
  method ReadItem(buff: OsuBuffer, item: Node, data: Context) returns (r: Result<Value>)
    requires buff.Valid()
    modifies buff
    ensures buff.Valid() && Matches(r, buff.pos, ReadAt(item, UsesContext(item, data), buff.data, old(buff.pos)))
  {
    if |item.uses| > 0 {
      var dater := CopyFields(Split(item.uses, ','), data);
      r := Read(buff, item, dater);
    } else {
      r := Read(buff, item, map[]);
    }
  }

  /** The items of a list layout decoded in order, each stored under its name before the next is read. */
  method Assemble(buff: OsuBuffer, items: seq<Node>) returns (r: Result<Context>)
    requires buff.Valid()
    modifies buff
    ensures buff.Valid() && Matches(r, buff.pos, AssembleAt(items, buff.data, old(buff.pos)))
  {
    ghost var p0 := buff.pos;
    var data: Context := map[];
    var i := 0;
    while i < |items|
      invariant 0 <= i <= |items| && buff.Valid()
      invariant AssembleAt(items[..i], buff.data, p0) == Ok((data, buff.pos))
    {
      var item := items[i];
      ghost var q := buff.pos;
      var v := ReadItem(buff, item, data);
      if v.Err? {
        assert items[..i + 1][..i] == items[..i];
        AssembleStop(items, i + 1, buff.data, p0);
        return Err(v.error);
      }
      AssembleStep(items, i, buff.data, p0, data, q, v.value, buff.pos);
      data := data[item.name := v.value];
      i := i + 1;
    }
    assert items[..i] == items;
    r := Ok(data);
  }

  /** The assembler: `Null` without input; a list layout decoded item by item into one record. */
  method UnmarshalPacket(raw: Option<seq<byte>>, layout: LayoutArg) returns (r: Result<Value>)
    ensures r == UnmarshalAt(raw, layout)
  {
    if raw.None? {
      return Ok(Null);
    }
    var buff := new OsuBuffer(raw.value);
    match layout
    case Items(items) =>
      var data :- Assemble(buff, items);
      r := Ok(Object(data));
    case Single(node) =>
      var v :- Read(buff, node, map[]);
      r := Ok(v);
    case Absent =>
      r := Ok(Undefined);
  }
}
