/**
 * Layout descriptions: the node types the interpreter recognises, the
 * case-insensitive reading of a node's type name, the `uses` lists that
 * name earlier fields, and the version thresholds of the beatmap format.
 */
module Layout {
  import opened Values

  /** The closed set of node types; every unrecognised type name is `Other`. */
  datatype NodeType =
    | Prim(kind: ScalarKind)
    | Str
    | Int32Array
    | Collections
    | Beatmaps
    | Other

  /** One layout item: its type name, the field name its value is stored under,
      and a comma-separated list of earlier fields it needs ("" for none). */
  datatype Node = Node(typeName: string, name: string, uses: string)

  /** What the assembler is given as a layout: a list of items, one node, or nothing. */
  datatype LayoutArg = Items(items: seq<Node>) | Single(node: Node) | Absent

  /** Format version from which the difficulty stats are floats and star ratings are stored. */
  const FLOAT_STATS_VERSION := 20140609
  /** Format version from which a beatmap entry no longer starts with its size. */
  const NO_ENTRY_SIZE_VERSION := 20191107

  function LowerChar(c: char): char
  {
    if 'A' <= c <= 'Z' then (c as int + 32) as char else c
  }

  function Lower(s: string): (t: string)
    ensures |t| == |s|
    ensures forall i :: 0 <= i < |s| ==> t[i] == LowerChar(s[i])
  {
    if |s| == 0 then [] else [LowerChar(s[0])] + Lower(s[1..])
  }

  /** The lower-case type name of each primitive read. */
  function ScalarName(k: ScalarKind): string
  {
    match k
    case Int8 => "int8"
    case UInt8 => "uint8"
    case Int16 => "int16"
    case UInt16 => "uint16"
    case Int32 => "int32"
    case UInt32 => "uint32"
    case Int64 => "int64"
    case UInt64 => "uint64"
    case Float => "float"
    case Double => "double"
    case Boolean => "boolean"
    case Byte => "byte"
  }

  /** The dispatch of the interpreter: the type name, lower-cased, picks the node type. */
  function TypeOf(typeName: string): (r: NodeType)
    ensures r.Prim? ==> Lower(typeName) == ScalarName(r.kind)
    ensures r == Str <==> Lower(typeName) == "string"
    ensures r == Int32Array <==> Lower(typeName) == "int32array"
    ensures r == Collections <==> Lower(typeName) == "collections"
    ensures r == Beatmaps <==> Lower(typeName) == "beatmaps"
  {
    Dispatch(Lower(typeName))
  }

  /** The node type a lower-case type name selects. */
  function Dispatch(t: string): (r: NodeType)
    ensures r.Prim? ==> t == ScalarName(r.kind)
    ensures r == Str <==> t == "string"
    ensures r == Int32Array <==> t == "int32array"
    ensures r == Collections <==> t == "collections"
    ensures r == Beatmaps <==> t == "beatmaps"
  {
    if t == "int8" then Prim(Int8)
    else if t == "uint8" then Prim(UInt8)
    else if t == "int16" then Prim(Int16)
    else if t == "uint16" then Prim(UInt16)
    else if t == "int32" then Prim(Int32)
    else if t == "uint32" then Prim(UInt32)
    else if t == "int64" then Prim(Int64)
    else if t == "uint64" then Prim(UInt64)
    else if t == "string" then Str
    else if t == "float" then Prim(Float)
    else if t == "double" then Prim(Double)
    else if t == "boolean" then Prim(Boolean)
    else if t == "byte" then Prim(Byte)
    else if t == "int32array" then Int32Array
    else if t == "collections" then Collections
    else if t == "beatmaps" then Beatmaps
    else Other
  }

  /** Splitting at every separator; empty pieces are kept, as string splitting does. */
  function Split(s: string, sep: char): (parts: seq<string>)
    ensures |parts| >= 1
  {
    if |s| == 0 then [""]
    else
      var rest := Split(s[1..], sep);
      if s[0] == sep then [""] + rest else [[s[0]] + rest[0]] + rest[1..]
  }

  function Join(parts: seq<string>, sep: char): string
    requires |parts| >= 1
  {
    if |parts| == 1 then parts[0] else parts[0] + [sep] + Join(parts[1..], sep)
  }

  /** Decoded fields by name. */
  type Context = map<string, Value>

  /** Looking a field up: a missing field reads as `Undefined`. */
  function Get(ctx: Context, key: string): Value
  {
    if key in ctx then ctx[key] else Undefined
  }

  /** The named fields copied out of `data`, each missing one as `Undefined`. */
  function Pick(names: seq<string>, data: Context): (r: Context)
    ensures forall k :: k in r <==> k in names
    ensures forall k :: k in r ==> r[k] == Get(data, k)
  {
    map k | k in names :: Get(data, k)
  }

  /** The context an item is decoded in: for an item with a non-empty `uses`
      list, each listed name copied from the fields decoded so far; else empty. */
  function UsesContext(item: Node, data: Context): (r: Context)
    ensures |item.uses| == 0 ==> r == map[]
    ensures forall k :: k in r ==> r[k] == Get(data, k)
  {
    if |item.uses| > 0 then Pick(Split(item.uses, ','), data) else map[]
  }

  /** A count or version taken from the context: absent for a missing field. */
  function Numeric(ctx: Context, key: string): (r: Result<Option<int>>)
    ensures r == Ok(None) <==> key !in ctx || ctx[key].Undefined?
    ensures r.Ok? && r.value.Some? ==> r.value == AsInteger(ctx[key])
    ensures r.Err? <==> key in ctx && !ctx[key].Undefined? && AsInteger(ctx[key]).None?
    ensures r.Err? ==> r.error == NotAnInteger(key)
  {
    var v := Get(ctx, key);
    if v.Undefined? then Ok(None)
    else if AsInteger(v).Some? then Ok(AsInteger(v))
    else Err(NotAnInteger(key))
  }

  /** `version < threshold`, false for a missing version. */
  predicate Before(version: Option<int>, threshold: int)
    ensures Before(version, threshold) ==> version.Some?
  {
    version.Some? && version.value < threshold
  }

  /** `version >= threshold`, also false for a missing version. */
  predicate AtLeast(version: Option<int>, threshold: int)
    ensures AtLeast(version, threshold) <==> version.Some? && !Before(version, threshold)
  {
    version.Some? && version.value >= threshold
  }

  /** How many times `for (i = 0; i < bound; i++)` runs: `i < bound` is false for a
      missing bound, so a missing or non-positive bound gives none. */
  function Iterations(bound: Option<int>): (n: nat)
    ensures n == 0 <==> bound.None? || bound.value <= 0
    ensures n > 0 ==> bound == Some(n)
  {
    if bound.Some? && bound.value > 0 then bound.value else 0
  }
}
