/**
 * The byte cursor the decoder reads through. Its primitive reads are given
 * here as functions of the buffer and a position (the reference every cursor
 * method is proved against) and as methods of a class that holds the position.
 */
module Cursor {
  import opened Values

  /** One fixed-width read at `p`: the kind's bytes, unmodified, and the position after them. */
  function ScalarAt(s: seq<byte>, p: nat, k: ScalarKind): (r: Result<(Value, nat)>)
    ensures r.Ok? <==> p + Width(k) <= |s|
    ensures r.Ok? ==> r.value.1 == p + Width(k) && r.value.0 == Scalar(k, s[p..r.value.1])
    ensures r.Err? ==> r.error == OutOfBounds
  {
    if p + Width(k) <= |s| then Ok((Scalar(k, s[p..p + Width(k)]), p + Width(k)))
    else Err(OutOfBounds)
  }

  /** An unsigned LEB128 integer at `p`: seven bits per byte, low groups first. */
  function Uleb128At(s: seq<byte>, p: nat): (r: Result<(nat, nat)>)
    ensures r.Ok? ==> p < r.value.1 <= |s|
    decreases |s| - p
  {
    if p >= |s| then Err(OutOfBounds)
    else if s[p] < 128 then Ok((s[p], p + 1))
    else
      var rest :- Uleb128At(s, p + 1);
      Ok((s[p] - 128 + 128 * rest.0, rest.1))
  }

  /**
   * A length-prefixed string at `p`: a presence byte 0x0b followed by a
   * LEB128 byte count and that many bytes; any other presence byte stands
   * for the empty string.
   */
  function StringAt(s: seq<byte>, p: nat): (r: Result<(Value, nat)>)
    ensures r.Ok? ==> r.value.0.Text? && p < r.value.1 <= |s|
  {
    if p >= |s| then Err(OutOfBounds)
    else if s[p] != 0x0b then Ok((Text([]), p + 1))
    else
      var len :- Uleb128At(s, p + 1);
      if len.1 + len.0 <= |s| then Ok((Text(s[len.1..len.1 + len.0]), len.1 + len.0))
      else Err(OutOfBounds)
  }

  /** A read-only byte buffer with a single read position that only moves forward. */
  class OsuBuffer {
    const data: seq<byte>
    var pos: nat

    ghost predicate Valid()
      reads this
    {
      pos <= |data|
    }

    constructor (bytes: seq<byte>)
      ensures Valid() && data == bytes && pos == 0
    {
      data := bytes;
      pos := 0;
    }

    method ReadScalar(k: ScalarKind) returns (r: Result<Value>)
      requires Valid()
      modifies this
      ensures Valid() && Matches(r, pos, ScalarAt(data, old(pos), k))
      ensures r.Ok? ==> pos == old(pos) + Width(k)
      ensures r.Err? ==> pos == old(pos)
    {
      var res := ScalarAt(data, pos, k);
      if res.Ok? {
        r, pos := Ok(res.value.0), res.value.1;
      } else {
        r := Err(res.error);
      }
    }

    method ReadOsuString() returns (r: Result<Value>)
      requires Valid()
      modifies this
      ensures Valid() && Matches(r, pos, StringAt(data, old(pos)))
      ensures r.Ok? ==> old(pos) < pos
      ensures r.Err? ==> pos == old(pos)
    {
      var res := StringAt(data, pos);
      if res.Ok? {
        r, pos := Ok(res.value.0), res.value.1;
      } else {
        r := Err(res.error);
      }
    }
  }
}
