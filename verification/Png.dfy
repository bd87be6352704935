/** Undoing the row filters of an 8-bit RGBA PNG (section 6 of RFC 2083). */
module Png {
  import opened Prelude

  type Byte = b: int | 0 <= b < 256
  type Row = seq<Byte>

  const PIXEL := 4

  function Abs(x: int): int {
    if x < 0 then -x else x
  }

  // ----- the filters, as the standard states them

  // Section 6.6: the nearest of left, above and corner to left + above - corner, ties in that order.
  function PaethPredictor(left: Byte, above: Byte, corner: Byte): Byte {
    var p := left + above - corner;
    var toLeft, toAbove, toCorner := Abs(p - left), Abs(p - above), Abs(p - corner);
    if toLeft <= toAbove && toLeft <= toCorner then left
    else if toAbove <= toCorner then above
    else corner
  }

  function Predicted(mode: nat, left: Byte, above: Byte, corner: Byte): Byte
    requires mode <= 4
  {
    match mode
    case 0 => 0
    case 1 => left
    case 2 => above
    case 3 => (left + above) / 2
    case _ => PaethPredictor(left, above, corner)
  }

  // The byte one pixel to the left.
  function Back(row: Row, x: nat): Byte
    requires x < |row| + PIXEL
  {
    if x >= PIXEL then row[x - PIXEL] else 0
  }

  function FilteredByte(mode: nat, row: Row, above: Row, x: nat): Byte
    requires mode <= 4 && |row| == |above| && x < |row|
  {
    (row[x] - Predicted(mode, Back(row, x), above[x], Back(above, x))) % 256
  }

  function Filtered(mode: nat, row: Row, above: Row): (filtered: Row)
    requires mode <= 4 && |row| == |above|
    ensures |filtered| == |row|
  {
    seq(|row|, x requires 0 <= x < |row| => FilteredByte(mode, row, above, x))
  }

  function Blank(n: nat): Row {
    seq(n, i => 0)
  }

  // Each row as its filter type and its filtered bytes, below `above`.
  function Encoded(rows: seq<Row>, modes: seq<nat>, above: Row): seq<Byte>
    requires |rows| == |modes| && forall y | 0 <= y < |rows| :: |rows[y]| == |above| && modes[y] <= 4
  {
    if rows == [] then [] else [modes[0]] + Filtered(modes[0], rows[0], above) + Encoded(rows[1..], modes[1..], rows[0])
  }

  // ----- the decoding

  // What to add back: for type 4 the first of the three whose distance is least.
  function Added(mode: nat, left: Byte, above: Byte, corner: Byte): Byte {
    if mode == 4 then
      var predictor := left + above - corner;
      var delta := [Abs(predictor - left), Abs(predictor - above), Abs(predictor - corner)];
      var least := if delta[0] <= delta[1] && delta[0] <= delta[2] then delta[0] else if delta[1] <= delta[2] then delta[1] else delta[2];
      if delta[0] == least then left else if delta[1] == least then above else corner
    else if mode == 1 then left
    else if mode == 2 then above
    else if mode == 3 then (left + above) / 2
    else 0
  }

  // The first `n` bytes of a row, decoded left to right.
  function Decoded(mode: nat, raw: Row, above: Row, n: nat): (row: Row)
    requires |raw| == |above| && n <= |raw|
    ensures |row| == n
  {
    if n == 0 then []
    else
      var done := Decoded(mode, raw, above, n - 1);
      done + [(raw[n - 1] + Added(mode, Back(done, n - 1), above[n - 1], Back(above, n - 1))) % 256]
  }

  // The rows below `above`, or none: a filter type past 4 is refused as soon as a byte needs it.
  function Rows(source: seq<Byte>, above: Row): (rows: Option<seq<Row>>)
    ensures rows.Some? ==> forall y | 0 <= y < |rows.value| :: |rows.value[y]| == |above|
    decreases |source|
  {
    var stride := |above|;
    if |source| <= stride then Some([])
    else if source[0] > 4 && stride > 0 then None
    else
      var row := Decoded(source[0], source[1..stride + 1], above, stride);
      var rest := Rows(source[stride + 1..], row);
      if rest.None? then None else Some([row] + rest.value)
  }

  method Predictor(mode: nat, left: Byte, above: Byte, corner: Byte) returns (add: Byte)
    requires mode <= 4
    ensures add == Added(mode, left, above, corner)
  {
    if mode == 4 {
      var predictor: int := left + above - corner;
      var toLeft, toAbove, toCorner := Abs(predictor - left), Abs(predictor - above), Abs(predictor - corner);
      var least := toLeft;
      add := left;
      if toAbove < least { least, add := toAbove, above; }
      if toCorner < least { least, add := toCorner, corner; }
    } else {
      var sum: int := left + above;
      add := if mode == 0 then 0 else if mode == 1 then left else if mode == 2 then above else sum / 2;
    }
  }

  method DecodeRow(mode: nat, row: array<Byte>, above: Row) returns (ok: bool)
    requires row.Length == |above|
    modifies row
    ensures ok <==> mode <= 4 || row.Length == 0
    ensures ok ==> row[..] == Decoded(mode, old(row[..]), above, row.Length)
  {
    hide Added;
    var x := 0;
    while x < row.Length
      invariant 0 <= x <= row.Length
      invariant x > 0 ==> mode <= 4
      invariant row[..x] == Decoded(mode, old(row[..]), above, x)
      invariant forall k | x <= k < row.Length :: row[k] == old(row[k])
    {
      ghost var done := row[..x];
      var left, up, corner := if x >= PIXEL then row[x - PIXEL] else 0, above[x], if x >= PIXEL then above[x - PIXEL] else 0;
      if mode > 4 { return false; }
      var add := Predictor(mode, left, up, corner);
      row[x] := (row[x] as int + add as int) % 256;
      assert row[..x + 1] == done + [row[x]];
      x := x + 1;
    }
    assert row[..x] == row[..];
    return true;
  }

  // The image's rows, or none when the length or a filter type is wrong.
  function Image(source: seq<Byte>, width: nat, height: nat): Option<seq<Row>> {
    if |source| != (width * 4 + 1) * height then None else Rows(source, Blank(width * 4))
  }

  ghost function Followed(done: seq<Row>, rest: Option<seq<Row>>): Option<seq<Row>> {
    if rest.None? then None else Some(done + rest.value)
  }

  method DecodeRows(source: seq<Byte>, width: nat, height: nat) returns (rows: Option<seq<Row>>)
    ensures rows == Image(source, width, height)
  {
    hide Rows;
    hide Decoded;
    hide Followed;
    var stride := width * 4;
    if |source| != (stride + 1) * height { return None; }
    var done: seq<Row> := [];
    var previous := Blank(stride);
    var y := 0;
    NoRowsYet(source, previous);
    while y < height
      invariant 0 <= y <= height && |previous| == stride
      invariant |source| == (stride + 1) * y + (stride + 1) * (height - y)
      invariant (stride + 1) * y <= |source|
      invariant Rows(source, Blank(stride)) == Followed(done, Rows(source[(stride + 1) * y..], previous))
    {
      var offset := (stride + 1) * y;
      RowFits(stride, height - y);
      assert (stride + 1) * (y + 1) == offset + stride + 1;
      var raw := source[offset + 1..offset + 1 + stride];
      var row := new Byte[stride](i requires 0 <= i < stride => raw[i]);
      assert row[..] == raw;
      var ok := DecodeRow(source[offset], row, previous);
      OneMoreRow(source, offset, done, previous, Rows(source, Blank(stride)));
      if !ok { return None; }
      done := done + [row[..]];
      previous := row[..];
      y := y + 1;
    }
    assert source[(stride + 1) * y..] == [];
    AllRows(done, previous);
    return Some(done);
  }

  lemma NoRowsYet(source: seq<Byte>, above: Row)
    ensures Rows(source, above) == Followed([], Rows(source[0..], above))
  {
    assert source[0..] == source;
    assert forall rest: seq<Row> :: [] + rest == rest;
  }

  lemma AllRows(done: seq<Row>, above: Row)
    ensures Followed(done, Rows([], above)) == Some(done)
  {
    assert done + [] == done;
  }

  lemma OneMoreRow(source: seq<Byte>, offset: nat, done: seq<Row>, above: Row, all: Option<seq<Row>>)
    requires offset + |above| + 1 <= |source| && all == Followed(done, Rows(source[offset..], above))
    ensures var row := Decoded(source[offset], source[offset + 1..offset + 1 + |above|], above, |above|);
            all == if source[offset] > 4 && |above| > 0 then None else Followed(done + [row], Rows(source[offset + |above| + 1..], row))
  {
    hide Decoded;
    hide Rows;
    hide Followed;
    NextRow(source[offset..], above);
    assert source[offset..][1..|above| + 1] == source[offset + 1..offset + 1 + |above|];
    assert source[offset..][|above| + 1..] == source[offset + |above| + 1..];
    var row := Decoded(source[offset], source[offset + 1..offset + 1 + |above|], above, |above|);
    FollowedTwice(done, row, Rows(source[offset + |above| + 1..], row));
  }

  lemma FollowedTwice(done: seq<Row>, row: Row, rest: Option<seq<Row>>)
    ensures Followed(done, Followed([row], rest)) == Followed(done + [row], rest)
    ensures Followed(done, None) == None
  {
    if rest.Some? { assert done + ([row] + rest.value) == done + [row] + rest.value; }
  }

  lemma RowFits(stride: nat, left: nat)
    requires left > 0
    ensures (stride + 1) * left == stride + 1 + (stride + 1) * (left - 1) >= stride + 1
  {
  }

  lemma NextRow(source: seq<Byte>, above: Row)
    requires |source| > |above|
    ensures var row := Decoded(source[0], source[1..|above| + 1], above, |above|);
            Rows(source, above) ==
            if source[0] > 4 && |above| > 0 then None else Followed([row], Rows(source[|above| + 1..], row))
  {
  }

  // ----- what decoding recovers

  // The code's choice is the standard's.
  lemma AddedIsPredicted(mode: nat, left: Byte, above: Byte, corner: Byte)
    requires mode <= 4
    ensures Added(mode, left, above, corner) == Predicted(mode, left, above, corner)
  {
  }

  lemma {:induction false} RowRecovered(mode: nat, row: Row, above: Row, n: nat)
    requires mode <= 4 && |row| == |above| && n <= |row|
    ensures Decoded(mode, Filtered(mode, row, above), above, n) == row[..n]
  {
    if n > 0 {
      RowRecovered(mode, row, above, n - 1);
      var x := n - 1;
      AddedIsPredicted(mode, Back(row, x), above[x], Back(above, x));
      assert Back(row[..x], x) == Back(row, x);
      Cancels(row[x], Predicted(mode, Back(row, x), above[x], Back(above, x)));
      assert row[..n] == row[..x] + [row[x]];
    }
  }

  lemma Cancels(value: Byte, predicted: Byte)
    ensures ((value - predicted) % 256 + predicted) % 256 == value
  {
  }

  lemma {:induction false} RowsRecovered(rows: seq<Row>, modes: seq<nat>, above: Row)
    requires |rows| == |modes| && forall y | 0 <= y < |rows| :: |rows[y]| == |above| && modes[y] <= 4
    ensures Rows(Encoded(rows, modes, above), above) == Some(rows)
  {
    hide Filtered;
    hide Decoded;
    if rows != [] {
      var stride := |above|;
      var filtered, rest := Filtered(modes[0], rows[0], above), Encoded(rows[1..], modes[1..], rows[0]);
      var source := Encoded(rows, modes, above);
      RowsRecovered(rows[1..], modes[1..], rows[0]);
      assert source[0] == modes[0] && source[1..stride + 1] == filtered && source[stride + 1..] == rest;
      RowRecovered(modes[0], rows[0], above, stride);
      assert rows[0][..stride] == rows[0];
      NextRow(source, above);
      assert rows == [rows[0]] + rows[1..];
    }
  }

  lemma {:induction false} EncodedLength(rows: seq<Row>, modes: seq<nat>, above: Row)
    requires |rows| == |modes| && forall y | 0 <= y < |rows| :: |rows[y]| == |above| && modes[y] <= 4
    ensures |Encoded(rows, modes, above)| == (|above| + 1) * |rows|
  {
    if rows != [] {
      EncodedLength(rows[1..], modes[1..], rows[0]);
      RowFits(|above|, |rows|);
    }
  }

  // Whatever filter each row was given, the image comes back.
  lemma ImageRecovered(rows: seq<Row>, modes: seq<nat>, width: nat)
    requires |rows| == |modes| && forall y | 0 <= y < |rows| :: |rows[y]| == width * 4 && modes[y] <= 4
    ensures Image(Encoded(rows, modes, Blank(width * 4)), width, |rows|) == Some(rows)
  {
    EncodedLength(rows, modes, Blank(width * 4));
    RowsRecovered(rows, modes, Blank(width * 4));
  }

  // ----- and from what

  lemma Restores(value: Byte, predicted: Byte)
    ensures ((value + predicted) % 256 - predicted) % 256 == value
  {
  }

  lemma {:induction false} DecodedPrefix(mode: nat, raw: Row, above: Row, n: nat, k: nat)
    requires |raw| == |above| && k <= n <= |raw|
    ensures Decoded(mode, raw, above, k) == Decoded(mode, raw, above, n)[..k]
  {
    if k < n { DecodedPrefix(mode, raw, above, n - 1, k); }
  }

  lemma RowReencoded(mode: nat, raw: Row, above: Row)
    requires mode <= 4 && |raw| == |above|
    ensures Filtered(mode, Decoded(mode, raw, above, |raw|), above) == raw
  {
    var row := Decoded(mode, raw, above, |raw|);
    forall x | 0 <= x < |raw| ensures FilteredByte(mode, row, above, x) == raw[x] {
      ByteReencoded(mode, raw, above, x);
    }
  }

  lemma ByteReencoded(mode: nat, raw: Row, above: Row, x: nat)
    requires mode <= 4 && |raw| == |above| && x < |raw|
    ensures FilteredByte(mode, Decoded(mode, raw, above, |raw|), above, x) == raw[x]
  {
    hide Predicted;
    hide Added;
    var row := Decoded(mode, raw, above, |raw|);
    DecodedPrefix(mode, raw, above, |raw|, x);
    DecodedPrefix(mode, raw, above, |raw|, x + 1);
    AddedIsPredicted(mode, Back(row, x), above[x], Back(above, x));
    assert Back(row[..x], x) == Back(row, x);
    Restores(raw[x], Predicted(mode, Back(row, x), above[x], Back(above, x)));
  }

  function Modes(source: seq<Byte>, stride: nat): seq<nat>
    decreases |source|
  {
    if |source| <= stride then [] else [source[0]] + Modes(source[stride + 1..], stride)
  }

  predicate WholeRows(source: seq<Byte>, stride: nat)
    decreases |source|
  {
    if |source| <= stride then source == [] else WholeRows(source[stride + 1..], stride)
  }

  lemma {:induction false} Whole(source: seq<Byte>, stride: nat, height: nat)
    requires |source| == (stride + 1) * height
    ensures WholeRows(source, stride)
    decreases height
  {
    if height > 0 {
      RowFits(stride, height);
      Whole(source[stride + 1..], stride, height - 1);
    }
  }

  predicate AllFilters(modes: seq<nat>) {
    forall y | 0 <= y < |modes| :: modes[y] <= 4
  }

  lemma FiltersSplit(mode: nat, rest: seq<nat>)
    ensures AllFilters([mode] + rest) <==> mode <= 4 && AllFilters(rest)
  {
    var all := [mode] + rest;
    assert all[0] == mode;
    if AllFilters(all) { forall y | 0 <= y < |rest| ensures rest[y] <= 4 { assert all[y + 1] == rest[y]; } }
  }

  // Rows come out exactly when every filter type is one of the five, and only from their own encoding;
  // a row without a byte never looks at its type.
  lemma {:induction false} OnlyFromTheirEncoding(source: seq<Byte>, above: Row)
    requires WholeRows(source, |above|)
    ensures var rows, modes := Rows(source, above), Modes(source, |above|);
            && (rows.Some? <==> above == [] || AllFilters(modes))
            && (rows.Some? ==> |rows.value| == |modes|)
            && (AllFilters(modes) ==> source == Encoded(rows.value, modes, above))
    decreases |source|
  {
    hide Decoded;
    hide Filtered;
    var stride := |above|;
    assert AllFilters([]);
    if |source| > stride {
      var modes := Modes(source, stride);
      FiltersSplit(source[0], Modes(source[stride + 1..], stride));
      assert modes[0] == source[0] && modes[1..] == Modes(source[stride + 1..], stride);
      if source[0] <= 4 || stride == 0 {
        var raw := source[1..stride + 1];
        var row := Decoded(source[0], raw, above, stride);
        OnlyFromTheirEncoding(source[stride + 1..], row);
        if source[0] <= 4 { RowReencoded(source[0], raw, above); }
        assert source == [source[0]] + raw + source[stride + 1..];
        var rows := Rows(source, above);
        assert rows.Some? ==> rows.value[1..] == Rows(source[stride + 1..], row).value;
      }
    }
  }

  // The converse of ImageRecovered: the decoder answers exactly for bytes of the right number with the
  // five filter types, and only with the rows they are the encoding of. An image without a column has no
  // byte to filter, and its types go unread.
  lemma ImageOnlyFromItsEncoding(source: seq<Byte>, width: nat, height: nat)
    ensures var rows, modes := Image(source, width, height), Modes(source, width * 4);
            && (rows.Some? <==> |source| == (width * 4 + 1) * height && (width == 0 || AllFilters(modes)))
            && (rows.Some? ==> |rows.value| == |modes| == height && forall y | 0 <= y < height :: |rows.value[y]| == width * 4)
            && (rows.Some? && AllFilters(modes) ==> source == Encoded(rows.value, modes, Blank(width * 4)))
  {
    hide Rows;
    hide Modes;
    hide Encoded;
    if |source| == (width * 4 + 1) * height {
      Whole(source, width * 4, height);
      ModesCount(source, width * 4, height);
      OnlyFromTheirEncoding(source, Blank(width * 4));
    }
  }

  lemma {:induction false} ModesCount(source: seq<Byte>, stride: nat, height: nat)
    requires |source| == (stride + 1) * height
    ensures |Modes(source, stride)| == height
    decreases height
  {
    if height > 0 {
      RowFits(stride, height);
      ModesCount(source[stride + 1..], stride, height - 1);
    }
  }
}
