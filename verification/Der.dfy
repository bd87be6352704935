/** Walking the elements of a DER SEQUENCE (section 8.1.3 of ITU-T X.690). */
module Der {
  import opened Prelude

  type Byte = b: int | 0 <= b < 256

  // `full` is the element's own bytes, `content` the ones its length counts.
  datatype Element = Element(tag: Byte, contentStart: nat, content: seq<Byte>, full: seq<Byte>, end: nat)

  const SEQUENCE: Byte := 0x30

  // ----- reading

  function BigEndian(bytes: seq<Byte>): nat {
    if bytes == [] then 0 else BigEndian(bytes[..|bytes| - 1]) * 256 + bytes[|bytes| - 1]
  }

  // Where the content starts and how long it is: the short form, or one to four length bytes.
  function Header(data: seq<Byte>, offset: nat): Option<(nat, nat)> {
    if offset + 2 > |data| then None
    else
      var marker := data[offset + 1];
      if marker < 0x80 then Some((offset + 2, marker))
      else
        var count := marker - 0x80;
        if count == 0 || count > 4 || offset + 2 + count > |data| then None
        else Some((offset + 2 + count, BigEndian(data[offset + 2..offset + 2 + count])))
  }

  function ElementAt(data: seq<Byte>, offset: nat): (e: Option<Element>)
    ensures e.Some? ==> offset + 2 <= e.value.contentStart <= e.value.end <= |data|
    ensures e.Some? ==> e.value.full == data[offset..e.value.end] && e.value.content == data[e.value.contentStart..e.value.end]
  {
    var header := Header(data, offset);
    if header.None? then None
    else
      var (start, length) := header.value;
      if start + length > |data| then None
      else Some(Element(data[offset], start, data[start..start + length], data[offset..start + length], start + length))
  }

  method DerElement(data: seq<Byte>, offset: nat) returns (e: Option<Element>)
    ensures e == ElementAt(data, offset)
  {
    if offset + 2 > |data| { return None; }
    var tag, marker := data[offset], data[offset + 1];
    var contentLength: nat, contentStart := 0, offset + 2;
    if marker < 0x80 {
      contentLength := marker;
    } else {
      var lengthBytes := marker - 0x80;
      if lengthBytes == 0 || lengthBytes > 4 || contentStart + lengthBytes > |data| { return None; }
      for index := 0 to lengthBytes
        invariant contentLength == BigEndian(data[contentStart..contentStart + index])
      {
        var upTo := data[contentStart..contentStart + index + 1];
        assert upTo[..|upTo| - 1] == data[contentStart..contentStart + index];
        contentLength := contentLength * 256 + data[contentStart + index];
      }
      contentStart := contentStart + lengthBytes;
    }
    var end := contentStart + contentLength;
    if end > |data| { return None; }
    return Some(Element(tag, contentStart, data[contentStart..end], data[offset..end], end));
  }

  // The elements from `offset` on, one after the other; each takes at least two bytes.
  function Walk(data: seq<Byte>, offset: nat): Option<seq<Element>>
    decreases |data| - offset
  {
    if offset >= |data| then if offset == |data| then Some([]) else None
    else
      var first := ElementAt(data, offset);
      if first.None? then None
      else
        var rest := Walk(data, first.value.end);
        if rest.None? then None else Some([first.value] + rest.value)
  }

  function Children(data: seq<Byte>): Option<seq<Element>> {
    var container := ElementAt(data, 0);
    if container.None? || container.value.tag != SEQUENCE || container.value.end != |data| then None
    else Walk(data, container.value.contentStart)
  }

  ghost function Followed(done: seq<Element>, rest: Option<seq<Element>>): Option<seq<Element>> {
    if rest.None? then None else Some(done + rest.value)
  }

  method DerChildren(data: seq<Byte>) returns (elements: Option<seq<Element>>)
    ensures elements == Children(data)
  {
    var container := DerElement(data, 0);
    if container.None? { return None; }
    if container.value.tag != SEQUENCE || container.value.end != |data| { return None; }
    var done: seq<Element> := [];
    var offset := container.value.contentStart;
    assert forall rest: seq<Element> :: [] + rest == rest;
    while offset < container.value.end
      invariant offset <= |data|
      invariant Children(data) == Followed(done, Walk(data, offset))
      decreases container.value.end - offset
    {
      var element := DerElement(data, offset);
      if element.None? { return None; }
      assert forall rest: seq<Element> :: done + ([element.value] + rest) == done + [element.value] + rest;
      done := done + [element.value];
      offset := element.value.end;
    }
    assert done + [] == done;
    return Some(done);
  }

  // ----- the elements tile the content

  function Concat(parts: seq<seq<Byte>>): seq<Byte> {
    if parts == [] then [] else parts[0] + Concat(parts[1..])
  }

  function Fulls(elements: seq<Element>): (fulls: seq<seq<Byte>>)
    ensures |fulls| == |elements|
  {
    seq(|elements|, i requires 0 <= i < |elements| => elements[i].full)
  }

  // Each element is where the one before it ended, and read there.
  ghost predicate Consecutive(data: seq<Byte>, elements: seq<Element>, from: nat) {
    if elements == [] then from == |data|
    else ElementAt(data, from) == Some(elements[0]) && Consecutive(data, elements[1..], elements[0].end)
  }

  lemma {:induction false} WalkTiles(data: seq<Byte>, offset: nat)
    requires Walk(data, offset).Some?
    ensures offset <= |data| && Concat(Fulls(Walk(data, offset).value)) == data[offset..]
    ensures Consecutive(data, Walk(data, offset).value, offset)
    decreases |data| - offset
  {
    if offset < |data| {
      var first, all := ElementAt(data, offset).value, Walk(data, offset).value;
      WalkTiles(data, first.end);
      assert all[1..] == Walk(data, first.end).value;
      assert Fulls(all)[1..] == Fulls(all[1..]);
      assert data[offset..] == data[offset..first.end] + data[first.end..];
    }
  }

  // On success the elements are the container's content, cut with nothing lost, added or moved.
  lemma ChildrenTileTheContent(data: seq<Byte>)
    requires Children(data).Some?
    ensures var container := ElementAt(data, 0);
            && container.Some? && container.value.full == data
            && Concat(Fulls(Children(data).value)) == container.value.content
            && Consecutive(data, Children(data).value, container.value.contentStart)
  {
    hide ElementAt;
    WalkTiles(data, ElementAt(data, 0).value.contentStart);
  }

  // ----- and what was written is read back

  function LengthBytes(n: nat): seq<Byte>
    requires n < 0x1_0000_0000
  {
    if n < 0x80 then [n]
    else if n < 0x100 then [0x81, n]
    else if n < 0x1_0000 then [0x82, n / 0x100, n % 0x100]
    else if n < 0x100_0000 then [0x83, n / 0x1_0000, n / 0x100 % 0x100, n % 0x100]
    else [0x84, n / 0x100_0000, n / 0x1_0000 % 0x100, n / 0x100 % 0x100, n % 0x100]
  }

  function Encode(tag: Byte, content: seq<Byte>): seq<Byte>
    requires |content| < 0x1_0000_0000
  {
    [tag] + LengthBytes(|content|) + content
  }

  lemma BigEndianStep(bytes: seq<Byte>, last: Byte)
    ensures BigEndian(bytes + [last]) == BigEndian(bytes) * 256 + last
  {
    assert (bytes + [last])[..|bytes|] == bytes;
  }

  lemma BigEndianOf(a: Byte, b: Byte, c: Byte, d: Byte)
    ensures BigEndian([a]) == a
    ensures BigEndian([a, b]) == a * 0x100 + b
    ensures BigEndian([a, b, c]) == a * 0x1_0000 + b * 0x100 + c
    ensures BigEndian([a, b, c, d]) == a * 0x100_0000 + b * 0x1_0000 + c * 0x100 + d
  {
    assert BigEndian([]) == 0;
    BigEndianStep([], a);
    assert [] + [a] == [a];
    BigEndianStep([a], b);
    assert [a] + [b] == [a, b];
    BigEndianStep([a, b], c);
    assert [a, b] + [c] == [a, b, c];
    BigEndianStep([a, b, c], d);
    assert [a, b, c] + [d] == [a, b, c, d];
  }

  lemma LengthReads(n: nat)
    requires 0x80 <= n < 0x1_0000_0000
    ensures var bytes := LengthBytes(n); 1 < |bytes| <= 5 && bytes[0] == 0x80 + |bytes| - 1 && BigEndian(bytes[1..]) == n
  {
    hide BigEndian;
    if n < 0x100 {
      BigEndianOf(n, 0, 0, 0);
      assert LengthBytes(n)[1..] == [n];
    } else if n < 0x1_0000 {
      BigEndianOf(n / 0x100, n % 0x100, 0, 0);
      assert LengthBytes(n)[1..] == [n / 0x100, n % 0x100];
    } else if n < 0x100_0000 {
      BigEndianOf(n / 0x1_0000, n / 0x100 % 0x100, n % 0x100, 0);
      assert LengthBytes(n)[1..] == [n / 0x1_0000, n / 0x100 % 0x100, n % 0x100];
      assert n / 0x100 / 0x100 == n / 0x1_0000;
    } else {
      BigEndianOf(n / 0x100_0000, n / 0x1_0000 % 0x100, n / 0x100 % 0x100, n % 0x100);
      assert LengthBytes(n)[1..] == [n / 0x100_0000, n / 0x1_0000 % 0x100, n / 0x100 % 0x100, n % 0x100];
      assert n / 0x100 / 0x100 == n / 0x1_0000 && n / 0x1_0000 / 0x100 == n / 0x100_0000;
    }
  }

  function Start(before: seq<Byte>, content: seq<Byte>): nat
    requires |content| < 0x1_0000_0000
  {
    |before| + 1 + |LengthBytes(|content|)|
  }

  lemma HeaderReads(before: seq<Byte>, tag: Byte, content: seq<Byte>, after: seq<Byte>)
    requires |content| < 0x1_0000_0000
    ensures Header(before + Encode(tag, content) + after, |before|) == Some((Start(before, content), |content|))
  {
    var n, lengths, data := |content|, LengthBytes(|content|), before + Encode(tag, content) + after;
    assert data[|before| + 1..|before| + 1 + |lengths|] == lengths;
    assert data[|before| + 1] == lengths[0];
    if n >= 0x80 {
      LengthReads(n);
      hide LengthBytes;
      assert data[|before| + 2..|before| + 1 + |lengths|] == lengths[1..];
    }
  }

  // An element is read back from wherever it is written.
  lemma ElementReads(before: seq<Byte>, tag: Byte, content: seq<Byte>, after: seq<Byte>)
    requires |content| < 0x1_0000_0000
    ensures ElementAt(before + Encode(tag, content) + after, |before|)
         == Some(Element(tag, Start(before, content), content, Encode(tag, content), |before| + |Encode(tag, content)|))
  {
    hide Header;
    hide LengthBytes;
    var data := before + Encode(tag, content) + after;
    HeaderReads(before, tag, content, after);
    var start := Start(before, content);
    assert data[start..start + |content|] == content;
    assert data[|before|..start + |content|] == Encode(tag, content);
  }

  datatype Item = Item(tag: Byte, content: seq<Byte>)

  predicate Short(items: seq<Item>) {
    forall i | 0 <= i < |items| :: |items[i].content| < 0x1_0000_0000
  }

  function EncodeAll(items: seq<Item>): seq<Byte>
    requires Short(items)
  {
    if items == [] then [] else Encode(items[0].tag, items[0].content) + EncodeAll(items[1..])
  }

  function Read(elements: seq<Element>): (items: seq<Item>)
    ensures |items| == |elements|
  {
    seq(|elements|, i requires 0 <= i < |elements| => Item(elements[i].tag, elements[i].content))
  }

  lemma {:induction false} WalkReads(before: seq<Byte>, items: seq<Item>)
    requires Short(items)
    ensures var walked := Walk(before + EncodeAll(items), |before|); walked.Some? && Read(walked.value) == items
    decreases |items|
  {
    hide Header;
    hide ElementAt;
    var data := before + EncodeAll(items);
    if items == [] {
      assert data == before;
    } else {
      var first := Encode(items[0].tag, items[0].content);
      ElementReads(before, items[0].tag, items[0].content, EncodeAll(items[1..]));
      assert data == before + first + EncodeAll(items[1..]);
      WalkReads(before + first, items[1..]);
      assert items == [items[0]] + items[1..];
    }
  }

  // Any list of elements in a SEQUENCE comes back exactly.
  lemma ChildrenReadBack(items: seq<Item>)
    requires Short(items) && |EncodeAll(items)| < 0x1_0000_0000
    ensures var children := Children(Encode(SEQUENCE, EncodeAll(items))); children.Some? && Read(children.value) == items
  {
    hide ElementAt;
    hide EncodeAll;
    hide LengthBytes;
    var content := EncodeAll(items);
    var data, before := Encode(SEQUENCE, content), [SEQUENCE] + LengthBytes(|content|);
    ElementReads([], SEQUENCE, content, []);
    assert [] + data + [] == data;
    assert data == before + content;
    WalkReads(before, items);
  }
}
