/** Exchanging records in pairs leaves the computers with one content. */
module Converging {
  import opened Records
  import opened Stamps
  import Form = CanonicalForm

  // How a record is written down and hashed, and which device a fingerprint belongs to.
  datatype Encoding = Encoding(text: LinkRequest -> string, digest: Form.Content -> seq<nat>, device: string -> seq<nat>)

  // Text tells the crossings of each of these records apart, and digest what the records say.
  ghost predicate Faithful(e: Encoding, records: seq<Record>) {
    && (forall r | r in records :: Form.TellsApart(e.text, r.layout.links))
    && (forall r, s | r in records && s in records && e.digest(Form.ContentOf(r, e.text)) == e.digest(Form.ContentOf(s, e.text)) ::
          Form.ContentOf(r, e.text) == Form.ContentOf(s, e.text))
  }

  function StampOf(r: Record, e: Encoding): Stamp {
    Stamp(r.revision, e.device(r.author), e.digest(Form.ContentOf(r, e.text)))
  }

  function Copies(records: seq<Record>, e: Encoding): seq<Copy<Record>> {
    seq(|records|, i requires 0 <= i < |records| => Copy(StampOf(records[i], e), records[i]))
  }

  // Equal stamps mean equal content, whatever the order it is listed in.
  lemma EqualStampsAgree(a: Record, b: Record, e: Encoding)
    requires Check(a) && Check(b) && Faithful(e, [a, b]) && StampOf(a, e) == StampOf(b, e)
    ensures Form.SameContent(a, b)
  {
    assert a in [a, b] && b in [a, b];
    Form.SameFormExactlyWhenSameContent(a, b, e.text);
  }

  lemma ReachedComputersAgree(records: seq<Record>, e: Encoding, schedule: seq<Meeting>, from: nat, to: nat)
    requires Faithful(e, records) && forall r | r in records :: Check(r)
    requires Legal(schedule, |records|) && from < |records| && to < |records| && Reached(schedule, from, to)
    requires forall r | r in records :: AtLeast(StampOf(records[from], e), StampOf(r, e))
    ensures Form.SameContent(After(Copies(records, e), schedule)[to].record, records[from])
    ensures After(Copies(records, e), schedule)[to].record in records
  {
    hide Check;
    hide AtLeast;
    hide Form.SameContent;
    var held := Copies(records, e);
    forall c | c in held ensures AtLeast(held[from].stamp, c.stamp) && c.record in records && c.stamp == StampOf(c.record, e) {}
    GreatestStampWins(held, schedule, from, to);
    EqualStampsAgree(After(held, schedule)[to].record, records[from], e);
  }

  // ----- some encoding is faithful, whatever the records

  function IndexOf<T(==)>(list: seq<T>, x: T): (i: nat)
    ensures i <= |list| && (x in list ==> i < |list| && list[i] == x)
  {
    if list == [] || list[0] == x then 0 else IndexOf(list[1..], x) + 1
  }

  // A number in strokes.
  function Strokes(n: nat): string {
    seq(n, _ => '|')
  }

  function LinksOf(records: seq<Record>): (links: seq<LinkRequest>)
    ensures forall r, x | r in records && x in r.layout.links :: x in links
  {
    if records == [] then [] else records[0].layout.links + LinksOf(records[1..])
  }

  function ContentsOf(records: seq<Record>, text: LinkRequest -> string): seq<Form.Content> {
    seq(|records|, i requires 0 <= i < |records| => Form.ContentOf(records[i], text))
  }

  // Writing each thing as its place among the things at hand.
  function Placed(records: seq<Record>): Encoding {
    var links := LinksOf(records);
    var text := (x: LinkRequest) => Strokes(IndexOf(links, x));
    var contents := ContentsOf(records, text);
    Encoding(text, (c: Form.Content) => [IndexOf(contents, c)], (fingerprint: string) => [])
  }

  lemma FaithfulEncodingsExist(records: seq<Record>)
    ensures Faithful(Placed(records), records)
  {
    var links, e := LinksOf(records), Placed(records);
    forall r, x, y | r in records && x in r.layout.links && y in r.layout.links && e.text(x) == e.text(y) ensures x == y {
      assert |Strokes(IndexOf(links, x))| == |Strokes(IndexOf(links, y))|;
    }
    var contents := ContentsOf(records, e.text);
    forall r | r in records ensures Form.ContentOf(r, e.text) in contents {
      var i :| 0 <= i < |records| && records[i] == r;
      assert contents[i] == Form.ContentOf(r, e.text);
    }
  }
}
