/** Names of saved arrangements: the ones users type and the ones generated from display names. */
module EntryNames {
  import opened Prelude
  import opened Records
  import opened Adapting

  const MAX_NAME_CHARS: nat := 64
  const MAX_ARRANGEMENTS: nat := 32
  const ARROW := '\U{2194}'
  const MARK := '\U{2026}'

  // Unicode's control category and White_Space property.
  predicate IsControl(c: char) {
    var n := c as int;
    n < 0x20 || 0x7F <= n < 0xA0
  }

  predicate IsSpace(c: char) {
    var n := c as int;
    || 0x09 <= n <= 0x0D || n == 0x20 || n == 0x85 || n == 0xA0 || n == 0x1680 || 0x2000 <= n <= 0x200A
    || n == 0x2028 || n == 0x2029 || n == 0x202F || n == 0x205F || n == 0x3000
  }

  function TrimStart(s: string): string {
    if s != "" && IsSpace(s[0]) then TrimStart(s[1..]) else s
  }

  function TrimEndWhere(s: string, drop: char -> bool): (kept: string)
    ensures kept <= s
  {
    if s != "" && drop(s[|s| - 1]) then TrimEndWhere(s[..|s| - 1], drop) else s
  }

  function Trim(s: string): string {
    TrimEndWhere(TrimStart(s), IsSpace)
  }

  predicate OneLine(s: string) {
    forall i | 0 <= i < |s| :: !IsControl(s[i])
  }

  // Trimmed, one line, 1 to 64 characters.
  function Normalized(name: string): Option<string> {
    var trimmed := Trim(name);
    if trimmed == "" || |trimmed| > MAX_NAME_CHARS || !OneLine(trimmed) then None else Some(trimmed)
  }

  predicate Legal(name: string) {
    Normalized(name) == Some(name)
  }

  function Readable(name: string): string {
    seq(|name|, i requires 0 <= i < |name| => if IsControl(name[i]) then ' ' else name[i])
  }

  predicate Separator(c: char) {
    c == ' ' || c == '+' || c == ARROW
  }

  // Text over the room loses its tail, and any separators left dangling there, to an ellipsis.
  function Shortened(base: string, room: nat): string {
    if |base| <= room then base
    else
      var head := base[..if room == 0 then 0 else room - 1];
      TrimEndWhere(TrimEndWhere(head, Separator), IsSpace) + [MARK]
  }

  function Join(parts: seq<string>, separator: string): string {
    if parts == [] then ""
    else if |parts| == 1 then parts[0]
    else parts[0] + separator + Join(parts[1..], separator)
  }

  function DisplayNames(member: Member): string {
    Join(Mapped(member.displays, (d: Display) => Readable(d.name)), " + ")
  }

  // This computer's displays first, the others in member order.
  function LocalFirst(members: seq<Member>, local: string): seq<Member> {
    Retained(members, (m: Member) => Key(m.fingerprint) == local) + Retained(members, (m: Member) => Key(m.fingerprint) != local)
  }

  function Base(r: Record, local: string): string {
    Join(Mapped(LocalFirst(r.members, Key(local)), DisplayNames), [' ', ARROW, ' '])
  }

  function Suffix(attempt: nat): string {
    if attempt == 1 then "" else " " + Decimal(attempt)
  }

  function Candidate(base: string, attempt: nat): Option<string> {
    var room := if |Suffix(attempt)| <= MAX_NAME_CHARS then MAX_NAME_CHARS - |Suffix(attempt)| else 0;
    Normalized(Shortened(base, room) + Suffix(attempt))
  }

  // ----- trimming

  // Leading whitespace ends at `k`.
  ghost predicate InkAt(s: string, k: nat) {
    k <= |s| && (forall i | 0 <= i < k :: IsSpace(s[i])) && (k < |s| ==> !IsSpace(s[k]))
  }

  lemma {:induction false} TrimStartSpec(s: string) returns (k: nat)
    ensures InkAt(s, k) && TrimStart(s) == s[k..]
  {
    hide IsSpace;
    k := 0;
    if s != "" && IsSpace(s[0]) {
      var l := TrimStartSpec(s[1..]);
      k := l + 1;
      assert s[1..][l..] == s[k..];
      assert forall i | 0 < i < k :: s[i] == s[1..][i - 1];
    }
  }

  lemma {:induction false} TrimEndStops(s: string, drop: char -> bool)
    ensures var kept := TrimEndWhere(s, drop);
            && (kept != "" ==> !drop(kept[|kept| - 1]))
            && (forall i | |kept| <= i < |s| :: drop(s[i]))
  {
    if s != "" && drop(s[|s| - 1]) { TrimEndStops(s[..|s| - 1], drop); }
  }

  // A trimmed text starts and ends with ink, and is a stretch of the original.
  lemma TrimSpec(s: string)
    ensures var t := Trim(s);
            && |t| <= |s| && (OneLine(s) ==> OneLine(t))
            && (t != "" ==> !IsSpace(t[0]) && !IsSpace(t[|t| - 1]))
            && (forall i | 0 <= i < |s| && !IsSpace(s[i]) :: s[i] in t)
  {
    hide IsSpace;
    hide IsControl;
    var k := TrimStartSpec(s);
    var t := Trim(s);
    TrimEndStops(s[k..], IsSpace);
    assert t <= s[k..];
    assert forall j | 0 <= j < |t| :: t[j] == s[k + j];
    forall i | 0 <= i < |s| && !IsSpace(s[i]) ensures s[i] in t {
      assert i >= k && s[k..][i - k] == s[i];
      assert i - k < |t| && t[i - k] == s[i];
    }
  }

  lemma TrimStays(s: string)
    requires s != "" ==> !IsSpace(s[0]) && !IsSpace(s[|s| - 1])
    ensures Trim(s) == s
  {
  }

  // A normalized name is legal as it stands.
  lemma NormalizedIsLegal(name: string)
    requires Normalized(name).Some?
    ensures Legal(Normalized(name).value)
  {
    TrimSpec(name);
    TrimStays(Trim(name));
  }

  // ----- numbers at the end

  lemma {:induction false} DecimalDigits(n: nat)
    ensures Decimal(n) != "" && forall i | 0 <= i < |Decimal(n)| :: IsDigit(Decimal(n)[i])
    ensures n < 100 ==> |Decimal(n)| <= 2
  {
    if n >= 10 { DecimalDigits(n / 10); }
  }

  lemma {:induction false} DecimalValue(n: nat)
    ensures (forall i | 0 <= i < |Decimal(n)| :: IsDigit(Decimal(n)[i])) && Value(Decimal(n)) == n
  {
    DecimalDigits(n);
    var d := Decimal(n);
    if n >= 10 {
      DecimalValue(n / 10);
      assert d[..|d| - 1] == Decimal(n / 10);
    } else {
      assert d[..|d| - 1] == "";
    }
  }

  // Ends in this number: nothing before it, or a space.
  ghost predicate EndsIn(s: string, n: nat) {
    var d := Decimal(n);
    |d| <= |s| && s[|s| - |d|..] == d && (|d| < |s| ==> s[|s| - |d| - 1] == ' ')
  }

  lemma OneEnding(s: string, n: nat, m: nat)
    requires EndsIn(s, n) && EndsIn(s, m)
    ensures n == m
  {
    DecimalValue(n);
    DecimalValue(m);
    SameLength(s, n, m);
    SameLength(s, m, n);
  }

  lemma SameLength(s: string, n: nat, m: nat)
    requires EndsIn(s, n) && EndsIn(s, m)
    ensures |Decimal(n)| <= |Decimal(m)|
  {
    if |Decimal(m)| < |Decimal(n)| { DigitFromTheEnd(s, n, |Decimal(m)|); }
  }

  lemma DigitFromTheEnd(s: string, n: nat, k: nat)
    requires EndsIn(s, n) && k < |Decimal(n)|
    ensures IsDigit(s[|s| - 1 - k])
  {
    var d := Decimal(n);
    DecimalDigits(n);
    assert s[|s| - |d|..][|d| - 1 - k] == s[|s| - 1 - k];
  }

  // ----- every attempt gives a legal name, and all but the first give different ones

  lemma ShortenedFits(base: string, room: nat)
    requires 0 < room && OneLine(base)
    ensures |Shortened(base, room)| <= room && OneLine(Shortened(base, room))
  {
    if |base| > room {
      var head := base[..room - 1];
      assert TrimEndWhere(head, Separator) <= head;
      assert TrimEndWhere(TrimEndWhere(head, Separator), IsSpace) <= TrimEndWhere(head, Separator);
    }
  }

  lemma FirstCandidate(base: string)
    requires OneLine(base) && ARROW in base
    ensures Candidate(base, 1).Some? && Legal(Candidate(base, 1).value)
  {
    var s := Shortened(base, 64);
    ShortenedFits(base, 64);
    assert s + Suffix(1) == s;
    var ink := if |base| <= 64 then ARROW else MARK;
    assert ink in s;
    TrimSpec(s);
    NormalizedIsLegal(s);
  }

  lemma DigitIsInk(c: char)
    requires IsDigit(c)
    ensures !IsSpace(c) && !IsControl(c)
  {
  }

  lemma LaterCandidate(base: string, attempt: nat)
    requires OneLine(base) && 2 <= attempt <= MAX_ARRANGEMENTS + 1
    ensures Candidate(base, attempt).Some? && Legal(Candidate(base, attempt).value) && EndsIn(Candidate(base, attempt).value, attempt)
  {
    hide Decimal;
    hide Normalized;
    hide Suffix;
    hide OneLine;
    hide EndsIn;
    hide Legal;
    hide Shortened;
    var d := Decimal(attempt);
    LaterSuffix(attempt);
    var s := Shortened(base, 63 - |d|);
    ShortenedFits(base, 63 - |d|);
    LaterName(s, attempt);
  }

  lemma LaterSuffix(attempt: nat)
    requires 2 <= attempt <= MAX_ARRANGEMENTS + 1
    ensures Suffix(attempt) == " " + Decimal(attempt) && 0 < |Decimal(attempt)| <= 2
  {
    DecimalDigits(attempt);
  }

  lemma LaterName(s: string, attempt: nat)
    requires OneLine(s) && 0 < |Decimal(attempt)| <= 2 && |s| <= 63 - |Decimal(attempt)|
    ensures var name := Normalized(s + (" " + Decimal(attempt))); name.Some? && Legal(name.value) && EndsIn(name.value, attempt)
  {
    hide Decimal;
    hide Trim;
    hide OneLine;
    hide IsSpace;
    hide Legal;
    var d := Decimal(attempt);
    DecimalDigits(attempt);
    OneLineSum(s, d);
    NumberStays(s, d);
    TrimSpec(s + (" " + d));
    NormalizedIsLegal(s + (" " + d));
  }

  lemma OneLineSum(s: string, d: string)
    requires OneLine(s) && forall i | 0 <= i < |d| :: IsDigit(d[i])
    ensures OneLine(s + (" " + d))
  {
    forall i | 0 <= i < |d| ensures !IsControl(d[i]) { DigitIsInk(d[i]); }
  }

  lemma NumberStays(s: string, d: string)
    requires d != "" && forall i | 0 <= i < |d| :: IsDigit(d[i])
    ensures var t := Trim(s + (" " + d)); |d| <= |t| && t[|t| - |d|..] == d && (|d| < |t| ==> t[|t| - |d| - 1] == ' ')
  {
    hide IsSpace;
    hide IsDigit;
    var whole := s + (" " + d);
    var k := TrimStartSpec(whole);
    assert whole[|s| + 1..] == d && whole[|s|] == ' ';
    DigitIsInk(d[0]);
    DigitIsInk(d[|d| - 1]);
    assert whole[|s| + 1] == d[0];
    assert k <= |s| + 1;
    var t := whole[k..];
    assert t[|t| - 1] == d[|d| - 1];
    assert TrimEndWhere(t, IsSpace) == t;
    assert t[|t| - |d|..] == d;
  }

  // ----- the base of generated names

  lemma {:induction false} JoinOneLine(parts: seq<string>, separator: string)
    requires OneLine(separator) && forall i | 0 <= i < |parts| :: OneLine(parts[i])
    ensures OneLine(Join(parts, separator))
  {
    if |parts| > 1 {
      JoinOneLine(parts[1..], separator);
      assert OneLine(parts[0]);
    }
  }

  lemma JoinHasSeparator(parts: seq<string>, separator: string, c: char)
    requires |parts| >= 2 && c in separator
    ensures c in Join(parts, separator)
  {
    assert c in parts[0] + separator;
  }

  lemma {:induction false} RetainedSplits<T>(s: seq<T>, keep: T -> bool, drop: T -> bool)
    requires forall x | x in s :: keep(x) != drop(x)
    ensures |Retained(s, keep)| + |Retained(s, drop)| == |s|
  {
    if s != [] {
      var last := |s| - 1;
      assert s[last] in s;
      RetainedSplits(s[..last], keep, drop);
    }
  }

  lemma NamesOneLine(member: Member)
    ensures OneLine(DisplayNames(member))
  {
    JoinOneLine(Mapped(member.displays, (d: Display) => Readable(d.name)), " + ");
  }

  // The names of two or more computers' displays, joined by an arrow, hold no control character.
  lemma BaseReads(r: Record, local: string)
    requires |r.members| >= 2
    ensures OneLine(Base(r, local)) && ARROW in Base(r, local)
  {
    hide DisplayNames;
    hide Key;
    var key := Key(local);
    RetainedSplits(r.members, (m: Member) => Key(m.fingerprint) == key, (m: Member) => Key(m.fingerprint) != key);
    var parts := Mapped(LocalFirst(r.members, key), DisplayNames);
    forall i | 0 <= i < |parts| ensures OneLine(parts[i]) { NamesOneLine(LocalFirst(r.members, key)[i]); }
    JoinOneLine(parts, [' ', ARROW, ' ']);
    JoinHasSeparator(parts, [' ', ARROW, ' '], ARROW);
  }
}
