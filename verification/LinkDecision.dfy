/** The decision pass of a link: which of the two computers proposes its record. */
module LinkDecision {
  import opened Prelude
  import opened Orders
  import opened Stamps

  // One end of a link. `saved`: the stamp of its record, when it has one naming both ends. `heard`:
  // what the other end's summary says it holds, once one naming both ends arrived. `busy`: a proposal
  // is pending, nothing fits, or one was refused too recently. `rebuilds`: some valid rebuild of the
  // record fits the displays shown now. `flip`: a control switch is waiting.
  datatype End = End(
    device: seq<nat>,
    saved: Option<Stamp>,
    heard: Option<Option<Stamp>>,
    fits: bool,
    rebuilds: bool,
    settled: bool,
    busy: bool,
    flip: bool)

  datatype Decision = Nothing | WaitForPeer | NothingFits | ProposeAsIs | ProposeRefit

  predicate Proposes(d: Decision) {
    d.ProposeAsIs? || d.ProposeRefit?
  }

  predicate SameContent(a: Option<Stamp>, b: Option<Stamp>) {
    a.Some? && b.Some? && a.value.content == b.value.content
  }

  // A missing stamp is below every stamp.
  function CompareHeld(a: Option<Stamp>, b: Option<Stamp>): Ordering {
    match (a, b)
    case (None, None) => Equal
    case (None, Some(_)) => Less
    case (Some(_), None) => Greater
    case (Some(x), Some(y)) => Compare(x, y)
  }

  // Whose turn it is: the lower DeviceId's when contents agree, the greater stamp's when they do not.
  predicate Acts(me: End, peer: seq<nat>)
    requires me.heard.Some?
  {
    if SameContent(me.saved, me.heard.value) then CompareSeq(me.device, peer).Less?
    else CompareHeld(me.saved, me.heard.value).Greater?
  }

  function Refit(me: End): Decision {
    if !me.settled then Nothing else if me.rebuilds then ProposeRefit else NothingFits
  }

  function Decide(me: End, peer: seq<nat>): Decision {
    if me.busy || me.heard.None? then Nothing
    else if me.flip && me.saved.Some? then if me.fits then ProposeAsIs else Refit(me)
    else if me.saved.None? then Nothing
    else if !Acts(me, peer) then if me.fits then Nothing else WaitForPeer
    else if !me.settled then Nothing
    else if me.fits then ProposeAsIs
    else Refit(me)
  }

  predicate CanPropose(me: End) {
    me.fits || me.rebuilds
  }

  // Each end heard truly what the other holds, and the two are different computers.
  predicate Met(a: End, b: End) {
    a.heard == Some(b.saved) && b.heard == Some(a.saved) && a.device != b.device
  }

  lemma CompareHeldReverses(a: Option<Stamp>, b: Option<Stamp>)
    ensures CompareHeld(b, a) == CompareHeld(a, b).Reverse()
    ensures CompareHeld(a, b).Equal? <==> a == b
  {
    if a.Some? && b.Some? {
      CompareSeqReverses(a.value.author, b.value.author);
      CompareSeqReverses(a.value.content, b.value.content);
      CompareSeqTies(a.value.author, b.value.author);
      CompareSeqTies(a.value.content, b.value.content);
    }
  }

  // Exactly one end acts as soon as either holds a record.
  lemma ExactlyOneActs(a: End, b: End)
    requires Met(a, b)
    ensures a.saved.Some? || b.saved.Some? ==> (Acts(a, b.device) <==> !Acts(b, a.device))
    ensures a.saved.None? && b.saved.None? ==> !Acts(a, b.device) && !Acts(b, a.device)
    ensures Acts(a, b.device) ==> a.saved.Some?
  {
    CompareSeqReverses(a.device, b.device);
    CompareSeqTies(a.device, b.device);
    CompareHeldReverses(a.saved, b.saved);
  }

  lemma AtMostOneProposes(a: End, b: End)
    requires Met(a, b) && !a.flip && !b.flip
    ensures !(Proposes(Decide(a, b.device)) && Proposes(Decide(b, a.device)))
  {
    ExactlyOneActs(a, b);
  }

  lemma ExactlyOneProposes(a: End, b: End)
    requires Met(a, b) && !a.flip && !b.flip && (a.saved.Some? || b.saved.Some?)
    requires !a.busy && !b.busy && a.settled && b.settled && CanPropose(a) && CanPropose(b)
    ensures Proposes(Decide(a, b.device)) <==> !Proposes(Decide(b, a.device))
  {
    ExactlyOneActs(a, b);
    ExactlyOneActs(b, a);
  }

  // Some end proposes exactly when the end that acts has something to propose and its displays rest.
  lemma SomeoneProposesExactly(a: End, b: End)
    requires Met(a, b) && !a.flip && !b.flip
    ensures Proposes(Decide(a, b.device)) || Proposes(Decide(b, a.device))
       <==> (Acts(a, b.device) && Ready(a)) || (Acts(b, a.device) && Ready(b))
  {
    ExactlyOneActs(a, b);
    ExactlyOneActs(b, a);
  }

  predicate Ready(me: End) {
    !me.busy && me.settled && CanPropose(me)
  }

  // What it takes to propose: with a control switch waiting the stamps do not matter, and a record that
  // fits goes out before the displays rest; without one it must be this end's turn.
  predicate Sends(me: End, peer: seq<nat>)
    requires me.heard.Some?
  {
    && !me.busy && me.saved.Some?
    && if me.flip then me.fits || (me.settled && me.rebuilds) else Acts(me, peer) && me.settled && CanPropose(me)
  }

  // So both may propose at once: exactly when a switch waits on one end and each has what it takes.
  lemma BothProposeExactlyWithAFlip(a: End, b: End)
    requires Met(a, b)
    ensures Proposes(Decide(a, b.device)) && Proposes(Decide(b, a.device))
       <==> (a.flip || b.flip) && Sends(a, b.device) && Sends(b, a.device)
  {
    ExactlyOneActs(a, b);
  }

  lemma FlipsCollide() returns (a: End, b: End)
    ensures Met(a, b) && a.flip && !b.flip
    ensures Proposes(Decide(a, b.device)) && Proposes(Decide(b, a.device))
  {
    var old', new' := Stamp(1, [0], [0]), Stamp(2, [1], [1]);
    a := End([0], Some(old'), Some(Some(new')), true, true, true, false, true);
    b := End([1], Some(new'), Some(Some(old')), true, true, true, false, false);
  }

  // Once both ends keep the greater of what they hold and a record proposed as it is, they hold the
  // same content.
  lemma AsIsProposalAgrees<T>(a: End, b: End, mine: Copy<T>, theirs: Option<Copy<T>>)
    requires Met(a, b) && !a.flip && Decide(a, b.device) == ProposeAsIs
    requires a.saved == Some(mine.stamp)
    requires b.saved == if theirs.Some? then Some(theirs.value.stamp) else None
    ensures var kept := if theirs.Some? then Merge(theirs.value, mine) else mine;
            && kept.stamp.content == mine.stamp.content
            && (theirs.Some? ==> Merge(mine, theirs.value).stamp.content == kept.stamp.content)
  {
    if theirs.Some? { CompareHeldReverses(a.saved, b.saved); }
  }
}
