/** The crossings of a rebuilt record: exactly the surviving ones, still paired off and apart. */
module Refitting {
  import opened Prelude
  import opened Records
  import opened Adapting
  import opened Surviving

  // ----- which ends are still there

  // The display a crossing's end names, whatever zeros it is written with, is still shown.
  ghost predicate Survives(members: seq<Member>, changes: seq<Option<Shown>>, id: string)
    requires |members| == |changes|
  {
    exists i, d, e :: At(members, changes, i, d, e) && ParseDisplay(d.id) == ParseDisplay(id)
  }

  // The display is gone, and another one carries its id now.
  ghost predicate Reused(members: seq<Member>, changes: seq<Option<Shown>>, id: string)
    requires |members| == |changes|
  {
    !Survives(members, changes, id) && id in Kept(members, changes)
  }

  // Written exactly as its computer lists it.
  predicate Listed(members: seq<Member>, id: string) {
    id in Names(members)
  }

  lemma CanonicalIsUnique(a: string, b: string)
    requires Canonical(a) && Canonical(b) && ParseDisplay(a) == ParseDisplay(b)
    ensures a == b
  {
  }

  lemma KeptIsCanonical(members: seq<Member>, changes: seq<Option<Shown>>, id: string)
    requires Sound(members, changes) && id in Kept(members, changes)
    ensures Canonical(id)
  {
    hide AllPairs;
    hide Canonical;
    var i, d, e := KeptIsLiving(members, changes, id);
    if changes[i].Some? { PairedIsListed(members, changes, i, d, e); }
  }

  lemma LivingIsListed(members: seq<Member>, changes: seq<Option<Shown>>, i: int, d: Display, e: Display)
    requires Sound(members, changes) && At(members, changes, i, d, e)
    ensures Listed(members, d.id) && Canonical(d.id)
  {
    var j :| 0 <= j < |members[i].displays| && members[i].displays[j] == d;
    assert members[i].displays[j].id in Names(members);
  }

  lemma ListedIsCanonical(members: seq<Member>, changes: seq<Option<Shown>>, id: string)
    requires Sound(members, changes) && Listed(members, id)
    ensures Canonical(id)
  {
    hide Canonical;
    var i, j :| 0 <= i < |members| && 0 <= j < |members[i].displays| && members[i].displays[j].id == id;
    assert Snapshot(members[i].displays);
  }

  // What the rebuild keeps, end by end.
  lemma EndKept(members: seq<Member>, changes: seq<Option<Shown>>, id: string)
    requires Sound(members, changes)
    ensures Rename(IdMap(AllPairs(members, changes)), id) in Kept(members, changes)
       <==> (Survives(members, changes, id) && Listed(members, id)) || Reused(members, changes, id)
  {
    hide AllPairs;
    hide Names;
    hide Kept;
    hide Canonical;
    if Survives(members, changes, id) {
      var i, d, e :| At(members, changes, i, d, e) && ParseDisplay(d.id) == ParseDisplay(id);
      LivingIsListed(members, changes, i, d, e);
      if id == d.id {
        RenameLiving(members, changes, i, d, e);
      } else {
        if Canonical(id) { CanonicalIsUnique(id, d.id); }
        if Listed(members, id) { ListedIsCanonical(members, changes, id); }
        forall k, c, f | At(members, changes, k, c, f) ensures c.id != id { LivingIsListed(members, changes, k, c, f); }
        RenameOther(members, changes, id);
        if id in Kept(members, changes) { KeptIsCanonical(members, changes, id); }
      }
    } else {
      RenameOther(members, changes, id);
    }
  }

  // ----- which crossings are kept

  ghost predicate BothSurvive(members: seq<Member>, changes: seq<Option<Shown>>, link: LinkRequest)
    requires |members| == |changes|
  {
    Survives(members, changes, link.fromDisplay) && Survives(members, changes, link.toDisplay)
  }

  predicate LinkKept(members: seq<Member>, changes: seq<Option<Shown>>, link: LinkRequest)
    requires |members| == |changes|
  {
    Present(Kept(members, changes), RenameLink(IdMap(AllPairs(members, changes)), link))
  }

  // The record's own crossings that the rebuild carries over.
  function CarriedOver(r: Record, changes: seq<Option<Shown>>): seq<LinkRequest>
    requires |changes| == |r.members|
  {
    Retained(r.layout.links, (link: LinkRequest) => LinkKept(r.members, changes, link))
  }

  lemma {:induction false} RetainThenMap<T, U>(s: seq<T>, f: T -> U, keep: U -> bool, keepFirst: T -> bool)
    requires forall x | x in s :: keepFirst(x) == keep(f(x))
    ensures Retained(Mapped(s, f), keep) == Mapped(Retained(s, keepFirst), f)
  {
    if s != [] {
      var last := |s| - 1;
      assert Mapped(s, f)[..last] == Mapped(s[..last], f);
      RetainThenMap(s[..last], f, keep, keepFirst);
    }
  }

  lemma {:induction false} RetainedMembers<T>(s: seq<T>, keep: T -> bool, x: T)
    ensures x in Retained(s, keep) <==> x in s && keep(x)
  {
    if s != [] {
      assert s == s[..|s| - 1] + [s[|s| - 1]];
      RetainedMembers(s[..|s| - 1], keep, x);
    }
  }

  lemma {:induction false} RetainedAgree<T>(s: seq<T>, p: T -> bool, q: T -> bool)
    requires forall x | x in s :: p(x) == q(x)
    ensures Retained(s, p) == Retained(s, q)
  {
    if s != [] { RetainedAgree(s[..|s| - 1], p, q); }
  }

  lemma RetainedExactly<T>(s: seq<T>, p: T -> bool, q: T -> bool)
    ensures Retained(s, p) == Retained(s, q) <==> forall x | x in s :: p(x) == q(x)
  {
    if forall x | x in s :: p(x) == q(x) { RetainedAgree(s, p, q); }
    if Retained(s, p) == Retained(s, q) {
      forall x | x in s ensures p(x) == q(x) { RetainedMembers(s, p, x); RetainedMembers(s, q, x); }
    }
  }

  lemma CarriedOverIsKept(r: Record, changes: seq<Option<Shown>>)
    requires |changes| == |r.members|
    ensures KeptLinks(r, changes) == Remapped(CarriedOver(r, changes), IdMap(AllPairs(r.members, changes)))
  {
    var ids, kept := IdMap(AllPairs(r.members, changes)), Kept(r.members, changes);
    RetainThenMap(r.layout.links, (link: LinkRequest) => RenameLink(ids, link), (link: LinkRequest) => Present(kept, link),
                  (link: LinkRequest) => LinkKept(r.members, changes, link));
  }

  // No crossing with a gone end is taken for another display's, and none that survives is written
  // otherwise than its computers list its ends.
  ghost predicate Tidy(r: Record, changes: seq<Option<Shown>>)
    requires |changes| == |r.members|
  {
    forall link | link in r.layout.links ::
      && !Stale(r.members, changes, link)
      && (BothSurvive(r.members, changes, link) ==> Listed(r.members, link.fromDisplay) && Listed(r.members, link.toDisplay))
  }

  ghost predicate Stale(members: seq<Member>, changes: seq<Option<Shown>>, link: LinkRequest)
    requires |members| == |changes|
  {
    var from, to := Reused(members, changes, link.fromDisplay), Reused(members, changes, link.toDisplay);
    || (from && to)
    || (from && Survives(members, changes, link.toDisplay) && Listed(members, link.toDisplay))
    || (to && Survives(members, changes, link.fromDisplay) && Listed(members, link.fromDisplay))
  }

  lemma LinkKeptExactly(members: seq<Member>, changes: seq<Option<Shown>>, link: LinkRequest)
    requires Sound(members, changes)
    ensures LinkKept(members, changes, link) == BothSurvive(members, changes, link)
       <==> !Stale(members, changes, link)
            && (BothSurvive(members, changes, link) ==> Listed(members, link.fromDisplay) && Listed(members, link.toDisplay))
  {
    hide Survives;
    hide AllPairs;
    hide Kept;
    hide Listed;
    EndKept(members, changes, link.fromDisplay);
    EndKept(members, changes, link.toDisplay);
  }

  // A rebuild keeps exactly the crossings whose two displays survive, precisely when it is tidy.
  lemma KeepsExactlyTheSurvivors(r: Record, changes: seq<Option<Shown>>)
    requires Sound(r.members, changes)
    ensures KeptLinks(r, changes) == Remapped(CarriedOver(r, changes), IdMap(AllPairs(r.members, changes)))
    ensures CarriedOver(r, changes) == Retained(r.layout.links, (link: LinkRequest) => BothSurvive(r.members, changes, link))
       <==> Tidy(r, changes)
  {
    hide AllPairs;
    hide Kept;
    hide Stale;
    hide LinkKept;
    hide BothSurvive;
    CarriedOverIsKept(r, changes);
    RetainedExactly(r.layout.links, (link: LinkRequest) => LinkKept(r.members, changes, link),
                    (link: LinkRequest) => BothSurvive(r.members, changes, link));
    forall link | link in r.layout.links { LinkKeptExactly(r.members, changes, link); }
  }

  // With every end written as listed, it is enough that no gone display's id is taken.
  lemma NoReuseIsTidy(r: Record, changes: seq<Option<Shown>>)
    requires Sound(r.members, changes)
    requires forall link | link in r.layout.links :: Listed(r.members, link.fromDisplay) && Listed(r.members, link.toDisplay)
    requires forall id | id in Names(r.members) :: !Reused(r.members, changes, id)
    ensures Tidy(r, changes)
  {
    hide Reused;
    hide Names;
  }
}
