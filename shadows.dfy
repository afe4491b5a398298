/**
  The ball's bookkeeping of its shape nodes ("shadows"). A node is a reference in the
  game, compared by identity; here each node is a record carrying a serial id that
  stands for that identity, its fill colour and its position in its parent.
 */
module Shadows {
  import opened Geometry

  /** The fill colours the ball's shapes use. */
  datatype Colour = LightBlue | White | Red

  datatype Shadow = Shadow(id: nat, colour: Colour, position: Point)

  /**
    The `for shadow in shadows { shadow.fillColor = c }` pass: every node takes colour `c`,
    and keeps its identity, its position and its place in the list.
   */
  function Recolour(s: seq<Shadow>, c: Colour): (r: seq<Shadow>)
    ensures |r| == |s|
    ensures forall i :: 0 <= i < |s| ==>
              r[i].colour == c && r[i].id == s[i].id && r[i].position == s[i].position
  {
    if s == [] then [] else [s[0].(colour := c)] + Recolour(s[1..], c)
  }

  /** Recolouring a list recolours its two parts and keeps them in their order. */
  lemma {:induction false} RecolourAppend(a: seq<Shadow>, b: seq<Shadow>, c: Colour)
    ensures Recolour(a + b, c) == Recolour(a, c) + Recolour(b, c)
  {
    if a != [] {
      RecolourAppend(a[1..], b, c);
      assert (a + b)[1..] == a[1..] + b;
    }
  }

  /** Recolouring an extended list leaves the recoloured original list as its prefix. */
  lemma RecolourKeepsPrefix(a: seq<Shadow>, b: seq<Shadow>, c: Colour)
    ensures |Recolour(a + b, c)| == |a| + |b|
    ensures Recolour(a + b, c)[..|a|] == Recolour(a, c)
  {
    RecolourAppend(a, b, c);
  }

  /** Array `removeAll { $0 == node }`: drops every entry with the identity `id`. */
  function RemoveId(s: seq<Shadow>, id: nat): (r: seq<Shadow>)
    ensures |r| <= |s|
    ensures forall x :: x in r <==> x in s && x.id != id
  {
    if s == [] then []
    else if s[0].id == id then RemoveId(s[1..], id)
    else [s[0]] + RemoveId(s[1..], id)
  }

  /** Every node in the list has colour `c`. */
  predicate AllColoured(s: seq<Shadow>, c: Colour) {
    forall i :: 0 <= i < |s| ==> s[i].colour == c
  }

  /** Removal keeps a list that is all of one colour so. */
  lemma RemoveIdKeepsColour(s: seq<Shadow>, id: nat, c: Colour)
    requires AllColoured(s, c)
    ensures AllColoured(RemoveId(s, id), c)
  {
    var r := RemoveId(s, id);
    forall i | 0 <= i < |r| ensures r[i].colour == c {
      assert r[i] in s;
    }
  }

  predicate HasId(s: seq<Shadow>, id: nat) {
    exists i :: 0 <= i < |s| && s[i].id == id
  }

  /** No node occurs twice in the list. */
  predicate NoDupIds(s: seq<Shadow>) {
    forall i, j :: 0 <= i < j < |s| ==> s[i].id != s[j].id
  }

  /** No inner shape has two outer shapes. */
  ghost predicate Injective(childOf: map<nat, nat>) {
    forall a, b :: a in childOf && b in childOf && childOf[a] == childOf[b] ==> a == b
  }

  /**
    The two lists run in step: the i-th secondary node is the child (the inner shape)
    of the i-th primary node.
   */
  ghost predicate Paired(primary: seq<Shadow>, secondary: seq<Shadow>, childOf: map<nat, nat>) {
    |primary| == |secondary| &&
    forall i :: 0 <= i < |primary| ==>
      primary[i].id in childOf && childOf[primary[i].id] == secondary[i].id
  }

  /** Removing an identity the list does not hold changes nothing. */
  lemma {:induction false} RemoveAbsentId(s: seq<Shadow>, id: nat)
    requires !HasId(s, id)
    ensures RemoveId(s, id) == s
  {
    if s != [] {
      assert !HasId(s[1..], id) by {
        forall i | 0 <= i < |s[1..]| ensures s[1..][i].id != id {
          assert s[1..][i] == s[i + 1];
        }
      }
      RemoveAbsentId(s[1..], id);
    }
  }

  /** Removing the same identity a second time changes nothing. */
  lemma RemoveIdIdempotent(s: seq<Shadow>, id: nat)
    ensures RemoveId(RemoveId(s, id), id) == RemoveId(s, id)
  {
    var r := RemoveId(s, id);
    assert !HasId(r, id) by {
      forall i | 0 <= i < |r| ensures r[i].id != id {
        assert r[i] in r;
      }
    }
    RemoveAbsentId(r, id);
  }

  /** A list without repeated nodes has none after its first entry either. */
  lemma NoDupIdsTail(s: seq<Shadow>)
    requires NoDupIds(s) && s != []
    ensures NoDupIds(s[1..])
  {
    forall i, j | 0 <= i < j < |s[1..]| ensures s[1..][i].id != s[1..][j].id {
      assert s[1..][i] == s[i + 1] && s[1..][j] == s[j + 1];
    }
  }

  /** Cutting entry `k` out of a list is keeping its head and cutting entry `k - 1` out of its tail. */
  lemma CutAfterHead<T>(s: seq<T>, k: nat)
    requires 0 < k < |s|
    ensures [s[0]] + (s[1..][..k - 1] + s[1..][k..]) == s[..k] + s[k + 1..]
  {
    assert s[1..][..k - 1] == s[1..k];
    assert s[1..][k..] == s[k + 1..];
    assert s[..k] == [s[0]] + s[1..k];
  }

  /**
    In a list without repeated nodes, removing the identity found at index `k` removes
    exactly that entry and keeps every other entry in its order.
   */
  lemma {:induction false} RemoveUniqueId(s: seq<Shadow>, id: nat, k: nat)
    requires NoDupIds(s) && k < |s| && s[k].id == id
    ensures RemoveId(s, id) == s[..k] + s[k + 1..]
  {
    var t := s[1..];
    if k == 0 {
      assert !HasId(t, id) by {
        forall i | 0 <= i < |t| ensures t[i].id != id {
          assert t[i] == s[i + 1];
        }
      }
      RemoveAbsentId(t, id);
      assert s[..0] + s[1..] == t;
    } else {
      assert s[0].id != id;
      NoDupIdsTail(s);
      RemoveUniqueId(t, id, k - 1);
      assert RemoveId(s, id) == [s[0]] + (t[..k - 1] + t[k..]);
      CutAfterHead(s, k);
    }
  }

  /** Removal never introduces a repeated node. */
  lemma {:induction false} RemoveIdKeepsNoDup(s: seq<Shadow>, id: nat)
    requires NoDupIds(s)
    ensures NoDupIds(RemoveId(s, id))
  {
    if s != [] {
      NoDupIdsTail(s);
      RemoveIdKeepsNoDup(s[1..], id);
      if s[0].id != id {
        var t := RemoveId(s[1..], id);
        forall j | 0 <= j < |t| ensures t[j].id != s[0].id {
          assert t[j] in s[1..];
          var m :| 0 <= m < |s[1..]| && s[1..][m] == t[j];
          assert s[m + 1] == t[j];
        }
        assert RemoveId(s, id) == [s[0]] + t;
      }
    }
  }

  /** Dropping the first pair keeps the rest in step. */
  lemma PairedTail(primary: seq<Shadow>, secondary: seq<Shadow>, childOf: map<nat, nat>)
    requires Paired(primary, secondary, childOf) && primary != []
    ensures Paired(primary[1..], secondary[1..], childOf)
  {
    forall i | 0 <= i < |primary[1..]|
      ensures primary[1..][i].id in childOf && childOf[primary[1..][i].id] == secondary[1..][i].id
    {
      assert primary[1..][i] == primary[i + 1] && secondary[1..][i] == secondary[i + 1];
    }
  }

  /** Putting an outer shape and its inner shape in front of lists in step keeps them in step. */
  lemma PairedCons(a: Shadow, b: Shadow, primary: seq<Shadow>, secondary: seq<Shadow>, childOf: map<nat, nat>)
    requires Paired(primary, secondary, childOf)
    requires a.id in childOf && childOf[a.id] == b.id
    ensures Paired([a] + primary, [b] + secondary, childOf)
  {
    forall i | 0 <= i < |[a] + primary|
      ensures ([a] + primary)[i].id in childOf && childOf[([a] + primary)[i].id] == ([b] + secondary)[i].id
    {
      if i > 0 {
        assert ([a] + primary)[i] == primary[i - 1] && ([b] + secondary)[i] == secondary[i - 1];
      }
    }
  }

  /**
    Removing an outer shape from the primary list and its inner shape from the
    secondary list keeps the two lists in step.
   */
  lemma {:induction false} RemovePairKeepsPairing(
    primary: seq<Shadow>, secondary: seq<Shadow>, childOf: map<nat, nat>,
    primaryId: nat, secondaryId: nat)
    requires Paired(primary, secondary, childOf) && Injective(childOf)
    requires primaryId in childOf && childOf[primaryId] == secondaryId
    ensures Paired(RemoveId(primary, primaryId), RemoveId(secondary, secondaryId), childOf)
  {
    if primary != [] {
      PairedTail(primary, secondary, childOf);
      RemovePairKeepsPairing(primary[1..], secondary[1..], childOf, primaryId, secondaryId);
      var a, b := primary[0], secondary[0];
      assert a.id in childOf && childOf[a.id] == b.id;
      // the head pair is either removed from both lists or kept in both
      assert b.id == secondaryId ==> a.id == primaryId;
      if a.id != primaryId {
        PairedCons(a, b, RemoveId(primary[1..], primaryId), RemoveId(secondary[1..], secondaryId), childOf);
      }
    }
  }

  /**
    The ball's bookkeeping invariant over the two lists, the child map and the next
    identity to hand out: the lists run in step; every outer shape's inner shape is the
    node created right after it, and both are older than `next`; no node is listed twice.
   */
  ghost predicate Bookkeeping(primary: seq<Shadow>, secondary: seq<Shadow>, childOf: map<nat, nat>, next: nat) {
    Paired(primary, secondary, childOf) &&
    (forall k :: k in childOf ==> childOf[k] == k + 1 && k + 1 < next) &&
    NoDupIds(primary) && NoDupIds(secondary)
  }

  /** Every listed node is older than the next identity. */
  lemma IdsBelow(primary: seq<Shadow>, secondary: seq<Shadow>, childOf: map<nat, nat>, next: nat)
    requires Bookkeeping(primary, secondary, childOf, next)
    ensures forall i :: 0 <= i < |primary| ==> primary[i].id < next
    ensures forall i :: 0 <= i < |secondary| ==> secondary[i].id < next
  {
    forall i | 0 <= i < |secondary| ensures secondary[i].id < next {
      assert primary[i].id in childOf;
    }
  }

  /** Appending a fresh outer shape and its fresh inner shape keeps the bookkeeping. */
  lemma AppendPairKeepsBookkeeping(
    primary: seq<Shadow>, secondary: seq<Shadow>, childOf: map<nat, nat>, next: nat,
    outer: Shadow, inner: Shadow)
    requires Bookkeeping(primary, secondary, childOf, next)
    requires outer.id == next && inner.id == next + 1
    ensures Bookkeeping(primary + [outer], secondary + [inner], childOf[next := next + 1], next + 2)
  {
    IdsBelow(primary, secondary, childOf, next);
    var p, s, m := primary + [outer], secondary + [inner], childOf[next := next + 1];
    forall i | 0 <= i < |p| ensures p[i].id in m && m[p[i].id] == s[i].id {
      if i < |primary| {
        assert p[i] == primary[i] && s[i] == secondary[i];
      }
    }
  }

  /** Removing an outer shape and its own inner shape keeps the bookkeeping. */
  lemma RemovePairKeepsBookkeeping(
    primary: seq<Shadow>, secondary: seq<Shadow>, childOf: map<nat, nat>, next: nat,
    primaryId: nat, secondaryId: nat)
    requires Bookkeeping(primary, secondary, childOf, next)
    requires primaryId in childOf && childOf[primaryId] == secondaryId
    ensures Bookkeeping(RemoveId(primary, primaryId), RemoveId(secondary, secondaryId), childOf, next)
  {
    assert Injective(childOf);
    RemovePairKeepsPairing(primary, secondary, childOf, primaryId, secondaryId);
    RemoveIdKeepsNoDup(primary, primaryId);
    RemoveIdKeepsNoDup(secondary, secondaryId);
  }

  /** Repainting the lists keeps the bookkeeping. */
  lemma RecolourKeepsBookkeeping(
    primary: seq<Shadow>, secondary: seq<Shadow>, childOf: map<nat, nat>, next: nat,
    primaryColour: Colour, secondaryColour: Colour)
    requires Bookkeeping(primary, secondary, childOf, next)
    ensures Bookkeeping(Recolour(primary, primaryColour), Recolour(secondary, secondaryColour), childOf, next)
  {
    var p, s := Recolour(primary, primaryColour), Recolour(secondary, secondaryColour);
    assert NoDupIds(p) by {
      forall i, j | 0 <= i < j < |p| ensures p[i].id != p[j].id {
        assert p[i].id == primary[i].id && p[j].id == primary[j].id;
      }
    }
    assert NoDupIds(s) by {
      forall i, j | 0 <= i < j < |s| ensures s[i].id != s[j].id {
        assert s[i].id == secondary[i].id && s[j].id == secondary[j].id;
      }
    }
  }
}
