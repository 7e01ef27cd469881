/** The order in which the walk meets the parts of a message, by their places in the tree. */
module MimeOrder {
  import opened Prelude
  import opened MimeWalk

  /** The part at the end of a path of child numbers. */
  function PartAt(p: Part, path: seq<nat>): Option<Part>
    decreases |path|
  {
    if path == [] then Some(p)
    else if path[0] < |p.parts| then PartAt(p.parts[path[0]], path[1..])
    else None
  }

  /** An outer part comes before those inside it, and what is inside a part before the parts after it. */
  predicate Before(a: seq<nat>, b: seq<nat>)
    decreases |a|
  {
    b != [] && (a == [] || a[0] < b[0] || (a[0] == b[0] && Before(a[1..], b[1..])))
  }

  function Count(p: Part): nat
    decreases p
  {
    1 + CountAll(p.parts)
  }

  function CountAll(ps: seq<Part>): nat
    decreases ps
  {
    if ps == [] then 0 else CountAll(ps[..|ps| - 1]) + Count(ps[|ps| - 1])
  }

  /** How many parts come before the one at the path. */
  function PlaceOf(p: Part, path: seq<nat>): nat
    requires PartAt(p, path).Some?
    decreases |path|
  {
    if path == [] then 0 else 1 + CountAll(p.parts[..path[0]]) + PlaceOf(p.parts[path[0]], path[1..])
  }

  lemma {:induction false} AllMet(p: Part)
    ensures |Preorder(p)| == Count(p)
    decreases p, 1
  {
    AllMetIn(p.parts);
  }

  lemma {:induction false} AllMetIn(ps: seq<Part>)
    ensures |PreorderAll(ps)| == CountAll(ps)
    decreases ps, 0
  {
    if ps != [] {
      AllMetIn(ps[..|ps| - 1]);
      AllMet(ps[|ps| - 1]);
    }
  }

  /** The parts met in the i-th child stand together, after those in the children before it. */
  lemma {:induction false} ChildStandsTogether(ps: seq<Part>, i: nat, q: nat)
    requires i < |ps| && q < Count(ps[i])
    ensures CountAll(ps[..i]) + q < CountAll(ps)
    ensures |PreorderAll(ps)| == CountAll(ps) && |Preorder(ps[i])| == Count(ps[i])
    ensures PreorderAll(ps)[CountAll(ps[..i]) + q] == Preorder(ps[i])[q]
  {
    var init := ps[..|ps| - 1];
    AllMetIn(ps);
    AllMetIn(init);
    AllMet(ps[i]);
    if i < |init| {
      ChildStandsTogether(init, i, q);
      assert init[..i] == ps[..i];
    } else {
      assert ps[..i] == init;
    }
  }

  lemma {:induction false} CountsGrow(ps: seq<Part>, i: nat, j: nat)
    requires i < j <= |ps|
    ensures CountAll(ps[..i]) + Count(ps[i]) <= CountAll(ps[..j])
  {
    assert ps[..j][..j - 1] == ps[..j - 1];
    if i < j - 1 {
      CountsGrow(ps, i, j - 1);
    }
  }

  /** The walk meets the part at every path, as many parts before it as its place says. */
  lemma {:induction false} MetAtItsPlace(p: Part, path: seq<nat>)
    requires PartAt(p, path).Some?
    ensures PlaceOf(p, path) < |Preorder(p)| && Preorder(p)[PlaceOf(p, path)] == PartAt(p, path).value
    decreases |path|
  {
    AllMet(p);
    if path != [] {
      var child := p.parts[path[0]];
      MetAtItsPlace(child, path[1..]);
      AllMet(child);
      ChildStandsTogether(p.parts, path[0], PlaceOf(child, path[1..]));
    }
  }

  /** It meets nothing else. */
  lemma {:induction false} NothingElseIsMet(p: Part, n: nat) returns (path: seq<nat>)
    requires n < |Preorder(p)|
    ensures PartAt(p, path).Some? && PlaceOf(p, path) == n
    decreases p, 1
  {
    if n == 0 {
      path := [];
    } else {
      AllMet(p);
      var i, q := ChildMet(p.parts, n - 1);
      AllMet(p.parts[i]);
      var rest := NothingElseIsMet(p.parts[i], q);
      path := [i] + rest;
      assert path[1..] == rest;
    }
  }

  lemma {:induction false} ChildMet(ps: seq<Part>, n: nat) returns (i: nat, q: nat)
    requires n < CountAll(ps)
    ensures i < |ps| && q < Count(ps[i]) && n == CountAll(ps[..i]) + q
  {
    var init := ps[..|ps| - 1];
    if n < CountAll(init) {
      i, q := ChildMet(init, n);
      assert init[..i] == ps[..i];
    } else {
      i, q := |init|, n - CountAll(init);
    }
  }

  /** And it meets them in the order of their paths. */
  lemma {:induction false} MetInOrder(p: Part, a: seq<nat>, b: seq<nat>)
    requires PartAt(p, a).Some? && PartAt(p, b).Some?
    ensures PlaceOf(p, a) < PlaceOf(p, b) <==> Before(a, b)
    decreases |a|
  {
    if a != [] && b != [] {
      var x, y := p.parts[a[0]], p.parts[b[0]];
      if a[0] == b[0] {
        MetInOrder(x, a[1..], b[1..]);
      } else {
        MetAtItsPlace(x, a[1..]);
        MetAtItsPlace(y, b[1..]);
        AllMet(x);
        AllMet(y);
        if a[0] < b[0] {
          CountsGrow(p.parts, a[0], b[0]);
        } else {
          CountsGrow(p.parts, b[0], a[0]);
        }
      }
    }
  }
}
