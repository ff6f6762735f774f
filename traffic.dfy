/** The obstacle pass shared by both frame loops: every obstacle in the list is
    lowered, tested against the player's box and, once it has left the screen,
    removed. The loop walks a snapshot of the list while removing from the list
    itself; here it walks the old sequence and builds the new one. */
module Traffic {
  import opened Arcade

  /** What one pass leaves behind: the obstacle list as it now stands, how many
      obstacles left the screen and were removed, and whether the pass stopped
      on a collision with the player. */
  datatype Pass = Pass(kept: seq<Rect>, dodged: nat, hit: bool)

  /** The pass over the first |obs| obstacles, in list order. Each visited
      obstacle is lowered by dy. If it then overlaps the player the pass stops:
      it stays in the list and the obstacles not yet visited keep their old
      position. Otherwise it is removed when its y is beyond `bottom`. Every
      obstacle is either in the new list or counted as removed. */
  function Sweep(obs: seq<Rect>, dy: int, player: Rect, bottom: int): (r: Pass)
    ensures |r.kept| + r.dodged == |obs|
    decreases |obs|
  {
    if obs == [] then Pass([], 0, false)
    else
      var p := Sweep(obs[..|obs| - 1], dy, player, bottom);
      var o := obs[|obs| - 1];
      if p.hit then Pass(p.kept + [o], p.dodged, true)
      else
        var m := Lowered(o, dy);
        if Collide(m, player) then Pass(p.kept + [m], p.dodged, true)
        else if m.y > bottom then Pass(p.kept, p.dodged + 1, false)
        else Pass(p.kept + [m], p.dodged, false)
  }

  // Reference definitions: the same pass described obstacle by obstacle.

  /** Every obstacle lowered by dy. */
  function Moved(obs: seq<Rect>, dy: int): seq<Rect>
  {
    seq(|obs|, i requires 0 <= i < |obs| => Lowered(obs[i], dy))
  }

  /** The obstacles not beyond the bottom line, in their original order. */
  function Kept(ms: seq<Rect>, bottom: int): seq<Rect>
  {
    if ms == [] then []
    else (if ms[0].y > bottom then [] else [ms[0]]) + Kept(ms[1..], bottom)
  }

  /** How many obstacles are beyond the bottom line. */
  function Beyond(ms: seq<Rect>, bottom: int): nat
  {
    if ms == [] then 0
    else (if ms[0].y > bottom then 1 else 0) + Beyond(ms[1..], bottom)
  }

  /** Some obstacle overlaps the player. */
  predicate Hits(ms: seq<Rect>, player: Rect)
  {
    exists i :: 0 <= i < |ms| && Collide(ms[i], player)
  }

  lemma {:induction false} KeptSnoc(ms: seq<Rect>, m: Rect, bottom: int)
    ensures Kept(ms + [m], bottom) == Kept(ms, bottom) + (if m.y > bottom then [] else [m])
    ensures Beyond(ms + [m], bottom) == Beyond(ms, bottom) + (if m.y > bottom then 1 else 0)
    decreases |ms|
  {
    if ms == [] {
      assert [m][1..] == [];
    } else {
      assert (ms + [m])[1..] == ms[1..] + [m];
      KeptSnoc(ms[1..], m, bottom);
    }
  }

  lemma MovedPrefix(obs: seq<Rect>, dy: int, k: nat)
    requires k <= |obs|
    ensures Moved(obs[..k], dy) == Moved(obs, dy)[..k]
  {
  }

  /** Every obstacle is either kept or counted as dodged, never both, so the list
      shrinks by exactly the number of removals. */
  lemma {:induction false} KeptPlusBeyond(ms: seq<Rect>, bottom: int)
    ensures |Kept(ms, bottom)| + Beyond(ms, bottom) == |ms|
    decreases |ms|
  {
    if ms != [] {
      KeptPlusBeyond(ms[1..], bottom);
    }
  }

  /** The kept obstacles are exactly those not beyond the bottom line. */
  lemma {:induction false} KeptMembers(ms: seq<Rect>, bottom: int, r: Rect)
    ensures r in Kept(ms, bottom) <==> r in ms && r.y <= bottom
    decreases |ms|
  {
    if ms != [] {
      KeptMembers(ms[1..], bottom, r);
      assert ms == [ms[0]] + ms[1..];
    }
  }

  /** When no lowered obstacle touches the player, the pass is the reference
      filter: every obstacle moves down by dy with its x unchanged, the ones
      beyond the bottom line are removed and counted, and the others stay in
      their original order. */
  lemma {:induction false} SweepClear(obs: seq<Rect>, dy: int, player: Rect, bottom: int)
    requires !Hits(Moved(obs, dy), player)
    ensures Sweep(obs, dy, player, bottom)
         == Pass(Kept(Moved(obs, dy), bottom), Beyond(Moved(obs, dy), bottom), false)
    decreases |obs|
  {
    if obs != [] {
      var n := |obs| - 1;
      var init := obs[..n];
      MovedPrefix(obs, dy, n);
      assert Moved(obs, dy) == Moved(init, dy) + [Moved(obs, dy)[n]];
      SweepClear(init, dy, player, bottom);
      KeptSnoc(Moved(init, dy), Lowered(obs[n], dy), bottom);
    }
  }

  /** Once the pass has stopped on a collision, later obstacles are carried over untouched. */
  lemma {:induction false} SweepHitExtends(s: seq<Rect>, t: seq<Rect>, dy: int, player: Rect, bottom: int)
    requires Sweep(s, dy, player, bottom).hit
    ensures Sweep(s + t, dy, player, bottom)
         == Pass(Sweep(s, dy, player, bottom).kept + t, Sweep(s, dy, player, bottom).dodged, true)
    decreases |t|
  {
    if t == [] {
      assert s + t == s;
    } else {
      var n := |t| - 1;
      assert (s + t)[..|s + t| - 1] == s + t[..n];
      SweepHitExtends(s, t[..n], dy, player, bottom);
      assert t == t[..n] + [t[n]];
    }
  }

  /** The pass reports a collision exactly when some lowered obstacle overlaps the player. */
  lemma {:induction false} SweepHitIff(obs: seq<Rect>, dy: int, player: Rect, bottom: int)
    ensures Sweep(obs, dy, player, bottom).hit <==> Hits(Moved(obs, dy), player)
    decreases |obs|
  {
    if obs != [] {
      var n := |obs| - 1;
      var init := obs[..n];
      MovedPrefix(obs, dy, n);
      SweepHitIff(init, dy, player, bottom);
      var ms := Moved(obs, dy);
      assert ms[n] == Lowered(obs[n], dy);
      if Hits(Moved(init, dy), player) {
        var i :| 0 <= i < n && Collide(Moved(init, dy)[i], player);
        assert ms[i] == Moved(init, dy)[i];
      }
    }
  }

  /** The state a collision leaves: the obstacles before the first one that hits
      the player have been lowered and filtered, that one is lowered and kept,
      and those after it are unchanged. */
  lemma FirstHit(obs: seq<Rect>, dy: int, player: Rect, bottom: int, k: nat)
    requires k < |obs|
    requires !Hits(Moved(obs[..k], dy), player)
    requires Collide(Lowered(obs[k], dy), player)
    ensures Sweep(obs, dy, player, bottom)
         == Pass(Kept(Moved(obs[..k], dy), bottom) + [Lowered(obs[k], dy)] + obs[k + 1..],
                 Beyond(Moved(obs[..k], dy), bottom), true)
  {
    SweepClear(obs[..k], dy, player, bottom);
    assert obs[..k + 1][..k] == obs[..k];
    SweepHitExtends(obs[..k + 1], obs[k + 1..], dy, player, bottom);
    assert obs[..k + 1] + obs[k + 1..] == obs;
  }

  /** The obstacle loop itself: walks the old list once, in order, and builds the new one. */
  method MoveObstacles(obs: seq<Rect>, dy: int, player: Rect, bottom: int)
    returns (kept: seq<Rect>, dodged: nat, hit: bool)
    ensures Pass(kept, dodged, hit) == Sweep(obs, dy, player, bottom)
  {
    kept, dodged, hit := [], 0, false;
    var i := 0;
    while i < |obs| && !hit
      invariant 0 <= i <= |obs|
      invariant !hit ==> Pass(kept, dodged, false) == Sweep(obs[..i], dy, player, bottom)
      invariant hit ==> Pass(kept, dodged, true) == Sweep(obs, dy, player, bottom)
    {
      var m := Lowered(obs[i], dy);
      assert obs[..i + 1][..i] == obs[..i];
      if Collide(m, player) {
        SweepHitExtends(obs[..i + 1], obs[i + 1..], dy, player, bottom);
        assert obs[..i + 1] + obs[i + 1..] == obs;
        kept, hit := kept + [m] + obs[i + 1..], true;
      } else if m.y > bottom {
        dodged := dodged + 1;
      } else {
        kept := kept + [m];
      }
      i := i + 1;
    }
    if !hit {
      assert obs[..i] == obs;
    }
  }
}
