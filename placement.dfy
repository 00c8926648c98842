/** Procedural scattering of spheres on the ground plane: the region test
    `isValid` and the rejection-sampling loop of `GetSpheres` in MainScript.

    The engine's random generator is replaced by a finite sequence of draws,
    each a real in [0, 1]; `Random.Range(lo, hi)` becomes `Range(lo, hi, u)`.
    Per slot the draws are consumed in the order the code asks for them:
    radius, the three colour channels, the specular selector, and then two
    per candidate origin (x first, then z). */
module Placement {

  import opened Wrappers

  /** Retry budget of one slot (NUM_RETRIES). */
  const NUM_RETRIES: nat := 60
  /** Width of the sampling square along x (X_RANGE). */
  const X_RANGE: real := 30.0
  /** Width of the sampling square along z (Z_RANGE). */
  const Z_RANGE: real := 30.0
  /** Draws taken once per slot: radius, red, green, blue, specular selector. */
  const SLOT_DRAWS: nat := 5
  /** Draws taken by one candidate origin: x, then z. */
  const CANDIDATE_DRAWS: nat := 2

  /** One value of the engine's uniform generator. */
  type Draw = u: real | 0.0 <= u <= 1.0

  datatype Vec3 = Vec3(x: real, y: real, z: real)

  /** A `Vector4`; as a region it is the closed box [x, y] along x times [z, w] along z. */
  datatype Vec4 = Vec4(x: real, y: real, z: real, w: real)

  datatype Sphere = Sphere(origin: Vec3, radius: real, color: Vec4, specular: Vec4)

  /** The value of a `Vector4` array entry that was never written. */
  const ZERO4 := Vec4(0.0, 0.0, 0.0, 0.0)
  /** Origin a slot's sphere holds before its first candidate is drawn. */
  const UNPLACED := Vec3(-1.0, -1.0, -1.0)
  const DARK_SPECULAR := Vec4(0.0, 0.0, 0.0, 1.0)
  const GREY_SPECULAR := Vec4(0.6, 0.6, 0.6, 1.0)

  /** `Random.Range(lo, hi)` on floats, driven by the draw `u`: both ends may be hit. */
  function Range(lo: real, hi: real, u: Draw): (r: real)
    ensures lo <= hi ==> lo <= r <= hi
    ensures u == 0.0 ==> r == lo
    ensures u == 1.0 ==> r == hi
  {
    if lo <= hi then MulUnitBounds(u, hi - lo); lo + u * (hi - lo)
    else lo + u * (hi - lo)
  }

  lemma MulUnitBounds(u: real, d: real)
    requires 0.0 <= u <= 1.0 && 0.0 <= d
    ensures 0.0 <= u * d <= d
  {
    assert u * d <= 1.0 * d;
  }

  /** isValid: the region `vec` rejects `s` exactly when the centre's x-z point
      lies in its closed box. */
  predicate IsValid(s: Sphere, vec: Vec4)
    ensures !IsValid(s, vec) <==> (vec.x <= s.origin.x <= vec.y && vec.z <= s.origin.z <= vec.w)
  {
    if s.origin.x >= vec.x && s.origin.x <= vec.y && s.origin.z >= vec.z && s.origin.z <= vec.w then
      false
    else
      true
  }

  /** Some entry of `regions` rejects `s`: the `foreach` over `occupiedRegions`
      breaks with a conflict. Every entry is visited, written or not, because a
      struct compared with null is never null. */
  predicate Conflicts(s: Sphere, regions: seq<Vec4>)
  {
    exists j :: 0 <= j < |regions| && !IsValid(s, regions[j])
  }

  /** A candidate conflicts exactly when the closed box of some entry, written
      or not, contains its centre's x and z. */
  lemma ConflictsIffCentreInSomeBox(s: Sphere, regions: seq<Vec4>)
    ensures Conflicts(s, regions) <==>
              exists j :: 0 <= j < |regions| &&
                regions[j].x <= s.origin.x <= regions[j].y && regions[j].z <= s.origin.z <= regions[j].w
  {
    if Conflicts(s, regions) {
      var j :| 0 <= j < |regions| && !IsValid(s, regions[j]);
      assert regions[j].x <= s.origin.x <= regions[j].y && regions[j].z <= s.origin.z <= regions[j].w;
    }
  }

  /** The slot's sphere with a newly drawn candidate origin: x and z are drawn
      over the square shifted by the largest radius; y is the slot's radius. */
  function WithCandidate(s: Sphere, rMax: real, ux: Draw, uz: Draw): (c: Sphere)
    ensures c.radius == s.radius && c.color == s.color && c.specular == s.specular
    ensures c.origin.y == s.radius
    ensures rMax <= c.origin.x <= X_RANGE + rMax
    ensures rMax <= c.origin.z <= Z_RANGE + rMax
  {
    var maxx := X_RANGE + rMax;
    var maxz := Z_RANGE + rMax;
    s.(origin := Vec3(Range(rMax, maxx, ux), s.radius, Range(rMax, maxz, uz)))
  }

  /** The sphere a slot starts from: radius, colour and specular, each drawn
      once, and the placeholder origin. */
  function DrawSlot(rMin: real, rMax: real, draws: seq<Draw>, pos: nat): (s: Sphere)
    requires pos + SLOT_DRAWS <= |draws|
    ensures rMin <= rMax ==> rMin <= s.radius <= rMax
    ensures s.origin == UNPLACED
    ensures 0.0 <= s.color.x <= 1.0 && 0.0 <= s.color.y <= 1.0 && 0.0 <= s.color.z <= 1.0
    ensures s.color.w == 1.0
    ensures s.specular == DARK_SPECULAR || s.specular == GREY_SPECULAR
  {
    Sphere(UNPLACED,
           Range(rMin, rMax, draws[pos]),
           Vec4(Range(0.0, 1.0, draws[pos + 1]), Range(0.0, 1.0, draws[pos + 2]), Range(0.0, 1.0, draws[pos + 3]), 1.0),
           if Range(0.0, 1.0, draws[pos + 4]) > 0.5 then DARK_SPECULAR else GREY_SPECULAR)
  }

  /** The region recorded for an accepted sphere: its origin plus or minus twice its radius. */
  function Footprint(s: Sphere): (fp: Vec4)
    ensures (fp.x + fp.y) / 2.0 == s.origin.x && (fp.z + fp.w) / 2.0 == s.origin.z
    ensures fp.y - fp.x == 4.0 * s.radius && fp.w - fp.z == 4.0 * s.radius
  {
    Vec4(s.origin.x - s.radius * 2.0, s.origin.x + s.radius * 2.0,
         s.origin.z - s.radius * 2.0, s.origin.z + s.radius * 2.0)
  }

  /** Where every candidate lies: resting on the ground (y equals the radius)
      inside the sampling square. */
  predicate OnGround(s: Sphere, rMax: real)
  {
    s.origin.y == s.radius && rMax <= s.origin.x <= X_RANGE + rMax && rMax <= s.origin.z <= Z_RANGE + rMax
  }

  /** How the retry loop of one slot ends. */
  datatype Attempt =
    | Placed(sphere: Sphere, next: nat)  // accepted; the next slot reads draws from `next`
    | Dropped(next: nat)                 // the retry budget ran out
    | Starved                            // the draws ran out first (an artefact of finite draws)

  /** The `while (numTries < NUM_RETRIES)` loop of one slot, entered with the
      flags `success` and `numTries` and the next candidate at `draws[pos..]`.
      A conflict clears `success` and counts a try; a conflict-free candidate
      is accepted only while `success` still holds. */
  function RetryLoop(regions: seq<Vec4>, s: Sphere, rMax: real, draws: seq<Draw>, pos: nat,
                     success: bool, numTries: nat): (r: Attempt)
    ensures r.Placed? ==> pos + CANDIDATE_DRAWS <= r.next <= |draws|
    ensures r.Placed? ==> r.sphere == WithCandidate(s, rMax, draws[r.next - 2], draws[r.next - 1])
    ensures r.Placed? ==> !Conflicts(r.sphere, regions)
    ensures r.Dropped? ==> pos <= r.next <= |draws| || (r.next == pos && numTries >= NUM_RETRIES)
    decreases |draws| - pos
  {
    if numTries >= NUM_RETRIES then Dropped(pos)
    else if pos + CANDIDATE_DRAWS > |draws| then Starved
    else
      var c := WithCandidate(s, rMax, draws[pos], draws[pos + 1]);
      var conflict := Conflicts(c, regions);
      if success && !conflict then Placed(c, pos + CANDIDATE_DRAWS)
      else RetryLoop(regions, s, rMax, draws, pos + CANDIDATE_DRAWS, false,
                     if conflict then numTries + 1 else numTries)
  }

  /** How one slot ends: the updated regions, the accepted sphere if any, and
      where the next slot starts reading draws. */
  datatype SlotOutcome =
    | SlotDone(regions: seq<Vec4>, placed: Option<Sphere>, next: nat)
    | SlotStarved

  /** One iteration of the outer `for` loop: slot `i`. */
  function PlaceSlot(i: nat, regions: seq<Vec4>, rMin: real, rMax: real, draws: seq<Draw>, pos: nat): (r: SlotOutcome)
    requires i < |regions|
    ensures r.SlotDone? ==> |r.regions| == |regions| && pos + SLOT_DRAWS <= r.next <= |draws|
    ensures r.SlotDone? ==> forall k :: 0 <= k < |regions| && k != i ==> r.regions[k] == regions[k]
    ensures r.SlotDone? && r.placed.Some? ==>
              r.regions[i] == Footprint(r.placed.value) && !Conflicts(r.placed.value, regions)
    ensures r.SlotDone? && r.placed.None? ==> r.regions == regions
    ensures r.SlotDone? && r.placed.Some? ==> OnGround(r.placed.value, rMax)
  {
    if pos + SLOT_DRAWS > |draws| then SlotStarved
    else
      var s := DrawSlot(rMin, rMax, draws, pos);
      match RetryLoop(regions, s, rMax, draws, pos + SLOT_DRAWS, true, 0)
      case Starved => SlotStarved
      case Dropped(next) => SlotDone(regions, None, next)
      case Placed(c, next) => SlotDone(regions[i := Footprint(c)], Some(c), next)
  }

  /** The accepted spheres in acceptance order, the final `occupiedRegions`,
      and whether every slot was decided before the draws ran out. */
  datatype Scene = Scene(spheres: seq<Sphere>, regions: seq<Vec4>, complete: bool)

  /** Slots `i` onwards, given the regions and spheres of the earlier slots. */
  function GenerateFrom(numSpheres: nat, rMin: real, rMax: real, draws: seq<Draw>,
                        i: nat, regions: seq<Vec4>, spheres: seq<Sphere>, pos: nat): (r: Scene)
    requires |regions| == numSpheres
    ensures |r.regions| == numSpheres
    decreases numSpheres - i
  {
    if i >= numSpheres then Scene(spheres, regions, true)
    else
      match PlaceSlot(i, regions, rMin, rMax, draws, pos)
      case SlotStarved => Scene(spheres, regions, false)
      case SlotDone(regions', placed, next) =>
        GenerateFrom(numSpheres, rMin, rMax, draws, i + 1, regions',
                     if placed.Some? then spheres + [placed.value] else spheres, next)
  }

  /** GetSpheres from the start: `numSpheres` zeroed regions and an empty list.
      One region per slot, and at most one sphere per slot. */
  function Generate(numSpheres: nat, rMin: real, rMax: real, draws: seq<Draw>): (r: Scene)
    ensures |r.regions| == numSpheres && |r.spheres| <= numSpheres
  {
    GenerateFromShape(numSpheres, rMin, rMax, draws, 0, seq(numSpheres, _ => ZERO4), [], 0);
    GenerateFrom(numSpheres, rMin, rMax, draws, 0, seq(numSpheres, _ => ZERO4), [], 0)
  }

  /** No sphere's centre lies in the region recorded for a sphere accepted before it. */
  predicate Apart(spheres: seq<Sphere>)
  {
    forall j, k :: 0 <= j < k < |spheres| ==> IsValid(spheres[k], Footprint(spheres[j]))
  }

  // ---------------------------------------------------------------------------
  // The region test

  /** The test looks only at the centre's x and z: neither the centre's height
      nor the radius of the tested sphere matters. */
  lemma IsValidIgnoresHeightAndRadius(s: Sphere, t: Sphere, vec: Vec4)
    requires s.origin.x == t.origin.x && s.origin.z == t.origin.z
    ensures IsValid(s, vec) == IsValid(t, vec)
  {
  }

  /** An entry never written keeps the zero box, which only the point (0, 0)
      lies in; every candidate has x at least the largest radius, so with a
      positive largest radius a zero entry never rejects a candidate. */
  lemma UnwrittenRegionNeverRejects(s: Sphere, rMax: real, ux: Draw, uz: Draw)
    requires rMax > 0.0
    ensures IsValid(WithCandidate(s, rMax, ux, uz), ZERO4)
  {
  }

  /** An accepted sphere with a non-negative radius lies in its own region, so
      a later candidate with the same centre is always rejected. */
  lemma CentreInsideOwnFootprint(s: Sphere)
    requires s.radius >= 0.0
    ensures !IsValid(s, Footprint(s))
  {
  }

  // ---------------------------------------------------------------------------
  // The retry loop

  /** Once a candidate of a slot has conflicted, `success` stays false and the
      slot is never accepted, whatever the later draws are. */
  lemma {:induction false} ConflictIsFinal(regions: seq<Vec4>, s: Sphere, rMax: real, draws: seq<Draw>,
                                           pos: nat, numTries: nat)
    ensures !RetryLoop(regions, s, rMax, draws, pos, false, numTries).Placed?
    decreases |draws| - pos
  {
    if numTries < NUM_RETRIES && pos + CANDIDATE_DRAWS <= |draws| {
      var c := WithCandidate(s, rMax, draws[pos], draws[pos + 1]);
      ConflictIsFinal(regions, s, rMax, draws, pos + CANDIDATE_DRAWS,
                      if Conflicts(c, regions) then numTries + 1 else numTries);
    }
  }

  /** A slot is accepted if and only if its first candidate is free of
      conflict, and then the accepted sphere is that first candidate. */
  lemma FirstCandidateDecides(regions: seq<Vec4>, s: Sphere, rMax: real, draws: seq<Draw>, pos: nat)
    ensures RetryLoop(regions, s, rMax, draws, pos, true, 0).Placed? <==>
              pos + CANDIDATE_DRAWS <= |draws| &&
              !Conflicts(WithCandidate(s, rMax, draws[pos], draws[pos + 1]), regions)
    ensures RetryLoop(regions, s, rMax, draws, pos, true, 0).Placed? ==>
              RetryLoop(regions, s, rMax, draws, pos, true, 0) ==
              Placed(WithCandidate(s, rMax, draws[pos], draws[pos + 1]), pos + CANDIDATE_DRAWS)
  {
    if pos + CANDIDATE_DRAWS <= |draws| {
      var c := WithCandidate(s, rMax, draws[pos], draws[pos + 1]);
      if Conflicts(c, regions) {
        ConflictIsFinal(regions, s, rMax, draws, pos + CANDIDATE_DRAWS, 1);
      }
    }
  }

  /** Number of conflicting candidates among those drawn from `draws[pos..next]`. */
  function ConflictCount(regions: seq<Vec4>, s: Sphere, rMax: real, draws: seq<Draw>, pos: nat, next: nat): (n: nat)
    requires next <= |draws|
    decreases next - pos
  {
    if pos + CANDIDATE_DRAWS > next then 0
    else
      (if Conflicts(WithCandidate(s, rMax, draws[pos], draws[pos + 1]), regions) then 1 else 0)
      + ConflictCount(regions, s, rMax, draws, pos + CANDIDATE_DRAWS, next)
  }

  /** `numTries` counts conflicts only. A slot entered with `numTries` tries
      and dropped drew exactly the remaining `NUM_RETRIES - numTries`
      conflicting candidates; an accepted slot drew fewer. Conflict-free
      candidates after the first conflict use none of the budget. */
  lemma {:induction false} RetryBudgetCountsConflicts(regions: seq<Vec4>, s: Sphere, rMax: real, draws: seq<Draw>,
                                              pos: nat, success: bool, numTries: nat)
    requires numTries <= NUM_RETRIES && pos <= |draws|
    ensures RetryLoop(regions, s, rMax, draws, pos, success, numTries).Dropped? ==>
              var next := RetryLoop(regions, s, rMax, draws, pos, success, numTries).next;
              pos <= next <= |draws| &&
              numTries + ConflictCount(regions, s, rMax, draws, pos, next) == NUM_RETRIES
    ensures RetryLoop(regions, s, rMax, draws, pos, success, numTries).Placed? ==>
              var next := RetryLoop(regions, s, rMax, draws, pos, success, numTries).next;
              numTries + ConflictCount(regions, s, rMax, draws, pos, next) < NUM_RETRIES
    decreases |draws| - pos
  {
    if numTries < NUM_RETRIES && pos + CANDIDATE_DRAWS <= |draws| {
      var c := WithCandidate(s, rMax, draws[pos], draws[pos + 1]);
      var conflict := Conflicts(c, regions);
      if success && !conflict {
        assert ConflictCount(regions, s, rMax, draws, pos + CANDIDATE_DRAWS, pos + CANDIDATE_DRAWS) == 0;
      } else {
        var tries := if conflict then numTries + 1 else numTries;
        RetryBudgetCountsConflicts(regions, s, rMax, draws, pos + CANDIDATE_DRAWS, false, tries);
        ConflictIsFinal(regions, s, rMax, draws, pos + CANDIDATE_DRAWS, tries);
      }
    }
  }

  // ---------------------------------------------------------------------------
  // The whole generation

  lemma {:induction false} GenerateFromShape(numSpheres: nat, rMin: real, rMax: real, draws: seq<Draw>,
                                             i: nat, regions: seq<Vec4>, spheres: seq<Sphere>, pos: nat)
    requires |regions| == numSpheres && i <= numSpheres
    ensures var sc := GenerateFrom(numSpheres, rMin, rMax, draws, i, regions, spheres, pos);
              |sc.regions| == numSpheres && |spheres| <= |sc.spheres| <= |spheres| + (numSpheres - i) &&
              sc.spheres[..|spheres|] == spheres
    decreases numSpheres - i
  {
    if i < numSpheres {
      match PlaceSlot(i, regions, rMin, rMax, draws, pos)
      case SlotStarved =>
      case SlotDone(regions', placed, next) =>
        var spheres' := if placed.Some? then spheres + [placed.value] else spheres;
        GenerateFromShape(numSpheres, rMin, rMax, draws, i + 1, regions', spheres', next);
        var sc := GenerateFrom(numSpheres, rMin, rMax, draws, i + 1, regions', spheres', next);
        assert sc.spheres[..|spheres|] == sc.spheres[..|spheres'|][..|spheres|];
    }
  }

  /** At most `numSpheres` spheres come out, one region per slot, and the list
      only grows: earlier acceptances are never removed or reordered. */
  lemma SceneSize(numSpheres: nat, rMin: real, rMax: real, draws: seq<Draw>)
    ensures |Generate(numSpheres, rMin, rMax, draws).spheres| <= numSpheres
    ensures |Generate(numSpheres, rMin, rMax, draws).regions| == numSpheres
  {
    GenerateFromShape(numSpheres, rMin, rMax, draws, 0, seq(numSpheres, _ => ZERO4), [], 0);
  }

  /** The region of every sphere of the list is among `regions`. */
  predicate Recorded(spheres: seq<Sphere>, regions: seq<Vec4>)
  {
    forall j :: 0 <= j < |spheres| ==> Footprint(spheres[j]) in regions
  }

  /** A region recorded in a prefix is recorded in the whole array. */
  lemma RecordedInPrefix(spheres: seq<Sphere>, regions: seq<Vec4>, i: nat)
    requires i <= |regions| && Recorded(spheres, regions[..i])
    ensures Recorded(spheres, regions)
  {
    forall j | 0 <= j < |spheres| ensures Footprint(spheres[j]) in regions {
      var m :| 0 <= m < i && regions[..i][m] == Footprint(spheres[j]);
      assert regions[m] == Footprint(spheres[j]);
    }
  }

  /** One slot keeps the invariant of the outer loop: the earlier regions
      stay in place, and an accepted sphere avoids all of them and records
      its own. */
  lemma SlotKeepsApart(i: nat, regions: seq<Vec4>, regions': seq<Vec4>, spheres: seq<Sphere>,
                       placed: Option<Sphere>)
    requires i < |regions| == |regions'|
    requires forall k :: 0 <= k < |regions| && k != i ==> regions'[k] == regions[k]
    requires placed.Some? ==> regions'[i] == Footprint(placed.value) && !Conflicts(placed.value, regions)
    requires Recorded(spheres, regions[..i]) && Apart(spheres)
    ensures var spheres' := if placed.Some? then spheres + [placed.value] else spheres;
              Recorded(spheres', regions'[..i + 1]) && Apart(spheres')
  {
    forall j | 0 <= j < |spheres| ensures Footprint(spheres[j]) in regions'[..i + 1] {
      var m :| 0 <= m < i && regions[..i][m] == Footprint(spheres[j]);
      assert regions'[..i + 1][m] == Footprint(spheres[j]);
    }
    if placed.Some? {
      var c := placed.value;
      assert regions'[..i + 1][i] == Footprint(c);
      forall j | 0 <= j < |spheres| ensures IsValid(c, Footprint(spheres[j])) {
        var m :| 0 <= m < i && regions[..i][m] == Footprint(spheres[j]);
        assert regions[m] == Footprint(spheres[j]);
      }
    }
  }

  lemma {:induction false} GenerateFromKeepsApart(numSpheres: nat, rMin: real, rMax: real, draws: seq<Draw>,
                                                  i: nat, regions: seq<Vec4>, spheres: seq<Sphere>, pos: nat)
    requires |regions| == numSpheres && i <= numSpheres
    requires Recorded(spheres, regions[..i]) && Apart(spheres)
    ensures var sc := GenerateFrom(numSpheres, rMin, rMax, draws, i, regions, spheres, pos);
              Apart(sc.spheres) && Recorded(sc.spheres, sc.regions)
    decreases numSpheres - i
  {
    if i == numSpheres {
      RecordedInPrefix(spheres, regions, i);
    } else {
      var r := PlaceSlot(i, regions, rMin, rMax, draws, pos);
      if r.SlotStarved? {
        RecordedInPrefix(spheres, regions, i);
      } else {
        SlotKeepsApart(i, regions, r.regions, spheres, r.placed);
        var spheres' := if r.placed.Some? then spheres + [r.placed.value] else spheres;
        GenerateFromKeepsApart(numSpheres, rMin, rMax, draws, i + 1, r.regions, spheres', r.next);
      }
    }
  }

  /** Every sphere of the list is `OnGround`. */
  predicate AllOnGround(spheres: seq<Sphere>, rMax: real)
  {
    forall k :: 0 <= k < |spheres| ==> OnGround(spheres[k], rMax)
  }

  lemma {:induction false} GenerateFromOnGround(numSpheres: nat, rMin: real, rMax: real, draws: seq<Draw>,
                                               i: nat, regions: seq<Vec4>, spheres: seq<Sphere>, pos: nat)
    requires |regions| == numSpheres
    requires AllOnGround(spheres, rMax)
    ensures AllOnGround(GenerateFrom(numSpheres, rMin, rMax, draws, i, regions, spheres, pos).spheres, rMax)
    decreases numSpheres - i
  {
    if i < numSpheres {
      var r := PlaceSlot(i, regions, rMin, rMax, draws, pos);
      if r.SlotDone? {
        var spheres' := if r.placed.Some? then spheres + [r.placed.value] else spheres;
        assert AllOnGround(spheres', rMax);
        GenerateFromOnGround(numSpheres, rMin, rMax, draws, i + 1, r.regions, spheres', r.next);
      }
    }
  }

  /** Every accepted sphere rests on the ground, its centre at height equal to
      its radius, inside the square [rMax, 30 + rMax] on x and on z. */
  lemma AcceptedSpheresOnGround(numSpheres: nat, rMin: real, rMax: real, draws: seq<Draw>)
    ensures AllOnGround(Generate(numSpheres, rMin, rMax, draws).spheres, rMax)
  {
    GenerateFromOnGround(numSpheres, rMin, rMax, draws, 0, seq(numSpheres, _ => ZERO4), [], 0);
  }

  /** Every accepted sphere's centre lies outside the region recorded for each
      sphere accepted before it, and every accepted sphere's region is recorded. */
  lemma AcceptedOutsideEarlierRegions(numSpheres: nat, rMin: real, rMax: real, draws: seq<Draw>)
    ensures Apart(Generate(numSpheres, rMin, rMax, draws).spheres)
    ensures var sc := Generate(numSpheres, rMin, rMax, draws);
              forall j :: 0 <= j < |sc.spheres| ==> Footprint(sc.spheres[j]) in sc.regions
  {
    GenerateFromKeepsApart(numSpheres, rMin, rMax, draws, 0, seq(numSpheres, _ => ZERO4), [], 0);
  }

  /** With a positive largest radius the first slot meets only zero regions, so
      its first candidate is accepted whenever the draws suffice. */
  lemma FirstSlotAlwaysPlaced(numSpheres: nat, rMin: real, rMax: real, draws: seq<Draw>)
    requires numSpheres >= 1 && rMax > 0.0
    requires |draws| >= SLOT_DRAWS + CANDIDATE_DRAWS
    ensures |Generate(numSpheres, rMin, rMax, draws).spheres| >= 1
  {
    var zeros := seq(numSpheres, _ => ZERO4);
    var s := DrawSlot(rMin, rMax, draws, 0);
    var c := WithCandidate(s, rMax, draws[SLOT_DRAWS], draws[SLOT_DRAWS + 1]);
    forall j | 0 <= j < numSpheres ensures IsValid(c, zeros[j]) {
      UnwrittenRegionNeverRejects(s, rMax, draws[SLOT_DRAWS], draws[SLOT_DRAWS + 1]);
    }
    FirstCandidateDecides(zeros, s, rMax, draws, SLOT_DRAWS);
    var regions' := zeros[0 := Footprint(c)];
    assert PlaceSlot(0, zeros, rMin, rMax, draws, 0) == SlotDone(regions', Some(c), SLOT_DRAWS + CANDIDATE_DRAWS);
    assert [] + [c] == [c];
    assert Generate(numSpheres, rMin, rMax, draws)
           == GenerateFrom(numSpheres, rMin, rMax, draws, 1, regions', [c], SLOT_DRAWS + CANDIDATE_DRAWS);
    GenerateFromShape(numSpheres, rMin, rMax, draws, 1, regions', [c], SLOT_DRAWS + CANDIDATE_DRAWS);
  }

  // ---------------------------------------------------------------------------
  // The imperative loop

  /** The `foreach` over `occupiedRegions`: stops at the first region that
      rejects the candidate. */
  method ScanRegions(sphere: Sphere, occupiedRegions: array<Vec4>) returns (conflict: bool)
    ensures conflict <==> Conflicts(sphere, occupiedRegions[..])
  {
    conflict := false;
    var j := 0;
    while j < occupiedRegions.Length
      invariant j <= occupiedRegions.Length
      invariant forall k :: 0 <= k < j ==> IsValid(sphere, occupiedRegions[k])
    {
      if !IsValid(sphere, occupiedRegions[j]) {
        conflict := true;
        break;
      }
      j := j + 1;
    }
  }

  /** The `while (numTries < NUM_RETRIES)` loop of slot `i`, started on the
      slot's drawn sphere with the first candidate at `draws[pos..]`. On
      acceptance it writes the slot's region into `occupiedRegions[i]`; no
      other entry changes. */
  method RetrySlot(i: nat, occupiedRegions: array<Vec4>, drawn: Sphere, rMax: real, draws: seq<Draw>, pos: nat)
    returns (outcome: Attempt)
    requires i < occupiedRegions.Length
    modifies occupiedRegions
    ensures outcome == RetryLoop(old(occupiedRegions[..]), drawn, rMax, draws, pos, true, 0)
    ensures occupiedRegions[..] == if outcome.Placed? then old(occupiedRegions[..])[i := Footprint(outcome.sphere)]
                                   else old(occupiedRegions[..])
  {
    ghost var regions := occupiedRegions[..];
    var sphere := drawn;
    var success := true;
    var numTries: nat := 0;
    var cursor: nat := pos;
    while numTries < NUM_RETRIES
      invariant numTries <= NUM_RETRIES
      invariant occupiedRegions[..] == regions
      invariant sphere.radius == drawn.radius && sphere.color == drawn.color && sphere.specular == drawn.specular
      invariant RetryLoop(regions, drawn, rMax, draws, cursor, success, numTries)
                == RetryLoop(regions, drawn, rMax, draws, pos, true, 0)
      decreases |draws| - cursor
    {
      if cursor + CANDIDATE_DRAWS > |draws| {
        return Starved;
      }
      sphere := WithCandidate(sphere, rMax, draws[cursor], draws[cursor + 1]);
      assert sphere == WithCandidate(drawn, rMax, draws[cursor], draws[cursor + 1]);
      cursor := cursor + CANDIDATE_DRAWS;
      var conflict := ScanRegions(sphere, occupiedRegions);
      if conflict {
        success := false;
        numTries := numTries + 1;
      }
      if success {
        occupiedRegions[i] := Footprint(sphere);
        return Placed(sphere, cursor);
      }
    }
    return Dropped(cursor);
  }

  /** One iteration of the outer `for` loop on the array: draw the slot's
      radius, colour and specular, then run its retry loop. The array ends as
      the regions `PlaceSlot` gives. */
  method FillSlot(i: nat, occupiedRegions: array<Vec4>, rMin: real, rMax: real, draws: seq<Draw>, pos: nat)
    returns (r: SlotOutcome)
    requires i < occupiedRegions.Length
    modifies occupiedRegions
    ensures r == PlaceSlot(i, old(occupiedRegions[..]), rMin, rMax, draws, pos)
    ensures occupiedRegions[..] == if r.SlotDone? then r.regions else old(occupiedRegions[..])
  {
    if pos + SLOT_DRAWS > |draws| {
      return SlotStarved;
    }
    var sphere := DrawSlot(rMin, rMax, draws, pos);
    var outcome := RetrySlot(i, occupiedRegions, sphere, rMax, draws, pos + SLOT_DRAWS);
    match outcome {
      case Starved =>
        r := SlotStarved;
      case Dropped(next) =>
        r := SlotDone(occupiedRegions[..], None, next);
      case Placed(accepted, next) =>
        r := SlotDone(occupiedRegions[..], Some(accepted), next);
    }
  }

  /** GetSpheres' placement loop: `occupiedRegions` is an array written in
      place at index `i` on acceptance, accepted spheres are appended to a list. */
  method PlaceSpheres(numSpheres: nat, rMin: real, rMax: real, draws: seq<Draw>)
    returns (spheres: seq<Sphere>, occupied: seq<Vec4>, complete: bool)
    ensures Scene(spheres, occupied, complete) == Generate(numSpheres, rMin, rMax, draws)
    ensures |spheres| <= numSpheres && |occupied| == numSpheres
    ensures Apart(spheres)
  {
    ghost var goal := Generate(numSpheres, rMin, rMax, draws);
    var occupiedRegions := new Vec4[numSpheres](_ => ZERO4);
    assert occupiedRegions[..] == seq(numSpheres, _ => ZERO4);
    spheres := [];
    complete := true;
    var pos: nat := 0;
    var i: nat := 0;
    while i < numSpheres
      invariant i <= numSpheres
      invariant GenerateFrom(numSpheres, rMin, rMax, draws, i, occupiedRegions[..], spheres, pos) == goal
      decreases numSpheres - i
    {
      ghost var regions0, spheres0, pos0 := occupiedRegions[..], spheres, pos;
      var slot := FillSlot(i, occupiedRegions, rMin, rMax, draws, pos);
      if slot.SlotStarved? {
        assert goal == Scene(spheres, occupiedRegions[..], false);
        complete := false;
        break;
      }
      if slot.placed.Some? {
        spheres := spheres + [slot.placed.value];
      }
      pos := slot.next;
      assert GenerateFrom(numSpheres, rMin, rMax, draws, i, regions0, spheres0, pos0)
             == GenerateFrom(numSpheres, rMin, rMax, draws, i + 1, occupiedRegions[..], spheres, pos);
      i := i + 1;
    }
    occupied := occupiedRegions[..];
    AcceptedOutsideEarlierRegions(numSpheres, rMin, rMax, draws);
  }
}
