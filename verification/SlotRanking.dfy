/** Ranking of free picking slots by distance to the source location
    (src/core/orchestrator/slotDistance.js). */
module SlotRanking {
  import opened Sequences
  import opened Location

  function Abs(x: int): nat { if x < 0 then -x else x }

  /** `comparePickSlotCandidates`; the position rank is position - 1. */
  function CompareSlots(source: Location, a: Location, b: Location): int {
    var otherLevelA, otherLevelB := if a.level == source.level then 0 else 1, if b.level == source.level then 0 else 1;
    if otherLevelA != otherLevelB then otherLevelA - otherLevelB
    else if Abs(a.level - source.level) != Abs(b.level - source.level) then
      Abs(a.level - source.level) - Abs(b.level - source.level)
    else if Abs(a.moduleNumber - source.moduleNumber) != Abs(b.moduleNumber - source.moduleNumber) then
      Abs(a.moduleNumber - source.moduleNumber) - Abs(b.moduleNumber - source.moduleNumber)
    else if a.moduleNumber != b.moduleNumber then a.moduleNumber - b.moduleNumber
    else if a.position - 1 != b.position - 1 then (a.position - 1) - (b.position - 1)
    else Compare(Print(a), Print(b))
  }

  function NoFarther(source: Location): (Location, Location) -> bool {
    (a: Location, b: Location) => CompareSlots(source, a, b) <= 0
  }

  function OnSide(source: Location): Location -> bool {
    (s: Location) => SideBit(s) == SideBit(source)
  }

  /** `sortPickSlotsByDistance` on slots already known to be free. */
  function RankSlots(source: Location, free: seq<Location>): seq<Location> {
    Sort(Filter(free, OnSide(source)), NoFarther(source))
  }

  // ---------- reference order ----------

  /** Level gap, module gap, module, position: compared left to right, the code breaks ties. */
  function Key(source: Location, a: Location): seq<nat> {
    [ if a.level < source.level then source.level - a.level else a.level - source.level,
      if a.moduleNumber < source.moduleNumber then source.moduleNumber - a.moduleNumber
      else a.moduleNumber - source.moduleNumber,
      a.moduleNumber,
      a.position ]
  }

  /** Both modules are odd or both are even. */
  predicate SameSide(a: Location, b: Location) { a.moduleNumber % 2 == b.moduleNumber % 2 }

  predicate LexLess(x: seq<nat>, y: seq<nat>) {
    exists k :: 0 <= k < |x| && k < |y| && x[..k] == y[..k] && x[k] < y[k]
  }

  predicate Closer(source: Location, a: Location, b: Location) {
    || LexLess(Key(source, a), Key(source, b))
    || (Key(source, a) == Key(source, b) && Precedes(Print(a), Print(b)))
  }

  lemma LexLessFour(x: seq<nat>, y: seq<nat>)
    requires |x| == |y| == 4
    ensures LexLess(x, y) <==>
              || x[0] < y[0]
              || (x[0] == y[0] && x[1] < y[1])
              || (x[0] == y[0] && x[1] == y[1] && x[2] < y[2])
              || (x[0] == y[0] && x[1] == y[1] && x[2] == y[2] && x[3] < y[3])
  {
    if x[0] < y[0] { assert x[..0] == y[..0]; }
    else if x[0] == y[0] && x[1] < y[1] { assert x[..1] == y[..1]; }
    else if x[0] == y[0] && x[1] == y[1] && x[2] < y[2] { assert x[..2] == y[..2]; }
    else if x[0] == y[0] && x[1] == y[1] && x[2] == y[2] && x[3] < y[3] { assert x[..3] == y[..3]; }
    if LexLess(x, y) {
      var k :| 0 <= k < 4 && x[..k] == y[..k] && x[k] < y[k];
      assert forall i :: 0 <= i < k ==> x[i] == x[..k][i] && y[i] == y[..k][i];
    }
  }

  /** The comparator is the lexicographic order; in particular its same-level test is redundant. */
  lemma ComparatorIsLexicographic(source: Location, a: Location, b: Location)
    ensures CompareSlots(source, a, b) < 0 <==> Closer(source, a, b)
    ensures CompareSlots(source, a, b) == 0 <==> a == b
    ensures CompareSlots(source, b, a) < 0 <==> CompareSlots(source, a, b) > 0
  {
    LexLessFour(Key(source, a), Key(source, b));
    LexLessFour(Key(source, b), Key(source, a));
    CompareZero(Print(a), Print(b));
    CompareMeaning(Print(a), Print(b));
    CompareAntisymmetric(Print(a), Print(b));
    if Print(a) == Print(b) { PrintInjective(a, b); }
  }

  lemma ComparatorTransitive(source: Location, a: Location, b: Location, c: Location)
    requires CompareSlots(source, a, b) <= 0 && CompareSlots(source, b, c) <= 0
    ensures CompareSlots(source, a, c) <= 0
  {
    if Compare(Print(a), Print(b)) <= 0 && Compare(Print(b), Print(c)) <= 0 {
      CompareTransitive(Print(a), Print(b), Print(c));
    }
  }

  lemma NoFartherIsTotal(source: Location)
    ensures TotalPreorder(NoFarther(source))
  {
    var le := NoFarther(source);
    forall a, b ensures le(a, b) || le(b, a) { ComparatorIsLexicographic(source, a, b); }
    forall a, b, c | le(a, b) && le(b, c) ensures le(a, c) { ComparatorTransitive(source, a, b, c); }
  }

  /** The ranking holds exactly the same-side free slots, each once, in strictly increasing order. */
  lemma RankingIsStrictlySorted(source: Location, free: seq<Location>)
    requires NoDup(free)
    ensures forall s :: s in RankSlots(source, free) <==> s in free && SameSide(s, source)
    ensures var r := RankSlots(source, free); forall i, j :: 0 <= i < j < |r| ==> Closer(source, r[i], r[j])
  {
    var same := Filter(free, OnSide(source));
    var r := RankSlots(source, free);
    FilterMembers(free, OnSide(source));
    FilterKeepsNoDup(free, OnSide(source));
    NoFartherIsTotal(source);
    SortPermutes(same, NoFarther(source));
    SortSorts(same, NoFarther(source));
    SortKeepsNoDup(same, NoFarther(source));
    forall i, j | 0 <= i < j < |r| ensures Closer(source, r[i], r[j]) {
      assert NoFarther(source)(r[i], r[j]);
      ComparatorIsLexicographic(source, r[i], r[j]);
    }
  }

  /** Whether the best slot exists, and which one it is, does not depend on the listing order. */
  lemma NearestIsMinimum(source: Location, free: seq<Location>)
    requires NoDup(free)
    ensures RankSlots(source, free) == [] <==> forall s :: s in free ==> !SameSide(s, source)
    ensures var r := RankSlots(source, free);
            r != [] ==> && r[0] in free && SameSide(r[0], source)
                        && forall s :: s in free && SameSide(s, source) && s != r[0] ==>
                             Closer(source, r[0], s)
  {
    RankingIsStrictlySorted(source, free);
    var r := RankSlots(source, free);
    if r != [] {
      forall s | s in free && SameSide(s, source) && s != r[0] ensures Closer(source, r[0], s) {
        assert s in r;
        var j :| 0 <= j < |r| && r[j] == s;
      }
    } else {
      forall s | s in free ensures !SameSide(s, source) { assert s !in r; }
    }
    if forall s :: s in free ==> !SameSide(s, source) {
      if r != [] { assert r[0] in r; }
    }
  }
}
