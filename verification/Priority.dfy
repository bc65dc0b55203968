/** Strict-priority scheduling of a region's coroutines, on the source.

Coroutines fall into bands of equal priority. A scan visits the bands from the lowest
priority value up, and within a band the members after the one that ran last and then the
rest. Whoever runs ends the scan, and the next starts from the top.
*/
module Priority {
  import opened Options
  import opened Regions

  // ── Bands ────────────────────────────────────────────────────────────

  const U32_MAX: nat := 0xFFFF_FFFF

  type Bands = seq<seq<nat>>

  /** Coroutines without a priority come after all that have one. */
  function Key(p: Option<nat>): nat {
    if p.Some? then p.value else U32_MAX
  }

  function KeyOf(region: Region, i: nat): nat
    requires i < |region.coroutines|
  {
    Key(region.coroutines[i].priority)
  }

  /** The order of coroutines: by priority, then as written. */
  predicate Precedes(region: Region, i: nat, j: nat)
    requires i < |region.coroutines| && j < |region.coroutines|
  {
    KeyOf(region, i) < KeyOf(region, j) || (KeyOf(region, i) == KeyOf(region, j) && i < j)
  }

  function PriorityOf(region: Region, i: nat): Option<nat>
    requires i < |region.coroutines|
  {
    region.coroutines[i].priority
  }

  /** `i` comes before `j` wherever they are written: the lower number first, and a number
      below `u32::MAX` before none. */
  predicate Outranks(region: Region, i: nat, j: nat)
    requires i < |region.coroutines| && j < |region.coroutines|
  {
    match (PriorityOf(region, i), PriorityOf(region, j))
    case (Some(x), Some(y)) => x < y
    case (Some(x), None) => x < U32_MAX
    case (None, _) => false
  }

  /** Coroutines of one priority, in the order they are written. */
  ghost predicate BandOk(region: Region, band: seq<nat>) {
    && |band| > 0 && (forall k :: 0 <= k < |band| ==> band[k] < |region.coroutines|)
    && (forall k :: 0 <= k < |band| ==> PriorityOf(region, band[k]) == PriorityOf(region, band[0]))
    && (forall k, l :: 0 <= k < l < |band| ==> band[k] < band[l])
  }

  /** Everyone in `x` comes before everyone in `y`. */
  ghost predicate BandBefore(region: Region, x: seq<nat>, y: seq<nat>) {
    && BandOk(region, x) && BandOk(region, y)
    && forall k, l :: 0 <= k < |x| && 0 <= l < |y| ==> Precedes(region, x[k], y[l])
  }

  /** Two bands that do not belong together. */
  ghost predicate Differ(region: Region, x: seq<nat>, y: seq<nat>) {
    BandOk(region, x) && BandOk(region, y) && PriorityOf(region, x[0]) != PriorityOf(region, y[0])
  }

  ghost predicate InBands(bands: Bands, i: nat) {
    exists b :: 0 <= b < |bands| && i in bands[b]
  }

  /** `bands` sorts the coroutines in `who` into bands of equal priority. */
  ghost predicate SortedInto(region: Region, bands: Bands, who: set<nat>) {
    && (forall b :: 0 <= b < |bands| ==> BandOk(region, bands[b]))
    && (forall b, c :: 0 <= b < c < |bands| ==> BandBefore(region, bands[b], bands[c]))
    && (forall b :: 0 <= b < |bands| - 1 ==> Differ(region, bands[b], bands[b + 1]))
    && (forall i :: i in who <==> InBands(bands, i))
  }

  ghost function Everyone(n: nat): (r: set<nat>)
    ensures forall i: nat :: i in r <==> i < n
  {
    if n == 0 then {} else Everyone(n - 1) + {n - 1}
  }

  ghost predicate BandsOk(region: Region, bands: Bands) {
    SortedInto(region, bands, Everyone(|region.coroutines|))
  }

  /** No coroutine has two places. */
  lemma OnePlace(region: Region, bands: Bands, b: nat, k: nat, c: nat, l: nat)
    requires BandsOk(region, bands) && b < |bands| && k < |bands[b]| && c < |bands| && l < |bands[c]|
    requires bands[b][k] == bands[c][l]
    ensures b == c && k == l
  {
    assert BandOk(region, bands[b]) && BandOk(region, bands[c]);
    assert b < c ==> BandBefore(region, bands[b], bands[c]);
    assert c < b ==> BandBefore(region, bands[c], bands[b]);
  }

  // ── Sorting ──────────────────────────────────────────────────────────

  ghost predicate InOrderOf(region: Region, order: seq<nat>) {
    && (forall a :: 0 <= a < |order| ==> order[a] < |region.coroutines|)
    && (forall a, b :: 0 <= a < b < |order| ==> Precedes(region, order[a], order[b]))
  }

  /** The coroutines by priority, those of equal priority as written. */
  method SortByPriority(region: Region) returns (order: seq<nat>)
    ensures InOrderOf(region, order)
    ensures forall i: nat :: i in order <==> i < |region.coroutines|
    ensures forall a, b :: 0 <= a < |order| && 0 <= b < |order| && Outranks(region, order[a], order[b]) ==> a < b
    ensures forall a, b :: 0 <= a < b < |order| && PriorityOf(region, order[a]) == PriorityOf(region, order[b]) ==>
              order[a] < order[b]
  {
    order := [];
    for i := 0 to |region.coroutines|
      invariant InOrderOf(region, order)
      invariant forall j: nat :: j in order <==> j < i
    {
      var at := |order|;
      while at > 0 && KeyOf(region, i) < KeyOf(region, order[at - 1])
        invariant 0 <= at <= |order|
        invariant forall a :: at <= a < |order| ==> KeyOf(region, i) < KeyOf(region, order[a])
      {
        at := at - 1;
      }
      InsertAt(region, order, i, at);
      order := order[..at] + [i] + order[at..];
    }
  }

  lemma InsertAt(region: Region, order: seq<nat>, i: nat, at: nat)
    requires InOrderOf(region, order) && i < |region.coroutines| && at <= |order|
    requires forall j: nat :: j in order <==> j < i
    requires forall a :: at <= a < |order| ==> KeyOf(region, i) < KeyOf(region, order[a])
    requires at > 0 ==> KeyOf(region, order[at - 1]) <= KeyOf(region, i)
    ensures var order' := order[..at] + [i] + order[at..];
            InOrderOf(region, order') && forall j: nat :: j in order' <==> j < i + 1
  {
    var order' := order[..at] + [i] + order[at..];
    forall a | 0 <= a < at
      ensures Precedes(region, order[a], i)
    {
      assert order[a] in order;
      assert a < at - 1 ==> Precedes(region, order[a], order[at - 1]);
    }
    assert forall a :: at <= a < |order| ==> Precedes(region, i, order[a]);
    hide Precedes;
    forall a, b | 0 <= a < b < |order'|
      ensures Precedes(region, order'[a], order'[b])
    {
      var x := if a < at then a else a - 1;
      var y := if b < at then b else b - 1;
      if a != at && b != at {
        assert order'[a] == order[x] && order'[b] == order[y] && Precedes(region, order[x], order[y]);
      }
    }
    OneMore(order, i, at);
  }

  lemma OneMore(order: seq<nat>, i: nat, at: nat)
    requires at <= |order|
    ensures forall j: nat :: j in order[..at] + [i] + order[at..] <==> j in order || j == i
  {
    assert order == order[..at] + order[at..];
  }

  /** Consecutive coroutines of equal priority make a band. */
  method MakeBands(region: Region) returns (bands: Bands)
    ensures BandsOk(region, bands)
    ensures forall b :: 0 <= b < |bands| ==> BandOk(region, bands[b])
    ensures forall b, k, c, l :: 0 <= b < |bands| && 0 <= k < |bands[b]| && 0 <= c < |bands| && 0 <= l < |bands[c]|
                                 && Outranks(region, bands[b][k], bands[c][l]) ==>
              b < c
  {
    var order := SortByPriority(region);
    bands := [];
    ghost var who: set<nat> := {};
    hide SortedInto;
    NoBands(region);
    for t := 0 to |order|
      invariant who == set a | 0 <= a < t :: order[a]
      invariant SortedInto(region, bands, who)
    {
      var i := order[t];
      assert forall j :: j in who ==> Precedes(region, j, i);
      FirstOfLast(region, bands, who);
      if |bands| > 0 && region.coroutines[bands[|bands| - 1][0]].priority == region.coroutines[i].priority {
        AddToBand(region, bands, who, i);
        bands := bands[|bands| - 1 := bands[|bands| - 1] + [i]];
      } else {
        AddBand(region, bands, who, i);
        bands := bands + [[i]];
      }
      who := who + {i};
    }
    assert forall i: nat :: i in order <==> exists a :: 0 <= a < |order| && order[a] == i;
    assert forall i: nat :: i in who <==> i in order;
    assert who == Everyone(|region.coroutines|);
    LowestFirst(region, bands);
  }

  /** Bands are run from the lowest number up, and those without one last. */
  lemma LowestFirst(region: Region, bands: Bands)
    requires BandsOk(region, bands)
    ensures forall b :: 0 <= b < |bands| ==> BandOk(region, bands[b])
    ensures forall b, k, c, l :: 0 <= b < |bands| && 0 <= k < |bands[b]| && 0 <= c < |bands| && 0 <= l < |bands[c]|
                                 && Outranks(region, bands[b][k], bands[c][l]) ==>
              b < c
  {
    forall b | 0 <= b < |bands|
      ensures BandOk(region, bands[b])
    {
    }
    forall b, k, c, l | 0 <= b < |bands| && 0 <= k < |bands[b]| && 0 <= c < |bands| && 0 <= l < |bands[c]|
      ensures c <= b ==> !Outranks(region, bands[b][k], bands[c][l])
    {
      if c < b {
        assert BandBefore(region, bands[c], bands[b]);
      }
    }
  }

  lemma NoBands(region: Region)
    ensures SortedInto(region, [], {})
  {
  }

  lemma FirstOfLast(region: Region, bands: Bands, who: set<nat>)
    requires SortedInto(region, bands, who)
    ensures |bands| > 0 ==>
              |bands[|bands| - 1]| > 0 && bands[|bands| - 1][0] < |region.coroutines| && bands[|bands| - 1][0] in who
  {
    if |bands| > 0 {
      assert BandOk(region, bands[|bands| - 1]);
      assert bands[|bands| - 1][0] in bands[|bands| - 1];
      assert InBands(bands, bands[|bands| - 1][0]);
    }
  }

  lemma AddToBand(region: Region, bands: Bands, who: set<nat>, i: nat)
    requires SortedInto(region, bands, who) && i < |region.coroutines| && |bands| > 0
    requires forall j :: j in who ==> j < |region.coroutines| && Precedes(region, j, i)
    requires |bands[|bands| - 1]| > 0 && bands[|bands| - 1][0] < |region.coroutines|
    requires region.coroutines[bands[|bands| - 1][0]].priority == region.coroutines[i].priority
    ensures SortedInto(region, bands[|bands| - 1 := bands[|bands| - 1] + [i]], who + {i})
  {
    var n := |bands| - 1;
    var band, band' := bands[n], bands[n] + [i];
    var bands' := bands[n := band'];
    MembersPrecede(region, bands, who, i);
    assert BandOk(region, band);
    LongerBand(region, band, i);
    forall b | 0 <= b < n
      ensures BandBefore(region, bands'[b], band')
    {
      BandBeforeLonger(region, bands[b], band, i);
    }
    assert forall b :: 0 <= b < |bands'| - 1 ==> Differ(region, bands'[b], bands'[b + 1]) by {
      assert n > 0 ==> Differ(region, bands[n - 1], band);
      FirstStays(band, i);
    }
    hide BandOk, BandBefore, Precedes, Differ;
    WithinGrows(bands, n, i);
  }

  lemma LongerBand(region: Region, band: seq<nat>, i: nat)
    requires BandOk(region, band) && i < |region.coroutines| && PriorityOf(region, band[0]) == PriorityOf(region, i)
    requires forall k :: 0 <= k < |band| ==> Precedes(region, band[k], i)
    ensures BandOk(region, band + [i])
  {
  }

  lemma BandBeforeLonger(region: Region, x: seq<nat>, band: seq<nat>, i: nat)
    requires BandBefore(region, x, band) && BandOk(region, band + [i])
    requires i < |region.coroutines| && forall k :: 0 <= k < |x| ==>
               x[k] < |region.coroutines| && Precedes(region, x[k], i)
    ensures BandBefore(region, x, band + [i])
  {
    hide Precedes;
  }

  lemma MembersPrecede(region: Region, bands: Bands, who: set<nat>, i: nat)
    requires SortedInto(region, bands, who) && i < |region.coroutines|
    requires forall j :: j in who ==> j < |region.coroutines| && Precedes(region, j, i)
    ensures forall b, k :: 0 <= b < |bands| && 0 <= k < |bands[b]| ==>
              bands[b][k] < |region.coroutines| && Precedes(region, bands[b][k], i)
  {
    forall b, k | 0 <= b < |bands| && 0 <= k < |bands[b]|
      ensures bands[b][k] in who
    {
      assert bands[b][k] in bands[b];
      assert InBands(bands, bands[b][k]);
    }
  }

  lemma FirstStays(band: seq<nat>, i: nat)
    requires |band| > 0
    ensures (band + [i])[0] == band[0]
  {
  }

  lemma WithinGrows(bands: Bands, n: nat, i: nat)
    requires n < |bands|
    ensures forall j :: InBands(bands[n := bands[n] + [i]], j) <==> InBands(bands, j) || j == i
  {
    var bands' := bands[n := bands[n] + [i]];
    forall j
      ensures InBands(bands', j) <==> InBands(bands, j) || j == i
    {
      if InBands(bands, j) {
        var b :| 0 <= b < |bands| && j in bands[b];
        assert j in bands'[b];
      }
      if j == i {
        assert i in bands'[n];
      }
    }
  }

  lemma AddBand(region: Region, bands: Bands, who: set<nat>, i: nat)
    requires SortedInto(region, bands, who) && i < |region.coroutines|
    requires forall j :: j in who ==> j < |region.coroutines| && Precedes(region, j, i)
    requires |bands| > 0 ==>
               && |bands[|bands| - 1]| > 0 && bands[|bands| - 1][0] < |region.coroutines|
               && bands[|bands| - 1][0] in who
               && region.coroutines[bands[|bands| - 1][0]].priority != region.coroutines[i].priority
    ensures SortedInto(region, bands + [[i]], who + {i})
  {
    var bands' := bands + [[i]];
    assert BandOk(region, [i]);
    MembersPrecede(region, bands, who, i);
    forall b | 0 <= b < |bands|
      ensures BandBefore(region, bands[b], [i])
    {
      assert BandOk(region, bands[b]);
    }
    hide BandOk, BandBefore, Precedes;
    NewBand(bands, i);
  }

  lemma NewBand(bands: Bands, i: nat)
    ensures forall j :: InBands(bands + [[i]], j) <==> InBands(bands, j) || j == i
  {
    var bands' := bands + [[i]];
    forall j
      ensures InBands(bands', j) <==> InBands(bands, j) || j == i
    {
      if InBands(bands, j) {
        var b :| 0 <= b < |bands| && j in bands[b];
        assert j in bands'[b];
      }
      if j == i {
        assert i in bands'[|bands|];
      }
    }
  }

  // ── Who shares a band ────────────────────────────────────────────────

  /** `x` is sorted between `i` and `j`, whose keys are equal. */
  predicate Between(region: Region, i: nat, x: nat, j: nat)
    requires i < |region.coroutines| && x < |region.coroutines| && j < |region.coroutines|
  {
    (i < x < j || j < x < i) && KeyOf(region, x) == KeyOf(region, i)
  }

  /** Two coroutines of one priority with no coroutine sorted between them that has another.
      Below `u32::MAX` no two priorities tie, and so any two of equal priority take turns. A
      coroutine without a priority ties with priority `u32::MAX`, and splits its band. */
  predicate TakeTurns(region: Region, i: nat, j: nat)
    requires i < |region.coroutines| && j < |region.coroutines|
  {
    && PriorityOf(region, i) == PriorityOf(region, j)
    && forall k :: 0 <= k < |region.coroutines| && Between(region, i, k, j) ==>
         PriorityOf(region, k) == PriorityOf(region, i)
  }

  lemma BelowMaxTakesTurns(region: Region, i: nat, j: nat)
    requires i < |region.coroutines| && j < |region.coroutines|
    ensures PriorityOf(region, i) == PriorityOf(region, j) && KeyOf(region, i) < U32_MAX ==> TakeTurns(region, i, j)
  {
    forall k | 0 <= k < |region.coroutines| && KeyOf(region, k) == KeyOf(region, i) && KeyOf(region, i) < U32_MAX
      ensures PriorityOf(region, k) == PriorityOf(region, i)
    {
    }
  }

  /** Exactly those share a band; below `u32::MAX`, exactly those of one priority. */
  lemma SharesBandIff(region: Region, bands: Bands, b: nat, k: nat, c: nat, l: nat)
    requires BandsOk(region, bands) && b < |bands| && k < |bands[b]| && c < |bands| && l < |bands[c]|
    ensures bands[b][k] < |region.coroutines| && bands[c][l] < |region.coroutines|
    ensures b == c <==> TakeTurns(region, bands[b][k], bands[c][l])
    ensures KeyOf(region, bands[b][k]) < U32_MAX ==>
              (b == c <==> PriorityOf(region, bands[b][k]) == PriorityOf(region, bands[c][l]))
  {
    assert BandOk(region, bands[b]) && BandOk(region, bands[c]);
    BelowMaxTakesTurns(region, bands[b][k], bands[c][l]);
    if b == c {
      SameBandTakesTurns(region, bands, b, k, l);
    } else if b < c {
      ApartTakeNoTurns(region, bands, b, k, c, l);
    } else {
      ApartTakeNoTurns(region, bands, c, l, b, k);
    }
  }

  /** Nobody of another band is sorted between two of one band. */
  lemma NobodyBetween(region: Region, bands: Bands, b: nat, k: nat, l: nat, d: nat, y: nat)
    requires BandsOk(region, bands) && b < |bands| && k < |bands[b]| && l < |bands[b]| && d < |bands| && y < |bands[d]|
    ensures bands[b][k] < |region.coroutines| && bands[b][l] < |region.coroutines| && bands[d][y] < |region.coroutines|
    ensures d == b || !Between(region, bands[b][k], bands[d][y], bands[b][l])
  {
    assert BandOk(region, bands[b]) && BandOk(region, bands[d]);
    if d < b {
      assert BandBefore(region, bands[d], bands[b]);
      assert Precedes(region, bands[d][y], bands[b][k]) && Precedes(region, bands[d][y], bands[b][l]);
    } else if b < d {
      assert BandBefore(region, bands[b], bands[d]);
      assert Precedes(region, bands[b][k], bands[d][y]) && Precedes(region, bands[b][l], bands[d][y]);
    }
  }

  lemma SameBandTakesTurns(region: Region, bands: Bands, b: nat, k: nat, l: nat)
    requires BandsOk(region, bands) && b < |bands| && k < |bands[b]| && l < |bands[b]|
    requires bands[b][k] < |region.coroutines| && bands[b][l] < |region.coroutines|
    ensures TakeTurns(region, bands[b][k], bands[b][l])
  {
    var i, j := bands[b][k], bands[b][l];
    assert BandOk(region, bands[b]);
    forall x | 0 <= x < |region.coroutines| && Between(region, i, x, j)
      ensures PriorityOf(region, x) == PriorityOf(region, i)
    {
      assert InBands(bands, x);
      var d :| 0 <= d < |bands| && x in bands[d];
      var y :| 0 <= y < |bands[d]| && bands[d][y] == x;
      NobodyBetween(region, bands, b, k, l, d, y);
    }
  }

  lemma ApartTakeNoTurns(region: Region, bands: Bands, b: nat, k: nat, c: nat, l: nat)
    requires BandsOk(region, bands) && b < c < |bands| && k < |bands[b]| && l < |bands[c]|
    requires bands[b][k] < |region.coroutines| && bands[c][l] < |region.coroutines|
    ensures !TakeTurns(region, bands[b][k], bands[c][l]) && !TakeTurns(region, bands[c][l], bands[b][k])
  {
    var i, j := bands[b][k], bands[c][l];
    assert Differ(region, bands[b], bands[b + 1]);
    assert BandOk(region, bands[b]) && BandOk(region, bands[b + 1]) && BandOk(region, bands[c]);
    assert BandBefore(region, bands[b], bands[c]) && Precedes(region, i, j);
    var x := bands[b + 1][0];
    assert BandBefore(region, bands[b], bands[b + 1]) && Precedes(region, i, x);
    if b + 1 < c {
      assert BandBefore(region, bands[b + 1], bands[c]) && Precedes(region, x, j);
    }
  }
}
