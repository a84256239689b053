/** The availability grid a party edits before submitting: `Days` columns of
    `Hours` one-hour cells, each holding a preference level in `[0, MaxLevel)`
    (0 = unavailable). A click on a cell raises its level by one, wrapping to 0. */
module Grid {

  const Days: int := 1
  const Hours: int := 8
  const MaxLevel: int := 5

  /** The grid as the component keeps it: one row of levels per day. */
  type Levels = seq<seq<int>>

  predicate Shaped(g: Levels) {
    |g| == Days && forall d :: 0 <= d < Days ==> |g[d]| == Hours
  }

  predicate IsCell(d: int, h: int) {
    0 <= d < Days && 0 <= h < Hours
  }

  ghost predicate InRange(g: Levels)
    requires Shaped(g)
  {
    forall d, h :: IsCell(d, h) ==> 0 <= g[d][h] < MaxLevel
  }

  /** The grid shown first and restored by the Reset control: every cell unavailable. */
  function InitialCalendar(): (g: Levels)
    ensures Shaped(g) && InRange(g)
    ensures forall d, h :: IsCell(d, h) ==> g[d][h] == 0
  {
    seq(Days, _ => seq(Hours, _ => 0))
  }

  /** JavaScript's `%`: the remainder takes the sign of the dividend. */
  function JsRem(a: int, b: int): (r: int)
    requires b > 0
    ensures a >= 0 ==> r == a % b
    ensures -b < r < b
  {
    if a >= 0 then a % b else -((-a) % b)
  }

  /** The grid after one click on cell `(day, hr)`. */
  function Bump(g: Levels, day: int, hr: int): (r: Levels)
    requires Shaped(g) && IsCell(day, hr)
    ensures Shaped(r)
    ensures r[day][hr] == JsRem(g[day][hr] + 1, MaxLevel)
    ensures forall d, h :: IsCell(d, h) && (d != day || h != hr) ==> r[d][h] == g[d][h]
  {
    g[day := g[day][hr := JsRem(g[day][hr] + 1, MaxLevel)]]
  }

  /** `increaseLevel`: copy every cell of the current grid into a fresh all-zero grid,
      then overwrite the clicked cell with its next level. */
  method Bumped(levels: Levels, day: int, hr: int) returns (g: Levels)
    requires Shaped(levels) && IsCell(day, hr)
    ensures g == Bump(levels, day, hr)
  {
    g := InitialCalendar();
    var i := 0;
    while i < Days
      invariant 0 <= i <= Days
      invariant Shaped(g)
      invariant forall d, h :: IsCell(d, h) && d < i ==> g[d][h] == levels[d][h]
    {
      var j := 0;
      while j < Hours
        invariant 0 <= j <= Hours
        invariant Shaped(g)
        invariant forall d, h :: IsCell(d, h) && (d < i || (d == i && h < j)) ==> g[d][h] == levels[d][h]
      {
        g := g[i := g[i][j := levels[i][j]]];
        j := j + 1;
      }
      i := i + 1;
    }
    assert forall d :: 0 <= d < Days ==> g[d] == levels[d];
    assert g == levels;
    g := g[day := g[day][hr := JsRem(g[day][hr] + 1, MaxLevel)]];
  }

  /** A click keeps every level of a well-formed grid within `[0, MaxLevel)`. */
  lemma BumpKeepsRange(g: Levels, day: int, hr: int)
    requires Shaped(g) && InRange(g) && IsCell(day, hr)
    ensures InRange(Bump(g, day, hr))
  {
  }

  /** The grid after `k` clicks on the same cell. */
  function BumpTimes(g: Levels, day: int, hr: int, k: nat): (r: Levels)
    requires Shaped(g) && IsCell(day, hr)
    ensures Shaped(r)
  {
    if k == 0 then g else Bump(BumpTimes(g, day, hr, k - 1), day, hr)
  }

  /** `k` clicks on one cell advance its level by `k` modulo `MaxLevel` and touch no other cell. */
  lemma {:induction false} BumpTimesCell(g: Levels, day: int, hr: int, k: nat)
    requires Shaped(g) && InRange(g) && IsCell(day, hr)
    ensures InRange(BumpTimes(g, day, hr, k))
    ensures BumpTimes(g, day, hr, k)[day][hr] == (g[day][hr] + k) % MaxLevel
    ensures forall d, h :: IsCell(d, h) && (d != day || h != hr) ==>
      BumpTimes(g, day, hr, k)[d][h] == g[d][h]
  {
    if k > 0 {
      BumpTimesCell(g, day, hr, k - 1);
      var prev := BumpTimes(g, day, hr, k - 1);
      BumpKeepsRange(prev, day, hr);
      NextLevelMod(g[day][hr] + k - 1);
    }
  }

  /** Raising a level reduced modulo `MaxLevel` is raising it and then reducing. */
  lemma NextLevelMod(a: int)
    requires a >= 0
    ensures (a % MaxLevel + 1) % MaxLevel == (a + 1) % MaxLevel
  {
  }

  /** `MaxLevel` clicks on one cell give back the grid it started from. */
  lemma BumpCycle(g: Levels, day: int, hr: int)
    requires Shaped(g) && InRange(g) && IsCell(day, hr)
    ensures BumpTimes(g, day, hr, MaxLevel as nat) == g
  {
    var r := BumpTimes(g, day, hr, MaxLevel as nat);
    BumpTimesCell(g, day, hr, MaxLevel as nat);
    assert forall d :: 0 <= d < Days ==> r[d] == g[d];
  }

  /** All clicks in `clicks` name a cell of the grid. */
  predicate AllCells(clicks: seq<(int, int)>) {
    forall i :: 0 <= i < |clicks| ==> IsCell(clicks[i].0, clicks[i].1)
  }

  /** The grid after the clicks in `clicks`, oldest first. */
  function Clicked(g: Levels, clicks: seq<(int, int)>): (r: Levels)
    requires Shaped(g) && AllCells(clicks)
    ensures Shaped(r)
    decreases |clicks|
  {
    if clicks == [] then g
    else
      var last := clicks[|clicks| - 1];
      Bump(Clicked(g, clicks[..|clicks| - 1]), last.0, last.1)
  }

  /** The rows laid end to end, as `flat` does. */
  function Flatten(g: Levels): seq<int> {
    if g == [] then [] else g[0] + Flatten(g[1..])
  }

  /** Flattening rows of `Hours` cells is row-major: cell `(d, h)` lands at `d * Hours + h`. */
  lemma {:induction false} FlattenRowMajor(g: Levels)
    requires forall d :: 0 <= d < |g| ==> |g[d]| == Hours
    ensures |Flatten(g)| == |g| * Hours
    ensures forall d, h :: 0 <= d < |g| && 0 <= h < Hours ==> Flatten(g)[d * Hours + h] == g[d][h]
  {
    if g != [] {
      FlattenRowMajor(g[1..]);
      forall d, h | 0 <= d < |g| && 0 <= h < Hours
        ensures Flatten(g)[d * Hours + h] == g[d][h]
      {
        if d > 0 {
          assert Flatten(g)[d * Hours + h] == Flatten(g[1..])[(d - 1) * Hours + h];
        }
      }
    }
  }

  /** The slots a party submits: `Days * Hours` levels, cell `(d, h)` at index `d * Hours + h`. */
  lemma SubmittedSlots(g: Levels)
    requires Shaped(g)
    ensures |Flatten(g)| == Days * Hours == 8
    ensures forall d, h :: IsCell(d, h) ==> Flatten(g)[d * Hours + h] == g[d][h]
    ensures InRange(g) ==> forall i :: 0 <= i < |Flatten(g)| ==> 0 <= Flatten(g)[i] < MaxLevel
  {
    FlattenRowMajor(g);
    if InRange(g) {
      forall i | 0 <= i < |Flatten(g)| ensures 0 <= Flatten(g)[i] < MaxLevel {
        assert Flatten(g)[(i / Hours) * Hours + i % Hours] == g[i / Hours][i % Hours];
      }
    }
  }
}
