/** How much of a warped crop lies inside the picture, summed up by threads that share memory. */
module Coverage {
  import opened IntArithmetic

  // ---------- the weight of one pixel

  /** 1 inside the picture, 0 outside. */
  function ValidTap(x: int, y: int, width: nat, height: nat): nat {
    if x >= 0 && y >= 0 && x < width && y < height then 1 else 0
  }

  /** Bilinear weights in 32nds at the fixed-point position (x, y); the four sum to 1024. */
  function TapWeight(x: int, y: int, right: bool, below: bool): nat {
    Part(x % 32, right) * Part(y % 32, below)
  }

  /** The share of the far tap is the fraction, that of the near tap the rest. */
  function Part(fraction: nat, far: bool): nat
    requires fraction <= 32
  {
    if far then fraction else 32 - fraction
  }

  /** The part of the pixel that comes from inside the picture, in 1024ths. */
  function Weight(x: int, y: int, width: nat, height: nat): nat {
    var x0, y0 := x / 32, y / 32;
    ValidTap(x0, y0, width, height) * TapWeight(x, y, false, false)
    + ValidTap(x0 + 1, y0, width, height) * TapWeight(x, y, true, false)
    + ValidTap(x0, y0 + 1, width, height) * TapWeight(x, y, false, true)
    + ValidTap(x0 + 1, y0 + 1, width, height) * TapWeight(x, y, true, true)
  }

  /** How much of the unit at position x, in 32nds, lies within the n units from 0 on. */
  function Cover(x: int, n: nat): nat {
    Max(0, Min(32, Min(32 + x, 32 * n - x)))
  }

  /** The weight is the area of the pixel's square that the picture covers. */
  lemma WeightIsCover(x: int, y: int, width: nat, height: nat)
    requires width >= 1 && height >= 1
    ensures Weight(x, y, width, height) == Cover(x, width) * Cover(y, height)
  {
    var a, b, c, d := Inside(x / 32, width), Inside(x / 32 + 1, width), Inside(y / 32, height),
      Inside(y / 32 + 1, height);
    var near, far, above, below := Part(x % 32, false), Part(x % 32, true), Part(y % 32, false), Part(y % 32, true);
    assert Cover(x, width) == a * near + b * far by {
      CoverIsTaps(x, width);
    }
    assert Cover(y, height) == c * above + d * below by {
      CoverIsTaps(y, height);
    }
    FourProducts(a, b, c, d, near, far, above, below);
  }

  function Inside(x: int, n: nat): nat {
    if 0 <= x < n then 1 else 0
  }

  lemma CoverIsTaps(x: int, n: nat)
    requires n >= 1
    ensures Cover(x, n) == Inside(x / 32, n) * Part(x % 32, false) + Inside(x / 32 + 1, n) * Part(x % 32, true)
  {
    var q, f := x / 32, x % 32;
    assert x == 32 * q + f;
  }

  lemma FourProducts(a: nat, b: nat, c: nat, d: nat, near: nat, far: nat, above: nat, below: nat)
    ensures (a * near + b * far) * (c * above + d * below)
         == (a * c) * (near * above) + (b * c) * (far * above) + (a * d) * (near * below) + (b * d) * (far * below)
  {
    ProductsTwo(a, near, c, above, d, below);
    ProductsTwo(b, far, c, above, d, below);
  }

  lemma ProductsTwo(a: nat, p: nat, c: nat, q: nat, d: nat, r: nat)
    ensures (a * p) * (c * q + d * r) == (a * c) * (p * q) + (a * d) * (p * r)
  {
    assert (a * p) * (c * q) == (a * c) * (p * q);
    assert (a * p) * (d * r) == (a * d) * (p * r);
  }

  /** The pixel's square lies wholly in the picture. */
  ghost predicate FullyInside(x: int, y: int, width: nat, height: nat) {
    0 <= x <= 32 * (width - 1) && 0 <= y <= 32 * (height - 1)
  }

  /** The weight is between 0 and 1024, and 1024 exactly when the pixel's square lies wholly in the picture. */
  lemma WeightBounds(x: int, y: int, width: nat, height: nat)
    ensures 0 <= Weight(x, y, width, height) <= 1024
    ensures Weight(x, y, width, height) == 1024 <==> FullyInside(x, y, width, height)
  {
    if width >= 1 && height >= 1 {
      WeightIsCover(x, y, width, height);
      CoverProducts(Cover(x, width), Cover(y, height));
    }
  }

  lemma CoverProducts(a: nat, b: nat)
    requires a <= 32 && b <= 32
    ensures a * b <= 1024 && (a * b == 1024 <==> a == 32 && b == 32)
  {
    assert a * b <= 32 * b;
    if b < 32 {
      assert a * b <= 32 * 31;
    } else if a < 32 {
      assert a * b <= 31 * 32;
    }
  }

  // ---------- sums

  function Total(s: seq<nat>): nat {
    if s == [] then 0 else Total(s[..|s| - 1]) + s[|s| - 1]
  }

  lemma {:induction false} TotalSplits(s: seq<nat>, k: nat)
    requires k <= |s|
    ensures Total(s) == Total(s[..k]) + Total(s[k..])
  {
    if k == |s| {
      assert s[..k] == s;
    } else {
      TotalSplits(s[..|s| - 1], k);
      assert s[..|s| - 1][..k] == s[..k];
      assert s[..|s| - 1][k..] == s[k..][..|s[k..]| - 1];
    }
  }

  lemma {:induction false} TotalBound(s: seq<nat>, most: nat)
    requires forall i :: 0 <= i < |s| ==> s[i] <= most
    ensures Total(s) <= |s| * most
    ensures Total(s) == |s| * most <==> forall i :: 0 <= i < |s| ==> s[i] == most
  {
    if s != [] {
      var n := |s| - 1;
      TotalBound(s[..n], most);
      OneMoreTimes(n, most);
      if forall i :: 0 <= i < n ==> s[..n][i] == most {
        assert forall i :: 0 <= i < n ==> s[i] == s[..n][i];
      } else {
        var i :| 0 <= i < n && s[..n][i] != most;
        assert s[i] != most;
      }
    }
  }

  lemma OneMoreTimes(n: nat, most: nat)
    ensures (n + 1) * most == n * most + most
  {
  }

  // ---------- threads between two barriers

  const WRAP: nat := 0x1_0000_0000

  /** Addition of 32-bit unsigned numbers. */
  function Add32(a: nat, b: nat): nat {
    (a + b) % WRAP
  }

  /** How often a lane gets its turn. */
  function Turns(schedule: seq<nat>, lane: nat): nat {
    if schedule == [] then 0
    else Turns(schedule[..|schedule| - 1], lane) + if schedule[|schedule| - 1] == lane then 1 else 0
  }

  /** Every working lane gets its three turns, loads and store, before the barrier. */
  ghost predicate ReachesBarrier(schedule: seq<nat>, stride: nat) {
    forall lane: nat :: lane < stride ==> Turns(schedule, lane) >= 3
  }

  /** The memory halved: each of the first cells has taken up its partner. */
  function Halved(m: seq<nat>, stride: nat): (h: seq<nat>)
    requires 2 * stride <= |m|
    ensures |h| == |m|
  {
    seq(|m|, i requires 0 <= i < |m| => if i < stride then Add32(m[i], m[i + stride]) else m[i])
  }

  /** Where each lane is, told from how many turns it had: nothing any lane reads is ever changed by another. */
  ghost predicate InStep(m: seq<nat>, now: seq<nat>, first: seq<nat>, second: seq<nat>, pc: seq<nat>, stride: nat) {
    && 2 * stride <= |m| == |now| && |first| == |second| == |pc| == stride
    && (forall i :: stride <= i < |m| ==> now[i] == m[i])
    && (forall l :: 0 <= l < stride ==> LaneAt(m[l], m[l + stride], now[l], first[l], second[l], pc[l]))
  }

  ghost predicate LaneAt(mine: nat, partner: nat, cell: nat, first: nat, second: nat, pc: nat) {
    && (pc >= 1 ==> first == mine)
    && (pc >= 2 ==> second == partner)
    && cell == (if pc >= 3 then Add32(mine, partner) else mine)
  }

  /** One pass of the tree: the lanes take their turns in whatever order; each turn is one memory access. */
  method Pass(mem: array<nat>, stride: nat, schedule: seq<nat>)
    requires 2 * stride <= mem.Length && ReachesBarrier(schedule, stride)
    modifies mem
    ensures mem[..] == Halved(old(mem[..]), stride)
  {
    hide InStep, Turns, ReachesBarrier, Halved;
    ghost var m := mem[..];
    var first, second, pc := new nat[stride](_ => 0), new nat[stride](_ => 0), new nat[stride](_ => 0);
    LanesStart(m, first[..], second[..], pc[..], stride);
    for k := 0 to |schedule|
      invariant InStep(m, mem[..], first[..], second[..], pc[..], stride)
      invariant forall l :: 0 <= l < stride ==> pc[l] == Turns(schedule[..k], l)
    {
      var lane := schedule[k];
      TurnsGrow(schedule, k);
      if lane < stride {
        LaneMoves(m, mem[..], first[..], second[..], pc[..], stride, lane);
        ghost var now, f, s, c := mem[..], first[..], second[..], pc[..];
        if pc[lane] == 0 {
          first[lane] := mem[lane];
          assert first[..] == f[lane := now[lane]];
        } else if pc[lane] == 1 {
          second[lane] := mem[lane + stride];
          assert second[..] == s[lane := now[lane + stride]];
        } else if pc[lane] == 2 {
          mem[lane] := Add32(first[lane], second[lane]);
          assert mem[..] == now[lane := Add32(f[lane], s[lane])];
        }
        pc[lane] := pc[lane] + 1;
        assert pc[..] == c[lane := c[lane] + 1];
      }
    }
    assert schedule[..|schedule|] == schedule;
    AllHadTheirTurns(schedule, stride);
    LanesDone(m, mem[..], first[..], second[..], pc[..], stride);
  }

  lemma TurnsGrow(schedule: seq<nat>, k: nat)
    requires k < |schedule|
    ensures forall l: nat :: Turns(schedule[..k + 1], l) == Turns(schedule[..k], l) + if schedule[k] == l then 1 else 0
  {
    assert schedule[..k + 1][..k] == schedule[..k];
  }

  lemma AllHadTheirTurns(schedule: seq<nat>, stride: nat)
    requires ReachesBarrier(schedule, stride)
    ensures forall lane: nat :: lane < stride ==> Turns(schedule, lane) >= 3
  {
  }

  lemma LanesStart(m: seq<nat>, first: seq<nat>, second: seq<nat>, pc: seq<nat>, stride: nat)
    requires 2 * stride <= |m| && |first| == |second| == |pc| == stride && forall l :: 0 <= l < stride ==> pc[l] == 0
    ensures InStep(m, m, first, second, pc, stride)
    ensures forall l: nat :: Turns([], l) == 0
  {
  }

  /** One turn of a lane keeps all lanes in step. */
  lemma LaneMoves(m: seq<nat>, now: seq<nat>, first: seq<nat>, second: seq<nat>, pc: seq<nat>, stride: nat, lane: nat)
    requires InStep(m, now, first, second, pc, stride) && lane < stride
    ensures |now| == |m| >= 2 * stride && |first| == |second| == |pc| == stride
    ensures pc[lane] == 0 ==> InStep(m, now, first[lane := now[lane]], second, pc[lane := pc[lane] + 1], stride)
    ensures pc[lane] == 1 ==>
      InStep(m, now, first, second[lane := now[lane + stride]], pc[lane := pc[lane] + 1], stride)
    ensures pc[lane] == 2 ==>
      InStep(m, now[lane := Add32(first[lane], second[lane])], first, second, pc[lane := pc[lane] + 1], stride)
    ensures pc[lane] >= 3 ==> InStep(m, now, first, second, pc[lane := pc[lane] + 1], stride)
  {
    hide Add32;
    assert LaneAt(m[lane], m[lane + stride], now[lane], first[lane], second[lane], pc[lane]);
  }

  /** When every lane has had its turns, the pass is complete. */
  lemma LanesDone(m: seq<nat>, now: seq<nat>, first: seq<nat>, second: seq<nat>, pc: seq<nat>, stride: nat)
    requires InStep(m, now, first, second, pc, stride) && forall l :: 0 <= l < stride ==> pc[l] >= 3
    ensures now == Halved(m, stride)
  {
    hide Add32;
    forall i | 0 <= i < |m| ensures now[i] == Halved(m, stride)[i] {
      if i < stride {
        assert LaneAt(m[i], m[i + stride], now[i], first[i], second[i], pc[i]);
      }
    }
  }

  // ---------- the tree

  /** Cell by cell, the sum of two lists. */
  function Paired(a: seq<nat>, b: seq<nat>): (r: seq<nat>)
    requires |a| == |b|
    ensures |r| == |a|
  {
    seq(|a|, i requires 0 <= i < |a| => a[i] + b[i])
  }

  lemma {:induction false} PairedTotal(a: seq<nat>, b: seq<nat>)
    requires |a| == |b|
    ensures Total(Paired(a, b)) == Total(a) + Total(b)
  {
    if a != [] {
      var n := |a| - 1;
      PairedTotal(a[..n], b[..n]);
      assert Paired(a, b)[..n] == Paired(a[..n], b[..n]);
    }
  }

  lemma {:induction false} PartOfTotal(s: seq<nat>, i: nat)
    requires i < |s|
    ensures s[i] <= Total(s)
  {
    if i < |s| - 1 {
      PartOfTotal(s[..|s| - 1], i);
    }
  }

  /** A pass keeps the sum, as long as it fits 32 bits. */
  lemma HalvingKeepsTotal(m: seq<nat>, stride: nat)
    requires 2 * stride <= |m| && Total(m[..2 * stride]) < WRAP
    ensures Total(Halved(m, stride)[..stride]) == Total(m[..2 * stride])
  {
    hide Total;
    var a, b := m[..stride], m[stride..2 * stride];
    TotalSplits(m[..2 * stride], stride);
    assert m[..2 * stride][..stride] == a && m[..2 * stride][stride..] == b;
    forall i | 0 <= i < stride ensures Halved(m, stride)[i] == a[i] + b[i] {
      PartOfTotal(a, i);
      PartOfTotal(b, i);
    }
    PairedTotal(a, b);
    assert Halved(m, stride)[..stride] == Paired(a, b);
  }

  /** The shared memory ends with the sum of all lanes' cells in cell 0, whatever order the lanes run in between
      barriers. */
  method TreeSum(mem: array<nat>, n: nat, schedules: seq<seq<nat>>)
    requires n <= mem.Length && n == Pow2(|schedules|) && Total(mem[..n]) < WRAP
    requires forall i :: 0 <= i < |schedules| ==> ReachesBarrier(schedules[i], Pow2(|schedules| - 1 - i))
    modifies mem
    ensures mem[0] == old(Total(mem[..n]))
  {
    hide ReachesBarrier, Halved;
    ghost var total := Total(mem[..n]);
    var stride, pass := n / 2, 0;
    while stride > 0
      invariant pass <= |schedules|
      invariant stride == if pass == |schedules| then 0 else Pow2(|schedules| - 1 - pass)
      invariant Pow2(|schedules| - pass) <= n && total < WRAP
      invariant Total(mem[..Pow2(|schedules| - pass)]) == total
      decreases stride
    {
      HalvingKeepsTotal(mem[..], stride);
      assert mem[..][..2 * stride] == mem[..2 * stride];
      ghost var m := mem[..];
      Pass(mem, stride, schedules[pass]);
      assert mem[..][..stride] == mem[..stride];
      assert Pow2(|schedules| - pass) == 2 * stride;
      pass := pass + 1;
      stride := stride / 2;
    }
    assert mem[..1] == [mem[0]];
    assert Total([mem[0]][..0]) == 0;
  }

  // ---------- groups of threads

  /** Where the pixel (x, y) of the crop comes from, in 32nds of a pixel. */
  type Warp = (nat, nat) -> (int, int)

  /** The weight of one pixel of the crop. */
  function PixelWeight(at: Warp, width: nat, height: nat, x: nat, y: nat): nat {
    Weight(at(x, y).0, at(x, y).1, width, height)
  }

  /** The column and the row of the pixel a lane of a group works on. */
  function Column(group: nat, lane: nat): nat {
    group % 5 * 16 + lane % 16
  }

  function Line(group: nat, lane: nat): nat {
    group / 5 * 16 + lane / 16
  }

  /** Each of the 80x80 pixels is the business of exactly one lane of one group. */
  lemma OneLanePerPixel(x: nat, y: nat)
    requires x < 80 && y < 80
    ensures var group, lane := y / 16 * 5 + x / 16, y % 16 * 16 + x % 16;
      && group < 25 && lane < 256 && Column(group, lane) == x && Line(group, lane) == y
      && forall g: nat, l: nat :: g < 25 && l < 256 && Column(g, l) == x && Line(g, l) == y ==> g == group && l == lane
  {
    var group, lane := y / 16 * 5 + x / 16, y % 16 * 16 + x % 16;
    assert group / 5 == y / 16 && group % 5 == x / 16;
    assert lane / 16 == y % 16 && lane % 16 == x % 16;
    forall g: nat, l: nat | g < 25 && l < 256 && Column(g, l) == x && Line(g, l) == y ensures g == group && l == lane {
      PixelNamesLane(g % 5, l % 16, x);
      PixelNamesLane(g / 5, l / 16, y);
    }
  }

  lemma PixelNamesLane(block: nat, offset: nat, x: nat)
    requires offset < 16 && block * 16 + offset == x
    ensures block == x / 16 && offset == x % 16
  {
  }

  function GroupWeights(at: Warp, width: nat, height: nat, group: nat): (ws: seq<nat>)
    ensures |ws| == 256
  {
    seq(256, lane requires 0 <= lane < 256 => PixelWeight(at, width, height, Column(group, lane), Line(group, lane)))
  }

  function GroupTotals(at: Warp, width: nat, height: nat): (ts: seq<nat>)
    ensures |ts| == 25
  {
    seq(25, group requires 0 <= group < 25 => Total(GroupWeights(at, width, height, group)))
  }

  /** In the first step every lane stores its own weight. */
  method Fill(mem: array<nat>, values: seq<nat>, schedule: seq<nat>)
    requires |values| <= mem.Length && forall lane: nat :: lane < |values| ==> lane in schedule
    modifies mem
    ensures mem[..|values|] == values
  {
    for k := 0 to |schedule|
      invariant forall lane: nat :: lane < |values| && lane in schedule[..k] ==> mem[lane] == values[lane]
    {
      var lane := schedule[k];
      assert schedule[..k + 1] == schedule[..k] + [lane];
      if lane < |values| {
        mem[lane] := values[lane];
      }
    }
    assert schedule[..|schedule|] == schedule;
  }

  /** How the lanes of a group of n = 2^k interleave: one order for the first step and one for each pass. */
  datatype Interleaving = Interleaving(fill: seq<nat>, passes: seq<seq<nat>>)

  ghost predicate Complete(order: Interleaving, k: nat) {
    && (forall lane: nat :: lane < Pow2(k) ==> lane in order.fill)
    && |order.passes| == k
    && forall i :: 0 <= i < k ==> ReachesBarrier(order.passes[i], Pow2(k - 1 - i))
  }

  /** Fill, then the tree: the sum of the values. */
  method SumShared(values: seq<nat>, k: nat, order: Interleaving) returns (sum: nat)
    requires |values| == Pow2(k) && Complete(order, k) && Total(values) < WRAP
    ensures sum == Total(values)
  {
    var mem := new nat[|values|](_ => 0);
    Fill(mem, values, order.fill);
    TreeSum(mem, |values|, order.passes);
    sum := mem[0];
  }

  lemma GroupFits(at: Warp, width: nat, height: nat, group: nat)
    ensures var ws := GroupWeights(at, width, height, group);
      && Total(ws) <= 262144
      && (Total(ws) == 262144 <==> forall lane :: 0 <= lane < 256 ==> ws[lane] == 1024)
  {
    var ws := GroupWeights(at, width, height, group);
    forall lane | 0 <= lane < 256 ensures ws[lane] <= 1024 {
      var p := at(Column(group, lane), Line(group, lane));
      WeightBounds(p.0, p.1, width, height);
    }
    TotalBound(ws, 1024);
  }

  /** All groups, in whatever order: cell g of the buffer is the sum of group g. */
  method SumGroups(at: Warp, width: nat, height: nat, order: seq<nat>, lanes: seq<Interleaving>)
    returns (sums: array<nat>)
    requires |lanes| == |order| && (forall g: nat :: g < 25 ==> g in order)
    requires forall i :: 0 <= i < |order| ==> order[i] < 25 && Complete(lanes[i], 8)
    ensures fresh(sums) && sums[..] == GroupTotals(at, width, height)
  {
    hide Complete, PixelWeight;
    assert Pow2(8) == 256;
    sums := new nat[25](_ => 0);
    for k := 0 to |order|
      invariant forall g: nat :: g < 25 && g in order[..k] ==> sums[g] == Total(GroupWeights(at, width, height, g))
    {
      var g := order[k];
      assert order[..k + 1] == order[..k] + [g];
      GroupFits(at, width, height, g);
      var sum := SumShared(GroupWeights(at, width, height, g), 8, lanes[k]);
      sums[g] := sum;
    }
    assert order[..|order|] == order;
  }

  /** The 25 sums padded to the 32 lanes of the second pass. */
  function Padded(sums: seq<nat>): (r: seq<nat>)
    requires |sums| == 25
    ensures |r| == 32
  {
    seq(32, lane requires 0 <= lane < 32 => if lane < 25 then sums[lane] else 0)
  }

  lemma PaddedTotal(sums: seq<nat>)
    requires |sums| == 25
    ensures Total(Padded(sums)) == Total(sums)
  {
    TotalSplits(Padded(sums), 25);
    assert Padded(sums)[..25] == sums;
    TotalBound(Padded(sums)[25..], 0);
  }

  function Saturate(x: real): real {
    if x < 0.0 then 0.0 else if x > 1.0 then 1.0 else x
  }

  /** All pixels of the crop come from inside the picture. */
  ghost predicate AllInside(at: Warp, width: nat, height: nat) {
    forall x: nat, y: nat :: x < 80 && y < 80 ==> FullyInside(at(x, y).0, at(x, y).1, width, height)
  }

  ghost predicate PixelInside(at: Warp, width: nat, height: nat, x: nat, y: nat) {
    FullyInside(at(x, y).0, at(x, y).1, width, height)
  }

  /** All pixels of the group come from inside the picture. */
  ghost predicate GroupInside(at: Warp, width: nat, height: nat, group: nat) {
    forall lane: nat :: lane < 256 ==> PixelInside(at, width, height, Column(group, lane), Line(group, lane))
  }

  lemma GroupFull(at: Warp, width: nat, height: nat, group: nat)
    ensures Total(GroupWeights(at, width, height, group)) == 262144 <==> GroupInside(at, width, height, group)
  {
    hide Weight, FullyInside, Column, Line, Total;
    GroupFits(at, width, height, group);
    var ws := GroupWeights(at, width, height, group);
    forall lane: nat | lane < 256 ensures ws[lane] == 1024 <==>
      PixelInside(at, width, height, Column(group, lane), Line(group, lane)) {
      var p := at(Column(group, lane), Line(group, lane));
      WeightBounds(p.0, p.1, width, height);
    }
  }

  lemma LanesCoverCrop(at: Warp, width: nat, height: nat)
    ensures AllInside(at, width, height) <==> forall g: nat :: g < 25 ==> GroupInside(at, width, height, g)
  {
    hide FullyInside;
    if forall g: nat :: g < 25 ==> GroupInside(at, width, height, g) {
      forall x: nat, y: nat | x < 80 && y < 80 ensures FullyInside(at(x, y).0, at(x, y).1, width, height) {
        OneLanePerPixel(x, y);
        var group, lane := y / 16 * 5 + x / 16, y % 16 * 16 + x % 16;
        assert GroupInside(at, width, height, group);
        assert PixelInside(at, width, height, Column(group, lane), Line(group, lane));
      }
    }
  }

  lemma AllFull(at: Warp, width: nat, height: nat)
    ensures var all := Total(GroupTotals(at, width, height));
      all <= 6553600 && (all == 6553600 <==> AllInside(at, width, height))
  {
    hide Total, GroupWeights, AllInside, GroupInside;
    var totals := GroupTotals(at, width, height);
    forall g: nat | g < 25
      ensures totals[g] <= 262144 && (totals[g] == 262144 <==> GroupInside(at, width, height, g))
    {
      GroupFits(at, width, height, g);
      GroupFull(at, width, height, g);
    }
    TotalBound(totals, 262144);
    LanesCoverCrop(at, width, height);
  }

  // ---------- the sum over the whole crop

  /** What each pixel of the crop gets. */
  type Picture = (nat, nat) -> nat

  /** The sum over n pixels of line y from column x on. */
  ghost function Stretch(f: Picture, y: nat, x: nat, n: nat): nat {
    if n == 0 then 0 else Stretch(f, y, x, n - 1) + f(x + n - 1, y)
  }

  /** The sum over the first n lines of 80 pixels. */
  ghost function Lines(f: Picture, n: nat): nat {
    if n == 0 then 0 else Lines(f, n - 1) + Stretch(f, n - 1, 0, 80)
  }

  /** The sum over the first n lines of a block of 16 columns. */
  ghost function Block(f: Picture, column: nat, row: nat, n: nat): nat {
    if n == 0 then 0 else Block(f, column, row, n - 1) + Stretch(f, row * 16 + n - 1, column * 16, 16)
  }

  /** The sum over the first n lines of the first m blocks of a row of blocks. */
  ghost function Blocks(f: Picture, row: nat, m: nat, n: nat): nat {
    if m == 0 then 0 else Blocks(f, row, m - 1, n) + Block(f, m - 1, row, n)
  }

  lemma {:induction false} StretchSplits(f: Picture, y: nat, x: nat, n: nat, m: nat)
    ensures Stretch(f, y, x, n + m) == Stretch(f, y, x, n) + Stretch(f, y, x + n, m)
  {
    if m > 0 {
      StretchSplits(f, y, x, n, m - 1);
    }
  }

  /** One line more through m blocks is one stretch. */
  lemma {:induction false} LineThroughBlocks(f: Picture, row: nat, m: nat, n: nat)
    ensures Blocks(f, row, m, n + 1) == Blocks(f, row, m, n) + Stretch(f, row * 16 + n, 0, m * 16)
  {
    if m > 0 {
      LineThroughBlocks(f, row, m - 1, n);
      StretchSplits(f, row * 16 + n, 0, (m - 1) * 16, 16);
    }
  }

  /** A row of five blocks is made of whole lines. */
  lemma {:induction false} BlocksAreLines(f: Picture, row: nat, n: nat)
    ensures Lines(f, row * 16 + n) == Lines(f, row * 16) + Blocks(f, row, 5, n)
  {
    if n == 0 {
      NoBlocks(f, row, 5);
    } else {
      BlocksAreLines(f, row, n - 1);
      LineThroughBlocks(f, row, 5, n - 1);
    }
  }

  lemma {:induction false} NoBlocks(f: Picture, row: nat, m: nat)
    ensures Blocks(f, row, m, 0) == 0
  {
    if m > 0 {
      NoBlocks(f, row, m - 1);
    }
  }

  ghost predicate LaneHolds(f: Picture, ws: seq<nat>, column: nat, row: nat, c: nat, d: nat) {
    c * 16 + d < |ws| ==> ws[c * 16 + d] == f(column * 16 + d, row * 16 + c)
  }

  /** Every lane of the group has its pixel of the block. */
  ghost predicate LanesHold(f: Picture, ws: seq<nat>, column: nat, row: nat) {
    forall c: nat, d: nat :: d < 16 ==> LaneHolds(f, ws, column, row, c, d)
  }

  /** The lanes of a group fill its block line by line. */
  lemma {:induction false} LanesFillBlock(f: Picture, ws: seq<nat>, column: nat, row: nat, line: nat, n: nat)
    requires line * 16 + n <= |ws| && n <= 16 && LanesHold(f, ws, column, row)
    ensures Total(ws[..line * 16 + n]) == Block(f, column, row, line) + Stretch(f, row * 16 + line, column * 16, n)
    decreases line, n
  {
    if n > 0 {
      LanesFillBlock(f, ws, column, row, line, n - 1);
      OneMoreTerm(ws, line * 16 + n - 1);
      assert LaneHolds(f, ws, column, row, line, n - 1);
    } else if line > 0 {
      LanesFillBlock(f, ws, column, row, line - 1, 16);
    }
  }

  lemma OneMoreTerm(s: seq<nat>, n: nat)
    requires n < |s|
    ensures Total(s[..n + 1]) == Total(s[..n]) + s[n]
  {
    assert s[..n + 1][..n] == s[..n];
  }

  /** The groups fill the crop row by row. */
  lemma {:induction false} GroupsFillCrop(f: Picture, sums: seq<nat>, row: nat, n: nat)
    requires row * 5 + n <= |sums| && n <= 5
    requires forall r: nat, c: nat :: r * 5 + c < |sums| && c < 5 ==> sums[r * 5 + c] == Block(f, c, r, 16)
    ensures Total(sums[..row * 5 + n]) == Lines(f, row * 16) + Blocks(f, row, n, 16)
    decreases row, n
  {
    if n > 0 {
      GroupsFillCrop(f, sums, row, n - 1);
      OneMoreTerm(sums, row * 5 + n - 1);
      assert sums[row * 5 + (n - 1)] == Block(f, n - 1, row, 16);
    } else if row > 0 {
      GroupsFillCrop(f, sums, row - 1, 5);
      BlocksAreLines(f, row - 1, 16);
    }
  }

  /** How much of the pixel's square the picture covers. */
  function SquareCover(at: Warp, width: nat, height: nat, x: nat, y: nat): nat {
    Cover(at(x, y).0, width) * Cover(at(x, y).1, height)
  }

  /** The area of the crop that the picture covers, in 1024ths of a pixel: over all lines and columns. */
  ghost function CropCover(at: Warp, width: nat, height: nat): nat {
    Lines((x, y) => SquareCover(at, width, height, x, y), 80)
  }

  /** One group's total is its block of the crop. */
  lemma GroupIsBlock(at: Warp, width: nat, height: nat, column: nat, row: nat)
    requires width >= 1 && height >= 1 && column < 5 && row < 5
    ensures Total(GroupWeights(at, width, height, row * 5 + column))
         == Block((x, y) => SquareCover(at, width, height, x, y), column, row, 16)
  {
    hide Total, Cover, Weight, SquareCover, Block, Stretch;
    var f: Picture := (x, y) => SquareCover(at, width, height, x, y);
    var group := row * 5 + column;
    var ws := GroupWeights(at, width, height, group);
    forall c: nat, d: nat | d < 16 ensures LaneHolds(f, ws, column, row, c, d) {
      LanePlace(column, row, c, d);
      SquareIsWeight(at, width, height, column * 16 + d, row * 16 + c);
    }
    LanesFillBlock(f, ws, column, row, 16, 0);
    assert ws[..256] == ws;
    NoStretch(f, row * 16 + 16, column * 16);
  }

  lemma NoStretch(f: Picture, y: nat, x: nat)
    ensures Stretch(f, y, x, 0) == 0
  {
  }

  lemma LanePlace(column: nat, row: nat, c: nat, d: nat)
    requires column < 5 && d < 16
    ensures Column(row * 5 + column, c * 16 + d) == column * 16 + d
      && Line(row * 5 + column, c * 16 + d) == row * 16 + c
  {
    assert (row * 5 + column) % 5 == column && (row * 5 + column) / 5 == row;
    assert (c * 16 + d) % 16 == d && (c * 16 + d) / 16 == c;
  }

  lemma SquareIsWeight(at: Warp, width: nat, height: nat, x: nat, y: nat)
    requires width >= 1 && height >= 1
    ensures PixelWeight(at, width, height, x, y) == SquareCover(at, width, height, x, y)
  {
    WeightIsCover(at(x, y).0, at(x, y).1, width, height);
  }

  /** The groups' totals make up the covered area of the crop. */
  lemma TotalsAreCropCover(at: Warp, width: nat, height: nat)
    requires width >= 1 && height >= 1
    ensures Total(GroupTotals(at, width, height)) == CropCover(at, width, height)
  {
    hide Total, SquareCover, Block, Stretch, Blocks, Lines, GroupWeights;
    var f: Picture := (x, y) => SquareCover(at, width, height, x, y);
    var sums := GroupTotals(at, width, height);
    forall r: nat, c: nat | r * 5 + c < 25 && c < 5 ensures sums[r * 5 + c] == Block(f, c, r, 16) {
      GroupIsBlock(at, width, height, c, r);
    }
    GroupsFillCrop(f, sums, 5, 0);
    assert sums[..25] == sums;
    NoBlock(f, 5);
  }

  lemma NoBlock(f: Picture, row: nat)
    ensures Blocks(f, row, 0, 16) == 0
  {
  }

  /** The share of the crop that lies outside the picture: exact, a fraction, and zero only for a crop wholly inside. */
  method OutsideRatio(at: Warp, width: nat, height: nat, order: seq<nat>, lanes: seq<Interleaving>, last: Interleaving)
    returns (ratio: real)
    requires |lanes| == |order| && (forall g: nat :: g < 25 ==> g in order)
    requires forall i :: 0 <= i < |order| ==> order[i] < 25 && Complete(lanes[i], 8)
    requires Complete(last, 5)
    ensures ratio == 1.0 - Total(GroupTotals(at, width, height)) as real / 6553600.0
    ensures 0.0 <= ratio <= 1.0
    ensures ratio == 0.0 <==> forall x: nat, y: nat :: x < 80 && y < 80 ==>
      0 <= at(x, y).0 <= 32 * (width - 1) && 0 <= at(x, y).1 <= 32 * (height - 1)
    ensures width >= 1 && height >= 1 ==> ratio == 1.0 - CropCover(at, width, height) as real / 6553600.0
  {
    hide Complete, GroupTotals, CropCover;
    var sums := SumGroups(at, width, height, order, lanes);
    AllFull(at, width, height);
    if width >= 1 && height >= 1 {
      TotalsAreCropCover(at, width, height);
    }
    PaddedTotal(sums[..]);
    assert Pow2(5) == 32;
    var all := SumShared(Padded(sums[..]), 5, last);
    ratio := Saturate(1.0 - all as real / 6553600.0);
  }
}
