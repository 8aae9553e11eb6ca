/**
 * The integer parts of the decorative generators of app/page.tsx:
 * `FloatingParticles`, `AnimatedLines` and the rings of `RadialCircles`.
 * The first two map an index `i` in `0..count-1` to a record computed from
 * `i` alone with `%` by a constant; every index is a non-negative integer,
 * so JavaScript's `%` and Dafny's agree here. `RadialCircles` draws a fixed
 * five rings whose size and pulse time grow linearly with the index.
 * Percentages are whole numbers.
 */
module Visuals {

  /** How many particles and lines the hero section asks for (app/page.tsx:110, 117). */
  const HeroParticles: nat := 40
  const HeroLines: nat := 10

  /** The number of rings `RadialCircles` draws. */
  const RingCount: nat := 5

  /** Adding a multiple of the modulus does not change a remainder. */
  lemma ShiftMod100(k: int, a: int)
    ensures (100 * k + a) % 100 == a % 100
  {
  }

  /** Fewer than 100 apart, two numbers have different remainders modulo 100. */
  lemma DistinctMod100(i: nat, j: nat)
    requires i < j < i + 100
    ensures i % 100 != j % 100
  {
  }

  /** Consecutive numbers have opposite parities. */
  lemma ParityFlips(i: nat)
    ensures (i % 2 == 0) != ((i + 1) % 2 == 0)
  {
  }

  /** Rounding half of n up grows by one exactly when n - 1 is even. */
  lemma HalfStep(n: nat)
    requires n > 0
    ensures (n + 1) / 2 == n / 2 + (if (n - 1) % 2 == 0 then 1 else 0)
  {
  }

  lemma ShiftMod20(k: int, a: int)
    ensures (20 * k + a) % 20 == a % 20
  {
  }

  // ---------------------------------------------------------------------
  // FloatingParticles
  // ---------------------------------------------------------------------

  /** A particle's integer fields: its start (percent of the section) and its loop time in seconds. */
  datatype Particle = Particle(index: nat, initialX: nat, initialY: nat, duration: nat)

  /** The two intermediate x and y keyframes a particle drifts through, in pixels. */
  datatype Drift = Drift(xOffset1: int, xOffset2: int, yOffset1: int, yOffset2: int)

  function ParticleAt(i: nat): (p: Particle)
    ensures p.index == i
    ensures p.initialX < 100 && p.initialY < 100
    ensures p.duration in {20, 25, 30, 35}
  {
    Particle(i, (i * 7) % 100, (i * 13) % 100, 20 + (i * 5) % 20)
  }

  /** The drift of a particle, computed while rendering from the particle's index alone. */
  function DriftOf(p: Particle): (d: Drift)
    ensures -50 <= d.xOffset1 < 50 && -50 <= d.xOffset2 < 50
    ensures -50 <= d.yOffset1 < 50 && -50 <= d.yOffset2 < 50
  {
    var i := p.index;
    Drift((i * 17) % 100 - 50, (i * 23) % 100 - 50, (i * 19) % 100 - 50, (i * 29) % 100 - 50)
  }

  /** `[...Array(count)].map(...)`: one particle per index, in index order. */
  function FloatingParticles(count: nat): (ps: seq<Particle>)
    ensures |ps| == count
    ensures forall i :: 0 <= i < count ==> ps[i].index == i && ps[i] == ParticleAt(i)
  {
    seq(count, i requires 0 <= i => ParticleAt(i))
  }

  /** A particle does not depend on how many are asked for: a smaller count is a prefix. */
  lemma ParticlesPrefix(m: nat, n: nat)
    requires n <= m
    ensures FloatingParticles(m)[..n] == FloatingParticles(n)
  {
  }

  /** The loop time cycles through 20, 25, 30, 35 seconds with the index. */
  lemma ParticleDurationCycle(i: nat)
    ensures ParticleAt(i).duration == 20 + 5 * (i % 4)
  {
  }

  /** Particles repeat every 100 indices, apart from the index itself. */
  lemma ParticlePeriod(i: nat)
    ensures ParticleAt(i + 100) == ParticleAt(i).(index := i + 100)
    ensures DriftOf(ParticleAt(i + 100)) == DriftOf(ParticleAt(i))
  {
    ShiftMod100(7, i * 7);
    ShiftMod100(13, i * 13);
    ShiftMod100(17, i * 17);
    ShiftMod100(23, i * 23);
    ShiftMod100(19, i * 19);
    ShiftMod100(29, i * 29);
    ShiftMod20(25, i * 5);
  }

  /** 7 * 43 and 13 * 77 are 1 modulo 100, so a particle's start column and row each give back its index modulo 100. */
  lemma ParticleStartDeterminesIndex(i: nat)
    ensures (ParticleAt(i).initialX * 43) % 100 == i % 100
    ensures (ParticleAt(i).initialY * 77) % 100 == i % 100
  {
    var q, r := (i * 7) / 100, (i * 13) / 100;
    assert ParticleAt(i).initialX * 43 == 100 * (3 * i - 43 * q) + i;
    assert ParticleAt(i).initialY * 77 == 100 * (10 * i - 77 * r) + i;
    ShiftMod100(3 * i - 43 * q, i);
    ShiftMod100(10 * i - 77 * r, i);
  }

  /** Any 100 consecutive particles start in pairwise distinct columns and pairwise distinct rows. */
  lemma ParticleStartsDistinct(i: nat, j: nat)
    requires i < j < i + 100
    ensures ParticleAt(i).initialX != ParticleAt(j).initialX
    ensures ParticleAt(i).initialY != ParticleAt(j).initialY
  {
    ParticleStartDeterminesIndex(i);
    ParticleStartDeterminesIndex(j);
    DistinctMod100(i, j);
  }

  /** In the hero section, no two of the 40 particles share a start column or a start row. */
  lemma HeroParticlesSpread(i: nat, j: nat)
    requires i < HeroParticles && j < HeroParticles && i != j
    ensures FloatingParticles(HeroParticles)[i].initialX != FloatingParticles(HeroParticles)[j].initialX
    ensures FloatingParticles(HeroParticles)[i].initialY != FloatingParticles(HeroParticles)[j].initialY
  {
    if i < j { ParticleStartsDistinct(i, j); } else { ParticleStartsDistinct(j, i); }
  }

  // ---------------------------------------------------------------------
  // AnimatedLines
  // ---------------------------------------------------------------------

  /** A line's integer fields: its orientation, its offset (percent) and its loop time in seconds. */
  datatype Line = Line(index: nat, isHorizontal: bool, position: nat, duration: nat)

  function LineAt(i: nat): (l: Line)
    ensures l.index == i
    ensures l.isHorizontal <==> i % 2 == 0
    ensures l.position < 100
    ensures 15 <= l.duration < 30 && l.duration in {15, 18, 21, 24, 27}
  {
    Line(i, i % 2 == 0, (i * 17) % 100, 15 + (i * 3) % 15)
  }

  /** One line per index, in index order. */
  function AnimatedLines(count: nat): (ls: seq<Line>)
    ensures |ls| == count
    ensures forall i :: 0 <= i < count ==> ls[i].index == i && ls[i] == LineAt(i)
  {
    seq(count, i requires 0 <= i => LineAt(i))
  }

  /** Neighbouring lines have opposite orientations. */
  lemma LinesAlternate(count: nat, i: nat)
    requires i + 1 < count
    ensures AnimatedLines(count)[i].isHorizontal != AnimatedLines(count)[i + 1].isHorizontal
  {
    ParityFlips(i);
  }

  /** 17 * 53 is 1 modulo 100, so any 100 consecutive lines sit at pairwise distinct offsets. */
  lemma LinePositionsDistinct(i: nat, j: nat)
    requires i < j < i + 100
    ensures LineAt(i).position != LineAt(j).position
  {
    var q, r := (i * 17) / 100, (j * 17) / 100;
    assert LineAt(i).position * 53 == 100 * (9 * i - 53 * q) + i;
    assert LineAt(j).position * 53 == 100 * (9 * j - 53 * r) + j;
    ShiftMod100(9 * i - 53 * q, i);
    ShiftMod100(9 * j - 53 * r, j);
    DistinctMod100(i, j);
  }

  /** The number of horizontal lines in a sequence. */
  function CountHorizontal(ls: seq<Line>): nat
  {
    if ls == [] then 0
    else CountHorizontal(ls[..|ls| - 1]) + (if ls[|ls| - 1].isHorizontal then 1 else 0)
  }

  /** Of `count` lines, the horizontal ones are the even indices: half of them, rounded up. */
  lemma {:induction false} HorizontalHalf(count: nat)
    ensures CountHorizontal(AnimatedLines(count)) == (count + 1) / 2
  {
    if count > 0 {
      var ls := AnimatedLines(count);
      HorizontalHalf(count - 1);
      LinesPrefix(count, count - 1);
      assert ls[..|ls| - 1] == AnimatedLines(count - 1);
      assert ls[|ls| - 1].isHorizontal <==> (count - 1) % 2 == 0;
      HalfStep(count);
    }
  }

  /** A smaller count of lines is a prefix of a larger one. */
  lemma LinesPrefix(m: nat, n: nat)
    requires n <= m
    ensures AnimatedLines(m)[..n] == AnimatedLines(n)
  {
  }

  /** The hero section's 10 lines: five horizontal and five vertical. */
  lemma HeroLinesBalanced()
    ensures CountHorizontal(AnimatedLines(HeroLines)) == 5
    ensures |AnimatedLines(HeroLines)| - CountHorizontal(AnimatedLines(HeroLines)) == 5
  {
    HorizontalHalf(HeroLines);
  }

  // ---------------------------------------------------------------------
  // RadialCircles
  // ---------------------------------------------------------------------

  /** A ring's size (its width and its height, percent of the section) and its pulse time in seconds. */
  datatype Ring = Ring(sizePercent: nat, duration: nat)

  /** Ring i: a multiple of 20 percent, and the larger the ring the longer its pulse. */
  function RingAt(i: nat): (r: Ring)
    ensures r.sizePercent >= 20 && r.sizePercent % 20 == 0 && r.duration >= 5
    ensures i < RingCount ==> r.sizePercent <= 100 && r.duration < 10
    ensures r.sizePercent == 20 * (r.duration - 4)
  {
    Ring((i + 1) * 20, 5 + i)
  }

  /** Each ring is larger, and pulses more slowly, than the one inside it. */
  lemma RingsGrow(i: nat)
    ensures RingAt(i).sizePercent < RingAt(i + 1).sizePercent
    ensures RingAt(i).duration < RingAt(i + 1).duration
  {
  }

  /** The five rings, innermost first. */
  function RadialCircles(): (rs: seq<Ring>)
    ensures |rs| == RingCount
    ensures rs[0].sizePercent == 20 && rs[RingCount - 1].sizePercent == 100
    ensures forall i :: 0 <= i < |rs| ==> 20 <= rs[i].sizePercent <= 100 && rs[i].sizePercent % 20 == 0
    ensures forall i, j :: 0 <= i < j < |rs| ==> rs[i].sizePercent < rs[j].sizePercent && rs[i].duration < rs[j].duration
  {
    seq(RingCount, i requires 0 <= i => RingAt(i))
  }

  /** Consecutive rings are 20 percentage points apart: the rings are evenly spaced. */
  lemma RingsEvenlySpaced(i: nat)
    requires i + 1 < RingCount
    ensures RadialCircles()[i + 1].sizePercent - RadialCircles()[i].sizePercent == 20
  {
  }
}
