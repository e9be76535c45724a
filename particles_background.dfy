/**
 * The background particle field: how many particles a window gets, how each
 * is drawn from random numbers, how it moves and bounces on every frame, and
 * which pairs are joined by a line and how faint that line is.
 *
 * Positions and speeds are exact reals; random numbers are passed in as
 * draws in [0, 1) and the distance between two particles as a function.
 */
module ParticlesBackground {

  datatype Particle = Particle(x: real, y: real, size: real, speedX: real, speedY: real, color: string)

  /** The six random numbers one new particle consumes, in the order they are drawn. */
  datatype Draws = Draws(size: real, x: real, y: real, speedX: real, speedY: real, color: real)

  /** What a random number generator of [0, 1) can return. */
  predicate Unit(r: real)
  {
    0.0 <= r < 1.0
  }

  predicate UnitDraws(d: Draws)
  {
    Unit(d.size) && Unit(d.x) && Unit(d.y) && Unit(d.speedX) && Unit(d.speedY) && Unit(d.color)
  }

  /** The five particle colours. */
  const Palette: seq<string> := [
    "rgba(80, 250, 123, 0.5)",
    "rgba(139, 233, 253, 0.5)",
    "rgba(189, 147, 249, 0.5)",
    "rgba(255, 121, 198, 0.5)",
    "rgba(241, 250, 140, 0.5)"
  ]

  const MaxParticles: nat := 100
  const WidthPerParticle: nat := 20
  /** Pairs at this distance or further apart are not joined. */
  const MaxDistance: real := 120.0

  function Abs(r: real): real
  {
    if r < 0.0 then -r else r
  }

  /**
   * One particle per 20 pixels of window width, at most 100: the count is
   * the number of whole 20-pixel strips, capped.
   */
  function ParticleCount(innerWidth: nat): (n: nat)
    ensures n <= MaxParticles
    ensures n == MaxParticles <==> innerWidth >= MaxParticles * WidthPerParticle
    ensures n < MaxParticles ==> n * WidthPerParticle <= innerWidth < (n + 1) * WidthPerParticle
  {
    var strips := innerWidth / WidthPerParticle;
    if strips < MaxParticles then strips else MaxParticles
  }

  /** A window narrower than one strip has no particles. */
  lemma NarrowWindowIsEmpty(innerWidth: nat)
    requires innerWidth < WidthPerParticle
    ensures ParticleCount(innerWidth) == 0
  {
  }

  /** A wider window never has fewer particles. */
  lemma CountMonotone(narrow: nat, wide: nat)
    requires narrow <= wide
    ensures ParticleCount(narrow) <= ParticleCount(wide)
  {
  }

  /** The palette entry picked by a draw: `floor(r * 5)`. */
  function ColorIndex(r: real): (k: int)
    requires Unit(r)
    ensures 0 <= k < |Palette|
    ensures k as real <= r * |Palette| as real < k as real + 1.0
  {
    (r * |Palette| as real).Floor
  }

  /** A particle's radius, `r * 2 + 1`: from 1 up to but not including 3. */
  function SizeOf(r: real): (size: real)
    requires Unit(r)
    ensures 1.0 <= size < 3.0
  {
    r * 2.0 + 1.0
  }

  /** A speed on one axis, `(r - 0.5) * 0.5`: from -0.25 up to but not including 0.25. */
  function SpeedOf(r: real): (speed: real)
    requires Unit(r)
    ensures -0.25 <= speed < 0.25
  {
    (r - 0.5) * 0.5
  }

  /** A coordinate, `r * extent`: on the canvas, and short of its far edge when it has one. */
  function CoordinateOf(r: real, extent: real): (pos: real)
    requires Unit(r) && extent >= 0.0
    ensures 0.0 <= pos <= extent
    ensures extent > 0.0 ==> pos < extent
  {
    ScaleWithin(r, extent);
    r * extent
  }

  /** A new particle on a `width` by `height` canvas; every property is drawn independently. */
  function Spawn(d: Draws, width: real, height: real): (p: Particle)
    requires UnitDraws(d) && width >= 0.0 && height >= 0.0
    ensures 1.0 <= p.size < 3.0
    ensures -0.25 <= p.speedX < 0.25 && -0.25 <= p.speedY < 0.25
    ensures 0.0 <= p.x <= width && (width > 0.0 ==> p.x < width)
    ensures 0.0 <= p.y <= height && (height > 0.0 ==> p.y < height)
    ensures p.color in Palette
  {
    Particle(CoordinateOf(d.x, width), CoordinateOf(d.y, height), SizeOf(d.size),
             SpeedOf(d.speedX), SpeedOf(d.speedY), Palette[ColorIndex(d.color)])
  }

  /** A draw scaled to an extent lands in `[0, extent]`, and below it when the extent is positive. */
  lemma ScaleWithin(r: real, extent: real)
    requires Unit(r) && extent >= 0.0
    ensures 0.0 <= r * extent <= extent
    ensures extent > 0.0 ==> r * extent < extent
  {
    if extent > 0.0 {
      assert extent - r * extent == (1.0 - r) * extent;
    }
  }

  /** The particles made from a sequence of draws, one each, in order. */
  function Spawned(draws: seq<Draws>, width: real, height: real): (ps: seq<Particle>)
    requires forall i :: 0 <= i < |draws| ==> UnitDraws(draws[i])
    requires width >= 0.0 && height >= 0.0
    ensures |ps| == |draws|
    ensures forall i :: 0 <= i < |ps| ==> ps[i] == Spawn(draws[i], width, height)
  {
    seq(|draws|, i requires 0 <= i < |draws| => Spawn(draws[i], width, height))
  }

  /**
   * One frame's move: each coordinate advances by its speed, and a speed is
   * reversed when the moved coordinate has left the canvas on that axis.
   */
  function Advance(p: Particle, width: real, height: real): (q: Particle)
    ensures q.x == p.x + p.speedX && q.y == p.y + p.speedY
    ensures q.speedX == -p.speedX <==> q.x > width || q.x < 0.0 || p.speedX == 0.0
    ensures q.speedY == -p.speedY <==> q.y > height || q.y < 0.0 || p.speedY == 0.0
    ensures Abs(q.speedX) == Abs(p.speedX) && Abs(q.speedY) == Abs(p.speedY)
    ensures q.size == p.size && q.color == p.color
  {
    var x := p.x + p.speedX;
    var y := p.y + p.speedY;
    var speedX := if x > width || x < 0.0 then -p.speedX else p.speedX;
    var speedY := if y > height || y < 0.0 then -p.speedY else p.speedY;
    p.(x := x, y := y, speedX := speedX, speedY := speedY)
  }

  /** One frame's move of the whole field. */
  function AdvanceAll(ps: seq<Particle>, width: real, height: real): (qs: seq<Particle>)
    ensures |qs| == |ps|
    ensures forall i :: 0 <= i < |ps| ==> qs[i] == Advance(ps[i], width, height)
  {
    seq(|ps|, i requires 0 <= i < |ps| => Advance(ps[i], width, height))
  }

  /**
   * On one axis: the coordinate is at most one step outside `[0, extent]`,
   * and outside it the speed points back inside.
   */
  predicate AxisInBand(pos: real, speed: real, extent: real)
  {
    && -Abs(speed) <= pos <= extent + Abs(speed)
    && (pos > extent ==> speed < 0.0)
    && (pos < 0.0 ==> speed > 0.0)
  }

  predicate InBand(p: Particle, width: real, height: real)
  {
    AxisInBand(p.x, p.speedX, width) && AxisInBand(p.y, p.speedY, height)
  }

  lemma AxisStep(pos: real, speed: real, extent: real)
    requires extent >= 0.0 && AxisInBand(pos, speed, extent)
    ensures var next := pos + speed;
      AxisInBand(next, if next > extent || next < 0.0 then -speed else speed, extent)
  {
  }

  /** A new particle lies on the canvas. */
  lemma SpawnInBand(d: Draws, width: real, height: real)
    requires UnitDraws(d) && width >= 0.0 && height >= 0.0
    ensures InBand(Spawn(d, width, height), width, height)
  {
  }

  /** A frame's move keeps a particle within one step of the canvas, heading back when outside. */
  lemma AdvanceKeepsBand(p: Particle, width: real, height: real)
    requires width >= 0.0 && height >= 0.0 && InBand(p, width, height)
    ensures InBand(Advance(p, width, height), width, height)
  {
    AxisStep(p.x, p.speedX, width);
    AxisStep(p.y, p.speedY, height);
  }

  /** `k` frames of moves. */
  function Frames(ps: seq<Particle>, k: nat, width: real, height: real): (qs: seq<Particle>)
    ensures |qs| == |ps|
  {
    if k == 0 then ps else AdvanceAll(Frames(ps, k - 1, width, height), width, height)
  }

  predicate AllInBand(ps: seq<Particle>, width: real, height: real)
  {
    forall i :: 0 <= i < |ps| ==> InBand(ps[i], width, height)
  }

  /** However many frames pass, every particle stays in its band and keeps its size, colour and speeds' magnitudes. */
  lemma {:induction false} FramesKeepBand(ps: seq<Particle>, k: nat, width: real, height: real)
    requires width >= 0.0 && height >= 0.0 && AllInBand(ps, width, height)
    ensures AllInBand(Frames(ps, k, width, height), width, height)
    ensures forall i :: 0 <= i < |ps| ==>
              && Frames(ps, k, width, height)[i].size == ps[i].size
              && Frames(ps, k, width, height)[i].color == ps[i].color
              && Abs(Frames(ps, k, width, height)[i].speedX) == Abs(ps[i].speedX)
              && Abs(Frames(ps, k, width, height)[i].speedY) == Abs(ps[i].speedY)
  {
    if k > 0 {
      FramesKeepBand(ps, k - 1, width, height);
      var before := Frames(ps, k - 1, width, height);
      var after := AdvanceAll(before, width, height);
      assert Frames(ps, k, width, height) == after;
      forall i | 0 <= i < |after| ensures InBand(after[i], width, height) {
        assert InBand(before[i], width, height);
        AdvanceKeepsBand(before[i], width, height);
      }
    }
  }

  /** The opacity of the line between two particles `distance` apart. */
  function Alpha(distance: real): (a: real)
    ensures 0.0 <= distance < MaxDistance ==> 0.0 < a <= 0.2
    ensures distance == 0.0 ==> a == 0.2
    ensures distance == MaxDistance ==> a == 0.0
  {
    0.2 * (1.0 - distance / MaxDistance)
  }

  /** Closer pairs get more opaque lines. */
  lemma AlphaDecreasing(near: real, far: real)
    requires near < far
    ensures Alpha(far) < Alpha(near)
  {
  }

  /** One examined pair of particle indices, `i <= j`. */
  datatype Pair = Pair(i: nat, j: nat)

  /** The pairs the inner loop visits for outer index `i` before reaching `j`: `(i, i) .. (i, j - 1)`. */
  function Row(i: nat, j: nat): (r: seq<Pair>)
    ensures |r| == if j <= i then 0 else j - i
  {
    if j <= i then [] else Row(i, j - 1) + [Pair(i, j - 1)]
  }

  /** The `k`-th pair of row `i` is `(i, i + k)`. */
  lemma {:induction false} RowPairs(i: nat, j: nat)
    ensures forall k :: 0 <= k < |Row(i, j)| ==> Row(i, j)[k] == Pair(i, i + k)
  {
    if j > i {
      RowPairs(i, j - 1);
    }
  }

  /** The pairs visited by the first `i` rounds of the outer loop over `n` particles. */
  function PairsBefore(i: nat, n: nat): seq<Pair>
  {
    if i == 0 then [] else PairsBefore(i - 1, n) + Row(i - 1, n)
  }

  /** Every pair the two loops visit over `n` particles, in visiting order. */
  function Examined(n: nat): seq<Pair>
  {
    PairsBefore(n, n)
  }

  /** Row `i` up to `j` holds exactly the pairs `(i, k)` with `i <= k < j`. */
  lemma {:induction false} RowMembers(i: nat, j: nat, p: Pair)
    ensures p in Row(i, j) <==> p.i == i && i <= p.j < j
  {
    if j > i {
      RowMembers(i, j - 1, p);
      assert Row(i, j) == Row(i, j - 1) + [Pair(i, j - 1)];
    }
  }

  lemma {:induction false} PairsBeforeMembers(i: nat, n: nat, p: Pair)
    requires i <= n
    ensures p in PairsBefore(i, n) <==> p.i < i && p.i <= p.j < n
  {
    if i > 0 {
      var prev, r := PairsBefore(i - 1, n), Row(i - 1, n);
      PairsBeforeMembers(i - 1, n, p);
      RowMembers(i - 1, n, p);
      assert PairsBefore(i, n) == prev + r;
      assert p in prev + r <==> p in prev || p in r;
    }
  }

  /** The loops examine exactly the pairs `(i, j)` with `0 <= i <= j < n`, self-pairs included. */
  lemma ExaminedMembers(n: nat, p: Pair)
    ensures p in Examined(n) <==> p.i <= p.j < n
  {
    PairsBeforeMembers(n, n, p);
  }

  lemma {:induction false} PairsBeforeCount(i: nat, n: nat)
    requires i <= n
    ensures 2 * |PairsBefore(i, n)| == i * (2 * n - i + 1)
  {
    if i > 0 {
      PairsBeforeCount(i - 1, n);
      assert |Row(i - 1, n)| == n - i + 1;
      assert (i - 1) * (2 * n - i + 2) + 2 * (n - i + 1) == i * (2 * n - i + 1);
    }
  }

  /** The loops examine `n(n+1)/2` pairs. */
  lemma ExaminedCount(n: nat)
    ensures 2 * |Examined(n)| == n * (n + 1)
  {
    PairsBeforeCount(n, n);
  }

  /** Pair `a` comes before pair `b` in row-major order. */
  predicate Before(a: Pair, b: Pair)
  {
    a.i < b.i || (a.i == b.i && a.j < b.j)
  }

  /** Each pair of the sequence comes before every later one. */
  predicate RowMajor(ps: seq<Pair>)
  {
    forall a, b :: 0 <= a < b < |ps| ==> Before(ps[a], ps[b])
  }

  /** A row is visited in increasing `j`. */
  lemma RowOrdered(i: nat, j: nat)
    ensures RowMajor(Row(i, j))
  {
    RowPairs(i, j);
  }

  /** Two row-major runs, every pair of the first before every pair of the second, make one. */
  lemma RowMajorAppend(a: seq<Pair>, b: seq<Pair>)
    requires RowMajor(a) && RowMajor(b)
    requires forall x, y :: x in a && y in b ==> Before(x, y)
    ensures RowMajor(a + b)
  {
    var ab := a + b;
    forall k, l | 0 <= k < l < |ab| ensures Before(ab[k], ab[l]) {
      if l < |a| {
        assert ab[k] == a[k] && ab[l] == a[l];
      } else if k >= |a| {
        assert ab[k] == b[k - |a|] && ab[l] == b[l - |a|];
      } else {
        assert ab[k] == a[k] && ab[k] in a;
        assert ab[l] == b[l - |a|] && ab[l] in b;
      }
    }
  }

  lemma {:induction false} PairsBeforeOrdered(i: nat, n: nat)
    requires i <= n
    ensures RowMajor(PairsBefore(i, n))
    ensures forall p :: p in PairsBefore(i, n) ==> p.i < i
  {
    if i > 0 {
      PairsBeforeOrdered(i - 1, n);
      var prev, r := PairsBefore(i - 1, n), Row(i - 1, n);
      RowOrdered(i - 1, n);
      forall x: Pair, y: Pair | x in prev && y in r ensures Before(x, y) {
        RowMembers(i - 1, n, y);
      }
      RowMajorAppend(prev, r);
      forall p: Pair | p in prev + r ensures p.i < i {
        RowMembers(i - 1, n, p);
      }
      assert PairsBefore(i, n) == prev + r;
    }
  }

  /** No pair is examined twice: the visiting order is strictly row-major. */
  lemma ExaminedOnce(n: nat)
    ensures RowMajor(Examined(n))
    ensures forall a, b :: 0 <= a < b < |Examined(n)| ==> Examined(n)[a] != Examined(n)[b]
  {
    PairsBeforeOrdered(n, n);
    var ps := Examined(n);
    forall a, b | 0 <= a < b < |ps| ensures ps[a] != ps[b] {
      assert Before(ps[a], ps[b]);
    }
  }

  /** A line drawn between particles `i` and `j` with opacity `alpha`. */
  datatype Link = Link(i: nat, j: nat, alpha: real)

  /** Every pair indexes a particle of the field. */
  predicate PairsWithin(pairs: seq<Pair>, n: nat)
  {
    forall k :: 0 <= k < |pairs| ==> pairs[k].i < n && pairs[k].j < n
  }

  /**
   * The lines drawn for the given pairs, in order: one for each pair of
   * particles closer than `MaxDistance` (a pair naming a missing particle
   * draws nothing; the loops never visit one).
   */
  function LinksOver(ps: seq<Particle>, pairs: seq<Pair>, distance: (Particle, Particle) -> real): (links: seq<Link>)
    ensures |links| <= |pairs|
  {
    if pairs == [] then []
    else
      var last := pairs[|pairs| - 1];
      LinksOver(ps, pairs[..|pairs| - 1], distance) + LinkFor(ps, last, distance)
  }

  /** The line drawn for one pair, if any. */
  function LinkFor(ps: seq<Particle>, p: Pair, distance: (Particle, Particle) -> real): seq<Link>
  {
    if p.i < |ps| && p.j < |ps| && distance(ps[p.i], ps[p.j]) < MaxDistance
    then [Link(p.i, p.j, Alpha(distance(ps[p.i], ps[p.j])))]
    else []
  }

  /** A line is drawn for a pair exactly when the pair is closer than `MaxDistance`, with that distance's opacity. */
  lemma {:induction false} LinksOverMembers(ps: seq<Particle>, pairs: seq<Pair>, distance: (Particle, Particle) -> real, l: Link)
    ensures l in LinksOver(ps, pairs, distance) <==>
              && Pair(l.i, l.j) in pairs && l.i < |ps| && l.j < |ps|
              && distance(ps[l.i], ps[l.j]) < MaxDistance
              && l.alpha == Alpha(distance(ps[l.i], ps[l.j]))
  {
    if pairs != [] {
      var init := pairs[..|pairs| - 1];
      var last := pairs[|pairs| - 1];
      LinksOverMembers(ps, init, distance, l);
      assert pairs == init + [last];
      if Pair(l.i, l.j) in pairs && Pair(l.i, l.j) != last {
        assert Pair(l.i, l.j) in init;
      }
    }
  }

  /** The lines for the pairs `(i, k)`, `i <= k < j`, in that order. */
  function RowLinks(ps: seq<Particle>, i: nat, j: nat, distance: (Particle, Particle) -> real): seq<Link>
  {
    if j <= i then [] else RowLinks(ps, i, j - 1, distance) + LinkFor(ps, Pair(i, j - 1), distance)
  }

  /** `RowLinks` is `LinksOver` on the pairs of one row. */
  lemma {:induction false} RowLinksOver(ps: seq<Particle>, i: nat, j: nat, distance: (Particle, Particle) -> real)
    ensures RowLinks(ps, i, j, distance) == LinksOver(ps, Row(i, j), distance)
  {
    if j > i {
      var prev, p := Row(i, j - 1), Pair(i, j - 1);
      calc {
        RowLinks(ps, i, j, distance);
        RowLinks(ps, i, j - 1, distance) + LinkFor(ps, p, distance);
        { RowLinksOver(ps, i, j - 1, distance); }
        LinksOver(ps, prev, distance) + LinkFor(ps, p, distance);
        { LinksOverLast(ps, prev, p, distance); }
        LinksOver(ps, prev + [p], distance);
        { assert Row(i, j) == prev + [p]; }
        LinksOver(ps, Row(i, j), distance);
      }
    }
  }

  /** Adding one pair at the end adds that pair's line, if any, at the end. */
  lemma LinksOverLast(ps: seq<Particle>, pairs: seq<Pair>, p: Pair, distance: (Particle, Particle) -> real)
    ensures LinksOver(ps, pairs + [p], distance) == LinksOver(ps, pairs, distance) + LinkFor(ps, p, distance)
  {
    assert (pairs + [p])[..|pairs|] == pairs;
  }

  /**
   * The inner loop of `connectParticles` for particle `i`: the lines for the
   * pairs `(i, j)`, `i <= j`, in the order they are drawn.
   */
  method ConnectRow(ps: seq<Particle>, i: nat, distance: (Particle, Particle) -> real) returns (row: seq<Link>)
    requires i < |ps|
    ensures row == RowLinks(ps, i, |ps|, distance)
  {
    row := [];
    for j := i to |ps|
      invariant row == RowLinks(ps, i, j, distance)
    {
      var d := distance(ps[i], ps[j]);
      if d < MaxDistance {
        row := row + [Link(i, j, Alpha(d))];
      }
    }
  }

  /** The lines for the rows before `i + 1` are those before `i`, then row `i`'s. */
  lemma RowsLinks(ps: seq<Particle>, i: nat, distance: (Particle, Particle) -> real)
    ensures LinksOver(ps, PairsBefore(i + 1, |ps|), distance)
            == LinksOver(ps, PairsBefore(i, |ps|), distance) + RowLinks(ps, i, |ps|, distance)
  {
    LinksOverAppend(ps, PairsBefore(i, |ps|), Row(i, |ps|), distance);
    RowLinksOver(ps, i, |ps|, distance);
  }

  /** The lines for two runs of pairs, one after the other, are the lines for each run. */
  lemma {:induction false} LinksOverAppend(ps: seq<Particle>, a: seq<Pair>, b: seq<Pair>, distance: (Particle, Particle) -> real)
    ensures LinksOver(ps, a + b, distance) == LinksOver(ps, a, distance) + LinksOver(ps, b, distance)
    decreases |b|
  {
    if b == [] {
      assert a + b == a;
    } else {
      var init := b[..|b| - 1];
      assert (a + b)[..|a + b| - 1] == a + init;
      LinksOverAppend(ps, a, init, distance);
    }
  }

  lemma ExaminedWithin(n: nat)
    ensures PairsWithin(Examined(n), n)
  {
    var ps := Examined(n);
    forall k | 0 <= k < |ps| ensures ps[k].i < n && ps[k].j < n {
      ExaminedMembers(n, ps[k]);
    }
  }

  /**
   * Every particle is paired with itself at distance zero, so each one gets a
   * line of full opacity `0.2` to itself.
   */
  lemma SelfLinks(ps: seq<Particle>, distance: (Particle, Particle) -> real, i: nat)
    requires i < |ps|
    requires distance(ps[i], ps[i]) == 0.0
    ensures Link(i, i, 0.2) in LinksOver(ps, Examined(|ps|), distance)
  {
    ExaminedMembers(|ps|, Pair(i, i));
    LinksOverMembers(ps, Examined(|ps|), distance, Link(i, i, 0.2));
  }

  /**
   * `connectParticles` draws a line between particles `i` and `j` exactly
   * when `i <= j`, both exist and they are closer than `MaxDistance`, with
   * opacity `Alpha` of their distance; for non-negative distances that
   * opacity lies in `(0, 0.2]`.
   */
  lemma ConnectedIffClose(ps: seq<Particle>, distance: (Particle, Particle) -> real, l: Link)
    ensures l in LinksOver(ps, Examined(|ps|), distance) <==>
              && l.i <= l.j < |ps|
              && distance(ps[l.i], ps[l.j]) < MaxDistance
              && l.alpha == Alpha(distance(ps[l.i], ps[l.j]))
    ensures l in LinksOver(ps, Examined(|ps|), distance) && distance(ps[l.i], ps[l.j]) >= 0.0 ==>
              0.0 < l.alpha <= 0.2
  {
    ExaminedMembers(|ps|, Pair(l.i, l.j));
    LinksOverMembers(ps, Examined(|ps|), distance, l);
  }
}

/** The component's state: the canvas size and the particles on it. */
module ParticleCanvas {
  import opened ParticlesBackground

  /** The canvas and its particles. */
  class ParticleField {
    var width: nat
    var height: nat
    var particles: seq<Particle>

    /** Every particle is within one step of the canvas. */
    ghost predicate Valid()
      reads this
    {
      forall i :: 0 <= i < |particles| ==> InBand(particles[i], width as real, height as real)
    }

    /** Mounting: size the canvas to the window and fill it. */
    constructor (innerWidth: nat, innerHeight: nat, draws: seq<Draws>)
      requires |draws| >= ParticleCount(innerWidth)
      requires forall i :: 0 <= i < |draws| ==> UnitDraws(draws[i])
      ensures Valid() && width == innerWidth && height == innerHeight
      ensures particles == Spawned(draws[..ParticleCount(innerWidth)], innerWidth as real, innerHeight as real)
    {
      width, height, particles := innerWidth, innerHeight, [];
      new;
      InitParticles(innerWidth, draws);
    }

    /** `resizeCanvas`: the canvas takes the window's size and the particles are re-created. */
    method ResizeCanvas(innerWidth: nat, innerHeight: nat, draws: seq<Draws>)
      requires |draws| >= ParticleCount(innerWidth)
      requires forall i :: 0 <= i < |draws| ==> UnitDraws(draws[i])
      modifies this
      ensures Valid() && width == innerWidth && height == innerHeight
      ensures particles == Spawned(draws[..ParticleCount(innerWidth)], innerWidth as real, innerHeight as real)
    {
      width, height := innerWidth, innerHeight;
      InitParticles(innerWidth, draws);
    }

    /**
     * `initParticles`: the list is emptied and refilled with one new particle
     * per draw, as many as the window width allows; no old particle survives.
     */
    method InitParticles(innerWidth: nat, draws: seq<Draws>)
      requires |draws| >= ParticleCount(innerWidth)
      requires forall i :: 0 <= i < |draws| ==> UnitDraws(draws[i])
      modifies this`particles
      ensures Valid()
      ensures particles == Spawned(draws[..ParticleCount(innerWidth)], width as real, height as real)
    {
      particles := [];
      var particleCount := ParticleCount(innerWidth);
      for i := 0 to particleCount
        invariant particles == Spawned(draws[..i], width as real, height as real)
        invariant Valid()
      {
        var p := Spawn(draws[i], width as real, height as real);
        SpawnInBand(draws[i], width as real, height as real);
        particles := particles + [p];
      }
    }

    /** The move step of `drawParticles`: every particle is advanced in place, none added, dropped or reordered. */
    method Tick()
      requires Valid()
      modifies this`particles
      ensures Valid()
      ensures particles == AdvanceAll(old(particles), width as real, height as real)
    {
      ghost var start := particles;
      var n := |particles|;
      for i := 0 to n
        invariant |particles| == n
        invariant forall k :: 0 <= k < i ==> particles[k] == Advance(start[k], width as real, height as real)
        invariant forall k :: i <= k < n ==> particles[k] == start[k]
        invariant Valid()
      {
        AdvanceKeepsBand(particles[i], width as real, height as real);
        particles := particles[i := Advance(particles[i], width as real, height as real)];
      }
    }

    /** `connectParticles`: the lines drawn for the current positions, every pair `i <= j` in loop order. */
    method ConnectParticles(distance: (Particle, Particle) -> real) returns (links: seq<Link>)
      ensures links == LinksOver(particles, Examined(|particles|), distance)
    {
      var ps, n := particles, |particles|;
      links := [];
      for i := 0 to n
        invariant links == LinksOver(ps, PairsBefore(i, n), distance)
      {
        var row := ConnectRow(ps, i, distance);
        RowsLinks(ps, i, distance);
        links := links + row;
      }
    }

    /** One animation frame: move every particle, then draw the lines for the new positions. */
    method DrawFrame(distance: (Particle, Particle) -> real) returns (links: seq<Link>)
      requires Valid()
      modifies this`particles
      ensures Valid()
      ensures particles == AdvanceAll(old(particles), width as real, height as real)
      ensures links == LinksOver(particles, Examined(|particles|), distance)
    {
      Tick();
      links := ConnectParticles(distance);
    }
  }
}
