// The draft-pool autoscaler: one replica up or down per observation, with two thresholds.
module Autoscale {
  datatype Config = Config(minReplicas: nat, maxReplicas: nat, seqsPerReplica: real, up: real, down: real)

  // What every configuration has to satisfy.
  ghost predicate Proper(c: Config) {
    1 <= c.minReplicas <= c.maxReplicas && c.seqsPerReplica > 0.0 && 0.0 <= c.down && 0.0 <= c.up
  }

  function Capacity(c: Config, replicas: nat): real {
    replicas as real * c.seqsPerReplica
  }

  // The next replica count; no capacity counts as infinite utilization.
  function Adjusted(c: Config, replicas: nat, load: real): nat {
    var capacity := Capacity(c, replicas);
    if (capacity <= 0.0 || load / capacity > c.up) && replicas < c.maxReplicas then replicas + 1
    else if capacity > 0.0 && load / capacity < c.down && replicas > c.minReplicas then replicas - 1
    else replicas
  }

  class DraftPoolAutoscaler {
    const cfg: Config
    var replicas: nat

    constructor (cfg: Config)
      ensures this.cfg == cfg && replicas == cfg.minReplicas
    {
      this.cfg := cfg;
      replicas := cfg.minReplicas;
    }

    // The load is a number of sequences.
    method Observe(activeSeqs: nat) returns (r: nat)
      modifies this
      ensures replicas == Adjusted(cfg, old(replicas), activeSeqs as real) && r == replicas
      ensures Proper(cfg) && cfg.minReplicas <= old(replicas) <= cfg.maxReplicas ==>
        cfg.minReplicas <= replicas <= cfg.maxReplicas
    {
      var capacity := Capacity(cfg, replicas);
      var infinite := capacity <= 0.0;
      var util := if infinite then 0.0 else activeSeqs as real / capacity;
      if (infinite || util > cfg.up) && replicas < cfg.maxReplicas {
        replicas := replicas + 1;
      } else if !infinite && util < cfg.down && replicas > cfg.minReplicas {
        replicas := replicas - 1;
      }
      r := replicas;
    }
  }

  // ---------- constant load ----------

  // The count after n observations of the same load.
  function After(c: Config, replicas: nat, load: real, n: nat): nat {
    if n == 0 then replicas else Adjusted(c, After(c, replicas, load, n - 1), load)
  }

  ghost predicate InRange(c: Config, r: nat) {
    c.minReplicas <= r <= c.maxReplicas
  }

  // What a move up or down says about the load.
  lemma MoveMeans(c: Config, r: nat, load: real)
    requires Proper(c) && InRange(c, r)
    ensures InRange(c, Adjusted(c, r, load)) && r - 1 <= Adjusted(c, r, load) <= r + 1
    ensures Adjusted(c, r, load) == r + 1 <==> load > c.up * Capacity(c, r) && r < c.maxReplicas
    ensures Adjusted(c, r, load) == r - 1 <==>
      load < c.down * Capacity(c, r) && r > c.minReplicas && (load <= c.up * Capacity(c, r) || r == c.maxReplicas)
  {
    var capacity := Capacity(c, r);
    Positive(r as real, c.seqsPerReplica);
    Compare(load, capacity, c.up);
    Compare(load, capacity, c.down);
  }

  lemma Positive(x: real, y: real)
    requires x > 0.0 && y > 0.0
    ensures x * y > 0.0
  {
  }

  lemma Compare(x: real, y: real, t: real)
    requires y > 0.0
    ensures x / y > t <==> x > t * y
    ensures x / y < t <==> x < t * y
  {
    var q := x / y;
    assert q * y == x;
    Scales(q, t, y);
  }

  lemma Scales(a: real, b: real, y: real)
    requires y > 0.0
    ensures a > b <==> a * y > b * y
    ensures a < b <==> a * y < b * y
  {
    assert (a - b) * y == a * y - b * y;
  }

  /** The gap between the thresholds that rules out flapping: shrinking from one more than the minimum never
      makes the pool look overloaded. */
  ghost predicate Hysteresis(c: Config) {
    c.down * (c.minReplicas + 1) as real <= c.up * c.minReplicas as real
  }

  // Thresholds a factor two apart, as the defaults are, suffice.
  lemma TwofoldGapSuffices(c: Config)
    requires Proper(c) && 2.0 * c.down <= c.up
    ensures Hysteresis(c)
  {
    TwofoldGap(c.down, c.up, c.minReplicas as real, (c.minReplicas + 1) as real);
  }

  lemma TwofoldGap(d: real, u: real, m: real, m': real)
    requires d >= 0.0 && m >= 1.0 && m' == m + 1.0 && 2.0 * d <= u
    ensures d * m' <= u * m
  {
    Grow(d, 1.0, m);
    assert d * m' == d * m + d * 1.0;
    Grow(m, 2.0 * d, u);
    assert m * (2.0 * d) == d * m + d * m;
    assert m * u == u * m;
  }

  lemma Grow(k: real, a: real, b: real)
    requires k >= 0.0 && a <= b
    ensures k * a <= k * b
  {
    assert k * (b - a) >= 0.0;
  }

  lemma GapOrdered(d: real, u: real, m: real)
    requires d >= 0.0 && m >= 1.0 && d * m + d <= u * m
    ensures d <= u
  {
    Scales(d, u, m);
  }

  // The gap at the minimum carries over to every count.
  lemma GapEverywhere(c: Config, r: nat)
    requires Proper(c) && Hysteresis(c) && r >= c.minReplicas
    ensures c.down * Capacity(c, r + 1) <= c.up * Capacity(c, r)
  {
    var m, x, s := c.minReplicas as real, r as real, c.seqsPerReplica;
    assert (c.minReplicas + 1) as real == m + 1.0 && (r + 1) as real == x + 1.0;
    var d, u := c.down, c.up;
    assert d * (m + 1.0) == d * m + d;
    GapOrdered(d, u, m);
    Grow(x - m, d, u);
    assert d * (x + 1.0) == d * (m + 1.0) + (x - m) * d;
    assert u * x == u * m + (x - m) * u;
    Grow(s, d * (x + 1.0), u * x);
    assert d * ((x + 1.0) * s) == s * (d * (x + 1.0));
    assert u * (x * s) == s * (u * x);
  }

  lemma Strict(k: real, a: real, b: real)
    requires k > 0.0 && a < b
    ensures k * a < k * b
  {
    assert k * (b - a) > 0.0;
  }

  // A move is never undone by the next observation of the same load.
  ghost predicate Steady(c: Config, load: real) {
    forall r: nat :: InRange(c, r) ==>
      var r' := Adjusted(c, r, load);
      && (r' > r ==> Adjusted(c, r', load) >= r')
      && (r' < r ==> Adjusted(c, r', load) <= r')
  }

  lemma SteadyAt(c: Config, r: nat, load: real)
    requires Proper(c) && Hysteresis(c) && InRange(c, r)
    ensures var r' := Adjusted(c, r, load);
      && (r' > r ==> Adjusted(c, r', load) >= r')
      && (r' < r ==> Adjusted(c, r', load) <= r')
  {
    var r' := Adjusted(c, r, load);
    MoveMeans(c, r, load);
    MoveMeans(c, r', load);
    if r' > r {
      GapEverywhere(c, r);
    } else if r' < r {
      GapEverywhere(c, r');
    }
  }

  /** No constant load, whole or fractional, makes the pool flap exactly when the thresholds keep the gap at
      the minimum count. */
  lemma FractionalSteadyIff(c: Config)
    requires Proper(c) && c.minReplicas < c.maxReplicas
    ensures Hysteresis(c) <==> forall load: real :: load >= 0.0 ==> Steady(c, load)
  {
    hide Adjusted, Capacity, Hysteresis;
    if Hysteresis(c) {
      forall load: real, r: nat | load >= 0.0 && InRange(c, r)
        ensures var r' := Adjusted(c, r, load);
          (r' > r ==> Adjusted(c, r', load) >= r') && (r' < r ==> Adjusted(c, r', load) <= r')
      {
        SteadyAt(c, r, load);
      }
    } else {
      var load, r := Flaps(c);
      assert !Steady(c, load);
    }
  }

  // Without the gap some load sends some count up and at once down again.
  lemma Flaps(c: Config) returns (load: real, r: nat)
    requires Proper(c) && c.minReplicas < c.maxReplicas && !Hysteresis(c)
    ensures load >= 0.0 && InRange(c, r)
    ensures Adjusted(c, r, load) == r + 1 && Adjusted(c, r + 1, load) == r
  {
    hide Adjusted;
    if c.up > 0.0 {
      r := c.minReplicas;
      load := LostGapLoad(c);
    } else {
      r := c.maxReplicas - 1;
      IdleAtTop(c, r);
      load := c.down * Capacity(c, r + 1) / 2.0;
    }
    MoveMeans(c, r, load);
    MoveMeans(c, r + 1, load);
  }

  // A load above the lower count's up threshold and below the next count's down threshold.
  lemma LostGapLoad(c: Config) returns (load: real)
    requires Proper(c) && !Hysteresis(c) && c.up > 0.0
    ensures 0.0 <= c.up * Capacity(c, c.minReplicas) < load < c.down * Capacity(c, c.minReplicas + 1)
    ensures load <= c.up * Capacity(c, c.minReplicas + 1)
  {
    var r := c.minReplicas;
    GapLost(c);
    UpGrows(c, r);
    var low, high, next := c.up * Capacity(c, r), c.down * Capacity(c, r + 1), c.up * Capacity(c, r + 1);
    load := if (low + high) / 2.0 <= next then (low + high) / 2.0 else next;
    assert 0.0 <= low < high && low < next;
    assert low < load < high;
  }

  lemma GapLost(c: Config)
    requires Proper(c) && !Hysteresis(c)
    ensures 0.0 <= c.up * Capacity(c, c.minReplicas) < c.down * Capacity(c, c.minReplicas + 1)
  {
    var m, s := c.minReplicas, c.seqsPerReplica;
    Strict(s, c.up * m as real, c.down * (m + 1) as real);
    assert c.up * (m as real * s) == s * (c.up * m as real);
    assert c.down * ((m + 1) as real * s) == s * (c.down * (m + 1) as real);
    Grow(c.up, 0.0, m as real);
    Grow(s, 0.0, c.up * m as real);
  }

  lemma UpGrows(c: Config, r: nat)
    requires Proper(c) && c.up > 0.0
    ensures c.up * Capacity(c, r) < c.up * Capacity(c, r + 1)
  {
    Strict(c.seqsPerReplica, r as real, (r + 1) as real);
    Strict(c.up, Capacity(c, r), Capacity(c, r + 1));
  }

  lemma IdleAtTop(c: Config, r: nat)
    requires Proper(c) && !Hysteresis(c) && c.up <= 0.0
    ensures c.up == 0.0 && c.up * Capacity(c, r) == 0.0 && c.down * Capacity(c, r + 1) > 0.0
  {
    assert c.up * c.minReplicas as real == 0.0;
    assert c.down > 0.0;
    Positive((r + 1) as real, c.seqsPerReplica);
    Positive(c.down, Capacity(c, r + 1));
  }

  // ---------- whole loads ----------

  // The least number of sequences that overloads r replicas.
  function Overload(c: Config, r: nat): (n: nat)
    requires Proper(c)
    ensures n as real > c.up * Capacity(c, r)
    ensures n as real <= c.up * Capacity(c, r) + 1.0
  {
    Grow(c.seqsPerReplica, 0.0, r as real);
    Grow(c.up, 0.0, Capacity(c, r));
    (c.up * Capacity(c, r)).Floor + 1
  }

  // That load idles one replica more, which is then given up again.
  ghost predicate TurnsBack(c: Config, r: nat)
    requires Proper(c)
  {
    var n := Overload(c, r) as real;
    n < c.down * Capacity(c, r + 1) && (n <= c.up * Capacity(c, r + 1) || r + 1 == c.maxReplicas)
  }

  ghost predicate Calm(c: Config)
    requires Proper(c)
  {
    forall r: nat :: c.minReplicas <= r < c.maxReplicas ==> !TurnsBack(c, r)
  }

  // Up from r and down again is possible at some load exactly when it happens at the least that overloads r.
  lemma TurnsBackIff(c: Config, r: nat, n: nat)
    requires Proper(c) && c.minReplicas <= r < c.maxReplicas
    ensures Adjusted(c, r, n as real) == r + 1 && Adjusted(c, r + 1, n as real) == r ==> TurnsBack(c, r)
    ensures TurnsBack(c, r) && n == Overload(c, r) ==>
      Adjusted(c, r, n as real) == r + 1 && Adjusted(c, r + 1, n as real) == r
  {
    hide Adjusted, Capacity;
    MoveMeans(c, r, n as real);
    MoveMeans(c, r + 1, n as real);
    if n < Overload(c, r) {
      assert n as real <= c.up * Capacity(c, r);
    }
  }

  ghost predicate SteadyFor(c: Config, activeSeqs: nat) {
    Steady(c, activeSeqs as real)
  }

  lemma CalmSteady(c: Config, n: nat)
    requires Proper(c) && Calm(c)
    ensures SteadyFor(c, n)
  {
    hide Adjusted, Capacity, TurnsBack;
    forall r: nat | InRange(c, r)
      ensures var r' := Adjusted(c, r, n as real);
        && (r' > r ==> Adjusted(c, r', n as real) >= r')
        && (r' < r ==> Adjusted(c, r', n as real) <= r')
    {
      MoveMeans(c, r, n as real);
      var r' := Adjusted(c, r, n as real);
      MoveMeans(c, r', n as real);
      if r' > r {
        TurnsBackIff(c, r, n);
      } else if r' < r {
        TurnsBackIff(c, r', n);
      }
    }
  }

  /** The load is a whole number of sequences: no constant load makes the pool flap exactly when at no count
      below the maximum the least load that overloads it leaves one replica more idle (and, short of the
      maximum, not overloaded). */
  lemma SteadyIff(c: Config)
    requires Proper(c)
    ensures (forall n: nat :: SteadyFor(c, n)) <==> Calm(c)
  {
    hide Adjusted, Capacity, TurnsBack, Steady;
    if Calm(c) {
      forall n: nat
        ensures SteadyFor(c, n)
      {
        CalmSteady(c, n);
      }
    } else {
      var r: nat :| c.minReplicas <= r < c.maxReplicas && TurnsBack(c, r);
      var n := Overload(c, r);
      TurnsBackIff(c, r, n);
      NotSteady(c, r, n as real);
      assert !SteadyFor(c, n);
    }
  }

  lemma NotSteady(c: Config, r: nat, load: real)
    requires InRange(c, r) && Adjusted(c, r, load) == r + 1 && Adjusted(c, r + 1, load) == r
    ensures !Steady(c, load)
  {
    hide Adjusted;
  }

  // The gap suffices, but is more than whole loads need: here no whole number of sequences lies where the
  // thresholds overlap.
  lemma GapIsCalm(c: Config)
    requires Proper(c) && Hysteresis(c)
    ensures Calm(c)
  {
    hide Capacity;
    forall r: nat | c.minReplicas <= r < c.maxReplicas
      ensures !TurnsBack(c, r)
    {
      GapEverywhere(c, r);
    }
  }

  lemma CalmWithoutGap() returns (c: Config)
    ensures Proper(c) && c.minReplicas < c.maxReplicas && !Hysteresis(c) && Calm(c)
  {
    c := Config(1, 2, 0.1, 0.8, 0.45);
    assert Capacity(c, 1) == 0.1 && Capacity(c, 2) == 0.2;
    assert c.up * Capacity(c, 1) == 0.08 && c.down * Capacity(c, 2) == 0.09;
    assert Overload(c, 1) >= 1;
    assert c.down * 2.0 == 0.9 && c.up * 1.0 == 0.8;
  }

  // Here four sequences are too many for one replica and too few for two.
  lemma FlappingLoad() returns (c: Config)
    ensures Proper(c) && c.down < c.up && !Calm(c)
    ensures Adjusted(c, 1, 4.0) == 2 && Adjusted(c, 2, 4.0) == 1
  {
    c := Config(1, 2, 4.0, 0.8, 0.7);
    assert Capacity(c, 1) == 4.0 && Capacity(c, 2) == 8.0;
    assert c.up * Capacity(c, 1) == 3.2 && c.down * Capacity(c, 2) == 5.6;
    MoveMeans(c, 1, 4.0);
    MoveMeans(c, 2, 4.0);
    TurnsBackIff(c, 1, 4);
  }

  // ---------- settling ----------

  // Under a constant load the count only ever moves in one direction, away from where it started.
  lemma {:induction false} OneDirection(c: Config, r: nat, load: real, n: nat)
    requires Proper(c) && Steady(c, load) && InRange(c, r)
    ensures InRange(c, After(c, r, load, n))
    ensures Adjusted(c, r, load) == r ==> After(c, r, load, n) == r
    ensures Adjusted(c, r, load) > r ==>
      After(c, r, load, n) <= After(c, r, load, n + 1) &&
        (After(c, r, load, n) >= r + n || After(c, r, load, n + 1) == After(c, r, load, n))
    ensures Adjusted(c, r, load) < r ==>
      After(c, r, load, n) >= After(c, r, load, n + 1) &&
        (After(c, r, load, n) + n <= r || After(c, r, load, n + 1) == After(c, r, load, n))
  {
    hide Adjusted, Capacity, Hysteresis;
    MoveMeans(c, r, load);
    if n > 0 {
      OneDirection(c, r, load, n - 1);
      var before := After(c, r, load, n - 1);
      MoveMeans(c, before, load);
    }
  }

  // Under a steady load the count stays in range, never turns round, and is fixed after at most max - min
  // observations.
  lemma SettlesWhenSteady(c: Config, r: nat, load: real, n: nat)
    requires Proper(c) && Steady(c, load) && InRange(c, r) && n >= c.maxReplicas - c.minReplicas
    ensures InRange(c, After(c, r, load, n))
    ensures After(c, r, load, n + 1) == After(c, r, load, n)
    ensures forall k: nat :: (Adjusted(c, r, load) >= r ==> After(c, r, load, k) <= After(c, r, load, k + 1))
                          && (Adjusted(c, r, load) <= r ==> After(c, r, load, k) >= After(c, r, load, k + 1))
  {
    hide Adjusted, Capacity, Steady;
    OneDirection(c, r, load, n);
    OneDirection(c, r, load, n + 1);
    forall k: nat
      ensures (Adjusted(c, r, load) >= r ==> After(c, r, load, k) <= After(c, r, load, k + 1))
           && (Adjusted(c, r, load) <= r ==> After(c, r, load, k) >= After(c, r, load, k + 1))
    {
      OneDirection(c, r, load, k);
      OneDirection(c, r, load, k + 1);
    }
  }

  // A load that turns the count back keeps it going back and forth for ever.
  lemma {:induction false} BackAndForth(c: Config, r: nat, load: real, n: nat)
    requires Adjusted(c, r, load) == r + 1 && Adjusted(c, r + 1, load) == r
    ensures After(c, r, load, n) == if n % 2 == 0 then r else r + 1
  {
    hide Adjusted;
    if n > 0 {
      BackAndForth(c, r, load, n - 1);
    }
  }

  // Fixed from the (max - min)-th observation on.
  ghost predicate Settles(c: Config, r: nat, activeSeqs: nat)
    requires Proper(c)
  {
    var load, last: nat := activeSeqs as real, c.maxReplicas - c.minReplicas;
    forall k: nat :: k >= last ==> After(c, r, load, k) == After(c, r, load, last)
  }

  lemma {:induction false} FixedFrom(c: Config, r: nat, load: real, n: nat, k: nat)
    requires After(c, r, load, n + 1) == After(c, r, load, n) && k >= n
    ensures After(c, r, load, k) == After(c, r, load, n)
  {
    hide Adjusted;
    if k > n {
      FixedFrom(c, r, load, n, k - 1);
    }
  }

  /** Whatever the constant load and the count at the start, the count is fixed after at most max - min
      observations, exactly when the configuration is calm; otherwise some load makes it go back and forth
      for ever. */
  lemma SettlesIff(c: Config)
    requires Proper(c)
    ensures (forall r: nat, n: nat :: InRange(c, r) ==> Settles(c, r, n)) <==> Calm(c)
  {
    hide Adjusted, Capacity, TurnsBack;
    if Calm(c) {
      forall r: nat, n: nat | InRange(c, r)
        ensures Settles(c, r, n)
      {
        var load, last: nat := n as real, c.maxReplicas - c.minReplicas;
        CalmSteady(c, n);
        SettlesWhenSteady(c, r, load, last);
        forall k: nat | k >= last
          ensures After(c, r, load, k) == After(c, r, load, last)
        {
          FixedFrom(c, r, load, last, k);
        }
      }
    } else {
      var r: nat :| c.minReplicas <= r < c.maxReplicas && TurnsBack(c, r);
      var n, last: nat := Overload(c, r), c.maxReplicas - c.minReplicas;
      TurnsBackIff(c, r, n);
      BackAndForth(c, r, n as real, last);
      BackAndForth(c, r, n as real, last + 1);
      assert !Settles(c, r, n);
    }
  }
}
