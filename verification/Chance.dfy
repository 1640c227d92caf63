// Programs that toss coins and draw indices.  One program has two readings: a run, once all the random
// choices are fixed by an oracle, and an expectation, when they are weighted by their probabilities.
module Chance {
  import opened Distributions

  /** `Toss` goes on to `yes` with probability `chance`; `Draw` picks index t with weight `probs[t]`. */
  datatype Prog<A> =
    | Return(result: A)
    | Toss(chance: real, yes: Prog<A>, no: Prog<A>)
    | Draw(probs: seq<real>, next: seq<Prog<A>>)

  function Bind<A, B>(prog: Prog<A>, f: A -> Prog<B>): Prog<B> {
    match prog
    case Return(a) => f(a)
    case Toss(chance, yes, no) => Toss(chance, Bind(yes, f), Bind(no, f))
    case Draw(probs, next) => Draw(probs, seq(|next|, t requires 0 <= t < |next| => Bind(next[t], f)))
  }

  // ---------- a run ----------

  /** All the random choices a generator will make: its n-th draw is `coin(n)` if a uniform number is
      asked for and `pick(n, probs)` if an index is. */
  datatype Oracle = Oracle(coin: nat -> real, pick: (nat, seq<real>) -> nat)

  ghost predicate HasMass(probs: seq<real>) {
    exists i :: 0 <= i < |probs| && probs[i] > 0.0
  }

  // Uniform numbers lie in [0, 1), and only indices of positive weight are drawn.
  ghost predicate Fair(o: Oracle) {
    && (forall n :: 0.0 <= o.coin(n) < 1.0)
    && (forall n, probs :: HasMass(probs) ==> o.pick(n, probs) < |probs| && probs[o.pick(n, probs)] > 0.0)
  }

  // Every draw has something to pick.
  ghost predicate Playable<A>(prog: Prog<A>) {
    match prog
    case Return(_) => true
    case Toss(_, yes, no) => Playable(yes) && Playable(no)
    case Draw(probs, next) =>
      HasMass(probs) && |next| == |probs| && forall t :: 0 <= t < |next| ==> Playable(next[t])
  }

  // The result, and the number of choices used up, when the first one is the oracle's n-th.
  ghost function Run<A>(o: Oracle, n: nat, prog: Prog<A>): (A, nat)
    requires Fair(o) && Playable(prog)
    decreases prog
  {
    match prog
    case Return(a) => (a, n)
    case Toss(chance, yes, no) => if o.coin(n) < chance then Run(o, n + 1, yes) else Run(o, n + 1, no)
    case Draw(probs, next) => Run(o, n + 1, next[o.pick(n, probs)])
  }

  lemma {:induction false} RunBind<A(!new), B>(o: Oracle, n: nat, prog: Prog<A>, f: A -> Prog<B>)
    requires Fair(o) && Playable(prog) && forall a :: Playable(f(a))
    ensures Playable(Bind(prog, f))
    ensures var (a, m) := Run(o, n, prog); Run(o, n, Bind(prog, f)) == Run(o, m, f(a))
    decreases prog
  {
    match prog
    case Return(a) =>
    case Toss(chance, yes, no) =>
      RunBind(o, n + 1, yes, f);
      RunBind(o, n + 1, no, f);
    case Draw(probs, next) =>
      forall t | 0 <= t < |next|
        ensures Playable(Bind(next[t], f))
      {
        RunBind(o, n + 1, next[t], f);
      }
      RunBind(o, n + 1, next[o.pick(n, probs)], f);
  }

  // ---------- an expectation ----------

  // The sum of probs[t] * values[t].
  function Weighted(probs: seq<real>, values: seq<real>): real {
    if probs == [] || values == [] then 0.0
    else
      var n := if |probs| <= |values| then |probs| - 1 else |values| - 1;
      Weighted(probs[..n], values[..n]) + probs[n] * values[n]
  }

  // The expected value of f over the results.
  function Expect<A>(prog: Prog<A>, f: A -> real): real {
    match prog
    case Return(a) => f(a)
    case Toss(chance, yes, no) => chance * Expect(yes, f) + (1.0 - chance) * Expect(no, f)
    case Draw(probs, next) => Weighted(probs, seq(|next|, t requires 0 <= t < |next| => Expect(next[t], f)))
  }

  lemma {:induction false} ExpectSame<A(!new)>(prog: Prog<A>, f: A -> real, g: A -> real)
    requires forall a :: f(a) == g(a)
    ensures Expect(prog, f) == Expect(prog, g)
  {
    match prog
    case Return(a) =>
    case Toss(chance, yes, no) =>
      ExpectSame(yes, f, g);
      ExpectSame(no, f, g);
    case Draw(probs, next) =>
      forall t | 0 <= t < |next|
        ensures Expect(next[t], f) == Expect(next[t], g)
      {
        ExpectSame(next[t], f, g);
      }
      assert seq(|next|, t requires 0 <= t < |next| => Expect(next[t], f))
          == seq(|next|, t requires 0 <= t < |next| => Expect(next[t], g));
  }

  // What each result is worth when f goes on from it.
  function Worth<A, B>(f: A -> Prog<B>, g: B -> real): A -> real {
    (a: A) => Expect(f(a), g)
  }

  lemma {:induction false} ExpectBind<A, B>(prog: Prog<A>, f: A -> Prog<B>, g: B -> real)
    ensures Expect(Bind(prog, f), g) == Expect(prog, Worth(f, g))
  {
    match prog
    case Return(a) =>
    case Toss(chance, yes, no) =>
      ExpectBind(yes, f, g);
      ExpectBind(no, f, g);
    case Draw(probs, next) =>
      var bound := seq(|next|, t requires 0 <= t < |next| => Bind(next[t], f));
      forall t | 0 <= t < |next|
        ensures Expect(bound[t], g) == Expect(next[t], Worth(f, g))
      {
        ExpectBind(next[t], f, g);
      }
      assert seq(|bound|, t requires 0 <= t < |bound| => Expect(bound[t], g))
          == seq(|next|, t requires 0 <= t < |next| => Expect(next[t], Worth(f, g)));
  }

  // ---------- weighted sums ----------

  function Affine(a: real, v: real, b: real): real {
    a * v + b
  }

  lemma {:induction false} WeightedAffine(probs: seq<real>, u: seq<real>, v: seq<real>, a: real, b: real)
    requires |probs| == |u| == |v| && forall t :: 0 <= t < |u| ==> u[t] == Affine(a, v[t], b)
    ensures Weighted(probs, u) == a * Weighted(probs, v) + b * Sum(probs)
  {
    hide Affine;
    if probs != [] {
      var n := |probs| - 1;
      WeightedAffine(probs[..n], u[..n], v[..n], a, b);
      AffineStep(Weighted(probs[..n], v[..n]), Sum(probs[..n]), probs[n], u[n], v[n], a, b);
    }
  }

  lemma AffineStep(w: real, s: real, x: real, u: real, v: real, a: real, b: real)
    requires u == Affine(a, v, b)
    ensures a * w + b * s + x * u == a * (w + x * v) + b * (s + x)
  {
    assert x * u == x * (a * v) + x * b;
    assert x * (a * v) == a * (x * v);
  }

  function Times(x: real, y: real): real {
    x * y
  }

  // Weights whose products add up entry by entry.
  lemma {:induction false} WeightedSplit(p: seq<real>, u: seq<real>, q: seq<real>, v: seq<real>, r: seq<real>,
                                         w: seq<real>)
    requires |p| == |u| == |q| == |v| == |r| == |w|
    requires forall t :: 0 <= t < |p| ==> Times(p[t], u[t]) == Times(q[t], v[t]) + Times(r[t], w[t])
    ensures Weighted(p, u) == Weighted(q, v) + Weighted(r, w)
  {
    if p != [] {
      var n := |p| - 1;
      WeightedSplit(p[..n], u[..n], q[..n], v[..n], r[..n], w[..n]);
      assert Times(p[n], u[n]) == Times(q[n], v[n]) + Times(r[n], w[n]);
    }
  }

  lemma {:induction false} SumHasMass(d: seq<real>)
    requires Sum(d) > 0.0
    ensures HasMass(d)
  {
    var n := |d| - 1;
    if d[n] <= 0.0 {
      SumHasMass(d[..n]);
      var i :| 0 <= i < n && d[..n][i] > 0.0;
      assert d[i] > 0.0;
    }
  }
}
