/** What the simulation takes from its host: `Math.random`, the floating-point
    primitives it does not reason about, and the rounding functions it applies
    to random draws. */
module Host {

  /** `Math.PI` as the decimal JavaScript prints for it. */
  const Pi: real := 3.141592653589793

  /** `Math.random`, as the stream of values it returns: the call numbered
      `calls` returns `draw(calls)`. */
  datatype Random = Random(draw: nat -> real, calls: nat) {

    /** `Math.random` returns values in [0, 1). */
    ghost predicate Valid() {
      forall k :: 0.0 <= draw(k) < 1.0
    }

    /** One call of `Math.random`: its value and the stream after it. */
    function Next(): (res: (real, Random))
      requires Valid()
      ensures 0.0 <= res.0 < 1.0
      ensures res.1.Valid() && res.1.draw == draw && res.1.calls == calls + 1
    {
      (draw(calls), this.(calls := calls + 1))
    }
  }

  /** Floating-point computations of the host, taken as given: `hypot(x, y)`
      is the length `Math.sqrt(x * x + y * y)` of a vector, the others are
      `Math.atan2`, `Math.cos` and `Math.sin`. */
  datatype HostMath = HostMath(
    hypot: (real, real) -> real,
    atan2: (real, real) -> real,
    cos: real -> real,
    sin: real -> real)

  /** `Math.floor`. */
  function Floor(x: real): int {
    x.Floor
  }

  /** `Math.round`: halves round towards positive infinity. */
  function Round(x: real): int {
    (x + 0.5).Floor
  }

  function Abs(x: real): real {
    if x < 0.0 then -x else x
  }

  /** `Math.floor(Math.random() * n)` is an index into a sequence of length `n`. */
  lemma FloorOfScaledDraw(r: real, n: nat)
    requires 0.0 <= r < 1.0 && 0 < n
    ensures 0 <= Floor(r * n as real) < n
  {
    var x := r * n as real;
    assert 0.0 <= x by {
      assert 0.0 <= r && 0.0 <= n as real;
    }
    assert x < n as real by {
      assert (1.0 - r) * n as real > 0.0;
    }
  }

  /** `Math.round(Math.random() * (n - 1))` is an index into a sequence of length `n`. */
  lemma RoundOfScaledDraw(r: real, n: nat)
    requires 0.0 <= r < 1.0 && 0 < n
    ensures 0 <= Round(r * (n - 1) as real) < n
  {
    var m := (n - 1) as real;
    var x := r * m;
    assert 0.0 <= m;
    assert 0.0 <= x;
    if 0.0 < m {
      assert m - x == (1.0 - r) * m;
      assert 0.0 < (1.0 - r) * m;
    }
  }
}
