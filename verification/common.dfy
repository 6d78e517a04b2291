/**
  Shared vocabulary of the simulation model: optional references, 3-vectors over
  reals, opaque path legs, the per-tick movement oracle, a small string search,
  and the ascending enumeration of a finite set of ids that stands for the
  iteration order of the simulator's ordered sets and maps.
 */
module Common {

  /** A nullable reference. */
  datatype Option<+T> = None | Some(value: T)

  /** Entities, observers and packages are referred to by integer id. Where the
      simulator keys an ordered container by pointer, the id plays the pointer's role. */
  type Id = int

  datatype Vec3 = Vec3(x: real, y: real, z: real)

  function Plus(a: Vec3, b: Vec3): Vec3 { Vec3(a.x + b.x, a.y + b.y, a.z + b.z) }
  function Minus(a: Vec3, b: Vec3): Vec3 { Vec3(a.x - b.x, a.y - b.y, a.z - b.z) }
  function Scale(a: Vec3, k: real): Vec3 { Vec3(a.x * k, a.y * k, a.z * k) }
  function Dot(a: Vec3, b: Vec3): real { a.x * b.x + a.y * b.y + a.z * b.z }

  /** The parts of vector geometry that need square roots or trigonometry are not
      computed here; they are supplied by the caller. `mag` is the Euclidean length,
      `unit` the normalised vector, `cosDeg`/`sinDeg` cosine and sine of an angle in degrees. */
  datatype Geometry = Geometry(mag: Vec3 -> real, unit: Vec3 -> Vec3,
                               cosDeg: real -> real, sinDeg: real -> real)

  /** Euclidean distance from `a` to `b` (Vector3::dist). */
  function Dist(g: Geometry, a: Vec3, b: Vec3): real { g.mag(Minus(a, b)) }

  /** A path strategy built from `start` towards `target`. Its movement is opaque. */
  datatype Leg = Leg(start: Vec3, target: Vec3)

  /** The effect of calling `move` on the active leg for one tick and then asking
      `isCompleted`: where the mover is afterwards, which way it faces, and whether
      the leg now reports completion. */
  datatype Motion = Motion(position: Vec3, direction: Vec3, completed: bool)

  /** `s.find(pat) != npos`. */
  predicate Contains(s: string, pat: string) {
    exists i :: 0 <= i <= |s| - |pat| && MatchesAt(s, pat, i)
  }

  predicate MatchesAt(s: string, pat: string, i: int)
    requires 0 <= i <= |s| - |pat|
  {
    s[i..i + |pat|] == pat
  }

  lemma ContainsInfix(pre: string, pat: string, post: string)
    ensures Contains(pre + pat + post, pat)
  {
    var s := pre + pat + post;
    assert s[|pre|..|pre| + |pat|] == pat;
    assert MatchesAt(s, pat, |pre|);
  }

  /** `std::max(0.0, std::min(1.0, p))`. */
  function Clamp01(p: real): (r: real)
    ensures 0.0 <= r <= 1.0
    ensures 0.0 <= p <= 1.0 ==> r == p
    ensures p < 0.0 ==> r == 0.0
    ensures p > 1.0 ==> r == 1.0
  {
    if p > 1.0 then 1.0 else if p < 0.0 then 0.0 else p
  }

  /** `m` is the least element of `s`. */
  predicate IsLeast(m: int, s: set<int>) {
    m in s && forall y :: y in s ==> m <= y
  }

  /** Some element of a non-empty set. */
  lemma Pick(s: set<int>) returns (x: int)
    requires s != {}
    ensures x in s
  {
    if forall e :: e !in s {
      assert false;
    }
    var e :| e in s;
    x := e;
  }

  lemma {:induction false} LeastExists(s: set<int>)
    requires s != {}
    ensures exists m :: IsLeast(m, s)
    decreases |s|
  {
    var x := Pick(s);
    if s == {x} {
      assert IsLeast(x, s);
    } else {
      var t := s - {x};
      LeastExists(t);
      var m :| IsLeast(m, t);
      if x < m {
        forall y | y in s ensures x <= y {
          if y != x { assert y in t; }
        }
        assert IsLeast(x, s);
      } else {
        forall y | y in s ensures m <= y {
          if y != x { assert y in t; }
        }
        assert IsLeast(m, s);
      }
    }
  }

  /** The least element of a non-empty set: the first one an ordered container visits. */
  function Least(s: set<int>): (m: int)
    requires s != {}
    ensures m in s
    ensures forall y :: y in s ==> m <= y
  {
    LeastExists(s);
    var m :| IsLeast(m, s);
    m
  }

  predicate StrictlyIncreasing(r: seq<int>) {
    forall i, j :: 0 <= i < j < |r| ==> r[i] < r[j]
  }

  /** The elements of `s` in the order an ordered set or map visits them. */
  function Ascending(s: set<int>): (r: seq<int>)
    ensures |r| == |s|
    ensures forall i :: 0 <= i < |r| ==> r[i] in s
    ensures forall x :: x in s ==> x in r
    ensures StrictlyIncreasing(r)
    decreases |s|
  {
    if s == {} then []
    else
      var m := Least(s);
      var rest := Ascending(s - {m});
      PrependLeast(m, s, rest);
      [m] + rest
  }

  /** The least element in front of an ascending listing of the others lists the
      whole set in ascending order. */
  lemma PrependLeast(m: int, s: set<int>, rest: seq<int>)
    requires m in s && forall y :: y in s ==> m <= y
    requires |rest| == |s - {m}|
    requires forall i :: 0 <= i < |rest| ==> rest[i] in s - {m}
    requires forall x :: x in s - {m} ==> x in rest
    requires StrictlyIncreasing(rest)
    ensures |[m] + rest| == |s|
    ensures forall i :: 0 <= i < |[m] + rest| ==> ([m] + rest)[i] in s
    ensures forall x :: x in s ==> x in [m] + rest
    ensures StrictlyIncreasing([m] + rest)
  {
    var r := [m] + rest;
    forall i, j | 0 <= i < j < |r| ensures r[i] < r[j] {
      assert r[j] == rest[j - 1] && r[j] in s - {m};
      if i > 0 { assert r[i] == rest[i - 1]; }
    }
    forall x | x in s ensures x in r {
      if x != m { assert x in rest; }
    }
  }


  /** An ordered container visits its least element first. */
  lemma AscendingFirstIsLeast(s: set<int>)
    ensures s != {} ==> IsLeast(Ascending(s)[0], s)
  {
    if s != {} {
      var r := Ascending(s);
      forall y | y in s ensures r[0] <= y {
        assert y in r;
        var i :| 0 <= i < |r| && r[i] == y;
      }
    }
  }

  /** The first element of the listing is the set's `Least`. */
  lemma AscendingStartsAtLeast(s: set<int>)
    ensures s != {} ==> Ascending(s)[0] == Least(s)
  {
    AscendingFirstIsLeast(s);
    if s != {} {
      var f, m := Ascending(s)[0], Least(s);
      assert f <= m && m <= f;
    }
  }

  /** Two values of `rand() / RAND_MAX`, in the order they are drawn. */
  datatype Draws = Draws(first: real, second: real)

  predicate Fractions(d: Draws) {
    0.0 <= d.first <= 1.0 && 0.0 <= d.second <= 1.0
  }

  predicate IsDigit(c: char) { '0' <= c <= '9' }

  function DigitChar(d: nat): (c: char)
    requires d < 10
    ensures IsDigit(c) && c as int - '0' as int == d
  {
    ('0' as int + d) as char
  }

  /** `std::to_string` of a non-negative integer: its decimal digits, no leading zeros. */
  function DecimalString(n: nat): (s: string)
    ensures |s| >= 1
    ensures forall i :: 0 <= i < |s| ==> IsDigit(s[i])
    ensures |s| > 1 ==> s[0] != '0'
    decreases n
  {
    if n < 10 then [DigitChar(n)] else DecimalString(n / 10) + [DigitChar(n % 10)]
  }

  /** The number a string of decimal digits denotes. */
  function DecimalValue(s: string): nat
    requires forall i :: 0 <= i < |s| ==> IsDigit(s[i])
    decreases |s|
  {
    if s == [] then 0
    else
      var c := s[|s| - 1];
      assert IsDigit(c);
      assert '0' as int <= c as int;
      DecimalValue(s[..|s| - 1]) * 10 + (c as int - '0' as int)
  }

  /** Reading back the digits gives the number: distinct counts give distinct texts. */
  lemma {:induction false} DecimalRoundTrip(n: nat)
    ensures DecimalValue(DecimalString(n)) == n
    decreases n
  {
    if n >= 10 {
      var s := DecimalString(n);
      DecimalRoundTrip(n / 10);
      assert s[..|s| - 1] == DecimalString(n / 10);
    }
  }
}
