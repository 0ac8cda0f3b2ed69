/**
 The oblivious PRF of the login (core/oprf.js; section 3.3.1 of RFC 9497): what the client gets by blinding,
 having the panel evaluate, and unblinding is what enrolment computes directly.

 The group, the map into it and the hashes are parameters. The group has prime order; scalar multiplication
 is defined here and proved to compose, and inverses are computed by the extended Euclidean algorithm.
 */
module ObliviousPrf {
  import opened Arithmetic
  import opened BigEndian
  import opened Wrappers

  /** The group with its encoding, the map of passwords into it, and the final hash. */
  datatype Suite<!E(!new)> = Suite(op: (E, E) -> E, unit: E, order: nat, hash: string -> E,
                                   enc: E -> seq<Byte>, dec: seq<Byte> -> Option<E>,
                                   derive: (string, seq<Byte>) -> seq<Byte>)

  const SCALAR_BYTES := 32

  // ---- arithmetic modulo a prime ---------------------------------------------------------------

  ghost predicate Divides(d: int, n: int) { exists k :: Mul(d, k) == n }

  ghost predicate Prime(p: nat) {
    p > 1 && forall d: nat :: 0 < d && Divides(d, p) ==> d == 1 || d == p
  }

  /** gcd(a, b), with x and y such that a*x + b*y is it. */
  function Euclid(a: nat, b: nat): (nat, int, int)
    decreases b
  {
    if b == 0 then (a, 1, 0)
    else
      var (g, x, y) := Euclid(b, a % b);
      (g, y, x - Mul(a / b, y))
  }

  lemma {:induction false} EuclidCombines(a: nat, b: nat)
    ensures var (g, x, y) := Euclid(a, b); Mul(a, x) + Mul(b, y) == g
    decreases b
  {
    if b == 0 {
    } else {
      var (g, x, y) := Euclid(b, a % b);
      EuclidCombines(b, a % b);
      var q, r := a / b, a % b;
      Splits(a, b);
      MulAdds(y, Mul(b, q), r);
      MulAdds(b, x, -Mul(q, y));
      MulAssociates(b, q, y);
      MulAdds(b, Mul(q, y), -Mul(q, y));
    }
  }

  lemma {:induction false} EuclidDivides(a: nat, b: nat)
    requires a > 0 || b > 0
    ensures var g := Euclid(a, b).0; g > 0 && Divides(g, a) && Divides(g, b)
    decreases b
  {
    if b > 0 {
      EuclidDivides(b, a % b);
      var g := Euclid(a, b).0;
      Splits(a, b);
      var m :| Mul(g, m) == b;
      var n :| Mul(g, n) == a % b;
      MulAssociates(g, m, a / b);
      MulAdds(g, Mul(m, a / b), n);
      assert Mul(g, Mul(m, a / b) + n) == a;
    } else {
      assert Mul(a, 1) == a && Mul(a, 0) == 0;
    }
  }

  /** The inverse modulo the order. */
  function Inv(n: nat, order: nat): (i: nat)
    requires order > 0
    ensures i < order
  {
    Euclid(n, order).1 % order
  }

  lemma CoprimeBelow(n: nat, order: nat)
    requires Prime(order) && 0 < n < order
    ensures Euclid(n, order).0 == 1
  {
    EuclidDivides(n, order);
    var g := Euclid(n, order).0;
    var k :| Mul(g, k) == n;
    MulGrows(g, k);
    if g == order { MulGrows(order, k - 1); MulAdds(order, k - 1, 1); }
  }

  lemma InvInverts(n: nat, order: nat)
    requires Prime(order) && 0 < n < order
    ensures Mul(Inv(n, order), n) % order == 1
  {
    var (g, x, y) := Euclid(n, order);
    EuclidCombines(n, order);
    CoprimeBelow(n, order);
    var q, i := x / order, x % order;
    Splits(x, order);
    MulAdds(n, Mul(order, q), i);
    MulAssociates(n, order, q);
    MulCommutes(n, order);
    MulAssociates(order, n, q);
    MulCommutes(n, i);
    MulAdds(order, -Mul(n, q), -y);
    Negates(order, Mul(n, q));
    Negates(order, y);
    RemainderIs(Mul(i, n), order, -Mul(n, q) - y, 1);
  }

  lemma ZeroTimes(n: nat, m: nat, p: nat)
    requires p > 0 && n % p == 0
    ensures Mul(n, m) % p == 0
  {
    Splits(n, p);
    MulAssociates(p, n / p, m);
    RemainderIs(Mul(n, m), p, Mul(n / p, m), 0);
  }

  /** Multiplying by a number and then by its inverse changes nothing. */
  lemma InvCancels(n: nat, m: nat, p: nat)
    requires Prime(p) && 0 < m < p
    ensures Mul(Mul(n, m), Inv(m, p)) % p == n % p
  {
    var i := Inv(m, p);
    InvInverts(m, p);
    var t := Mul(i, m) / p;
    Splits(Mul(i, m), p);
    Splits(n, p);
    MulAssociates(n, m, i);
    MulCommutes(m, i);
    MulAdds(n, Mul(p, t), 1);
    MulAssociates(n, p, t);
    MulCommutes(n, p);
    MulAssociates(p, n, t);
    MulAdds(p, Mul(n, t), n / p);
    RemainderIs(Mul(Mul(n, m), i), p, Mul(n, t) + n / p, n % p);
  }

  /** A prime divides no product of numbers it does not divide. */
  lemma NonzeroProduct(n: nat, m: nat, p: nat)
    requires Prime(p) && 0 < m < p && n % p != 0
    ensures Mul(n, m) >= 0 && Mul(n, m) % p != 0
  {
    InvCancels(n, m, p);
    assert Mul(n, m) >= 0;
    if Mul(n, m) % p == 0 { ZeroTimes(Mul(n, m), Inv(m, p), p); }
  }

  // ---- the group -------------------------------------------------------------------------------

  /** n times e. */
  function Times<E(!new)>(s: Suite<E>, n: nat, e: E): E {
    if n == 0 then s.unit else s.op(Times(s, n - 1, e), e)
  }

  ghost predicate Associative<E(!new)>(s: Suite<E>, a: E, b: E, c: E) { s.op(s.op(a, b), c) == s.op(a, s.op(b, c)) }

  ghost predicate Unital<E(!new)>(s: Suite<E>, a: E) { s.op(s.unit, a) == a && s.op(a, s.unit) == a }

  ghost predicate OrderEnds<E(!new)>(s: Suite<E>, a: E) { Times(s, s.order, a) == s.unit }

  ghost predicate Decodes<E(!new)>(s: Suite<E>, a: E) { s.dec(s.enc(a)) == Some(a) }

  ghost predicate IsSuite<E(!new)>(s: Suite<E>) {
    && (forall a, b, c :: Associative(s, a, b, c))
    && (forall a :: Unital(s, a))
    && Prime(s.order) && s.order <= Span(SCALAR_BYTES)
    && (forall a :: OrderEnds(s, a))
    && (forall a :: Decodes(s, a))
  }

  // ---- scalar multiplication composes ----------------------------------------------------------

  lemma {:induction false} TimesAdds<E(!new)>(s: Suite<E>, m: nat, n: nat, e: E)
    requires IsSuite(s)
    ensures Times(s, m + n, e) == s.op(Times(s, m, e), Times(s, n, e))
  {
    if n == 0 {
      assert Unital(s, Times(s, m, e));
    } else {
      TimesAdds(s, m, n - 1, e);
      assert Associative(s, Times(s, m, e), Times(s, n - 1, e), e);
    }
  }

  lemma {:induction false} TimesMultiplies<E(!new)>(s: Suite<E>, m: nat, n: nat, e: E)
    requires IsSuite(s)
    ensures Mul(m, n) >= 0 && Times(s, m, Times(s, n, e)) == Times(s, Mul(m, n), e)
  {
    if m == 0 {
    } else {
      TimesMultiplies(s, m - 1, n, e);
      TimesAdds(s, Mul(m - 1, n), n, e);
      MulAdds(n, m - 1, 1);
    }
  }

  lemma {:induction false} UnitStays<E(!new)>(s: Suite<E>, n: nat)
    requires IsSuite(s)
    ensures Times(s, n, s.unit) == s.unit
  {
    if n == 0 {
    } else {
      UnitStays(s, n - 1);
      assert Unital(s, s.unit);
    }
  }

  /** Scalars only count modulo the order. */
  lemma TimesReduces<E(!new)>(s: Suite<E>, n: nat, e: E)
    requires IsSuite(s)
    ensures Times(s, n % s.order, e) == Times(s, n, e)
  {
    var q, r := n / s.order, n % s.order;
    Splits(n, s.order);
    MulCommutes(q, s.order);
    TimesMultiplies(s, q, s.order, e);
    assert OrderEnds(s, e);
    UnitStays(s, q);
    TimesAdds(s, Mul(q, s.order), r, e);
    assert Unital(s, Times(s, r, e));
  }

  lemma TimesOne<E(!new)>(s: Suite<E>, e: E)
    requires IsSuite(s)
    ensures Times(s, 1, e) == e
  {
    assert Times(s, 1, e) == s.op(Times(s, 0, e), e);
    assert Unital(s, e);
  }

  // ---- scalars and bytes -----------------------------------------------------------------------

  /** Zero stands for one. */
  function LoadScalar<E(!new)>(s: Suite<E>, bytes: seq<Byte>): nat
    requires s.order > 1
  {
    var n := Value(bytes) % s.order; if n == 0 then 1 else n
  }

  lemma LoadedScalarInRange<E(!new)>(s: Suite<E>, bytes: seq<Byte>)
    requires s.order > 1
    ensures 0 < LoadScalar(s, bytes) < s.order
  {}

  /** A nonzero scalar survives being written out and read back. */
  lemma ScalarRoundTrips<E(!new)>(s: Suite<E>, n: nat)
    requires IsSuite(s) && 0 < n < s.order
    ensures LoadScalar(s, ToBytes(n, SCALAR_BYTES)) == n
  {
    ValueOfBytes(n, SCALAR_BYTES);
    assert Mul(s.order, 0) == 0;
    RemainderIs(n, s.order, 0, n);
  }

  method BytesToBig(bytes: seq<Byte>) returns (x: nat)
    ensures x == Value(bytes)
  {
    x := 0;
    for i := 0 to |bytes|
      invariant x == Value(bytes[..i])
    {
      assert bytes[..i + 1][..i] == bytes[..i];
      x := x * 256 + bytes[i];
    }
    assert bytes[..|bytes|] == bytes;
  }

  method BigToBytes(x: nat, len: nat) returns (out: array<Byte>)
    ensures fresh(out) && out[..] == ToBytes(x, len)
  {
    out := new Byte[len];
    var i, rest := len, x;
    while i > 0
      invariant i <= len && out.Length == len
      invariant ToBytes(x, len) == ToBytes(rest, i) + out[i..]
    {
      ghost var tail := out[i..];
      i := i - 1;
      out[i] := rest % 256;
      assert out[i..] == [rest % 256] + tail;
      rest := rest / 256;
    }
    assert out[..] == out[0..];
  }

  // ---- the protocol ----------------------------------------------------------------------------

  function Evaluate<E(!new)>(s: Suite<E>, key: seq<Byte>, blinded: seq<Byte>): Option<seq<Byte>>
    requires s.order > 1
  {
    var b := s.dec(blinded);
    if b.None? then None else Some(s.enc(Times(s, LoadScalar(s, key), b.value)))
  }

  /** Enrolment, with both the key and the password in hand. */
  function EvaluateFull<E(!new)>(s: Suite<E>, key: seq<Byte>, password: string): seq<Byte>
    requires s.order > 1
  {
    s.derive(password, s.enc(Times(s, LoadScalar(s, key), s.hash(password))))
  }

  datatype Blinded = Blinded(blinded: seq<Byte>, r: seq<Byte>)

  /** `draw`: the random bytes the blind is drawn from. */
  function Blind<E(!new)>(s: Suite<E>, password: string, draw: seq<Byte>): Blinded
    requires s.order > 1
  {
    var r := LoadScalar(s, draw);
    Blinded(s.enc(Times(s, r, s.hash(password))), ToBytes(r, SCALAR_BYTES))
  }

  function Finalize<E(!new)>(s: Suite<E>, password: string, r: seq<Byte>, evaluated: seq<Byte>): Option<seq<Byte>>
    requires s.order > 1
  {
    var e := s.dec(evaluated);
    if e.None? then None
    else Some(s.derive(password, s.enc(Times(s, Inv(LoadScalar(s, r), s.order), e.value))))
  }

  /** Taking the blind off a blinded product leaves the product. */
  lemma Unblinds<E(!new)>(s: Suite<E>, k: nat, r: nat, e: E)
    requires IsSuite(s) && 0 < r < s.order
    ensures Times(s, Inv(r, s.order), Times(s, k, Times(s, r, e))) == Times(s, k, e)
  {
    var i := Inv(r, s.order);
    TimesMultiplies(s, k, r, e);
    TimesMultiplies(s, i, Mul(k, r), e);
    Reorders(i, k, r);
    TimesMultiplies(s, i, r, e);
    TimesMultiplies(s, k, Mul(i, r), e);
    InvInverts(r, s.order);
    TimesReduces(s, Mul(i, r), e);
    TimesOne(s, e);
  }

  lemma Reorders(i: int, k: int, r: int)
    ensures Mul(i, Mul(k, r)) == Mul(k, Mul(i, r))
  {
    MulAssociates(i, k, r);
    MulCommutes(i, k);
    MulAssociates(k, i, r);
  }

  /** For every password, every key and every blind, the blinded evaluation is the direct one. */
  lemma BlindedIsDirect<E(!new)>(s: Suite<E>, password: string, key: seq<Byte>, draw: seq<Byte>)
    requires IsSuite(s)
    ensures
      var b := Blind(s, password, draw);
      var evaluated := Evaluate(s, key, b.blinded);
      && evaluated.Some?
      && Finalize(s, password, b.r, evaluated.value) == Some(EvaluateFull(s, key, password))
  {
    var r, k, h := LoadScalar(s, draw), LoadScalar(s, key), s.hash(password);
    LoadedScalarInRange(s, draw);
    ScalarRoundTrips(s, r);
    assert Decodes(s, Times(s, r, h)) && Decodes(s, Times(s, k, Times(s, r, h)));
    Unblinds(s, k, r, h);
  }

  /** The blind that makes the second password's point what `r` made the first one's. */
  function OtherBlind(r: nat, a: nat, b: nat, order: nat): nat
    requires order > 0
  {
    Mul(Mul(r, a), Inv(b, order)) % order
  }

  /**
   The panel learns nothing of the password from a blinded point: whatever the point, every password whose
   group element is not the unit could have produced it, with some other nonzero blind.
   */
  lemma BlindedPointFitsEveryPassword<E(!new)>(s: Suite<E>, generator: E, a: nat, b: nat, r: nat)
    requires IsSuite(s) && 0 < a < s.order && 0 < b < s.order && 0 < r < s.order
    ensures
      var h1, h2 := Times(s, a, generator), Times(s, b, generator);
      0 < OtherBlind(r, a, b, s.order) < s.order && Times(s, OtherBlind(r, a, b, s.order), h2) == Times(s, r, h1)
  {
    var i, ra := Inv(b, s.order), Mul(r, a);
    var h2 := Times(s, b, generator);
    assert Mul(s.order, 0) == 0 && Mul(0, b) == 0;
    RemainderIs(r, s.order, 0, r);
    NonzeroProduct(r, a, s.order);
    InvInverts(b, s.order);
    NonzeroProduct(ra, i, s.order);
    TimesMultiplies(s, ra, i, h2);
    TimesReduces(s, Mul(ra, i), h2);
    TimesMultiplies(s, i, b, generator);
    TimesReduces(s, Mul(i, b), generator);
    TimesOne(s, generator);
    TimesMultiplies(s, r, a, generator);
  }

  ghost predicate Generated<E(!new)>(s: Suite<E>, generator: E, e: E) {
    exists n: nat :: n < s.order && Times(s, n, generator) == e
  }

  ghost predicate Generates<E(!new)>(s: Suite<E>, generator: E) { forall e :: Generated(s, generator, e) }

  /**
   So for any two passwords that are not hashed to the unit: whatever blinded point one of them sent, the
   other could have sent it too, from another draw of the blind.
   */
  lemma BlindedHidesThePassword<E(!new)>(s: Suite<E>, generator: E, password: string, other: string, draw: seq<Byte>)
    requires IsSuite(s) && Generates(s, generator)
    requires s.hash(password) != s.unit && s.hash(other) != s.unit
    ensures exists draw' :: Blind(s, other, draw').blinded == Blind(s, password, draw).blinded
  {
    assert Generated(s, generator, s.hash(password)) && Generated(s, generator, s.hash(other));
    var a: nat :| a < s.order && Times(s, a, generator) == s.hash(password);
    var b: nat :| b < s.order && Times(s, b, generator) == s.hash(other);
    var r := LoadScalar(s, draw);
    BlindedPointFitsEveryPassword(s, generator, a, b, r);
    ScalarRoundTrips(s, OtherBlind(r, a, b, s.order));
    assert Blind(s, other, ToBytes(OtherBlind(r, a, b, s.order), SCALAR_BYTES)).blinded ==
           Blind(s, password, draw).blinded;
  }

  /** What adds nothing to an element is the unit. */
  lemma Cancels<E(!new)>(s: Suite<E>, x: E, y: E)
    requires IsSuite(s) && s.op(x, y) == y
    ensures x == s.unit
  {
    var z := Times(s, s.order - 1, y);
    TimesOne(s, y);
    TimesAdds(s, 1, s.order - 1, y);
    assert OrderEnds(s, y) && s.op(y, z) == s.unit;
    assert Associative(s, x, y, z) && Unital(s, x);
  }

  /** Scalars below the order are told apart by what they make of an element. */
  lemma ScalarsAreToldApart<E(!new)>(s: Suite<E>, a: nat, b: nat, e: E)
    requires IsSuite(s) && b < a < s.order && e != s.unit
    ensures Times(s, a, e) != Times(s, b, e)
  {
    if Times(s, a, e) == Times(s, b, e) {
      var d := a - b;
      TimesAdds(s, d, b, e);
      Cancels(s, Times(s, d, e), Times(s, b, e));
      InvInverts(d, s.order);
      TimesMultiplies(s, Inv(d, s.order), d, e);
      TimesReduces(s, Mul(Inv(d, s.order), d), e);
      UnitStays(s, Inv(d, s.order));
      TimesOne(s, e);
    }
  }

  /** The evaluation of a blinded point is the key's: two keys give the same exactly when they load as one scalar. */
  lemma KeysAreToldApart<E(!new)>(s: Suite<E>, key: seq<Byte>, other: seq<Byte>, e: E)
    requires IsSuite(s) && e != s.unit
    ensures Evaluate(s, key, s.enc(e)).Some?
    ensures
      Evaluate(s, key, s.enc(e)) == Evaluate(s, other, s.enc(e)) <==> LoadScalar(s, key) == LoadScalar(s, other)
  {
    var a, b := LoadScalar(s, key), LoadScalar(s, other);
    assert Decodes(s, e) && Decodes(s, Times(s, a, e)) && Decodes(s, Times(s, b, e));
    if a > b { ScalarsAreToldApart(s, a, b, e); }
    if b > a { ScalarsAreToldApart(s, b, a, e); }
  }

  // ---- there are such groups -------------------------------------------------------------------

  type Residue = n: int | 0 <= n < 3 witness 0

  function Third(n: int): Residue { n % 3 }

  function ReadResidue(bytes: seq<Byte>): Option<Residue> {
    if |bytes| == 1 && bytes[0] < 3 then Some(Third(bytes[0])) else None
  }

  /** The numbers modulo three. */
  const MODULO_THREE: Suite<Residue> :=
    Suite((a: Residue, b: Residue) => Third(a + b), 0, 3, (password: string) => Third(|password|),
          (a: Residue) => [a], ReadResidue, (password: string, bytes: seq<Byte>) => bytes)

  lemma ThreeIsPrime()
    ensures Prime(3)
  {
    forall d: nat | 0 < d && Divides(d, 3) ensures d == 1 || d == 3 {
      var k :| Mul(d, k) == 3;
      MulGrows(d, k);
      assert d == 2 ==> Mul(2, k) == 2 * k;
    }
  }

  lemma ThirdAssociates(a: Residue, b: Residue, c: Residue)
    ensures Third(Third(a + b) + c) == Third(a + Third(b + c))
  {}

  lemma SumIs(a: Residue, b: Residue)
    ensures MODULO_THREE.op(a, b) == Third(a + b)
  {}

  lemma SumsAssociate(a: Residue, b: Residue, c: Residue)
    ensures Associative(MODULO_THREE, a, b, c)
  {
    SumIs(a, b);
    SumIs(b, c);
    SumIs(Third(a + b), c);
    SumIs(a, Third(b + c));
    ThirdAssociates(a, b, c);
  }

  lemma ZeroIsUnit(a: Residue)
    ensures Unital(MODULO_THREE, a) && Decodes(MODULO_THREE, a)
  {}

  lemma Multiples(a: Residue)
    ensures Times(MODULO_THREE, 0, a) == 0 && Times(MODULO_THREE, 1, a) == a
            && Times(MODULO_THREE, 2, a) == Third(a + a)
    ensures Times(MODULO_THREE, 3, a) == 0
  {
    var s := MODULO_THREE;
    assert Times(s, 0, a) == 0;
    assert Times(s, 1, a) == s.op(Times(s, 0, a), a);
    assert Times(s, 2, a) == s.op(Times(s, 1, a), a);
    assert Times(s, 3, a) == s.op(Times(s, 2, a), a);
  }

  lemma OneGenerates(e: Residue)
    ensures Generated(MODULO_THREE, 1, e)
  {
    Multiples(1);
    assert Times(MODULO_THREE, e, 1) == e;
  }

  lemma {:induction false} SpanGrows(len: nat)
    requires len > 0
    ensures Span(len) >= 256
  {
    if len > 1 { SpanGrows(len - 1); }
  }

  lemma SumsAreLawful()
    ensures forall a, b, c :: Associative(MODULO_THREE, a, b, c)
    ensures forall a :: Unital(MODULO_THREE, a)
    ensures forall a :: Decodes(MODULO_THREE, a)
  {
    forall a, b, c ensures Associative(MODULO_THREE, a, b, c) { SumsAssociate(a, b, c); }
    forall a ensures Unital(MODULO_THREE, a) && Decodes(MODULO_THREE, a) { ZeroIsUnit(a); }
  }

  lemma SumsEnd()
    ensures forall a :: OrderEnds(MODULO_THREE, a)
    ensures Generates(MODULO_THREE, 1)
  {
    forall a ensures OrderEnds(MODULO_THREE, a) && Generated(MODULO_THREE, 1, a) {
      Multiples(a);
      OneGenerates(a);
    }
  }

  /** The laws asked of the group can be met. */
  lemma ModuloThreeIsASuite()
    ensures IsSuite(MODULO_THREE) && Generates(MODULO_THREE, 1)
  {
    ThreeIsPrime();
    SumsAreLawful();
    SumsEnd();
    SpanGrows(SCALAR_BYTES);
  }
}
