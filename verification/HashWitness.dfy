/** The hypothesis of the cache theorems can be met: whatever inputs a run hashes,
    up to the number of digests there are, some hash keeps them apart. */
module HashWitness {
  import opened Common
  import opened PerceptualHash
  import opened SearchService

  /** Where `b` stands in `order`; zero if it does not. */
  function Place(order: seq<Bytes>, b: Bytes): nat {
    if order == [] || order[|order| - 1] == b then (if order == [] then 0 else |order| - 1)
    else Place(order[..|order| - 1], b)
  }

  lemma {:induction false} PlaceFound(order: seq<Bytes>, b: Bytes)
    ensures b in order ==> Place(order, b) < |order| && order[Place(order, b)] == b
    ensures Place(order, b) == 0 || Place(order, b) < |order|
  {
    if order != [] && order[|order| - 1] != b {
      PlaceFound(order[..|order| - 1], b);
    }
  }

  lemma {:induction false} Enumerated(inputs: set<Bytes>) returns (order: seq<Bytes>)
    ensures |order| == |inputs| && forall b :: b in inputs ==> b in order
    decreases |inputs|
  {
    order := [];
    if inputs != {} {
      var b :| b in inputs;
      var rest := Enumerated(inputs - {b});
      order := rest + [b];
    }
  }

  /** A character as that many ones and a zero. */
  function Unary(n: nat): Bytes { if n == 0 then [0] else [1] + Unary(n - 1) }

  function Spelled(s: string): Bytes {
    if s == [] then [] else Unary(s[0] as int) + Spelled(s[1..])
  }

  lemma {:induction false} UnaryReadable(m: nat, n: nat, s: Bytes, t: Bytes)
    requires Unary(m) + s == Unary(n) + t
    ensures m == n && s == t
  {
    assert (Unary(m) + s)[0] == (Unary(n) + t)[0];
    assert (Unary(m) + s)[1..] == (Unary(n) + t)[1..];
    if m > 0 && n > 0 {
      assert (Unary(m) + s)[1..] == Unary(m - 1) + s && (Unary(n) + t)[1..] == Unary(n - 1) + t;
      UnaryReadable(m - 1, n - 1, s, t);
    } else {
      assert ([0] + s)[1..] == s && ([0] + t)[1..] == t;
    }
  }

  lemma {:induction false} SpelledInjective(s: string, t: string)
    requires Spelled(s) == Spelled(t)
    ensures s == t
  {
    if s == [] || t == [] {
      assert forall n: nat :: |Unary(n)| > 0;
    } else {
      UnaryReadable(s[0] as int, t[0] as int, Spelled(s[1..]), Spelled(t[1..]));
      SpelledInjective(s[1..], t[1..]);
      assert s == [s[0]] + s[1..] && t == [t[0]] + t[1..];
    }
  }

  /** Digests are 64 hexadecimal digits; as long as there are enough of them for
      the inputs, a collision-free hash exists. */
  lemma CollisionlessExists(inputs: set<Bytes>)
    requires |inputs| <= Pow2(4 * DIGEST_LENGTH)
    ensures exists h :: Collisionless(h, inputs)
  {
    var order := Enumerated(inputs);
    var h := Hashing(b => PaddedHex(Place(order, b), DIGEST_LENGTH), Spelled);
    forall b ensures |h.digest(b)| == DIGEST_LENGTH {
      PlaceFound(order, b);
      PowPositive(4 * DIGEST_LENGTH);
      PaddedLength(Place(order, b), DIGEST_LENGTH);
    }
    forall b, c | b in inputs && c in inputs && h.digest(b) == h.digest(c) ensures b == c {
      ParsePadded(Place(order, b), DIGEST_LENGTH);
      ParsePadded(Place(order, c), DIGEST_LENGTH);
      PlaceFound(order, b);
      PlaceFound(order, c);
    }
    forall s, t | h.utf8(s) == h.utf8(t) ensures s == t {
      SpelledInjective(s, t);
    }
    assert Collisionless(h, inputs);
  }
}
