/** The secret generator: how evenly random bytes are spread over the strings of an alphabet. */
module Sampling {
  import opened Domain

  type Byte = x: int | 0 <= x < 256

  /** The string a byte vector is mapped to. */
  function Sample(bytes: seq<Byte>, base: string): string
    requires bytes == [] || base != ""
    ensures |Sample(bytes, base)| == |bytes|
  {
    if bytes == [] then "" else [base[bytes[0] % |base|]] + Sample(bytes[1..], base)
  }

  /** SecureString, given what the system's generator returned: None is its error. An empty alphabet is a
      division by zero unless no byte is asked for. */
  method SecureString(read: Option<seq<Byte>>, base: string) returns (result: Option<string>)
    requires base != "" || read == None || read == Some([])
    ensures result.Some? <==> read.Some?
    ensures read.Some? ==> result.value == Sample(read.value, base)
  {
    if read.None? {
      return None;
    }
    var b := read.value;
    var s := "";
    for i := 0 to |b|
      invariant s + Sample(b[i..], base) == Sample(b, base)
    {
      assert b[i..][1..] == b[i + 1..];
      assert (s + [base[b[i] % |base|]]) + Sample(b[i + 1..], base) == s + Sample(b[i..], base);
      s := s + [base[b[i] % |base|]];
    }
    assert s + "" == s;
    result := Some(s);
  }

  // ----- Counting -----

  function Pow(b: nat, e: nat): nat {
    if e == 0 then 1 else b * Pow(b, e - 1)
  }

  ghost predicate Distinct(base: string) {
    forall i, j :: 0 <= i < j < |base| ==> base[i] != base[j]
  }

  /** A set and its image under an injective function have one size. */
  lemma {:induction false} ImageSize<A(!new), B(!new)>(s: set<A>, f: A -> B, image: set<B>)
    requires forall x, y :: x in s && y in s && f(x) == f(y) ==> x == y
    requires forall y :: y in image <==> exists x :: x in s && f(x) == y
    ensures |image| == |s|
    decreases |s|
  {
    if s != {} {
      var x :| x in s;
      forall y ensures y in image - {f(x)} <==> exists z :: z in s - {x} && f(z) == y {
        if y in image - {f(x)} {
          var z :| z in s && f(z) == y;
          assert z in s - {x};
        }
      }
      assert f(x) in image;
      ImageSize(s - {x}, f, image - {f(x)});
    } else {
      assert image == {};
    }
  }

  ghost function Prefixed(h: Byte, tails: set<seq<Byte>>): set<seq<Byte>> {
    set t | t in tails :: [h] + t
  }

  ghost function Product(heads: set<Byte>, tails: set<seq<Byte>>): set<seq<Byte>> {
    set h, t | h in heads && t in tails :: [h] + t
  }

  lemma ProductMember(heads: set<Byte>, tails: set<seq<Byte>>, v: seq<Byte>)
    ensures v in Product(heads, tails) <==> v != [] && v[0] in heads && v[1..] in tails
  {
    if v != [] && v[0] in heads && v[1..] in tails {
      assert v == [v[0]] + v[1..];
    }
  }

  lemma PrefixedSize(h: Byte, tails: set<seq<Byte>>)
    ensures |Prefixed(h, tails)| == |tails|
  {
    var f := (t: seq<Byte>) => [h] + t;
    forall x, y | x in tails && y in tails && f(x) == f(y) ensures x == y {
      assert f(x)[1..] == x && f(y)[1..] == y;
    }
    ImageSize(tails, f, Prefixed(h, tails));
  }

  lemma ProductSplit(h: Byte, heads: set<Byte>, tails: set<seq<Byte>>)
    requires h in heads
    ensures Product(heads, tails) == Prefixed(h, tails) + Product(heads - {h}, tails)
    ensures Prefixed(h, tails) !! Product(heads - {h}, tails)
  {
    forall v ensures v in Prefixed(h, tails) <==> v != [] && v[0] == h && v[1..] in tails {
      if v != [] && v[0] == h && v[1..] in tails {
        assert v == [h] + v[1..];
      }
    }
    forall v ensures v in Product(heads, tails) <==> v in Prefixed(h, tails) + Product(heads - {h}, tails) {
      ProductMember(heads, tails, v);
      ProductMember(heads - {h}, tails, v);
    }
    forall v | v in Prefixed(h, tails) ensures v !in Product(heads - {h}, tails) {
      ProductMember(heads - {h}, tails, v);
    }
  }

  lemma ProductStep(h: Byte, heads: set<Byte>, tails: set<seq<Byte>>)
    requires h in heads
    ensures |Product(heads, tails)| == |tails| + |Product(heads - {h}, tails)|
  {
    ProductSplit(h, heads, tails);
    PrefixedSize(h, tails);
    Disjoint(Prefixed(h, tails), Product(heads - {h}, tails));
  }

  lemma Disjoint<T>(a: set<T>, b: set<T>)
    requires a !! b
    ensures |a + b| == |a| + |b|
  {
  }

  lemma {:induction false} ProductSize(heads: set<Byte>, tails: set<seq<Byte>>)
    ensures |Product(heads, tails)| == |heads| * |tails|
    decreases |heads|
  {
    if heads == {} {
      assert Product(heads, tails) == {};
    } else {
      var h :| h in heads;
      var fewer := heads - {h};
      assert |heads| == |fewer| + 1;
      ProductSize(fewer, tails);
      ProductStep(h, heads, tails);
      Distribute(|heads|, |tails|);
    }
  }

  lemma Distribute(a: nat, b: nat)
    requires a > 0
    ensures a * b == (a - 1) * b + b
  {
  }

  // ----- Residues -----

  lemma AtLeastOnce(k: int, n: nat)
    requires k >= 1
    ensures k * n >= n
  {
  }

  lemma Quotient(x: nat, n: nat, q: int, r: nat)
    requires r < n && x == q * n + r
    ensures x / n == q && x % n == r
  {
    var d := x / n - q;
    assert d * n == r - x % n;
    if d >= 1 { AtLeastOnce(d, n); }
    if d <= -1 { AtLeastOnce(-d, n); }
  }

  lemma DivisionStep(x: nat, n: nat)
    requires 0 < n <= x
    ensures x / n == (x - n) / n + 1 && x % n == (x - n) % n
  {
    var q, r := (x - n) / n, (x - n) % n;
    assert x == (q + 1) * n + r;
    Quotient(x, n, q + 1, r);
  }

  ghost function Residues(m: nat, n: nat, i: nat): set<int>
    requires n > 0
  {
    set b | 0 <= b < m && b % n == i
  }

  ghost function Shift(s: set<int>, n: int): set<int> {
    set x | x in s :: x + n
  }

  lemma ShiftMember(s: set<int>, n: int, y: int)
    ensures y in Shift(s, n) <==> y - n in s
  {
    if y - n in s { assert (y - n) + n in Shift(s, n); }
  }

  lemma ShiftSize(s: set<int>, n: int)
    ensures |Shift(s, n)| == |s|
  {
    ImageSize(s, x => x + n, Shift(s, n));
  }

  lemma ResidueMember(m: nat, n: nat, i: nat, y: int)
    requires i < n <= m
    ensures y in Residues(m, n, i) <==> y == i || y - n in Residues(m - n, n, i)
  {
    if y >= n { DivisionStep(y, n); }
  }

  /** Taking away n consecutive numbers takes away one of each residue. */
  lemma ResidueStep(m: nat, n: nat, i: nat)
    requires i < n <= m
    ensures |Residues(m, n, i)| == |Residues(m - n, n, i)| + 1
  {
    var s := Residues(m - n, n, i);
    forall y ensures y in Residues(m, n, i) <==> y in {i} + Shift(s, n) {
      ResidueMember(m, n, i, y);
      ShiftMember(s, n, y);
    }
    assert Residues(m, n, i) == {i} + Shift(s, n);
    ShiftMember(s, n, i);
    ShiftSize(s, n);
    Disjoint({i}, Shift(s, n));
  }

  lemma FewResidues(m: nat, n: nat, i: nat)
    requires i < n && m < n
    ensures m / n <= |Residues(m, n, i)| <= (m + n - 1) / n
  {
    assert Residues(m, n, i) == if i < m then {i} else {};
    Quotient(m, n, 0, m);
    if i < m { Quotient(m + n - 1, n, 1, m - 1); }
  }

  lemma {:induction false} ResidueSize(m: nat, n: nat, i: nat)
    requires i < n
    ensures m / n <= |Residues(m, n, i)| <= (m + n - 1) / n
    decreases m
  {
    if m < n {
      FewResidues(m, n, i);
    } else {
      ResidueSize(m - n, n, i);
      ResidueStep(m, n, i);
      DivisionStep(m, n);
      DivisionStep(m + n - 1, n);
    }
  }

  /** The bytes mapped to a character. */
  ghost function BytesOf(c: char, base: string): set<Byte>
    requires base != ""
  {
    set b: Byte | 0 <= b < 256 && base[b % |base|] == c
  }

  lemma BytesOfSize(c: char, base: string)
    requires Distinct(base) && 1 <= |base| && c in base
    ensures 256 / |base| <= |BytesOf(c, base)| <= (255 + |base|) / |base|
  {
    var n := |base|;
    var i :| 0 <= i < n && base[i] == c;
    ResidueSize(256, n, i);
    var bytes, f := BytesOf(c, base), (b: Byte) => b as int;
    forall y ensures y in Residues(256, n, i) <==> exists b :: b in bytes && f(b) == y {
      if y in Residues(256, n, i) {
        var b: Byte := y;
        assert b in bytes && f(b) == y;
      }
    }
    ImageSize(bytes, f, Residues(256, n, i));
  }

  /** The byte vectors mapped to a string. */
  ghost function Preimages(target: string, base: string): set<seq<Byte>>
    requires base != ""
  {
    if target == "" then {[]} else Product(BytesOf(target[0], base), Preimages(target[1..], base))
  }

  lemma {:induction false} PreimagesExact(target: string, base: string, v: seq<Byte>)
    requires base != ""
    ensures v in Preimages(target, base) <==> Sample(v, base) == target
  {
    if target == "" {
    } else if v != [] {
      PreimagesExact(target[1..], base, v[1..]);
      ProductMember(BytesOf(target[0], base), Preimages(target[1..], base), v);
      assert target == [target[0]] + target[1..];
      assert Sample(v, base)[1..] == Sample(v[1..], base);
    }
  }

  lemma ProductsGrow(a: nat, b: nat, c: nat, d: nat)
    requires a <= b && c <= d
    ensures a * c <= b * d
  {
    assert b * d == a * c + a * (d - c) + (b - a) * d;
  }

  lemma PowBounds(lo: nat, hi: nat, x: nat, rest: nat, e: nat)
    requires lo <= x <= hi && Pow(lo, e) <= rest <= Pow(hi, e)
    ensures Pow(lo, e + 1) <= x * rest <= Pow(hi, e + 1)
  {
    ProductsGrow(lo, x, Pow(lo, e), rest);
    ProductsGrow(x, hi, rest, Pow(hi, e));
  }

  /** Every string over an alphabet of n distinct characters is the image of between floor(256/n)^L and
      ceil(256/n)^L byte vectors. */
  lemma {:induction false} SamplingBound(target: string, base: string)
    requires Distinct(base) && 1 <= |base| && forall i :: 0 <= i < |target| ==> target[i] in base
    ensures Pow(256 / |base|, |target|) <= |Preimages(target, base)| <= Pow((255 + |base|) / |base|, |target|)
  {
    if target != "" {
      SamplingBound(target[1..], base);
      BytesOfSize(target[0], base);
      var heads, tails := BytesOf(target[0], base), Preimages(target[1..], base);
      ProductSize(heads, tails);
      PowBounds(256 / |base|, (255 + |base|) / |base|, |heads|, |tails|, |target| - 1);
    }
  }

  // ----- The counts add up -----

  ghost function AllBytes(): set<Byte> {
    BytesOf('x', "x")
  }

  ghost function Vectors(length: nat): set<seq<Byte>> {
    if length == 0 then {[]} else Product(AllBytes(), Vectors(length - 1))
  }

  lemma {:induction false} VectorsExact(length: nat, v: seq<Byte>)
    ensures v in Vectors(length) <==> |v| == length
  {
    if length > 0 {
      ProductMember(AllBytes(), Vectors(length - 1), v);
      if v != [] { VectorsExact(length - 1, v[1..]); }
    }
  }

  lemma {:induction false} VectorsSize(length: nat)
    ensures |Vectors(length)| == Pow(256, length)
  {
    if length > 0 {
      VectorsSize(length - 1);
      BytesOfSize('x', "x");
      ProductSize(AllBytes(), Vectors(length - 1));
    }
  }

  ghost function Sum(targets: set<string>, base: string): nat
    requires base != ""
    decreases |targets|
  {
    if targets == {} then 0
    else
      var t :| t in targets;
      |Preimages(t, base)| + Sum(targets - {t}, base)
  }

  ghost function Inverse(targets: set<string>, base: string, length: nat): set<seq<Byte>>
    requires base != ""
  {
    set v | v in Vectors(length) && Sample(v, base) in targets
  }

  lemma PreimagesAreInverse(t: string, base: string)
    requires base != ""
    ensures Preimages(t, base) == Inverse({t}, base, |t|)
  {
    forall v ensures v in Preimages(t, base) <==> v in Inverse({t}, base, |t|) {
      PreimagesExact(t, base, v);
      VectorsExact(|t|, v);
    }
  }

  lemma InverseSplit(t: string, targets: set<string>, base: string, length: nat)
    requires base != "" && t in targets
    ensures |Inverse(targets, base, length)| == |Inverse({t}, base, length)| + |Inverse(targets - {t}, base, length)|
  {
    var one, rest := Inverse({t}, base, length), Inverse(targets - {t}, base, length);
    assert Inverse(targets, base, length) == one + rest;
    Disjoint(one, rest);
  }

  lemma {:induction false} SumCounts(targets: set<string>, base: string, length: nat)
    requires base != "" && forall t :: t in targets ==> |t| == length
    ensures Sum(targets, base) == |Inverse(targets, base, length)|
    decreases |targets|
  {
    if targets == {} {
      assert Inverse(targets, base, length) == {};
    } else {
      var t :| t in targets && Sum(targets, base) == |Preimages(t, base)| + Sum(targets - {t}, base);
      SumCounts(targets - {t}, base, length);
      InverseSplit(t, targets, base, length);
      PreimagesAreInverse(t, base);
    }
  }

  /** The counts of all strings of one length over the alphabet add up to the number of byte vectors. */
  lemma CountsAddUp(targets: set<string>, base: string, length: nat)
    requires base != ""
    requires forall t :: t in targets <==> |t| == length && forall i :: 0 <= i < length ==> t[i] in base
    ensures Sum(targets, base) == Pow(256, length)
  {
    SumCounts(targets, base, length);
    forall v ensures v in Inverse(targets, base, length) <==> v in Vectors(length) {
      if v in Vectors(length) {
        VectorsExact(length, v);
        SampleOver(v, base);
      }
    }
    assert Inverse(targets, base, length) == Vectors(length);
    VectorsSize(length);
  }

  lemma {:induction false} SampleOver(v: seq<Byte>, base: string)
    requires base != ""
    ensures forall i :: 0 <= i < |v| ==> Sample(v, base)[i] in base
  {
    if v != [] { SampleOver(v[1..], base); }
  }
}
