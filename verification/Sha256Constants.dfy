// What FIPS 180-4 says of its constants (sections 4.2.2 and 5.3.3): they are the
// first bits of the fractional parts of roots of the first prime numbers.
module Sha256Constants {
  import opened Sha256

  // The first prime numbers

  predicate IsPrime(n: int) {
    n >= 2 && forall d :: 2 <= d < n ==> n % d != 0
  }

  const PRIMES: seq<int> :=
    [2, 3, 5, 7, 11, 13, 17, 19]
    + [23, 29, 31, 37, 41, 43, 47, 53]
    + [59, 61, 67, 71, 73, 79, 83, 89]
    + [97, 101, 103, 107, 109, 113, 127, 131]
    + [137, 139, 149, 151, 157, 163, 167, 173]
    + [179, 181, 191, 193, 197, 199, 211, 223]
    + [227, 229, 233, 239, 241, 251, 257, 263]
    + [269, 271, 277, 281, 283, 293, 307, 311]

  /** A sieve that is enough below 19 * 19. */
  predicate PassesSieve(n: int) {
    && (n % 2 != 0 || n == 2) && (n % 3 != 0 || n == 3) && (n % 5 != 0 || n == 5) && (n % 7 != 0 || n == 7)
    && (n % 11 != 0 || n == 11) && (n % 13 != 0 || n == 13) && (n % 17 != 0 || n == 17)
  }

  lemma Scales(e: nat, k: int)
    requires e > 0
    ensures k >= 1 ==> e * k >= e
    ensures k <= -1 ==> e * k + e <= 0
  {
  }

  lemma Divides(n: nat, e: nat, q: nat)
    requires e > 0 && n == e * q
    ensures n % e == 0
  {
    var k := q - n / e;
    assert e * k == n % e;
    Scales(e, k);
  }

  lemma ProductBounds(d: nat, e: nat)
    ensures d >= 19 && e >= 19 ==> d * e >= 361
    ensures e <= 1 ==> d * e <= d
  {
  }

  /** A composite number below 361 has a divisor below 19. */
  lemma SmallDivisor(n: int, d: int) returns (e: int)
    requires 2 <= d < n < 361 && n % d == 0
    ensures 2 <= e < 19 && e < n && n % e == 0
  {
    if d < 19 {
      e := d;
    } else {
      e := n / d;
      assert n == d * e;
      ProductBounds(d, e);
      Divides(n, e, d);
    }
  }

  lemma SieveFinds(n: int, e: int)
    requires 2 <= e < 19 && e < n && n % e == 0
    ensures !PassesSieve(n)
  {
    match e {
      case 2 => assert n % 2 == 0;
      case 3 => assert n % 3 == 0;
      case 5 => assert n % 5 == 0;
      case 7 => assert n % 7 == 0;
      case 9 => Thirds(n, 9);
      case 11 => assert n % 11 == 0;
      case 13 => assert n % 13 == 0;
      case 15 => Thirds(n, 15);
      case 17 => assert n % 17 == 0;
      case _ => Halves(n, e);
    }
  }

  lemma Halves(n: int, e: int)
    requires e == 4 || e == 6 || e == 8 || e == 10 || e == 12 || e == 14 || e == 16 || e == 18
    requires n % e == 0
    ensures n % 2 == 0
  {
  }

  lemma Thirds(n: int, e: int)
    requires e == 9 || e == 15
    requires n % e == 0
    ensures n % 3 == 0
  {
  }

  /** Below 361 the sieve tells the primes. */
  lemma SieveTellsPrimes(n: int)
    requires 2 <= n < 361
    ensures IsPrime(n) <==> PassesSieve(n)
  {
    if PassesSieve(n) {
      forall d | 2 <= d < n
        ensures n % d != 0
      {
        if n % d == 0 {
          var e := SmallDivisor(n, d);
          SieveFinds(n, e);
        }
      }
    }
  }

  /** Of the numbers between p and q none passes the sieve. */
  predicate NoneBetween(p: int, q: int)
    decreases q - p
  {
    p + 1 >= q || (!PassesSieve(p + 1) && NoneBetween(p + 1, q))
  }

  lemma {:induction false} NoneIsBetween(p: int, q: int, n: int)
    requires NoneBetween(p, q) && p < n < q
    ensures !PassesSieve(n)
    decreases q - p
  {
    if p + 1 < n {
      NoneIsBetween(p + 1, q, n);
    }
  }

  predicate AreNeighbours(p: int, q: int) {
    p < q && PassesSieve(p) && PassesSieve(q) && NoneBetween(p, q)
  }

  lemma Gaps1(i: nat)
    requires 0 <= i < 8
    ensures AreNeighbours(PRIMES[i], PRIMES[i + 1])
  {
    match i
    case 0 => assert AreNeighbours(2, 3);
    case 1 => assert AreNeighbours(3, 5);
    case 2 => assert AreNeighbours(5, 7);
    case 3 => assert AreNeighbours(7, 11);
    case 4 => assert AreNeighbours(11, 13);
    case 5 => assert AreNeighbours(13, 17);
    case 6 => assert AreNeighbours(17, 19);
    case 7 => assert AreNeighbours(19, 23);
  }

  lemma Gaps2(i: nat)
    requires 8 <= i < 16
    ensures AreNeighbours(PRIMES[i], PRIMES[i + 1])
  {
    match i
    case 8 => assert AreNeighbours(23, 29);
    case 9 => assert AreNeighbours(29, 31);
    case 10 => assert AreNeighbours(31, 37);
    case 11 => assert AreNeighbours(37, 41);
    case 12 => assert AreNeighbours(41, 43);
    case 13 => assert AreNeighbours(43, 47);
    case 14 => assert AreNeighbours(47, 53);
    case 15 => assert AreNeighbours(53, 59);
  }

  lemma Gaps3(i: nat)
    requires 16 <= i < 24
    ensures AreNeighbours(PRIMES[i], PRIMES[i + 1])
  {
    match i
    case 16 => assert AreNeighbours(59, 61);
    case 17 => assert AreNeighbours(61, 67);
    case 18 => assert AreNeighbours(67, 71);
    case 19 => assert AreNeighbours(71, 73);
    case 20 => assert AreNeighbours(73, 79);
    case 21 => assert AreNeighbours(79, 83);
    case 22 => assert AreNeighbours(83, 89);
    case 23 => assert AreNeighbours(89, 97);
  }

  lemma Gaps4(i: nat)
    requires 24 <= i < 32
    ensures AreNeighbours(PRIMES[i], PRIMES[i + 1])
  {
    match i
    case 24 => assert AreNeighbours(97, 101);
    case 25 => assert AreNeighbours(101, 103);
    case 26 => assert AreNeighbours(103, 107);
    case 27 => assert AreNeighbours(107, 109);
    case 28 => assert AreNeighbours(109, 113);
    case 29 => assert AreNeighbours(113, 127);
    case 30 => assert AreNeighbours(127, 131);
    case 31 => assert AreNeighbours(131, 137);
  }

  lemma Gaps5(i: nat)
    requires 32 <= i < 40
    ensures AreNeighbours(PRIMES[i], PRIMES[i + 1])
  {
    match i
    case 32 => assert AreNeighbours(137, 139);
    case 33 => assert AreNeighbours(139, 149);
    case 34 => assert AreNeighbours(149, 151);
    case 35 => assert AreNeighbours(151, 157);
    case 36 => assert AreNeighbours(157, 163);
    case 37 => assert AreNeighbours(163, 167);
    case 38 => assert AreNeighbours(167, 173);
    case 39 => assert AreNeighbours(173, 179);
  }

  lemma Gaps6(i: nat)
    requires 40 <= i < 48
    ensures AreNeighbours(PRIMES[i], PRIMES[i + 1])
  {
    match i
    case 40 => assert AreNeighbours(179, 181);
    case 41 => assert AreNeighbours(181, 191);
    case 42 => assert AreNeighbours(191, 193);
    case 43 => assert AreNeighbours(193, 197);
    case 44 => assert AreNeighbours(197, 199);
    case 45 => assert AreNeighbours(199, 211);
    case 46 => assert AreNeighbours(211, 223);
    case 47 => assert AreNeighbours(223, 227);
  }

  lemma Gaps7(i: nat)
    requires 48 <= i < 56
    ensures AreNeighbours(PRIMES[i], PRIMES[i + 1])
  {
    match i
    case 48 => assert AreNeighbours(227, 229);
    case 49 => assert AreNeighbours(229, 233);
    case 50 => assert AreNeighbours(233, 239);
    case 51 => assert AreNeighbours(239, 241);
    case 52 => assert AreNeighbours(241, 251);
    case 53 => assert AreNeighbours(251, 257);
    case 54 => assert AreNeighbours(257, 263);
    case 55 => assert AreNeighbours(263, 269);
  }

  lemma Gaps8(i: nat)
    requires 56 <= i < 63
    ensures AreNeighbours(PRIMES[i], PRIMES[i + 1])
  {
    match i
    case 56 => assert AreNeighbours(269, 271);
    case 57 => assert AreNeighbours(271, 277);
    case 58 => assert AreNeighbours(277, 281);
    case 59 => assert AreNeighbours(281, 283);
    case 60 => assert AreNeighbours(283, 293);
    case 61 => assert AreNeighbours(293, 307);
    case 62 => assert AreNeighbours(307, 311);
  }

  lemma Neighbours(i: nat)
    requires i + 1 < |PRIMES|
    ensures AreNeighbours(PRIMES[i], PRIMES[i + 1])
  {
    hide AreNeighbours;
    if i < 8 {
      Gaps1(i);
    } else if i < 16 {
      Gaps2(i);
    } else if i < 24 {
      Gaps3(i);
    } else if i < 32 {
      Gaps4(i);
    } else if i < 40 {
      Gaps5(i);
    } else if i < 48 {
      Gaps6(i);
    } else if i < 56 {
      Gaps7(i);
    } else {
      Gaps8(i);
    }
  }

  lemma {:induction false} Ascending(i: nat, j: nat)
    requires i < j < |PRIMES|
    ensures PRIMES[i] < PRIMES[j]
  {
    Neighbours(j - 1);
    if i < j - 1 {
      Ascending(i, j - 1);
    }
  }

  lemma {:induction false} NoOthers(i: nat, n: int)
    requires i < |PRIMES| && 2 <= n <= PRIMES[i] && PassesSieve(n)
    ensures exists j :: 0 <= j <= i && PRIMES[j] == n
  {
    hide PassesSieve;
    if i == 0 {
      assert PRIMES[0] == 2;
    } else if n <= PRIMES[i - 1] {
      NoOthers(i - 1, n);
    } else {
      Neighbours(i - 1);
      if n < PRIMES[i] {
        NoneIsBetween(PRIMES[i - 1], PRIMES[i], n);
      }
    }
  }

  /** The list is that of the first 64 prime numbers: ascending, all prime, and none left out. */
  lemma FirstPrimes(i: nat)
    requires i < |PRIMES|
    ensures |PRIMES| == 64 && IsPrime(PRIMES[i])
    ensures forall j :: 0 <= j < i ==> PRIMES[j] < PRIMES[i]
    ensures forall n :: n <= PRIMES[i] && IsPrime(n) ==> exists j :: 0 <= j <= i && PRIMES[j] == n
  {
    hide PassesSieve, IsPrime;
    assert PRIMES[63] == 311;
    if i < 63 {
      Ascending(i, 63);
      Neighbours(i);
    } else {
      Neighbours(62);
    }
    if i > 0 {
      Ascending(0, i);
    }
    SieveTellsPrimes(PRIMES[i]);
    forall j | 0 <= j < i
      ensures PRIMES[j] < PRIMES[i]
    {
      Ascending(j, i);
    }
    forall n | n <= PRIMES[i] && IsPrime(n)
      ensures exists j :: 0 <= j <= i && PRIMES[j] == n
    {
      assert n >= 2 by { PrimeIsTwoAtLeast(n); }
      SieveTellsPrimes(n);
      NoOthers(i, n);
    }
  }

  lemma PrimeIsTwoAtLeast(n: int)
    requires IsPrime(n)
    ensures n >= 2
  {
  }

  // Roots

  /** x / 2^32 is the cube root of p, rounded down to 32 bits behind the point. */
  predicate IsCubeRoot(p: int, x: int) {
    x * x * x <= p * 0x1_0000_0000_0000_0000_0000_0000 < (x + 1) * (x + 1) * (x + 1)
  }

  predicate IsSquareRoot(p: int, x: int) {
    x * x <= p * 0x1_0000_0000_0000_0000 < (x + 1) * (x + 1)
  }

  lemma CubeRoots1(i: nat) returns (n: nat)
    requires 0 <= i < 8
    ensures IsCubeRoot(PRIMES[i], n * 0x1_0000_0000 + K[i])
  {
    match i {
      case 0 => n := 1; assert IsCubeRoot(2, 1 * 0x1_0000_0000 + 0x428a2f98);
      case 1 => n := 1; assert IsCubeRoot(3, 1 * 0x1_0000_0000 + 0x71374491);
      case 2 => n := 1; assert IsCubeRoot(5, 1 * 0x1_0000_0000 + 0xb5c0fbcf);
      case 3 => n := 1; assert IsCubeRoot(7, 1 * 0x1_0000_0000 + 0xe9b5dba5);
      case 4 => n := 2; assert IsCubeRoot(11, 2 * 0x1_0000_0000 + 0x3956c25b);
      case 5 => n := 2; assert IsCubeRoot(13, 2 * 0x1_0000_0000 + 0x59f111f1);
      case 6 => n := 2; assert IsCubeRoot(17, 2 * 0x1_0000_0000 + 0x923f82a4);
      case 7 => n := 2; assert IsCubeRoot(19, 2 * 0x1_0000_0000 + 0xab1c5ed5);
    }
  }

  lemma CubeRoots2(i: nat) returns (n: nat)
    requires 8 <= i < 16
    ensures IsCubeRoot(PRIMES[i], n * 0x1_0000_0000 + K[i])
  {
    match i {
      case 8 => n := 2; assert IsCubeRoot(23, 2 * 0x1_0000_0000 + 0xd807aa98);
      case 9 => n := 3; assert IsCubeRoot(29, 3 * 0x1_0000_0000 + 0x12835b01);
      case 10 => n := 3; assert IsCubeRoot(31, 3 * 0x1_0000_0000 + 0x243185be);
      case 11 => n := 3; assert IsCubeRoot(37, 3 * 0x1_0000_0000 + 0x550c7dc3);
      case 12 => n := 3; assert IsCubeRoot(41, 3 * 0x1_0000_0000 + 0x72be5d74);
      case 13 => n := 3; assert IsCubeRoot(43, 3 * 0x1_0000_0000 + 0x80deb1fe);
      case 14 => n := 3; assert IsCubeRoot(47, 3 * 0x1_0000_0000 + 0x9bdc06a7);
      case 15 => n := 3; assert IsCubeRoot(53, 3 * 0x1_0000_0000 + 0xc19bf174);
    }
  }

  lemma CubeRoots3(i: nat) returns (n: nat)
    requires 16 <= i < 24
    ensures IsCubeRoot(PRIMES[i], n * 0x1_0000_0000 + K[i])
  {
    match i {
      case 16 => n := 3; assert IsCubeRoot(59, 3 * 0x1_0000_0000 + 0xe49b69c1);
      case 17 => n := 3; assert IsCubeRoot(61, 3 * 0x1_0000_0000 + 0xefbe4786);
      case 18 => n := 4; assert IsCubeRoot(67, 4 * 0x1_0000_0000 + 0x0fc19dc6);
      case 19 => n := 4; assert IsCubeRoot(71, 4 * 0x1_0000_0000 + 0x240ca1cc);
      case 20 => n := 4; assert IsCubeRoot(73, 4 * 0x1_0000_0000 + 0x2de92c6f);
      case 21 => n := 4; assert IsCubeRoot(79, 4 * 0x1_0000_0000 + 0x4a7484aa);
      case 22 => n := 4; assert IsCubeRoot(83, 4 * 0x1_0000_0000 + 0x5cb0a9dc);
      case 23 => n := 4; assert IsCubeRoot(89, 4 * 0x1_0000_0000 + 0x76f988da);
    }
  }

  lemma CubeRoots4(i: nat) returns (n: nat)
    requires 24 <= i < 32
    ensures IsCubeRoot(PRIMES[i], n * 0x1_0000_0000 + K[i])
  {
    match i {
      case 24 => n := 4; assert IsCubeRoot(97, 4 * 0x1_0000_0000 + 0x983e5152);
      case 25 => n := 4; assert IsCubeRoot(101, 4 * 0x1_0000_0000 + 0xa831c66d);
      case 26 => n := 4; assert IsCubeRoot(103, 4 * 0x1_0000_0000 + 0xb00327c8);
      case 27 => n := 4; assert IsCubeRoot(107, 4 * 0x1_0000_0000 + 0xbf597fc7);
      case 28 => n := 4; assert IsCubeRoot(109, 4 * 0x1_0000_0000 + 0xc6e00bf3);
      case 29 => n := 4; assert IsCubeRoot(113, 4 * 0x1_0000_0000 + 0xd5a79147);
      case 30 => n := 5; assert IsCubeRoot(127, 5 * 0x1_0000_0000 + 0x06ca6351);
      case 31 => n := 5; assert IsCubeRoot(131, 5 * 0x1_0000_0000 + 0x14292967);
    }
  }

  lemma CubeRoots5(i: nat) returns (n: nat)
    requires 32 <= i < 40
    ensures IsCubeRoot(PRIMES[i], n * 0x1_0000_0000 + K[i])
  {
    match i {
      case 32 => n := 5; assert IsCubeRoot(137, 5 * 0x1_0000_0000 + 0x27b70a85);
      case 33 => n := 5; assert IsCubeRoot(139, 5 * 0x1_0000_0000 + 0x2e1b2138);
      case 34 => n := 5; assert IsCubeRoot(149, 5 * 0x1_0000_0000 + 0x4d2c6dfc);
      case 35 => n := 5; assert IsCubeRoot(151, 5 * 0x1_0000_0000 + 0x53380d13);
      case 36 => n := 5; assert IsCubeRoot(157, 5 * 0x1_0000_0000 + 0x650a7354);
      case 37 => n := 5; assert IsCubeRoot(163, 5 * 0x1_0000_0000 + 0x766a0abb);
      case 38 => n := 5; assert IsCubeRoot(167, 5 * 0x1_0000_0000 + 0x81c2c92e);
      case 39 => n := 5; assert IsCubeRoot(173, 5 * 0x1_0000_0000 + 0x92722c85);
    }
  }

  lemma CubeRoots6(i: nat) returns (n: nat)
    requires 40 <= i < 48
    ensures IsCubeRoot(PRIMES[i], n * 0x1_0000_0000 + K[i])
  {
    match i {
      case 40 => n := 5; assert IsCubeRoot(179, 5 * 0x1_0000_0000 + 0xa2bfe8a1);
      case 41 => n := 5; assert IsCubeRoot(181, 5 * 0x1_0000_0000 + 0xa81a664b);
      case 42 => n := 5; assert IsCubeRoot(191, 5 * 0x1_0000_0000 + 0xc24b8b70);
      case 43 => n := 5; assert IsCubeRoot(193, 5 * 0x1_0000_0000 + 0xc76c51a3);
      case 44 => n := 5; assert IsCubeRoot(197, 5 * 0x1_0000_0000 + 0xd192e819);
      case 45 => n := 5; assert IsCubeRoot(199, 5 * 0x1_0000_0000 + 0xd6990624);
      case 46 => n := 5; assert IsCubeRoot(211, 5 * 0x1_0000_0000 + 0xf40e3585);
      case 47 => n := 6; assert IsCubeRoot(223, 6 * 0x1_0000_0000 + 0x106aa070);
    }
  }

  lemma CubeRoots7(i: nat) returns (n: nat)
    requires 48 <= i < 56
    ensures IsCubeRoot(PRIMES[i], n * 0x1_0000_0000 + K[i])
  {
    match i {
      case 48 => n := 6; assert IsCubeRoot(227, 6 * 0x1_0000_0000 + 0x19a4c116);
      case 49 => n := 6; assert IsCubeRoot(229, 6 * 0x1_0000_0000 + 0x1e376c08);
      case 50 => n := 6; assert IsCubeRoot(233, 6 * 0x1_0000_0000 + 0x2748774c);
      case 51 => n := 6; assert IsCubeRoot(239, 6 * 0x1_0000_0000 + 0x34b0bcb5);
      case 52 => n := 6; assert IsCubeRoot(241, 6 * 0x1_0000_0000 + 0x391c0cb3);
      case 53 => n := 6; assert IsCubeRoot(251, 6 * 0x1_0000_0000 + 0x4ed8aa4a);
      case 54 => n := 6; assert IsCubeRoot(257, 6 * 0x1_0000_0000 + 0x5b9cca4f);
      case 55 => n := 6; assert IsCubeRoot(263, 6 * 0x1_0000_0000 + 0x682e6ff3);
    }
  }

  lemma CubeRoots8(i: nat) returns (n: nat)
    requires 56 <= i < 64
    ensures IsCubeRoot(PRIMES[i], n * 0x1_0000_0000 + K[i])
  {
    match i {
      case 56 => n := 6; assert IsCubeRoot(269, 6 * 0x1_0000_0000 + 0x748f82ee);
      case 57 => n := 6; assert IsCubeRoot(271, 6 * 0x1_0000_0000 + 0x78a5636f);
      case 58 => n := 6; assert IsCubeRoot(277, 6 * 0x1_0000_0000 + 0x84c87814);
      case 59 => n := 6; assert IsCubeRoot(281, 6 * 0x1_0000_0000 + 0x8cc70208);
      case 60 => n := 6; assert IsCubeRoot(283, 6 * 0x1_0000_0000 + 0x90befffa);
      case 61 => n := 6; assert IsCubeRoot(293, 6 * 0x1_0000_0000 + 0xa4506ceb);
      case 62 => n := 6; assert IsCubeRoot(307, 6 * 0x1_0000_0000 + 0xbef9a3f7);
      case 63 => n := 6; assert IsCubeRoot(311, 6 * 0x1_0000_0000 + 0xc67178f2);
    }
  }

  /** Section 4.2.2: the words K are the first 32 bits of the fractional parts of the cube roots of the primes. */
  lemma WordsAreCubeRoots(i: nat) returns (n: nat)
    requires i < 64
    ensures IsCubeRoot(PRIMES[i], n * 0x1_0000_0000 + K[i])
  {
    hide IsCubeRoot;
    if i < 8 {
      n := CubeRoots1(i);
    } else if i < 16 {
      n := CubeRoots2(i);
    } else if i < 24 {
      n := CubeRoots3(i);
    } else if i < 32 {
      n := CubeRoots4(i);
    } else if i < 40 {
      n := CubeRoots5(i);
    } else if i < 48 {
      n := CubeRoots6(i);
    } else if i < 56 {
      n := CubeRoots7(i);
    } else {
      n := CubeRoots8(i);
    }
  }

  /** Section 5.3.3: the initial hash value, with square roots of the first eight primes. */
  lemma InitialHashIsSquareRoots(i: nat) returns (n: nat)
    requires i < 8
    ensures |INITIAL_HASH| == 8 && IsSquareRoot(PRIMES[i], n * 0x1_0000_0000 + INITIAL_HASH[i])
  {
    match i {
      case 0 => n := 1; assert IsSquareRoot(2, 1 * 0x1_0000_0000 + 0x6a09e667);
      case 1 => n := 1; assert IsSquareRoot(3, 1 * 0x1_0000_0000 + 0xbb67ae85);
      case 2 => n := 2; assert IsSquareRoot(5, 2 * 0x1_0000_0000 + 0x3c6ef372);
      case 3 => n := 2; assert IsSquareRoot(7, 2 * 0x1_0000_0000 + 0xa54ff53a);
      case 4 => n := 3; assert IsSquareRoot(11, 3 * 0x1_0000_0000 + 0x510e527f);
      case 5 => n := 3; assert IsSquareRoot(13, 3 * 0x1_0000_0000 + 0x9b05688c);
      case 6 => n := 4; assert IsSquareRoot(17, 4 * 0x1_0000_0000 + 0x1f83d9ab);
      case 7 => n := 4; assert IsSquareRoot(19, 4 * 0x1_0000_0000 + 0x5be0cd19);
    }
  }
}
