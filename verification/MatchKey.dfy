/** The key that binds a re-picked file to a stored upload: two 64-bit FNV-1a style hashes
    of a length-prefixed byte stream, printed as hexadecimal. Machine words are natural
    numbers below WORD, so wrap-around is written out. */
module MatchKey {

  type byte = b: int | 0 <= b < 256
  type Bytes = seq<byte>
  type word = w: int | 0 <= w < WORD

  const WORD: int := 0x1_0000_0000_0000_0000
  const FNV_OFFSET: word := 0xcbf2_9ce4_8422_2325
  const FNV_PRIME: int := 0x0000_0100_0000_01b3
  const B_SEED: word := 0x55c5_e55d_fb68_5f30
  const PRIME_INVERSE: int := 0xce96_5057_aff6_957b

  /** `usize` is 32 bits wide on wasm32, so a length prefix takes four bytes. */
  const LENGTH_WIDTH: nat := 4

  /** A file's `lastModified`; browsers may report NaN. */
  datatype LastModified = NotFinite | Finite(ms: real)

  // ---------------------------------------------------------------- arithmetic of the hash

  function Pow256(n: nat): (p: int)
    ensures p > 0
  {
    if n == 0 then 1 else 256 * Pow256(n - 1)
  }

  /** Exclusive or of two `bits`-bit numbers. */
  function Xor(bits: nat, a: int, b: int): (x: int)
    requires 0 <= a < Pow2(bits) && 0 <= b < Pow2(bits)
    ensures 0 <= x < Pow2(bits)
  {
    if bits == 0 then 0 else (a + b) % 2 + 2 * Xor(bits - 1, a / 2, b / 2)
  }

  function Pow2(n: nat): (p: int)
    ensures p > 0
  {
    if n == 0 then 1 else 2 * Pow2(n - 1)
  }

  /** One FNV-1a step: exclusive or with a byte (which touches the low eight bits only),
      then a wrapping multiplication by the prime. */
  function Step(hash: word, b: byte): word {
    Mixed(hash, b) * FNV_PRIME % WORD
  }

  function Mixed(hash: word, b: byte): word {
    hash / 256 * 256 + Xor8(hash % 256, b)
  }

  function Xor8(a: byte, b: byte): (x: byte)
  {
    assert Pow2(8) == 256;
    Xor(8, a, b)
  }

  function RotateLeft5(hash: word): word {
    hash * 32 % WORD + hash / 0x0800_0000_0000_0000
  }

  /** The hash after a whole byte string. */
  function Fnv(hash: word, bytes: Bytes): word
    decreases bytes
  {
    if bytes == [] then hash else Fnv(Step(hash, bytes[0]), bytes[1..])
  }

  // ---------------------------------------------------------------- the key

  function LittleEndian(n: nat, width: nat): (s: Bytes)
    ensures |s| == width
  {
    if width == 0 then [] else [n % 256] + LittleEndian(n / 256, width - 1)
  }

  /** `f64 as i64`: truncation toward zero, saturating; then its two's complement bits. */
  function MillisBits(m: LastModified): (bits: nat)
    ensures bits < WORD
  {
    var ms := if m.Finite? then (if m.ms >= 0.0 then m.ms.Floor else -((-m.ms).Floor)) else 0;
    var half := 0x8000_0000_0000_0000;
    var clamped := if ms < -half then -half else if ms >= half then half - 1 else ms;
    clamped % WORD
  }

  function Component(bytes: Bytes): Bytes {
    LittleEndian(|bytes|, LENGTH_WIDTH) + bytes
  }

  function Feed(hash: word, bytes: Bytes): word {
    Fnv(Fnv(hash, LittleEndian(|bytes|, LENGTH_WIDTH)), bytes)
  }

  /** The four hashed components, in order. */
  function Components(endpoint: Bytes, filename: Bytes, size: nat, modified: LastModified): (c: seq<Bytes>)
    ensures |c| == 4
  {
    [endpoint, filename, LittleEndian(size, 8), LittleEndian(MillisBits(modified), 8)]
  }

  function HashA(hash: word, components: seq<Bytes>): word
    decreases components
  {
    if components == [] then hash else HashA(Feed(hash, components[0]), components[1..])
  }

  function HashB(hash: word, components: seq<Bytes>): word
    decreases components
  {
    if components == [] then hash else HashB(Feed(RotateLeft5(hash), components[0]), components[1..])
  }

  const DIGITS: string := "0123456789abcdef"

  function Hex(n: nat, width: nat): (s: string)
    ensures |s| == width
  {
    if width == 0 then [] else Hex(n / 16, width - 1) + [DIGITS[n % 16]]
  }

  /** The key of a list of components. */
  function KeyOf(c: seq<Bytes>): string
    requires |c| == 4
  {
    "v2-" + Hex(HashA(FNV_OFFSET, c), 16) + Hex(HashB(B_SEED, c), 16)
  }

  /** The key of an endpoint and a file, all strings already encoded as bytes. */
  function MatchKeyOf(endpoint: Bytes, filename: Bytes, size: nat, modified: LastModified): string {
    KeyOf(Components(endpoint, filename, size, modified))
  }

  // ---------------------------------------------------------------- the loops of the source

  /** Hashes `bytes` one at a time. */
  method UpdateHash(start: word, bytes: Bytes) returns (hash: word)
    ensures hash == Fnv(start, bytes)
  {
    hash := start;
    for i := 0 to |bytes|
      invariant Fnv(hash, bytes[i..]) == Fnv(start, bytes)
    {
      hash := Step(hash, bytes[i]);
    }
  }

  method FeedComponent(start: word, bytes: Bytes) returns (hash: word)
    ensures hash == Feed(start, bytes)
  {
    hash := UpdateHash(start, LittleEndian(|bytes|, LENGTH_WIDTH));
    hash := UpdateHash(hash, bytes);
  }

  method MatchKey(endpoint: Bytes, filename: Bytes, size: nat, modified: LastModified) returns (key: string)
    ensures key == MatchKeyOf(endpoint, filename, size, modified)
  {
    var components := Components(endpoint, filename, size, modified);
    var a, b := FNV_OFFSET, B_SEED;
    for i := 0 to |components|
      invariant HashA(a, components[i..]) == HashA(FNV_OFFSET, components)
      invariant HashB(b, components[i..]) == HashB(B_SEED, components)
    {
      a := FeedComponent(a, components[i]);
      b := FeedComponent(RotateLeft5(b), components[i]);
    }
    key := "v2-" + Hex(a, 16) + Hex(b, 16);
  }

  // ---------------------------------------------------------------- every step is a bijection

  /** Low bit and upper bits of a sum without carry can be read off separately. */
  lemma XorStep(a: int, b: int, c: int, d: int, x: int, y: int)
    requires (a + b) % 2 + 2 * x == (c + d) % 2 + 2 * y
    ensures x == y
    ensures (a / 2 == c / 2) == (b / 2 == d / 2) ==> (a == c) == (b == d)
  {
    assert (a + b) % 2 == (c + d) % 2;
    assert (a % 2 == c % 2) == (b % 2 == d % 2);
  }

  lemma {:induction false} XorInjective(bits: nat, a: int, b: int, c: int, d: int)
    requires 0 <= a < Pow2(bits) && 0 <= b < Pow2(bits) && 0 <= c < Pow2(bits) && 0 <= d < Pow2(bits)
    requires Xor(bits, a, b) == Xor(bits, c, d)
    ensures (a == c) == (b == d)
    decreases bits
  {
    if bits > 0 {
      XorStep(a, b, c, d, Xor(bits - 1, a / 2, b / 2), Xor(bits - 1, c / 2, d / 2));
      XorInjective(bits - 1, a / 2, b / 2, c / 2, d / 2);
    }
  }

  /** The prime is odd, hence invertible: multiplying by it loses nothing. */
  lemma {:induction false} PrimeInjective(x: word, y: word)
    requires x * FNV_PRIME % WORD == y * FNV_PRIME % WORD
    ensures x == y
  {
    Undo(x);
    Undo(y);
    assert x * FNV_PRIME % WORD * PRIME_INVERSE % WORD == y * FNV_PRIME % WORD * PRIME_INVERSE % WORD;
  }

  lemma {:induction false} Undo(x: word)
    ensures x * FNV_PRIME % WORD * PRIME_INVERSE % WORD == x
  {
    var q := x * FNV_PRIME / WORD;
    var r := x * FNV_PRIME % WORD;
    assert x * FNV_PRIME == q * WORD + r;
    var k := (FNV_PRIME * PRIME_INVERSE - 1) / WORD;
    assert FNV_PRIME * PRIME_INVERSE == k * WORD + 1;
    assert r * PRIME_INVERSE == (x * k - q * PRIME_INVERSE) * WORD + x;
    ModOfMultiple(x * k - q * PRIME_INVERSE, x);
  }

  lemma ModOfMultiple(m: int, x: word)
    ensures (m * WORD + x) % WORD == x
  {
  }

  lemma Xor8Injective(a: byte, b: byte, c: byte, d: byte)
    requires Xor8(a, b) == Xor8(c, d)
    ensures (a == c) == (b == d)
  {
    assert Pow2(8) == 256;
    XorInjective(8, a, b, c, d);
  }

  lemma SplitLowByte(g: int, x: byte, h: int, y: byte)
    requires g / 256 * 256 + x == h / 256 * 256 + y
    ensures x == y
    ensures g % 256 == h % 256 ==> g == h
  {
  }

  lemma MixedInjective(g: word, b: byte, h: word, c: byte)
    requires Mixed(g, b) == Mixed(h, c)
    requires g == h || b == c
    ensures g == h && b == c
  {
    SplitLowByte(g, Xor8(g % 256, b), h, Xor8(h % 256, c));
    Xor8Injective(g % 256, b, h % 256, c);
  }

  /** A step determines its byte from its word and its word from its byte. */
  lemma {:induction false} StepInjective(g: word, b: byte, h: word, c: byte)
    requires Step(g, b) == Step(h, c)
    requires g == h || b == c
    ensures g == h && b == c
  {
    PrimeInjective(Mixed(g, b), Mixed(h, c));
    MixedInjective(g, b, h, c);
  }

  lemma {:induction false} RotateInjective(g: word, h: word)
    requires RotateLeft5(g) == RotateLeft5(h)
    ensures g == h
  {
    SplitTopBits(g);
    SplitTopBits(h);
  }

  /** The top five bits and the other 59 bits of a word survive a rotation. */
  lemma SplitTopBits(g: word)
    ensures RotateLeft5(g) % 32 == g / 0x0800_0000_0000_0000
    ensures RotateLeft5(g) / 32 == g % 0x0800_0000_0000_0000
  {
    var top, rest := g / 0x0800_0000_0000_0000, g % 0x0800_0000_0000_0000;
    assert g * 32 == top * WORD + rest * 32;
    ModOfMultiple(top, rest * 32);
  }

  /** Equal input from here on keeps two different hashes different. */
  lemma {:induction false} FnvInjective(g: word, h: word, bytes: Bytes)
    requires Fnv(g, bytes) == Fnv(h, bytes)
    ensures g == h
    decreases bytes
  {
    if bytes != [] {
      FnvInjective(Step(g, bytes[0]), Step(h, bytes[0]), bytes[1..]);
      StepInjective(g, bytes[0], h, bytes[0]);
    }
  }

  ghost predicate DifferAt(s: Bytes, t: Bytes, k: nat) {
    |s| == |t| && k < |s| && s[k] != t[k] && forall i | 0 <= i < |s| && i != k :: s[i] == t[i]
  }

  lemma {:induction false} FnvSeesOneByte(h: word, s: Bytes, t: Bytes, k: nat)
    requires DifferAt(s, t, k)
    ensures Fnv(h, s) != Fnv(h, t)
    decreases s
  {
    if k == 0 {
      assert s[1..] == t[1..];
      if Fnv(h, s) == Fnv(h, t) {
        FnvInjective(Step(h, s[0]), Step(h, t[0]), s[1..]);
        StepInjective(h, s[0], h, t[0]);
      }
    } else {
      FnvSeesOneByte(Step(h, s[0]), s[1..], t[1..], k - 1);
    }
  }

  lemma {:induction false} HashesInjective(g: word, h: word, c: seq<Bytes>)
    ensures HashA(g, c) == HashA(h, c) ==> g == h
    ensures HashB(g, c) == HashB(h, c) ==> g == h
    decreases c
  {
    if c != [] {
      HashesInjective(Feed(g, c[0]), Feed(h, c[0]), c[1..]);
      HashesInjective(Feed(RotateLeft5(g), c[0]), Feed(RotateLeft5(h), c[0]), c[1..]);
      FeedInjective(g, h, c[0]);
      FeedInjective(RotateLeft5(g), RotateLeft5(h), c[0]);
      if RotateLeft5(g) == RotateLeft5(h) { RotateInjective(g, h); }
    }
  }

  lemma FeedInjective(g: word, h: word, bytes: Bytes)
    ensures Feed(g, bytes) == Feed(h, bytes) ==> g == h
  {
    if Feed(g, bytes) == Feed(h, bytes) {
      var prefix := LittleEndian(|bytes|, LENGTH_WIDTH);
      FnvInjective(Fnv(g, prefix), Fnv(h, prefix), bytes);
      FnvInjective(g, h, prefix);
    }
  }

  /** Component `i` differs in byte `k` and nothing else differs. */
  ghost predicate ComponentsDifferAt(c: seq<Bytes>, d: seq<Bytes>, i: nat, k: nat) {
    |c| == |d| && i < |c| && DifferAt(c[i], d[i], k) && forall j | 0 <= j < |c| && j != i :: c[j] == d[j]
  }

  lemma {:induction false} HashesSeeOneByte(a: word, b: word, c: seq<Bytes>, d: seq<Bytes>, i: nat, k: nat)
    requires ComponentsDifferAt(c, d, i, k)
    ensures HashA(a, c) != HashA(a, d) && HashB(b, c) != HashB(b, d)
    decreases c
  {
    if i == 0 {
      assert c[1..] == d[1..];
      FnvSeesOneByte(Fnv(a, LittleEndian(|c[0]|, LENGTH_WIDTH)), c[0], d[0], k);
      FnvSeesOneByte(Fnv(RotateLeft5(b), LittleEndian(|c[0]|, LENGTH_WIDTH)), c[0], d[0], k);
      HashesInjective(Feed(a, c[0]), Feed(a, d[0]), c[1..]);
      HashesInjective(Feed(RotateLeft5(b), c[0]), Feed(RotateLeft5(b), d[0]), c[1..]);
    } else {
      HashesSeeOneByte(Feed(a, c[0]), Feed(RotateLeft5(b), c[0]), c[1..], d[1..], i - 1, k);
    }
  }

  // ---------------------------------------------------------------- printing is faithful

  function Pow16(n: nat): (p: int)
    ensures p > 0
  {
    if n == 0 then 1 else 16 * Pow16(n - 1)
  }

  lemma {:induction false} HexInjective(m: nat, n: nat, width: nat)
    requires m < Pow16(width) && n < Pow16(width)
    requires Hex(m, width) == Hex(n, width)
    ensures m == n
  {
    if width > 0 {
      var s, t := Hex(m, width), Hex(n, width);
      assert s[..width - 1] == Hex(m / 16, width - 1) && t[..width - 1] == Hex(n / 16, width - 1);
      HexInjective(m / 16, n / 16, width - 1);
      assert s[width - 1] == DIGITS[m % 16] && t[width - 1] == DIGITS[n % 16];
      DigitsDistinct(m % 16, n % 16);
    }
  }

  lemma DigitsDistinct(i: nat, j: nat)
    requires i < 16 && j < 16 && DIGITS[i] == DIGITS[j]
    ensures i == j
  {
    assert DIGITS == ['0', '1', '2', '3', '4', '5', '6', '7', '8', '9', 'a', 'b', 'c', 'd', 'e', 'f'];
  }

  lemma SixteenDigits()
    ensures Pow16(16) == WORD
  {
    assert Pow16(4) == 0x1_0000;
    assert Pow16(8) == 0x1_0000_0000;
    assert Pow16(12) == 0x1_0000_0000_0000;
  }

  /** Inputs of equal component lengths that differ in exactly one byte never share a key, nor
      either half of one. */
  lemma {:induction false} OneByteChangesKey(c: seq<Bytes>, d: seq<Bytes>, i: nat, k: nat)
    requires |c| == 4 && ComponentsDifferAt(c, d, i, k)
    ensures KeyOf(c) != KeyOf(d) && KeyOf(c)[3..19] != KeyOf(d)[3..19] && KeyOf(c)[19..] != KeyOf(d)[19..]
  {
    HashesSeeOneByte(FNV_OFFSET, B_SEED, c, d, i, k);
    SixteenDigits();
    Halves(c);
    Halves(d);
    if KeyOf(c)[3..19] == KeyOf(d)[3..19] {
      HexInjective(HashA(FNV_OFFSET, c), HashA(FNV_OFFSET, d), 16);
    }
    if KeyOf(c)[19..] == KeyOf(d)[19..] {
      HexInjective(HashB(B_SEED, c), HashB(B_SEED, d), 16);
    }
  }

  lemma Halves(c: seq<Bytes>)
    requires |c| == 4
    ensures KeyOf(c)[3..19] == Hex(HashA(FNV_OFFSET, c), 16) && KeyOf(c)[19..] == Hex(HashB(B_SEED, c), 16)
  {
  }

  // ---------------------------------------------------------------- the hashed stream

  /** The byte stream that half `a` hashes. */
  function Stream(c: seq<Bytes>): Bytes {
    if c == [] then [] else Component(c[0]) + Stream(c[1..])
  }

  lemma {:induction false} FnvConcat(h: word, s: Bytes, t: Bytes)
    ensures Fnv(h, s + t) == Fnv(Fnv(h, s), t)
    decreases s
  {
    if s == [] {
      assert s + t == t;
    } else {
      assert (s + t)[0] == s[0] && (s + t)[1..] == s[1..] + t;
      FnvConcat(Step(h, s[0]), s[1..], t);
    }
  }

  lemma {:induction false} HashAIsFnvOfStream(h: word, c: seq<Bytes>)
    ensures HashA(h, c) == Fnv(h, Stream(c))
    decreases c
  {
    if c != [] {
      var prefix := LittleEndian(|c[0]|, LENGTH_WIDTH);
      FnvConcat(h, Component(c[0]), Stream(c[1..]));
      FnvConcat(h, prefix, c[0]);
      HashAIsFnvOfStream(Feed(h, c[0]), c[1..]);
    }
  }

  lemma {:induction false} LittleEndianInjective(m: nat, n: nat, width: nat)
    requires m < Pow256(width) && n < Pow256(width)
    requires LittleEndian(m, width) == LittleEndian(n, width)
    ensures m == n
  {
    if width > 0 {
      var s, t := LittleEndian(m, width), LittleEndian(n, width);
      assert s[0] == m % 256 && t[0] == n % 256;
      assert s[1..] == LittleEndian(m / 256, width - 1) && t[1..] == LittleEndian(n / 256, width - 1);
      LittleEndianInjective(m / 256, n / 256, width - 1);
    }
  }

  lemma SplitConcat(a: Bytes, x: Bytes, b: Bytes, y: Bytes)
    requires |a| == |b| && a + x == b + y
    ensures a == b && x == y
  {
    assert a == (a + x)[..|a|] && b == (b + y)[..|b|];
    assert x == (a + x)[|a|..] && y == (b + y)[|b|..];
  }

  ghost predicate Addressable(c: seq<Bytes>) {
    forall i | 0 <= i < |c| :: |c[i]| < Pow256(LENGTH_WIDTH)
  }

  /** A length-prefixed component ends where its prefix says. */
  lemma ComponentDecodes(p: Bytes, x: Bytes, q: Bytes, y: Bytes)
    requires |p| < Pow256(LENGTH_WIDTH) && |q| < Pow256(LENGTH_WIDTH)
    requires Component(p) + x == Component(q) + y
    ensures p == q && x == y
  {
    var m, n := LittleEndian(|p|, LENGTH_WIDTH), LittleEndian(|q|, LENGTH_WIDTH);
    assert Component(p) + x == m + (p + x) && Component(q) + y == n + (q + y);
    SplitConcat(m, p + x, n, q + y);
    LittleEndianInjective(|p|, |q|, LENGTH_WIDTH);
    SplitConcat(p, x, q, y);
  }

  /** The stream is uniquely decodable, even with unrelated bytes behind it: the length
      prefixes say where each component ends. */
  lemma {:induction false} StreamDecodes(c: seq<Bytes>, d: seq<Bytes>, s: Bytes, t: Bytes)
    requires |c| == |d| && Addressable(c) && Addressable(d)
    requires Stream(c) + s == Stream(d) + t
    ensures c == d && s == t
  {
    if c == [] {
      assert s == [] + s == [] + t == t;
    } else {
      assert Stream(c) + s == Component(c[0]) + (Stream(c[1..]) + s);
      assert Stream(d) + t == Component(d[0]) + (Stream(d[1..]) + t);
      ComponentDecodes(c[0], Stream(c[1..]) + s, d[0], Stream(d[1..]) + t);
      StreamDecodes(c[1..], d[1..], s, t);
      assert c == [c[0]] + c[1..] && d == [d[0]] + d[1..];
    }
  }

  // ---------------------------------------------------------------- what the key tells of a file

  /** The time that a file's `lastModified` stands for: whole milliseconds toward zero, held in
      64 bits, and 0 for a number that is not finite. */
  ghost predicate ReadsAs(m: LastModified, t: int) {
    match m
    case NotFinite => t == 0
    case Finite(ms) =>
      if ms >= 9_223_372_036_854_775_808.0 then t == 9_223_372_036_854_775_807
      else if ms <= -9_223_372_036_854_775_808.0 then t == -9_223_372_036_854_775_808
      else if ms >= 0.0 then t as real <= ms < t as real + 1.0
      else t as real - 1.0 < ms <= t as real
  }

  /** Every `lastModified` stands for exactly one time, whose two's complement is hashed. */
  lemma TimeIsRead(m: LastModified, t: int)
    ensures exists u :: ReadsAs(m, u)
    ensures ReadsAs(m, t) ==> MillisBits(m) == if t >= 0 then t else t + 0x1_0000_0000_0000_0000
  {
    if m.Finite? {
      var ms := m.ms;
      var u := if ms >= 0.0 then ms.Floor else -((-ms).Floor);
      if ms >= 9_223_372_036_854_775_808.0 {
        assert u >= 9_223_372_036_854_775_808;
        assert ReadsAs(m, 9_223_372_036_854_775_807);
      } else if ms <= -9_223_372_036_854_775_808.0 {
        assert u <= -9_223_372_036_854_775_808;
        assert ReadsAs(m, -9_223_372_036_854_775_808);
      } else {
        assert ReadsAs(m, u);
        assert ReadsAs(m, t) ==> t == u;
      }
    } else {
      assert ReadsAs(m, 0);
    }
  }

  lemma EightBytes()
    ensures Pow256(8) == WORD && Pow256(LENGTH_WIDTH) == 0x1_0000_0000
  {
    assert Pow256(4) == 0x1_0000_0000;
  }

  /** Two files are hashed as the same stream if and only if endpoint, name, size and time of
      modification in whole milliseconds agree. */
  lemma SameStreamSameFile(e: Bytes, f: Bytes, size: nat, m: LastModified, t: int,
                           e': Bytes, f': Bytes, size': nat, m': LastModified, t': int)
    requires |e| < 0x1_0000_0000 && |f| < 0x1_0000_0000 && |e'| < 0x1_0000_0000 && |f'| < 0x1_0000_0000
    requires size < 0x1_0000_0000_0000_0000 && size' < 0x1_0000_0000_0000_0000
    requires ReadsAs(m, t) && ReadsAs(m', t')
    ensures Stream(Components(e, f, size, m)) == Stream(Components(e', f', size', m'))
       <==> e == e' && f == f' && size == size' && t == t'
  {
    EightBytes();
    TimeIsRead(m, t);
    TimeIsRead(m', t');
    var c, d := Components(e, f, size, m), Components(e', f', size', m');
    if Stream(c) == Stream(d) {
      StreamDecodes(c, d, [], []);
      LittleEndianInjective(size, size', 8);
      LittleEndianInjective(MillisBits(m), MillisBits(m'), 8);
    }
  }

  /** Byte `k` of a number, the lowest first. */
  function ByteAt(n: nat, k: nat): byte {
    if k == 0 then n % 256 else ByteAt(n / 256, k - 1)
  }

  ghost predicate OneByteApart(m: nat, n: nat, k: nat) {
    k < 8 && forall j | 0 <= j < 8 :: ByteAt(m, j) != ByteAt(n, j) <==> j == k
  }

  lemma {:induction false} LittleEndianBytes(n: nat, width: nat, k: nat)
    requires k < width
    ensures LittleEndian(n, width)[k] == ByteAt(n, k)
  {
    if k > 0 {
      LittleEndianBytes(n / 256, width - 1, k - 1);
    }
  }

  lemma ApartDiffers(m: nat, n: nat, k: nat)
    requires OneByteApart(m, n, k)
    ensures DifferAt(LittleEndian(m, 8), LittleEndian(n, 8), k)
  {
    forall j | 0 <= j < 8 ensures LittleEndian(m, 8)[j] == ByteAt(m, j) && LittleEndian(n, 8)[j] == ByteAt(n, j) {
      LittleEndianBytes(m, 8, j);
      LittleEndianBytes(n, 8, j);
    }
  }

  /** One other byte in the endpoint or in the name gives another key. */
  lemma OneOtherByteInText(e: Bytes, f: Bytes, e': Bytes, f': Bytes, size: nat, m: LastModified, k: nat)
    requires (DifferAt(e, e', k) && f == f') || (e == e' && DifferAt(f, f', k))
    ensures MatchKeyOf(e, f, size, m) != MatchKeyOf(e', f', size, m)
  {
    OneByteChangesKey(Components(e, f, size, m), Components(e', f', size, m), if e == e' then 1 else 0, k);
  }

  /** One other byte in the 64-bit size gives another key. */
  lemma OneOtherByteInSize(e: Bytes, f: Bytes, size: nat, size': nat, m: LastModified, k: nat)
    requires OneByteApart(size, size', k)
    ensures MatchKeyOf(e, f, size, m) != MatchKeyOf(e, f, size', m)
  {
    ApartDiffers(size, size', k);
    OneByteChangesKey(Components(e, f, size, m), Components(e, f, size', m), 2, k);
  }

  /** One other byte in the 64-bit time of modification gives another key. */
  lemma OneOtherByteInTime(e: Bytes, f: Bytes, size: nat, m: LastModified, t: int, m': LastModified, t': int, k: nat)
    requires ReadsAs(m, t) && ReadsAs(m', t')
    requires OneByteApart(t % 0x1_0000_0000_0000_0000, t' % 0x1_0000_0000_0000_0000, k)
    ensures MatchKeyOf(e, f, size, m) != MatchKeyOf(e, f, size, m')
  {
    TimeIsRead(m, t);
    TimeIsRead(m', t');
    TimeFits(m, t);
    TimeFits(m', t');
    ApartDiffers(MillisBits(m), MillisBits(m'), k);
    OneByteChangesKey(Components(e, f, size, m), Components(e, f, size, m'), 3, k);
  }

  lemma TimeFits(m: LastModified, t: int)
    requires ReadsAs(m, t)
    ensures -0x8000_0000_0000_0000 <= t < 0x8000_0000_0000_0000
    ensures t % 0x1_0000_0000_0000_0000 == if t >= 0 then t else t + 0x1_0000_0000_0000_0000
  {
  }

  lemma StreamOfFour(a: Bytes, b: Bytes, c: Bytes, d: Bytes)
    ensures Stream([a, b, c, d]) == Component(a) + Component(b) + Component(c) + Component(d)
  {
    assert [a, b, c, d][1..] == [b, c, d] && [b, c, d][1..] == [c, d] && [c, d][1..] == [d] && [d][1..] == [];
    assert Stream([d]) == Component(d);
    assert Stream([c, d]) == Component(c) + Component(d);
    assert Stream([b, c, d]) == Component(b) + (Component(c) + Component(d));
  }

  /** A key is "v2-" and two halves of sixteen digits. The first prints the FNV-1a hash of
      endpoint, name, size and time, each behind its length in bytes. */
  lemma KeyLayout(e: Bytes, f: Bytes, size: nat, m: LastModified, t: int)
    requires ReadsAs(m, t)
    ensures var key, time := MatchKeyOf(e, f, size, m), t % 0x1_0000_0000_0000_0000;
            && |key| == 35 && key[..3] == "v2-"
            && key[3..19] == Hex(Fnv(0xcbf2_9ce4_8422_2325,
                                     (LittleEndian(|e|, 4) + e) + (LittleEndian(|f|, 4) + f)
                                     + (LittleEndian(8, 4) + LittleEndian(size, 8))
                                     + (LittleEndian(8, 4) + LittleEndian(time, 8))), 16)
  {
    TimeIsRead(m, t);
    TimeFits(m, t);
    var c := Components(e, f, size, m);
    HashAIsFnvOfStream(FNV_OFFSET, c);
    StreamOfFour(e, f, LittleEndian(size, 8), LittleEndian(MillisBits(m), 8));
    Halves(c);
  }

  lemma FeedIsFnv(h: word, bytes: Bytes)
    ensures Feed(h, bytes) == Fnv(h, LittleEndian(|bytes|, 4) + bytes)
  {
    FnvConcat(h, LittleEndian(|bytes|, LENGTH_WIDTH), bytes);
  }

  /** The second half hashes the same parts from another basis, and turns the word by five bits
      before each part. */
  lemma SecondHalf(e: Bytes, f: Bytes, size: Bytes, time: Bytes)
    requires |size| == |time| == 8
    ensures var h0 := Fnv(RotateLeft5(0x55c5_e55d_fb68_5f30), LittleEndian(|e|, 4) + e);
            var h1 := Fnv(RotateLeft5(h0), LittleEndian(|f|, 4) + f);
            var h2 := Fnv(RotateLeft5(h1), LittleEndian(8, 4) + size);
            var h3 := Fnv(RotateLeft5(h2), LittleEndian(8, 4) + time);
            KeyOf([e, f, size, time])[19..] == Hex(h3, 16)
  {
    Halves([e, f, size, time]);
    HashBOfFour(B_SEED, e, f, size, time);
  }

  lemma HashBOfFour(h: word, a: Bytes, b: Bytes, c: Bytes, d: Bytes)
    ensures var h0 := Fnv(RotateLeft5(h), LittleEndian(|a|, 4) + a);
            var h1 := Fnv(RotateLeft5(h0), LittleEndian(|b|, 4) + b);
            var h2 := Fnv(RotateLeft5(h1), LittleEndian(|c|, 4) + c);
            HashB(h, [a, b, c, d]) == Fnv(RotateLeft5(h2), LittleEndian(|d|, 4) + d)
  {
    var h0 := Feed(RotateLeft5(h), a);
    var h1 := Feed(RotateLeft5(h0), b);
    var h2 := Feed(RotateLeft5(h1), c);
    FeedIsFnv(RotateLeft5(h), a);
    FeedIsFnv(RotateLeft5(h0), b);
    FeedIsFnv(RotateLeft5(h1), c);
    FeedIsFnv(RotateLeft5(h2), d);
    assert [a, b, c, d][1..] == [b, c, d] && [b, c, d][1..] == [c, d] && [c, d][1..] == [d] && [d][1..] == [];
    assert HashB(h2, [d]) == Feed(RotateLeft5(h2), d);
    assert HashB(h1, [c, d]) == HashB(h2, [d]);
    assert HashB(h0, [b, c, d]) == HashB(h1, [c, d]);
  }

  // ---------------------------------------------------------------- known values

  function NibbleAt(n: nat, k: nat): (d: nat)
    ensures d < 16
  {
    if k == 0 then n % 16 else NibbleAt(n / 16, k - 1)
  }

  /** Digit `k` from the right prints the number's `k`-th group of four bits. */
  lemma {:induction false} HexDigits(n: nat, width: nat, k: nat)
    requires k < width
    ensures Hex(n, width)[width - 1 - k] == "0123456789abcdef"[NibbleAt(n, k)]
  {
    if k > 0 {
      HexDigits(n / 16, width - 1, k - 1);
    }
  }

  lemma XorOfA()
    ensures Xor8(0x25, 0x61) == 0x44
  {
    assert Pow2(1) == 2 && Pow2(2) == 4 && Pow2(3) == 8 && Pow2(4) == 16;
    assert Pow2(5) == 32 && Pow2(6) == 64 && Pow2(7) == 128 && Pow2(8) == 256;
    assert Xor(1, 0, 0) == 0;
    assert Xor(2, 0, 1) == 1;
    assert Xor(3, 1, 3) == 2;
    assert Xor(4, 2, 6) == 4;
    assert Xor(5, 4, 12) == 8;
    assert Xor(6, 9, 24) == 17;
    assert Xor(7, 18, 48) == 34;
    assert Xor(8, 37, 97) == 68;
  }

  /** The first half is 64-bit FNV-1a: it has that hash's published value for the text "a". */
  lemma KnownHash()
    ensures Fnv(FNV_OFFSET, [0x61]) == 0xaf63_dc4c_8601_ec8c
  {
    MixedWithA();
    assert Step(FNV_OFFSET, 0x61) == 0xcbf2_9ce4_8422_2344 * FNV_PRIME % WORD;
    ProductOfA();
    FnvOfOne(FNV_OFFSET, 0x61);
  }

  lemma MixedWithA()
    ensures Mixed(FNV_OFFSET, 0x61) == 0xcbf2_9ce4_8422_2344
  {
    XorOfA();
    assert FNV_OFFSET % 256 == 0x25 && FNV_OFFSET / 256 * 256 == 0xcbf2_9ce4_8422_2300;
  }

  lemma ProductOfA()
    ensures 0xcbf2_9ce4_8422_2344 * FNV_PRIME % WORD == 0xaf63_dc4c_8601_ec8c
  {
    assert 0xcbf2_9ce4_8422_2344 * FNV_PRIME == 0xcbf29ce5de * WORD + 0xaf63_dc4c_8601_ec8c;
  }

  lemma FnvOfOne(h: word, b: byte)
    ensures Fnv(h, [b]) == Step(h, b)
  {
    assert [b][1..] == [];
  }
}
