/** The base64 codec of the collector: both loops keep their bits in 32-bit accumulators that
    overflow on long inputs, and agree all the same with section 4 of RFC 4648. */
module Base64 {
  import opened Arithmetic
  import opened Collections

  type byte = x: int | 0 <= x < 256
  type sextet = x: int | 0 <= x < 64

  datatype Result = Ok(bytes: seq<byte>) | IllegalCharacter

  // ----- the alphabet

  function CharOf(v: sextet): char {
    if v < 26 then 'A' + v as char
    else if v < 52 then 'a' + (v - 26) as char
    else if v < 62 then '0' + (v - 52) as char
    else if v == 62 then '+' else '/'
  }

  /** The reverse table: 64 for everything that is not in the alphabet. */
  function ValueOf(c: char): (v: int)
    ensures 0 <= v <= 64
  {
    if 'A' <= c <= 'Z' then (c - 'A') as int
    else if 'a' <= c <= 'z' then (c - 'a') as int + 26
    else if '0' <= c <= '9' then (c - '0') as int + 52
    else if c == '+' then 62 else if c == '/' then 63 else 64
  }

  predicate IsSkipped(c: char) {
    c == ' ' || (9 as char <= c <= 13 as char) || c == '='
  }

  lemma AlphabetInverts(v: sextet)
    ensures ValueOf(CharOf(v)) == v && !IsSkipped(CharOf(v))
  {
  }

  // ----- the encoding of RFC 4648

  function At(s: seq<byte>, i: nat): byte {
    if i < |s| then s[i] else 0
  }

  /** Groups of three octets become four sextets; this is the j-th of the g-th group, by the bits of
      the octets it covers. */
  function Bits(s: seq<byte>, g: nat, j: nat): sextet {
    var a, b, c := At(s, 3 * g), At(s, 3 * g + 1), At(s, 3 * g + 2);
    if j == 0 then a / 4 else if j == 1 then a % 4 * 16 + b / 16 else if j == 2 then b % 16 * 4 + c / 64 else c % 64
  }

  function SextetAt(s: seq<byte>, i: nat): sextet {
    Bits(s, i / 4, i % 4)
  }

  /** A shorter last group is completed with zero bits and gives one sextet more than it has octets. */
  function Sextets(s: seq<byte>): seq<sextet> {
    seq((4 * |s| + 2) / 3, i requires 0 <= i => SextetAt(s, i))
  }

  lemma SextetBits(s: seq<byte>, g: nat, j: nat)
    requires j < 4
    ensures SextetAt(s, 4 * g + j) == Bits(s, g, j)
  {
    DivMod(4 * g + j, 4, g, j);
  }

  /** The 24-bit number that three octets make, most significant first. */
  function Group(a: byte, b: byte, c: byte): int {
    a * 0x10000 + b * 0x100 + c
  }

  /** The four sextets of a group are the digits to base 64 of its 24-bit number. */
  lemma SextetsAreDigits(s: seq<byte>, g: nat)
    ensures Group(At(s, 3 * g), At(s, 3 * g + 1), At(s, 3 * g + 2)) ==
            ((SextetAt(s, 4 * g) * 64 + SextetAt(s, 4 * g + 1)) * 64 + SextetAt(s, 4 * g + 2)) * 64 +
            SextetAt(s, 4 * g + 3)
  {
    SextetBits(s, g, 0);
    SextetBits(s, g, 1);
    SextetBits(s, g, 2);
    SextetBits(s, g, 3);
    DigitsOfGroup(At(s, 3 * g), At(s, 3 * g + 1), At(s, 3 * g + 2));
  }

  lemma DigitsOfGroup(a: byte, b: byte, c: byte)
    ensures Group(a, b, c) == ((a / 4 * 64 + (a % 4 * 16 + b / 16)) * 64 + (b % 16 * 4 + c / 64)) * 64 + c % 64
  {
  }

  function Text(v: seq<sextet>): (t: string)
    ensures |t| == |v|
  {
    seq(|v|, i requires 0 <= i < |v| => CharOf(v[i]))
  }

  function Padding(n: nat): string {
    seq((4 - n % 4) % 4, _ => '=')
  }

  function Encoded(s: seq<byte>): string {
    Text(Sextets(s)) + Padding(|Sextets(s)|)
  }

  /** Test vectors of section 10 of RFC 4648, for "f", "fo" and "foo". */
  lemma TestVectors()
    ensures Encoded([102]) == "Zg==" && Encoded([102, 111]) == "Zm8=" && Encoded([102, 111, 111]) == "Zm9v"
  {
    VectorOfOne([102]);
    VectorOfTwo([102, 111]);
    VectorOfThree([102, 111, 111]);
    hide Encoded;
  }

  lemma VectorOfOne(s: seq<byte>)
    requires s == [102]
    ensures Encoded(s) == "Zg=="
  {
    var v := Sextets(s);
    SextetBits(s, 0, 0);
    SextetBits(s, 0, 1);
    assert v == [25, 32];
    hide Sextets, SextetAt;
    assert Text(v) == "Zg" && Padding(2) == "==";
  }

  lemma VectorOfTwo(s: seq<byte>)
    requires s == [102, 111]
    ensures Encoded(s) == "Zm8="
  {
    var v := Sextets(s);
    SextetBits(s, 0, 0);
    SextetBits(s, 0, 1);
    SextetBits(s, 0, 2);
    assert v == [25, 38, 60];
    hide Sextets, SextetAt;
    assert Text(v) == "Zm8" && Padding(3) == "=";
  }

  lemma VectorOfThree(s: seq<byte>)
    requires s == [102, 111, 111]
    ensures Encoded(s) == "Zm9v"
  {
    var v := Sextets(s);
    SextetBits(s, 0, 0);
    SextetBits(s, 0, 1);
    SextetBits(s, 0, 2);
    SextetBits(s, 0, 3);
    assert v == [25, 38, 61, 47];
    hide Sextets, SextetAt;
    assert Text(v) == "Zm9v" && Padding(4) == "";
  }

  // ----- the encoder

  function Pow2(n: nat): (p: int)
    ensures p > 0
  {
    if n == 0 then 1 else 2 * Pow2(n - 1)
  }

  /** An arithmetic shift to the right of a signed value, and the six bits kept of it. */
  function SixBits(val: int, shift: nat): sextet {
    val / Pow2(shift) % 64
  }

  /** The bits read but not yet written: none, the low two of the last octet, or its low four. */
  predicate Pending(s: seq<byte>, val: int, valb: int) {
    match |s| % 3
    case 0 => valb == -6
    case 1 => valb == -4 && val % 4 == s[|s| - 1] % 4
    case 2 => valb == -2 && val % 16 == s[|s| - 1] % 16
  }

  /** The sextets that s determines completely. */
  function Whole(s: seq<byte>): seq<sextet> {
    seq(|s| * 4 / 3, i requires 0 <= i => SextetAt(s, i))
  }

  /** The sextets that octet c completes when `held` octets of its group came before it, the last of
      them being `last`. */
  function Added(held: nat, last: byte, c: byte): seq<sextet> {
    if held == 0 then [c / 4]
    else if held == 1 then [last % 4 * 16 + c / 16]
    else [last % 16 * 4 + c / 64, c % 64]
  }

  function Last(s: seq<byte>): byte {
    if s == [] then 0 else s[|s| - 1]
  }

  lemma WholeStep(s: seq<byte>, c: byte, t: seq<byte>)
    requires t == s + [c]
    ensures Whole(t) == Whole(s) + Added(|s| % 3, Last(s), c)
  {
    hide SextetAt;
    var g, h := |s| / 3, |s| % 3;
    WholeLengths(g, h);
    var r := Whole(s) + Added(h, Last(s), c);
    NewSextets(s, c, t, g, h);
    forall i | 0 <= i < |Whole(t)| ensures Whole(t)[i] == r[i] {
      if i < 4 * g + h {
        SameSextetAt(s, c, t, i);
      }
    }
  }

  lemma WholeLengths(g: nat, h: nat)
    requires h < 3
    ensures (3 * g + h) * 4 / 3 == 4 * g + h && (4 * (3 * g + h) + 2) / 3 == 4 * g + h + if h == 0 then 0 else 1
    ensures (3 * g + h + 1) * 4 / 3 == 4 * g + h + if h == 2 then 2 else 1
  {
    DivMod((3 * g + h) * 4, 3, 4 * g + h, h);
    DivMod(4 * (3 * g + h) + 2, 3, 4 * g + h + if h == 0 then 0 else 1, if h == 0 then 2 else h - 1);
    DivMod((3 * g + h + 1) * 4, 3, 4 * g + h + if h == 2 then 2 else 1, if h == 2 then 0 else h + 1);
  }

  lemma SameSextetAt(s: seq<byte>, c: byte, t: seq<byte>, i: nat)
    requires t == s + [c] && i < |s| / 3 * 4 + |s| % 3
    ensures SextetAt(t, i) == SextetAt(s, i)
  {
    SameSextet(s, c, t, i / 4, i % 4);
  }

  lemma NewSextets(s: seq<byte>, c: byte, t: seq<byte>, g: nat, h: nat)
    requires t == s + [c] && |s| == 3 * g + h && h < 3
    ensures var more := Added(h, Last(s), c);
            SextetAt(t, 4 * g + h) == more[0] && (h == 2 ==> SextetAt(t, 4 * g + 3) == more[1])
  {
    SextetBits(t, g, h);
    SextetBits(t, g, 3);
  }

  lemma SameSextet(s: seq<byte>, c: byte, t: seq<byte>, g: nat, j: nat)
    requires t == s + [c] && j < 4 && (3 * g + 3 <= |s| || 3 * g + j < |s|)
    ensures SextetAt(t, 4 * g + j) == SextetAt(s, 4 * g + j)
  {
    SextetBits(s, g, j);
    SextetBits(t, g, j);
  }

  /** What the inner loop writes from a given position on. */
  function Emitted(val: int, valb: int): seq<sextet>
    decreases valb + 6
  {
    if valb < 0 then [] else [SixBits(val, valb)] + Emitted(val, valb - 6)
  }

  lemma SixBitsAt(v: int)
    ensures SixBits(v, 0) == v % 64 && SixBits(v, 2) == v / 4 % 64
    ensures SixBits(v, 4) == v / 16 % 64 && SixBits(v, 6) == v / 64 % 64
  {
    assert Pow2(0) == 1 && Pow2(1) == 2 && Pow2(2) == 4 && Pow2(3) == 8 && Pow2(4) == 16 && Pow2(5) == 32;
  }

  lemma ShiftedBits(x: int, q: int)
    ensures (x - UINT32 * q) / 4 == x / 4 - 0x4000_0000 * q
    ensures (x - UINT32 * q) / 16 == x / 16 - 0x1000_0000 * q
    ensures (x - UINT32 * q) / 64 == x / 64 - 0x400_0000 * q
    ensures (x - UINT32 * q) % 64 == x % 64
  {
  }

  lemma SixLowBits(y: int, k: int)
    ensures (y - 64 * k) % 64 == y % 64
  {
  }

  /** Overflow of the accumulator does not reach the bits that are still to be written. */
  lemma OverflowIsHarmless(x: int)
    ensures SixBits(ToInt32(x), 0) == x % 64 && SixBits(ToInt32(x), 2) == x / 4 % 64
    ensures SixBits(ToInt32(x), 4) == x / 16 % 64 && SixBits(ToInt32(x), 6) == x / 64 % 64
  {
    var q := (x + 0x8000_0000) / UINT32;
    assert ToInt32(x) == x - UINT32 * q;
    SixBitsAt(ToInt32(x));
    ShiftedBits(x, q);
    SixLowBits(x / 4, 0x100_0000 * q);
    SixLowBits(x / 16, 0x40_0000 * q);
    SixLowBits(x / 64, 0x10_0000 * q);
  }

  lemma FirstSextet(val: int, c: byte)
    ensures (val * 256 + c) / 4 % 64 == c / 4 && (val * 256 + c) % 64 == c % 64
  {
    DivMod(val * 256 + c, 4, val * 64 + c / 4, c % 4);
    DivMod(val * 64 + c / 4, 64, val, c / 4);
    DivMod(val * 256 + c, 64, val * 4 + c / 64, c % 64);
  }

  lemma SecondSextet(val: int, c: byte)
    ensures (val * 256 + c) / 16 % 64 == val % 4 * 16 + c / 16
  {
    var h, l := val / 4, val % 4;
    DivMod(val * 256 + c, 16, h * 64 + (l * 16 + c / 16), c % 16);
    DivMod(h * 64 + (l * 16 + c / 16), 64, h, l * 16 + c / 16);
  }

  lemma ThirdSextet(val: int, c: byte)
    ensures (val * 256 + c) / 64 % 64 == val % 16 * 4 + c / 64
  {
    var h, l := val / 16, val % 16;
    DivMod(val * 256 + c, 64, h * 64 + (l * 4 + c / 64), c % 64);
    DivMod(h * 64 + (l * 4 + c / 64), 64, h, l * 4 + c / 64);
  }

  lemma LowBits(x: int, y: int)
    requires x % 64 == y % 64
    ensures x % 16 == y % 16 && x % 4 == y % 4
  {
    var r := y % 64;
    DivMod(x, 16, x / 64 * 4 + r / 16, r % 16);
    DivMod(y, 16, y / 64 * 4 + r / 16, r % 16);
    DivMod(x, 4, x / 64 * 16 + r / 4, r % 4);
    DivMod(y, 4, y / 64 * 16 + r / 4, r % 4);
  }

  /** One octet more: the loop writes exactly the sextets it completes. */
  lemma OctetEmitted(s: seq<byte>, val: int, valb: int, c: byte)
    requires Pending(s, val, valb)
    ensures Emitted(ToInt32(val * 256 + c), valb + 8) == Added(|s| % 3, Last(s), c)
  {
    var v := ToInt32(val * 256 + c);
    OctetValues(val, c, v);
    EmittedAt(v, valb);
  }

  /** And it holds back the rest. */
  lemma OctetPending(s: seq<byte>, val: int, valb: int, c: byte)
    requires Pending(s, val, valb)
    ensures Pending(s + [c], ToInt32(val * 256 + c), if valb == -2 then -6 else valb + 2)
  {
    OctetValues(val, c, ToInt32(val * 256 + c));
    assert (s + [c])[|s + [c]| - 1] == c;
  }

  lemma OctetValues(val: int, c: byte, v: int)
    requires v == ToInt32(val * 256 + c)
    ensures SixBits(v, 2) == c / 4 && SixBits(v, 4) == val % 4 * 16 + c / 16
    ensures SixBits(v, 6) == val % 16 * 4 + c / 64 && SixBits(v, 0) == c % 64
    ensures v % 4 == c % 4 && v % 16 == c % 16
  {
    OverflowIsHarmless(val * 256 + c);
    FirstSextet(val, c);
    SecondSextet(val, c);
    ThirdSextet(val, c);
    SixBitsAt(v);
    LowBits(v, c);
  }

  lemma EmittedAt(v: int, valb: int)
    requires valb == -6 || valb == -4 || valb == -2
    ensures Emitted(v, valb + 8) == [SixBits(v, valb + 8)] + if valb == -2 then [SixBits(v, 0)] else []
  {
    assert Emitted(v, -6) == [];
  }

  lemma TextConcat(a: seq<sextet>, b: seq<sextet>)
    ensures Text(a + b) == Text(a) + Text(b)
  {
  }

  /** The sextet completed with zero bits at the end, if octets of a group are left over. */
  lemma LastSextet(s: seq<byte>, val: int, valb: int)
    requires Pending(s, val, valb)
    ensures Sextets(s) == Whole(s) + if valb > -6 then [SixBits(ToInt32(val * 256), valb + 8)] else []
  {
    var g, h := |s| / 3, |s| % 3;
    Lengths(s, g, h);
    if valb > -6 {
      LeftOver(s, val, valb, g, h);
      OneMore(Whole(s), Sextets(s), SixBits(ToInt32(val * 256), valb + 8));
    } else {
      NoneMore(Whole(s), Sextets(s));
    }
  }

  lemma Lengths(s: seq<byte>, g: nat, h: nat)
    requires |s| == 3 * g + h && h < 3
    ensures |Whole(s)| == 4 * g + h && |Sextets(s)| == 4 * g + h + if h == 0 then 0 else 1
  {
    WholeLengths(g, h);
  }

  lemma NoneMore(v: seq<sextet>, w: seq<sextet>)
    requires |w| == |v| && forall i :: 0 <= i < |v| ==> w[i] == v[i]
    ensures w == v + []
  {
  }

  lemma OneMore(v: seq<sextet>, w: seq<sextet>, x: sextet)
    requires |w| == |v| + 1 && w[|v|] == x && forall i :: 0 <= i < |v| ==> w[i] == v[i]
    ensures w == v + [x]
  {
  }

  lemma LeftOver(s: seq<byte>, val: int, valb: int, g: nat, h: nat)
    requires Pending(s, val, valb) && |s| == 3 * g + h && 0 < h < 3
    ensures valb > -6 && SixBits(ToInt32(val * 256), valb + 8) == SextetAt(s, 4 * g + h)
  {
    DivMod(|s|, 3, g, h);
    OctetValues(val, 0, ToInt32(val * 256));
    SextetBits(s, g, h);
  }

  function Rest(valb: int): int
    decreases valb + 6
  {
    if valb < 0 then valb else Rest(valb - 6)
  }

  /** The encoder, with its signed 32-bit accumulator. */
  method Encode(s: seq<byte>) returns (retval: string)
    ensures retval == Encoded(s)
  {
    var val, valb;
    retval, val, valb := EncodeOctets(s);
    LastSextet(s, val, valb);
    if valb > -6 {
      TextConcat(Whole(s), [SixBits(ToInt32(val * 256), valb + 8)]);
      retval := retval + [CharOf(SixBits(ToInt32(val * 256), valb + 8))];
    }
    retval := Pad(retval);
  }

  method EncodeOctets(s: seq<byte>) returns (retval: string, val: int, valb: int)
    ensures Pending(s, val, valb) && retval == Text(Whole(s))
  {
    retval, val, valb := "", 0, -6;
    for i := 0 to |s|
      invariant Pending(s[..i], val, valb)
      invariant retval == Text(Whole(s[..i]))
    {
      assert s[..i + 1] == s[..i] + [s[i]];
      retval, val, valb := EncodeOctet(s[..i], s[i], s[..i + 1], retval, val, valb);
    }
    assert s[..|s|] == s;
  }

  /** The body of the encoder's loop. */
  method EncodeOctet(ghost s: seq<byte>, c: byte, ghost t: seq<byte>, text: string, v: int, vb: int)
    returns (retval: string, val: int, valb: int)
    requires t == s + [c] && Pending(s, v, vb) && text == Text(Whole(s))
    ensures Pending(t, val, valb) && retval == Text(Whole(t))
  {
    WholeStep(s, c, t);
    OctetEmitted(s, v, vb, c);
    OctetPending(s, v, vb, c);
    assert Rest(vb + 8) == if vb == -2 then -6 else vb + 2;
    val := ToInt32(v * 256 + c);
    retval, valb := Write(text, Whole(s), val, vb + 8);
  }

  /** The inner loop: writes sextets while at least six bits are there. */
  method Write(text: string, ghost sofar: seq<sextet>, val: int, from: int) returns (retval: string, valb: int)
    requires text == Text(sofar)
    ensures retval == Text(sofar + Emitted(val, from)) && valb == Rest(from)
  {
    retval, valb := text, from;
    ghost var done := sofar;
    while valb >= 0
      invariant Rest(valb) == Rest(from) && retval == Text(done)
      invariant done + Emitted(val, valb) == sofar + Emitted(val, from)
      decreases valb + 6
    {
      TextConcat(done, [SixBits(val, valb)]);
      ConcatAssociative(done, [SixBits(val, valb)], Emitted(val, valb - 6));
      retval := retval + [CharOf(SixBits(val, valb))];
      done := done + [SixBits(val, valb)];
      valb := valb - 6;
    }
    assert done + [] == done;
  }

  method Pad(text: string) returns (retval: string)
    ensures retval == text + Padding(|text|)
  {
    retval := text;
    ghost var n := (4 - |text| % 4) % 4;
    while |retval| % 4 != 0
      invariant |text| <= |retval| <= |text| + n
      invariant retval == text + seq(|retval| - |text|, _ => '=')
      decreases |text| + n - |retval|
    {
      retval := retval + ['='];
    }
  }

  /** Three octets give four characters, and so does what is left over. */
  lemma EncodedLength(s: seq<byte>)
    ensures |Encoded(s)| == (|s| + 2) / 3 * 4
  {
    var g, h := |s| / 3, |s| % 3;
    WholeLengths(g, h);
  }

  // ----- decoding

  /** The characters that count, and their values: whitespace and padding are left out. */
  function Kept(t: string): string {
    if t == "" then ""
    else Kept(t[..|t| - 1]) + if IsSkipped(t[|t| - 1]) then "" else [t[|t| - 1]]
  }

  predicate Legal(t: string) {
    forall i :: 0 <= i < |t| ==> ValueOf(t[i]) < 64
  }

  function Values(t: string): seq<sextet>
    requires Legal(t)
  {
    seq(|t|, i requires 0 <= i < |t| => ValueOf(t[i]))
  }

  predicate IsSextet(x: int) { 0 <= x < 64 }

  function Octet1(a: int, b: int): byte
    requires IsSextet(a) && IsSextet(b)
  {
    a * 4 + b / 16
  }

  function Octet2(b: int, c: int): byte
    requires IsSextet(b) && IsSextet(c)
  {
    b % 16 * 16 + c / 4
  }

  function Octet3(c: int, d: int): byte
    requires IsSextet(c) && IsSextet(d)
  {
    c % 4 * 64 + d
  }

  /** The octet that sextet x completes when `held` sextets of its group came before it. */
  function Completed(held: nat, last: sextet, x: sextet): seq<byte> {
    if held == 0 then []
    else if held == 1 then [Octet1(last, x)]
    else if held == 2 then [Octet2(last, x)]
    else [Octet3(last, x)]
  }

  function LastSextetOf(v: seq<sextet>): sextet {
    if v == [] then 0 else v[|v| - 1]
  }

  /** Four sextets give three octets; this is the h-th of the g-th group. */
  function OctetOf(v: seq<sextet>, g: nat, h: nat): byte
    requires h < 3 && 4 * g + h + 1 < |v|
  {
    if h == 0 then Octet1(v[4 * g], v[4 * g + 1])
    else if h == 1 then Octet2(v[4 * g + 1], v[4 * g + 2])
    else Octet3(v[4 * g + 2], v[4 * g + 3])
  }

  function OctetAt(v: seq<sextet>, k: nat): byte
    requires k < |v| * 3 / 4
  {
    OctetOf(v, k / 3, k % 3)
  }

  /** The octets that are complete: of a shorter last group, one less than it has sextets. */
  function Octets(v: seq<sextet>): seq<byte> {
    seq(|v| * 3 / 4, k requires 0 <= k < |v| * 3 / 4 => OctetAt(v, k))
  }

  lemma OctetsStep(v: seq<sextet>, x: sextet, w: seq<sextet>)
    requires w == v + [x]
    ensures Octets(w) == Octets(v) + Completed(|v| % 4, LastSextetOf(v), x)
  {
    var g, h := |v| / 4, |v| % 4;
    var n := |v| * 3 / 4;
    assert n == 3 * g + if h == 0 then 0 else h - 1;
    assert |w| * 3 / 4 == n + if h == 0 then 0 else 1;
    forall k | 0 <= k < n ensures OctetAt(w, k) == OctetAt(v, k) {
    }
    if h > 0 {
      DivMod(n, 3, g, h - 1);
    }
  }

  function Decoded(t: string): Result {
    if Legal(Kept(t)) then Ok(Octets(Values(Kept(t)))) else IllegalCharacter
  }

  // ----- the decoder

  /** The bits read but not yet part of an octet. */
  predicate Collected(v: seq<sextet>, accumulator: int, bits: int) {
    match |v| % 4
    case 0 => bits == 0
    case 1 => bits == 6 && accumulator % 64 == v[|v| - 1]
    case 2 => bits == 4 && accumulator % 16 == v[|v| - 1] % 16
    case 3 => bits == 2 && accumulator % 4 == v[|v| - 1] % 4
  }

  function EightBits(accumulator: nat, shift: nat): byte {
    accumulator / Pow2(shift) % 256
  }

  lemma EightBitsAt(n: nat)
    ensures EightBits(n, 0) == n % 256 && EightBits(n, 2) == n / 4 % 256 && EightBits(n, 4) == n / 16 % 256
  {
    assert Pow2(0) == 1 && Pow2(1) == 2 && Pow2(2) == 4 && Pow2(3) == 8;
  }

  lemma SextetValues(acc: nat, x: sextet, n: nat)
    requires n == (acc * 64 + x) % UINT32
    ensures EightBits(n, 4) == acc % 64 * 4 + x / 16 && EightBits(n, 2) == acc % 16 * 16 + x / 4
    ensures EightBits(n, 0) == acc % 4 * 64 + x && n % 64 == x && n % 16 == x % 16 && n % 4 == x % 4
  {
    var q := (acc * 64 + x) / UINT32;
    assert n == acc * 64 + x - UINT32 * q;
    EightBitsAt(n);
    DivMod(n, 64, acc - 0x400_0000 * q, x);
    LowBits(n, x);
    DivMod(n, 16, acc * 4 + x / 16 - 0x1000_0000 * q, x % 16);
    DivMod(acc * 4 + x / 16 - 0x1000_0000 * q, 256, acc / 64 - 0x10_0000 * q, acc % 64 * 4 + x / 16);
    DivMod(n, 4, acc * 16 + x / 4 - 0x4000_0000 * q, x % 4);
    DivMod(acc * 16 + x / 4 - 0x4000_0000 * q, 256, acc / 16 - 0x40_0000 * q, acc % 16 * 16 + x / 4);
    DivMod(n, 256, acc / 4 - 0x100_0000 * q, acc % 4 * 64 + x);
  }

  /** One sextet more: an octet is written exactly when one is complete, and it is the right one. */
  lemma SextetStep(v: seq<sextet>, acc: nat, bits: int, x: sextet, n: nat)
    requires Collected(v, acc, bits) && n == (acc * 64 + x) % UINT32
    ensures Completed(|v| % 4, LastSextetOf(v), x) == if bits >= 2 then [EightBits(n, bits - 2)] else []
  {
    SextetValues(acc, x, n);
  }

  lemma SextetCollected(v: seq<sextet>, acc: nat, bits: int, x: sextet, n: nat)
    requires Collected(v, acc, bits) && n == (acc * 64 + x) % UINT32
    ensures Collected(v + [x], n, if bits >= 2 then bits - 2 else 6)
  {
    SextetValues(acc, x, n);
    assert (v + [x])[|v + [x]| - 1] == x;
  }

  lemma KeptStep(t: string, i: nat)
    requires i < |t|
    ensures Kept(t[..i + 1]) == Kept(t[..i]) + if IsSkipped(t[i]) then "" else [t[i]]
  {
    assert t[..i + 1][..i] == t[..i];
  }

  lemma {:induction false} KeptPrefix(t: string, i: nat)
    requires i <= |t|
    ensures Kept(t[..i]) <= Kept(t)
    decreases |t| - i
  {
    if i < |t| {
      KeptStep(t, i);
      KeptPrefix(t, i + 1);
    } else {
      assert t[..i] == t;
    }
  }

  /** The decoder, with its unsigned 32-bit accumulator. */
  method Decode(t: string) returns (r: Result)
    ensures r == Decoded(t)
  {
    var retval: seq<byte> := [];
    var bits, accumulator := 0, 0;
    for i := 0 to |t|
      invariant Decoding(t[..i], retval, accumulator, bits)
    {
      KeptStep(t, i);
      if !IsSkipped(t[i]) {
        if ValueOf(t[i]) > 63 {
          IllegalStays(t, i);
          return IllegalCharacter;
        }
        DecodingStep(t[..i], t[i], t[..i + 1]);
        var more;
        accumulator, bits, more := Collect(Values(Kept(t[..i])), accumulator, bits, ValueOf(t[i]));
        retval := retval + more;
      } else {
        assert Kept(t[..i]) + "" == Kept(t[..i]);
      }
    }
    assert t[..|t|] == t;
    return Ok(retval);
  }

  /** The state of the decoder once it has read the text t. */
  ghost predicate Decoding(t: string, retval: seq<byte>, accumulator: int, bits: int) {
    0 <= accumulator && 0 <= bits && Legal(Kept(t)) &&
    retval == Octets(Values(Kept(t))) && Collected(Values(Kept(t)), accumulator, bits)
  }

  lemma DecodingStep(t: string, c: char, u: string)
    requires Legal(Kept(t)) && ValueOf(c) < 64 && Kept(u) == Kept(t) + [c]
    ensures Legal(Kept(u)) && Values(Kept(u)) == Values(Kept(t)) + [ValueOf(c)]
  {
  }

  lemma IllegalStays(t: string, i: nat)
    requires i < |t| && !IsSkipped(t[i]) && ValueOf(t[i]) == 64
    ensures !Legal(Kept(t))
  {
    KeptStep(t, i);
    KeptPrefix(t, i + 1);
    assert Kept(t)[|Kept(t[..i])|] == t[i];
  }

  /** One character's worth of bits into the accumulator, and the octet it completes, if any. */
  method Collect(ghost v: seq<sextet>, accumulator: nat, bits: nat, x: sextet)
    returns (acc: nat, left: nat, more: seq<byte>)
    requires Collected(v, accumulator, bits)
    ensures Collected(v + [x], acc, left)
    ensures Octets(v + [x]) == Octets(v) + more
  {
    acc, left, more := (accumulator * 64 + x) % UINT32, bits + 6, [];
    OctetsStep(v, x, v + [x]);
    SextetStep(v, accumulator, bits, x, acc);
    SextetCollected(v, accumulator, bits, x, acc);
    if left >= 8 {
      left := left - 8;
      more := [EightBits(acc, left)];
    }
  }

  // ----- round trips

  lemma OctetAtGroup(v: seq<sextet>, g: nat, h: nat)
    requires h < 3 && 3 * g + h < |v| * 3 / 4
    ensures 4 * g + h + 1 < |v| && OctetAt(v, 3 * g + h) == OctetOf(v, g, h)
  {
    DivMod(3 * g + h, 3, g, h);
  }

  lemma OctetsOfSextets(s: seq<byte>)
    ensures Octets(Sextets(s)) == s
  {
    SextetsCount(|s|);
    forall k | 0 <= k < |s| ensures OctetAt(Sextets(s), k) == s[k] {
      OctetBackAt(s, Sextets(s), k);
    }
  }

  lemma SextetsCount(n: nat)
    ensures (4 * n + 2) / 3 * 3 / 4 == n
  {
    var g, h := n / 3, n % 3;
    WholeLengths(g, h);
    DivMod((4 * g + h + if h == 0 then 0 else 1) * 3, 4, n, if h == 0 then 0 else 3 - h);
  }

  lemma OctetBackAt(s: seq<byte>, v: seq<sextet>, k: nat)
    requires v == Sextets(s) && |v| * 3 / 4 == |s| && k < |s|
    ensures OctetAt(v, k) == s[k]
  {
    var g, h := k / 3, k % 3;
    SextetBits(s, g, h);
    SextetBits(s, g, h + 1);
    OctetBack(s, v, g, h);
  }

  lemma OctetBack(s: seq<byte>, v: seq<sextet>, g: nat, h: nat)
    requires h < 3 && 3 * g + h < |s| && 4 * g + h + 1 < |v|
    requires v[4 * g + h] == Bits(s, g, h) && v[4 * g + h + 1] == Bits(s, g, h + 1)
    ensures OctetOf(v, g, h) == s[3 * g + h]
  {
    SextetHalves(At(s, 3 * g), At(s, 3 * g + 1), At(s, 3 * g + 2));
  }

  /** The bits of two sextets go back to the octet they came from. */
  lemma SextetHalves(a: byte, b: byte, c: byte)
    ensures Octet1(a / 4, a % 4 * 16 + b / 16) == a
    ensures Octet2(a % 4 * 16 + b / 16, b % 16 * 4 + c / 64) == b
    ensures Octet3(b % 16 * 4 + c / 64, c % 64) == c
  {
    DivMod(a % 4 * 16 + b / 16, 16, a % 4, b / 16);
    DivMod(b % 16 * 4 + c / 64, 4, b % 16, c / 64);
  }

  lemma KeptSnoc(t: string, c: char)
    ensures Kept(t + [c]) == Kept(t) + if IsSkipped(c) then "" else [c]
  {
    assert (t + [c])[..|t|] == t;
  }

  lemma {:induction false} KeptText(v: seq<sextet>)
    ensures Kept(Text(v)) == Text(v)
    decreases |v|
  {
    if v != [] {
      var front, last := v[..|v| - 1], v[|v| - 1];
      KeptText(front);
      AlphabetInverts(last);
      assert v == front + [last];
      TextConcat(front, [last]);
      KeptSnoc(Text(front), CharOf(last));
    }
  }

  lemma {:induction false} KeptPadded(t: string, n: nat)
    ensures Kept(t + seq(n, _ => '=')) == Kept(t)
    decreases n
  {
    var padded := t + seq(n, _ => '=');
    if n == 0 {
      assert padded == t;
    } else {
      KeptPadded(t, n - 1);
      assert padded[..|padded| - 1] == t + seq(n - 1, _ => '=');
    }
  }

  lemma TextValues(v: seq<sextet>)
    ensures Legal(Text(v)) && Values(Text(v)) == v
  {
    forall i | 0 <= i < |v| ensures ValueOf(Text(v)[i]) == v[i] {
      AlphabetInverts(v[i]);
    }
  }

  lemma KeptEncoded(s: seq<byte>)
    ensures Kept(Encoded(s)) == Text(Sextets(s))
  {
    var v := Sextets(s);
    KeptPadded(Text(v), (4 - |v| % 4) % 4);
    KeptText(v);
  }

  /** Decoding undoes encoding, however much whitespace or padding is inserted or removed. */
  lemma RoundTrip(s: seq<byte>, t: string)
    requires Kept(t) == Kept(Encoded(s))
    ensures Decoded(t) == Ok(s)
  {
    KeptEncoded(s);
    TextValues(Sextets(s));
    OctetsOfSextets(s);
  }

  /** No group of one sextet alone, and no bits set beyond the last octet. */
  predicate Canonical(v: seq<sextet>) {
    match |v| % 4
    case 0 => true
    case 1 => false
    case 2 => v[|v| - 1] % 16 == 0
    case 3 => v[|v| - 1] % 4 == 0
  }

  /** Encoding undoes decoding exactly on canonical sextets. */
  lemma SextetsOfOctets(v: seq<sextet>)
    ensures Sextets(Octets(v)) == v <==> Canonical(v)
  {
    var r := Sextets(Octets(v));
    ReencodedLength(v);
    match |v| % 4 {
      case 0 => SameButLast(v, r, |v|);
      case 1 => assert |r| != |v|;
      case 2 => LastOfTwo(v, r, |v| / 4);
      case 3 => LastOfThree(v, r, |v| / 4);
    }
  }

  lemma LastOfTwo(v: seq<sextet>, r: seq<sextet>, g: nat)
    requires |r| == |v| == 4 * g + 2 && r == Sextets(Octets(v))
    ensures r == v <==> v[|v| - 1] % 16 == 0
  {
    hide SextetAt, OctetAt, Decodes;
    SameButLast(v, r, |v| - 1);
    DecodedGroup(v, g);
    CutAfterTwo(v, Octets(v), g);
  }

  lemma LastOfThree(v: seq<sextet>, r: seq<sextet>, g: nat)
    requires |r| == |v| == 4 * g + 3 && r == Sextets(Octets(v))
    ensures r == v <==> v[|v| - 1] % 4 == 0
  {
    hide SextetAt, OctetAt, Decodes;
    SameButLast(v, r, |v| - 1);
    DecodedGroup(v, g);
    CutAfterThree(v, Octets(v), g);
  }

  lemma SameButLast(v: seq<sextet>, r: seq<sextet>, n: nat)
    requires |r| == |v| && r == Sextets(Octets(v)) && n <= |v| && (n < |v| || |v| % 4 == 0)
    ensures r[..n] == v[..n]
    ensures n == |v| ==> r == v
    ensures n == |v| - 1 ==> (r == v <==> r[n] == v[n])
  {
    forall i | 0 <= i < n ensures r[i] == v[i] {
      DecodedGroup(v, i / 4);
      SextetBack(v, Octets(v), i);
    }
    LastDecides(v, r, n);
  }

  lemma SextetBack(v: seq<sextet>, s: seq<byte>, i: nat)
    requires Decodes(v, s, i / 4) && i < |v| && (i < |v| - 1 || |v| % 4 == 0)
    ensures SextetAt(s, i) == v[i]
  {
    WholeSextet(v, s, i / 4, i % 4);
  }

  lemma LastDecides(v: seq<sextet>, r: seq<sextet>, n: nat)
    requires |r| == |v| && n <= |v| && forall i :: 0 <= i < n ==> r[i] == v[i]
    ensures r[..n] == v[..n]
    ensures n == |v| ==> r == v
    ensures n == |v| - 1 ==> (r == v <==> r[n] == v[n])
  {
    if n == |v| - 1 {
      assert r == r[..n] + [r[n]] && v == v[..n] + [v[n]];
    }
  }

  lemma ReencodedLength(v: seq<sextet>)
    ensures |Sextets(Octets(v))| == if |v| % 4 == 1 then |v| - 1 else |v|
  {
    var g, h := |v| / 4, |v| % 4;
    DivMod(|v| * 3, 4, 3 * g + if h == 0 then 0 else h - 1, if h == 0 then 0 else 4 - h);
    WholeLengths(g, if h == 0 then 0 else h - 1);
  }

  /** The octets of the g-th group of s are those that the sextets v have there, as far as they are
      complete, and zero beyond. */
  predicate Decodes(v: seq<sextet>, s: seq<byte>, g: nat) {
    (4 * g + 1 < |v| ==> At(s, 3 * g) == Octet1(v[4 * g], v[4 * g + 1])) &&
    (4 * g + 2 < |v| ==> At(s, 3 * g + 1) == Octet2(v[4 * g + 1], v[4 * g + 2])) &&
    (4 * g + 3 < |v| ==> At(s, 3 * g + 2) == Octet3(v[4 * g + 2], v[4 * g + 3])) &&
    (4 * g + 2 >= |v| ==> At(s, 3 * g + 1) == 0) && (4 * g + 3 >= |v| ==> At(s, 3 * g + 2) == 0)
  }

  lemma DecodedGroup(v: seq<sextet>, g: nat)
    ensures Decodes(v, Octets(v), g)
  {
    DecodedOctet(v, g, 0);
    DecodedOctet(v, g, 1);
    DecodedOctet(v, g, 2);
  }

  lemma DecodedOctet(v: seq<sextet>, g: nat, h: nat)
    requires h < 3
    ensures At(Octets(v), 3 * g + h) == if 4 * g + h + 1 < |v| then OctetOf(v, g, h) else 0
  {
    CompleteCount(|v|, g, h);
    if 4 * g + h + 1 < |v| {
      OctetAtGroup(v, g, h);
    }
  }

  lemma CompleteCount(n: nat, g: nat, h: nat)
    requires h < 3
    ensures 3 * g + h < n * 3 / 4 <==> 4 * g + h + 1 < n
  {
  }

  /** A sextet all of whose bits are part of complete octets comes back. */
  lemma WholeSextet(v: seq<sextet>, s: seq<byte>, g: nat, j: nat)
    requires Decodes(v, s, g) && j < 4 && 4 * g + j < |v| && (4 * g + j < |v| - 1 || j == 3)
    ensures SextetAt(s, 4 * g + j) == v[4 * g + j]
  {
    SextetBits(s, g, j);
    BitsBack(v, s, g, j);
  }

  lemma BitsBack(v: seq<sextet>, s: seq<byte>, g: nat, j: nat)
    requires j < 4 && 4 * g + j < |v| && (4 * g + j < |v| - 1 || j == 3)
    requires 4 * g + 1 < |v| && At(s, 3 * g) == Octet1(v[4 * g], v[4 * g + 1])
    requires 4 * g + 2 < |v| ==> At(s, 3 * g + 1) == Octet2(v[4 * g + 1], v[4 * g + 2])
    requires 4 * g + 3 < |v| ==> At(s, 3 * g + 2) == Octet3(v[4 * g + 2], v[4 * g + 3])
    ensures Bits(s, g, j) == v[4 * g + j]
  {
    if j == 0 {
      OctetHalves(v[4 * g], v[4 * g + 1]);
    } else if j == 1 {
      OctetHalves(v[4 * g], v[4 * g + 1]);
      OctetHalves(v[4 * g + 1], v[4 * g + 2]);
    } else {
      OctetHalves(v[4 * g + 1], v[4 * g + 2]);
      OctetHalves(v[4 * g + 2], v[4 * g + 3]);
    }
  }

  /** The bits of an octet go back to the two sextets they came from. */
  lemma OctetHalves(p: sextet, q: sextet)
    ensures Octet1(p, q) / 4 == p && Octet1(p, q) % 4 == q / 16
    ensures Octet2(p, q) / 16 == p % 16 && Octet2(p, q) % 16 == q / 4
    ensures Octet3(p, q) / 64 == p % 4 && Octet3(p, q) % 64 == q
  {
    DivMod(p * 4 + q / 16, 4, p, q / 16);
    DivMod(p % 16 * 16 + q / 4, 16, p % 16, q / 4);
    DivMod(p % 4 * 64 + q, 64, p % 4, q);
  }

  /** The last sextet of a group cut short comes back with the bits beyond its last octet cleared. */
  lemma CutAfterTwo(v: seq<sextet>, s: seq<byte>, g: nat)
    requires |v| == 4 * g + 2 && Decodes(v, s, g)
    ensures SextetAt(s, 4 * g + 1) == v[4 * g + 1] / 16 * 16
  {
    SextetBits(s, g, 1);
    OctetHalves(v[4 * g], v[4 * g + 1]);
  }

  lemma CutAfterThree(v: seq<sextet>, s: seq<byte>, g: nat)
    requires |v| == 4 * g + 3 && Decodes(v, s, g)
    ensures SextetAt(s, 4 * g + 2) == v[4 * g + 2] / 4 * 4
  {
    SextetBits(s, g, 2);
    OctetHalves(v[4 * g + 1], v[4 * g + 2]);
  }

  lemma TextOfValues(t: string)
    requires Legal(t)
    ensures Text(Values(t)) == t
  {
    forall i | 0 <= i < |t| ensures CharOf(ValueOf(t[i])) == t[i] {
      CharOfValue(t[i]);
    }
  }

  lemma CharOfValue(c: char)
    requires ValueOf(c) < 64
    ensures CharOf(ValueOf(c)) == c
  {
  }

  /** Encoding what a text decodes to gives its counting characters back exactly when they are
      canonical, and the text itself exactly when it is also padded, and nothing else, as the encoder does. */
  lemma ReencodedIff(t: string)
    requires Decoded(t).Ok?
    ensures var s := Decoded(t).bytes; Kept(Encoded(s)) == Kept(t) <==> Canonical(Values(Kept(t)))
    ensures Encoded(Decoded(t).bytes) == t <==>
            Canonical(Values(Kept(t))) && t == Kept(t) + Padding(|Kept(t)|)
  {
    var k, s := Kept(t), Decoded(t).bytes;
    var v := Values(k);
    TextOfValues(k);
    SextetsOfOctets(v);
    KeptEncoded(s);
    TextValues(Sextets(s));
  }
}
