/** CRC-32 as computed by boost::crc_32_type: the checksum of ISO/IEC 3309 and
    ITU-T V.42 (generator polynomial 0x04C11DB7, processed bit-reflected, register
    preset to all ones, result complemented). The definition below is the
    bit-at-a-time form of the reference algorithm in section 8 of RFC 1952, whose
    byte table is exactly eight of these shifts precomputed. */
module Checksum {

  /** The generator polynomial 0x04C11DB7 with its bits reversed. */
  const Polynomial: bv32 := 0xEDB8_8320
  /** The register is preset to all ones ... */
  const Initial: bv32 := 0xFFFF_FFFF
  /** ... and the final register is complemented. */
  const FinalXor: bv32 := 0xFFFF_FFFF

  /** `k` shifts of the reflected register. Each shift divides by x modulo the
      generator: the register moves one bit down and, when the bit shifted out
      was set, the polynomial is xored in (the mask `0 - (d & 1)` is all ones
      exactly then). */
  function Shifts(c: bv32, k: nat): bv32 {
    if k == 0 then c
    else var d := Shifts(c, k - 1); (d >> 1) ^ (Polynomial & (0 - (d & 1)))
  }

  /** Feeding one byte into the register: xor it into the low end, shift eight times. */
  function Step(register: bv32, b: bv8): bv32 {
    Shifts(register ^ (b as bv32), 8)
  }

  /** The register after processing `data` from first to last byte. */
  function Register(data: seq<bv8>): bv32 {
    if data == [] then Initial else Step(Register(data[..|data| - 1]), data[|data| - 1])
  }

  /** The CRC-32 of `data`. */
  function Crc32(data: seq<bv8>): bv32 {
    Register(data) ^ FinalXor
  }

  // Bit-vector identities, each in a lemma of its own so that the solver meets
  // them without the recursive definitions around.

  lemma ShiftLinear(x: bv32, y: bv32)
    ensures ((x ^ y) >> 1) ^ (Polynomial & (0 - ((x ^ y) & 1)))
         == ((x >> 1) ^ (Polynomial & (0 - (x & 1)))) ^ ((y >> 1) ^ (Polynomial & (0 - (y & 1))))
  {
  }

  lemma ShiftZero(x: bv32)
    ensures (x >> 1) ^ (Polynomial & (0 - (x & 1))) == 0 ==> x == 0
  {
  }

  lemma XorRegroup(ra: bv32, rb: bv32, ba: bv8, bb: bv8)
    ensures (ra ^ (ba as bv32)) ^ (rb ^ (bb as bv32)) == (ra ^ rb) ^ ((ba ^ bb) as bv32)
  {
  }

  lemma DiffNonzero(ra: bv32, rb: bv32, ba: bv8, bb: bv8)
    requires ra != rb || ba != bb
    requires ra == rb || ba == bb
    ensures (ra ^ rb) ^ ((ba ^ bb) as bv32) != 0
  {
  }

  lemma XorZero(x: bv32, y: bv32)
    ensures x ^ y == 0 <==> x == y
  {
  }

  lemma XorCancel(x: bv32, y: bv32, m: bv32)
    ensures (x ^ m) ^ (y ^ m) == x ^ y
  {
  }

  /** Shifting is linear over GF(2). */
  lemma {:induction false} ShiftsLinear(x: bv32, y: bv32, k: nat)
    ensures Shifts(x ^ y, k) == Shifts(x, k) ^ Shifts(y, k)
  {
    if k > 0 {
      ShiftsLinear(x, y, k - 1);
      ShiftLinear(Shifts(x, k - 1), Shifts(y, k - 1));
    }
  }

  /** Shifting loses no information: the generator has a nonzero constant term,
      so no nonzero register is ever shifted to zero. */
  lemma {:induction false} ShiftsInjective(x: bv32, k: nat)
    ensures Shifts(x, k) == 0 ==> x == 0
  {
    if k > 0 {
      ShiftZero(Shifts(x, k - 1));
      ShiftsInjective(x, k - 1);
    }
  }

  /** Different registers stay different however often they are shifted. */
  lemma ShiftsSeparate(x: bv32, y: bv32, k: nat)
    requires x != y
    ensures Shifts(x, k) != Shifts(y, k)
  {
    ShiftsLinear(x, y, k);
    XorZero(x, y);
    ShiftsInjective(x ^ y, k);
    XorZero(Shifts(x, k), Shifts(y, k));
  }

  /** Two different registers fed the same byte stay different, and one register
      fed two different bytes becomes two different registers. */
  lemma StepSeparates(ra: bv32, rb: bv32, ba: bv8, bb: bv8)
    requires ra != rb || ba != bb
    requires ra == rb || ba == bb
    ensures Step(ra, ba) != Step(rb, bb)
  {
    InputsDiffer(ra, rb, ba, bb);
    ShiftsSeparate(ra ^ (ba as bv32), rb ^ (bb as bv32), 8);
    StepsDiffer(ra, rb, ba, bb);
  }

  /** Steps differ when their eight shifts do. */
  lemma StepsDiffer(ra: bv32, rb: bv32, ba: bv8, bb: bv8)
    requires Shifts(ra ^ (ba as bv32), 8) != Shifts(rb ^ (bb as bv32), 8)
    ensures Step(ra, ba) != Step(rb, bb)
  {
  }

  /** The registers differ once the bytes are xored in. */
  lemma InputsDiffer(ra: bv32, rb: bv32, ba: bv8, bb: bv8)
    requires ra != rb || ba != bb
    requires ra == rb || ba == bb
    ensures ra ^ (ba as bv32) != rb ^ (bb as bv32)
  {
    XorRegroup(ra, rb, ba, bb);
    DiffNonzero(ra, rb, ba, bb);
    XorZero(ra ^ (ba as bv32), rb ^ (bb as bv32));
  }

  /** Two inputs that agree except at byte `k` leave different registers. */
  lemma {:induction false} RegisterSeparates(a: seq<bv8>, b: seq<bv8>, k: nat)
    requires |a| == |b| && k < |a|
    requires a[..k] == b[..k] && a[k] != b[k] && a[k + 1..] == b[k + 1..]
    ensures Register(a) != Register(b)
    decreases |a|
  {
    var n := |a| - 1;
    if n == k {
      assert a[..n] == b[..n];
      StepSeparates(Register(a[..n]), Register(b[..n]), a[n], b[n]);
    } else {
      assert a[..n][..k] == a[..k] && b[..n][..k] == b[..k];
      assert a[..n][k + 1..] == a[k + 1..][..n - k - 1];
      assert b[..n][k + 1..] == b[k + 1..][..n - k - 1];
      RegisterSeparates(a[..n], b[..n], k);
      assert a[n] == b[n] by {
        assert a[n] == a[k + 1..][n - k - 1] && b[n] == b[k + 1..][n - k - 1];
      }
      StepSeparates(Register(a[..n]), Register(b[..n]), a[n], b[n]);
    }
  }

  /** Any corruption confined to one byte (in particular any single flipped bit)
      changes the CRC-32, so the receiver's recomputation detects it. */
  lemma CorruptedByteDetected(data: seq<bv8>, k: nat, v: bv8)
    requires k < |data| && v != data[k]
    ensures Crc32(data[k := v]) != Crc32(data)
  {
    var d := data[k := v];
    assert d[..k] == data[..k] && d[k + 1..] == data[k + 1..];
    RegisterSeparates(d, data, k);
    XorZero(Register(d), Register(data));
    XorCancel(Register(d), Register(data), FinalXor);
    XorZero(Crc32(d), Crc32(data));
  }

  /** Appending a byte to the input feeds it into the register. */
  lemma RegisterSnoc(data: seq<bv8>, b: bv8)
    ensures Register(data + [b]) == Step(Register(data), b)
  {
    assert (data + [b])[..|data|] == data;
  }

  /** `t` lists the register after 0, 1, ... shifts of `t[0]`. */
  lemma {:induction false} ShiftsTrace(t: seq<bv32>, k: nat)
    requires k < |t|
    requires forall i :: 0 <= i < |t| - 1 ==> t[i + 1] == (t[i] >> 1) ^ (Polynomial & (0 - (t[i] & 1)))
    ensures Shifts(t[0], k) == t[k]
  {
    if k > 0 {
      ShiftsTrace(t, k - 1);
    }
  }

  /** Feeding byte `b` into register `register`, evaluated through the eight
      intermediate registers listed in `t`. */
  lemma FeedByte(prefix: seq<bv8>, b: bv8, register: bv32, t: seq<bv32>)
    requires Register(prefix) == register
    requires |t| == 9 && t[0] == register ^ (b as bv32)
    requires forall i :: 0 <= i < 8 ==> t[i + 1] == (t[i] >> 1) ^ (Polynomial & (0 - (t[i] & 1)))
    ensures Register(prefix + [b]) == t[8]
  {
    ShiftsTrace(t, 8);
    RegisterSnoc(prefix, b);
  }

  /** The ASCII text "123456789", the input of the standard check value. */
  const CheckInput: seq<bv8> := [0x31, 0x32, 0x33, 0x34, 0x35, 0x36, 0x37, 0x38, 0x39]

  lemma CheckValuePart1()
    ensures Register(CheckInput[..3]) == 0x77B79C2D
  {
    assert CheckInput[..0] == [];
    FeedByte(CheckInput[..0], CheckInput[0], 0xFFFFFFFF,
      [0xFFFFFFCE, 0x7FFFFFE7, 0xD2477CD3,
       0x849B3D49, 0xAFF51D84, 0x57FA8EC2,
       0x2BFD4761, 0xF8462090, 0x7C231048]);
    assert CheckInput[..0] + [CheckInput[0]] == CheckInput[..1];
    FeedByte(CheckInput[..1], CheckInput[1], 0x7C231048,
      [0x7C23107A, 0x3E11883D, 0xF2B0473E,
       0x7958239F, 0xD11492EF, 0x8532CA57,
       0xAF21E60B, 0xBA287025, 0xB0ACBB32]);
    assert CheckInput[..1] + [CheckInput[1]] == CheckInput[..2];
    FeedByte(CheckInput[..2], CheckInput[2], 0xB0ACBB32,
      [0xB0ACBB01, 0xB5EEDEA0, 0x5AF76F50,
       0x2D7BB7A8, 0x16BDDBD4, 0x0B5EEDEA,
       0x05AF76F5, 0xEF6F385A, 0x77B79C2D]);
    assert CheckInput[..2] + [CheckInput[2]] == CheckInput[..3];
  }

  lemma CheckValuePart2()
    requires Register(CheckInput[..3]) == 0x77B79C2D
    ensures Register(CheckInput[..6]) == 0xF68D2C9E
  {
    FeedByte(CheckInput[..3], CheckInput[3], 0x77B79C2D,
      [0x77B79C19, 0xD6634D2C, 0x6B31A696,
       0x3598D34B, 0xF774EA85, 0x9602F662,
       0x4B017B31, 0xC8383EB8, 0x641C1F5C]);
    assert CheckInput[..3] + [CheckInput[3]] == CheckInput[..4];
    FeedByte(CheckInput[..4], CheckInput[4], 0x641C1F5C,
      [0x641C1F69, 0xDFB68C94, 0x6FDB464A,
       0x37EDA325, 0xF64E52B2, 0x7B272959,
       0xD02B178C, 0x68158BC6, 0x340AC5E3]);
    assert CheckInput[..4] + [CheckInput[4]] == CheckInput[..5];
    FeedByte(CheckInput[..5], CheckInput[5], 0x340AC5E3,
      [0x340AC5D5, 0xF7BDE1CA, 0x7BDEF0E5,
       0xD057FB52, 0x682BFDA9, 0xD9AD7DF4,
       0x6CD6BEFA, 0x366B5F7D, 0xF68D2C9E]);
    assert CheckInput[..5] + [CheckInput[5]] == CheckInput[..6];
  }

  lemma CheckValuePart3()
    requires Register(CheckInput[..6]) == 0xF68D2C9E
    ensures Register(CheckInput[..9]) == 0x340BC6D9
  {
    FeedByte(CheckInput[..6], CheckInput[6], 0xF68D2C9E,
      [0xF68D2CA9, 0x96FE1574, 0x4B7F0ABA,
       0x25BF855D, 0xFF67418E, 0x7FB3A0C7,
       0xD2615343, 0x84882A81, 0xAFFC9660]);
    assert CheckInput[..6] + [CheckInput[6]] == CheckInput[..7];
    FeedByte(CheckInput[..7], CheckInput[7], 0xAFFC9660,
      [0xAFFC9658, 0x57FE4B2C, 0x2BFF2596,
       0x15FF92CB, 0xE7474A45, 0x9E1B2602,
       0x4F0D9301, 0xCA3E4AA0, 0x651F2550]);
    assert CheckInput[..7] + [CheckInput[7]] == CheckInput[..8];
    FeedByte(CheckInput[..8], CheckInput[8], 0x651F2550,
      [0x651F2569, 0xDF371194, 0x6F9B88CA,
       0x37CDC465, 0xF65E6112, 0x7B2F3089,
       0xD02F1B64, 0x68178DB2, 0x340BC6D9]);
    assert CheckInput[..8] + [CheckInput[8]] == CheckInput[..9];
  }

  /** The check value of CRC-32: the checksum of the ASCII text "123456789" is
      0xCBF43926. */
  lemma CheckValue()
    ensures Crc32(CheckInput) == 0xCBF4_3926
  {
    CheckValuePart1();
    CheckValuePart2();
    CheckValuePart3();
    assert CheckInput[..9] == CheckInput;
  }

  /** The ASCII text "hello". */
  const Hello: seq<bv8> := [0x68, 0x65, 0x6C, 0x6C, 0x6F]

  lemma HelloPart1()
    ensures Register(Hello[..3]) == 0x1AF40EE4
  {
    assert Hello[..0] == [];
    FeedByte(Hello[..0], Hello[0], 0xFFFFFFFF,
      [0xFFFFFF97, 0x92477CEB, 0xA49B3D55,
       0xBFF51D8A, 0x5FFA8EC5, 0xC245C442,
       0x6122E221, 0xDD29F230, 0x6E94F918]);
    assert Hello[..0] + [Hello[0]] == Hello[..1];
    FeedByte(Hello[..1], Hello[1], 0x6E94F918,
      [0x6E94F97D, 0xDAF2FF9E, 0x6D797FCF,
       0xDB043CC7, 0x803A9D43, 0xADA5CD81,
       0xBB6A65E0, 0x5DB532F0, 0x2EDA9978]);
    assert Hello[..1] + [Hello[1]] == Hello[..2];
    FeedByte(Hello[..2], Hello[2], 0x2EDA9978,
      [0x2EDA9914, 0x176D4C8A, 0x0BB6A645,
       0xE863D002, 0x7431E801, 0xD7A07720,
       0x6BD03B90, 0x35E81DC8, 0x1AF40EE4]);
    assert Hello[..2] + [Hello[2]] == Hello[..3];
  }

  lemma HelloPart2()
    requires Register(Hello[..3]) == 0x1AF40EE4
    ensures Register(Hello[..5]) == 0xC9EF5979
  {
    FeedByte(Hello[..3], Hello[3], 0x1AF40EE4,
      [0x1AF40E88, 0x0D7A0744, 0x06BD03A2,
       0x035E81D1, 0xEC17C3C8, 0x760BE1E4,
       0x3B05F0F2, 0x1D82F879, 0xE379FF1C]);
    assert Hello[..3] + [Hello[3]] == Hello[..4];
    FeedByte(Hello[..4], Hello[4], 0xE379FF1C,
      [0xE379FF73, 0x9C047C99, 0xA3BABD6C,
       0x51DD5EB6, 0x28EEAF5B, 0xF9CFD48D,
       0x915F6966, 0x48AFB4B3, 0xC9EF5979]);
    assert Hello[..4] + [Hello[4]] == Hello[..5];
  }

  /** The CRC-32 of "hello" is 0x3610A686. */
  lemma HelloChecksum()
    ensures Crc32(Hello) == 0x3610_A686
  {
    HelloPart1();
    HelloPart2();
    assert Hello[..5] == Hello;
  }
}
