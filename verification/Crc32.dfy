/** The table-driven CRC-32 of components/kvs_utils/src/crc32.c, against the bit-serial
    CRC of section 8 of RFC 1952.

    Facts about single words are proved by unfolding the word operations below; everything
    above them hides those bodies and reasons by rewriting alone. */
module Crc32 {

  // gCrc32Table, sixteen entries to a row
  const ROW_0: seq<bv32> := [
    0x00000000, 0x77073096, 0xee0e612c, 0x990951ba, 0x076dc419, 0x706af48f, 0xe963a535, 0x9e6495a3,
    0x0edb8832, 0x79dcb8a4, 0xe0d5e91e, 0x97d2d988, 0x09b64c2b, 0x7eb17cbd, 0xe7b82d07, 0x90bf1d91]
  const ROW_1: seq<bv32> := [
    0x1db71064, 0x6ab020f2, 0xf3b97148, 0x84be41de, 0x1adad47d, 0x6ddde4eb, 0xf4d4b551, 0x83d385c7,
    0x136c9856, 0x646ba8c0, 0xfd62f97a, 0x8a65c9ec, 0x14015c4f, 0x63066cd9, 0xfa0f3d63, 0x8d080df5]
  const ROW_2: seq<bv32> := [
    0x3b6e20c8, 0x4c69105e, 0xd56041e4, 0xa2677172, 0x3c03e4d1, 0x4b04d447, 0xd20d85fd, 0xa50ab56b,
    0x35b5a8fa, 0x42b2986c, 0xdbbbc9d6, 0xacbcf940, 0x32d86ce3, 0x45df5c75, 0xdcd60dcf, 0xabd13d59]
  const ROW_3: seq<bv32> := [
    0x26d930ac, 0x51de003a, 0xc8d75180, 0xbfd06116, 0x21b4f4b5, 0x56b3c423, 0xcfba9599, 0xb8bda50f,
    0x2802b89e, 0x5f058808, 0xc60cd9b2, 0xb10be924, 0x2f6f7c87, 0x58684c11, 0xc1611dab, 0xb6662d3d]
  const ROW_4: seq<bv32> := [
    0x76dc4190, 0x01db7106, 0x98d220bc, 0xefd5102a, 0x71b18589, 0x06b6b51f, 0x9fbfe4a5, 0xe8b8d433,
    0x7807c9a2, 0x0f00f934, 0x9609a88e, 0xe10e9818, 0x7f6a0dbb, 0x086d3d2d, 0x91646c97, 0xe6635c01]
  const ROW_5: seq<bv32> := [
    0x6b6b51f4, 0x1c6c6162, 0x856530d8, 0xf262004e, 0x6c0695ed, 0x1b01a57b, 0x8208f4c1, 0xf50fc457,
    0x65b0d9c6, 0x12b7e950, 0x8bbeb8ea, 0xfcb9887c, 0x62dd1ddf, 0x15da2d49, 0x8cd37cf3, 0xfbd44c65]
  const ROW_6: seq<bv32> := [
    0x4db26158, 0x3ab551ce, 0xa3bc0074, 0xd4bb30e2, 0x4adfa541, 0x3dd895d7, 0xa4d1c46d, 0xd3d6f4fb,
    0x4369e96a, 0x346ed9fc, 0xad678846, 0xda60b8d0, 0x44042d73, 0x33031de5, 0xaa0a4c5f, 0xdd0d7cc9]
  const ROW_7: seq<bv32> := [
    0x5005713c, 0x270241aa, 0xbe0b1010, 0xc90c2086, 0x5768b525, 0x206f85b3, 0xb966d409, 0xce61e49f,
    0x5edef90e, 0x29d9c998, 0xb0d09822, 0xc7d7a8b4, 0x59b33d17, 0x2eb40d81, 0xb7bd5c3b, 0xc0ba6cad]
  const ROW_8: seq<bv32> := [
    0xedb88320, 0x9abfb3b6, 0x03b6e20c, 0x74b1d29a, 0xead54739, 0x9dd277af, 0x04db2615, 0x73dc1683,
    0xe3630b12, 0x94643b84, 0x0d6d6a3e, 0x7a6a5aa8, 0xe40ecf0b, 0x9309ff9d, 0x0a00ae27, 0x7d079eb1]
  const ROW_9: seq<bv32> := [
    0xf00f9344, 0x8708a3d2, 0x1e01f268, 0x6906c2fe, 0xf762575d, 0x806567cb, 0x196c3671, 0x6e6b06e7,
    0xfed41b76, 0x89d32be0, 0x10da7a5a, 0x67dd4acc, 0xf9b9df6f, 0x8ebeeff9, 0x17b7be43, 0x60b08ed5]
  const ROW_A: seq<bv32> := [
    0xd6d6a3e8, 0xa1d1937e, 0x38d8c2c4, 0x4fdff252, 0xd1bb67f1, 0xa6bc5767, 0x3fb506dd, 0x48b2364b,
    0xd80d2bda, 0xaf0a1b4c, 0x36034af6, 0x41047a60, 0xdf60efc3, 0xa867df55, 0x316e8eef, 0x4669be79]
  const ROW_B: seq<bv32> := [
    0xcb61b38c, 0xbc66831a, 0x256fd2a0, 0x5268e236, 0xcc0c7795, 0xbb0b4703, 0x220216b9, 0x5505262f,
    0xc5ba3bbe, 0xb2bd0b28, 0x2bb45a92, 0x5cb36a04, 0xc2d7ffa7, 0xb5d0cf31, 0x2cd99e8b, 0x5bdeae1d]
  const ROW_C: seq<bv32> := [
    0x9b64c2b0, 0xec63f226, 0x756aa39c, 0x026d930a, 0x9c0906a9, 0xeb0e363f, 0x72076785, 0x05005713,
    0x95bf4a82, 0xe2b87a14, 0x7bb12bae, 0x0cb61b38, 0x92d28e9b, 0xe5d5be0d, 0x7cdcefb7, 0x0bdbdf21]
  const ROW_D: seq<bv32> := [
    0x86d3d2d4, 0xf1d4e242, 0x68ddb3f8, 0x1fda836e, 0x81be16cd, 0xf6b9265b, 0x6fb077e1, 0x18b74777,
    0x88085ae6, 0xff0f6a70, 0x66063bca, 0x11010b5c, 0x8f659eff, 0xf862ae69, 0x616bffd3, 0x166ccf45]
  const ROW_E: seq<bv32> := [
    0xa00ae278, 0xd70dd2ee, 0x4e048354, 0x3903b3c2, 0xa7672661, 0xd06016f7, 0x4969474d, 0x3e6e77db,
    0xaed16a4a, 0xd9d65adc, 0x40df0b66, 0x37d83bf0, 0xa9bcae53, 0xdebb9ec5, 0x47b2cf7f, 0x30b5ffe9]
  const ROW_F: seq<bv32> := [
    0xbdbdf21c, 0xcabac28a, 0x53b39330, 0x24b4a3a6, 0xbad03605, 0xcdd70693, 0x54de5729, 0x23d967bf,
    0xb3667a2e, 0xc4614ab8, 0x5d681b02, 0x2a6f2b94, 0xb40bbe37, 0xc30c8ea1, 0x5a05df1b, 0x2d02ef8d]

  function TableRow(r: nat): (row: seq<bv32>)
    ensures |row| == 16
  {
    match r
    case 0 => ROW_0
    case 1 => ROW_1
    case 2 => ROW_2
    case 3 => ROW_3
    case 4 => ROW_4
    case 5 => ROW_5
    case 6 => ROW_6
    case 7 => ROW_7
    case 8 => ROW_8
    case 9 => ROW_9
    case 10 => ROW_A
    case 11 => ROW_B
    case 12 => ROW_C
    case 13 => ROW_D
    case 14 => ROW_E
    case _ => ROW_F
  }

  function TableAt(i: nat): bv32
    requires i < 256
  {
    TableRow(i / 16)[i % 16]
  }

  // ---------------------------------------------------------------- word operations

  function Xor(a: bv32, b: bv32): bv32 { a ^ b }

  function Half(y: bv32): bv32 { y >> 1 }

  function Low(y: bv32): bv32 { y & 1 }

  function Poly(bit: bv32): bv32 { if bit == 0 then 0 else 0xEDB88320 }

  function LowByte(z: bv32): bv32 { z & 0xFF }

  function AboveByte(z: bv32): bv32 { z & 0xFFFFFF00 }

  function DropByte(z: bv32): bv32 { z >> 8 }

  function LiftByte(p: bv32): bv32 { p << 8 }

  function Word(i: nat): bv32
    requires i < 256
  {
    i as bv32
  }

  lemma HalfXor(a: bv32, b: bv32) ensures Half(Xor(a, b)) == Xor(Half(a), Half(b)) {}

  lemma LowXor(a: bv32, b: bv32) ensures Low(Xor(a, b)) == Low(Xor(a, Low(b))) {}

  lemma LowXorEven(a: bv32, b: bv32) requires Low(b) == 0 ensures Low(Xor(a, b)) == Low(a) {}

  lemma XorSwap(a: bv32, b: bv32, p: bv32)
    ensures Xor(Xor(a, b), p) == Xor(Xor(a, p), b) && Xor(a, Xor(b, p)) == Xor(Xor(a, p), b)
  {}

  lemma XorUndo(a: bv32, b: bv32) ensures Xor(Xor(a, b), b) == a && Xor(b, Xor(b, a)) == a {}

  lemma XorZero(a: bv32) ensures Xor(a, 0) == a {}

  // ---------------------------------------------------------------- bit-serial definition

  /** One message bit, least significant first, through the shift register of the reflected
      generator polynomial 0xEDB88320. */
  function FeedBit(c: bv32, bit: bv32): bv32 {
    if (c ^ bit) & 1 != 0 then (c >> 1) ^ 0xEDB88320 else c >> 1
  }

  /** The low n bits of y, in order. */
  function FeedBits(c: bv32, y: bv32, n: nat): bv32
    decreases n
  {
    if n == 0 then c else FeedBits(FeedBit(c, Low(y)), Half(y), n - 1)
  }

  /** The eight bits of a message byte. */
  function FeedByte(c: bv32, b: bv8): bv32 {
    FeedBits(c, b as bv32, 8)
  }

  /** A message, byte by byte. */
  function Register(c: bv32, message: seq<bv8>): bv32
    decreases |message|
  {
    if message == [] then c
    else FeedByte(Register(c, message[..|message| - 1]), message[|message| - 1])
  }

  /** The checksum continued from an earlier one: complement, shift the message in, complement. */
  function Crc(start: bv32, message: seq<bv8>): bv32 {
    Xor(Register(Xor(start, 0xFFFFFFFF), message), 0xFFFFFFFF)
  }

  // ---------------------------------------------------------------- the table is right

  function BitStep(c: bv32): bv32 {
    if c & 1 != 0 then (c >> 1) ^ 0xEDB88320 else c >> 1
  }

  function ByteStep(c: bv32): bv32 {
    BitStep(BitStep(BitStep(BitStep(BitStep(BitStep(BitStep(BitStep(c))))))))
  }

  function RowFrom(i: nat): (row: seq<bv32>)
    requires i <= 240
    ensures |row| == 16
  {
    hide ByteStep, BitStep, Word;
    [ByteStep(Word(i)), ByteStep(Word(i + 1)), ByteStep(Word(i + 2)), ByteStep(Word(i + 3)),
     ByteStep(Word(i + 4)), ByteStep(Word(i + 5)), ByteStep(Word(i + 6)), ByteStep(Word(i + 7)),
     ByteStep(Word(i + 8)), ByteStep(Word(i + 9)), ByteStep(Word(i + 10)), ByteStep(Word(i + 11)),
     ByteStep(Word(i + 12)), ByteStep(Word(i + 13)), ByteStep(Word(i + 14)), ByteStep(Word(i + 15))]
  }

  lemma Row0Matches() ensures ROW_0 == RowFrom(0) {}
  lemma Row1Matches() ensures ROW_1 == RowFrom(16) {}
  lemma Row2Matches() ensures ROW_2 == RowFrom(32) {}
  lemma Row3Matches() ensures ROW_3 == RowFrom(48) {}
  lemma Row4Matches() ensures ROW_4 == RowFrom(64) {}
  lemma Row5Matches() ensures ROW_5 == RowFrom(80) {}
  lemma Row6Matches() ensures ROW_6 == RowFrom(96) {}
  lemma Row7Matches() ensures ROW_7 == RowFrom(112) {}
  lemma Row8Matches() ensures ROW_8 == RowFrom(128) {}
  lemma Row9Matches() ensures ROW_9 == RowFrom(144) {}
  lemma RowAMatches() ensures ROW_A == RowFrom(160) {}
  lemma RowBMatches() ensures ROW_B == RowFrom(176) {}
  lemma RowCMatches() ensures ROW_C == RowFrom(192) {}
  lemma RowDMatches() ensures ROW_D == RowFrom(208) {}
  lemma RowEMatches() ensures ROW_E == RowFrom(224) {}
  lemma RowFMatches() ensures ROW_F == RowFrom(240) {}

  lemma RowFromAt(i: nat, j: nat)
    requires i <= 240 && j < 16
    ensures RowFrom(i)[j] == ByteStep(Word(i + j))
  {
    hide ByteStep, BitStep, Word;
    if j < 4 {
      return;
    } else if j < 8 {
      return;
    } else if j < 12 {
      return;
    }
  }

  lemma RowMatches(r: nat)
    requires r < 16
    ensures TableRow(r) == RowFrom(16 * r)
  {
    hide RowFrom;
    match r {
      case 0 => Row0Matches();
      case 1 => Row1Matches();
      case 2 => Row2Matches();
      case 3 => Row3Matches();
      case 4 => Row4Matches();
      case 5 => Row5Matches();
      case 6 => Row6Matches();
      case 7 => Row7Matches();
      case 8 => Row8Matches();
      case 9 => Row9Matches();
      case 10 => RowAMatches();
      case 11 => RowBMatches();
      case 12 => RowCMatches();
      case 13 => RowDMatches();
      case 14 => RowEMatches();
      case _ => RowFMatches();
    }
  }

  /** Every one of the 256 constants is eight bit steps of its index. */
  lemma TableIsByteStep(i: nat)
    requires i < 256
    ensures TableAt(i) == ByteStep(Word(i))
  {
    hide ByteStep, BitStep, RowFrom, TableRow, Word;
    RowMatches(i / 16);
    RowFromAt(16 * (i / 16), i % 16);
  }

  // ---------------------------------------------------------------- a byte through the register

  lemma BitStepIs(c: bv32)
    ensures BitStep(c) == Xor(Half(c), Poly(Low(c)))
  {}

  lemma FeedBitIs(c: bv32, bit: bv32)
    ensures FeedBit(c, bit) == Xor(Half(c), Poly(Low(Xor(c, bit))))
  {}

  lemma FeedBitIsStep(c: bv32, y: bv32)
    ensures BitStep(Xor(c, y)) == Xor(FeedBit(c, Low(y)), Half(y))
  {
    hide Xor, Half, Low, Poly, BitStep, FeedBit;
    BitStepIs(Xor(c, y));
    FeedBitIs(c, Low(y));
    HalfXor(c, y);
    LowXor(c, y);
    XorSwap(Half(c), Half(y), Poly(Low(Xor(c, y))));
  }

  function BitSteps(c: bv32, n: nat): bv32
    decreases n
  {
    if n == 0 then c else BitSteps(BitStep(c), n - 1)
  }

  function Halved(y: bv32, n: nat): bv32
    decreases n
  {
    if n == 0 then y else Halved(Half(y), n - 1)
  }

  lemma {:induction false} FeedBitsIsSteps(c: bv32, y: bv32, n: nat)
    ensures BitSteps(Xor(c, y), n) == Xor(FeedBits(c, y, n), Halved(y, n))
    decreases n
  {
    hide Xor, Half, Low, BitStep, FeedBit;
    if n > 0 {
      FeedBitIsStep(c, y);
      FeedBitsIsSteps(FeedBit(c, Low(y)), Half(y), n - 1);
    }
  }

  lemma HalvedByte(b: bv8)
    ensures Halved(b as bv32, 8) == 0
  {}

  lemma ByteStepIsBitSteps(c: bv32)
    ensures ByteStep(c) == BitSteps(c, 8)
  {}

  /** Feeding the eight bits of a byte is eight steps of the register with the byte mixed in. */
  lemma FeedByteIsByteStep(c: bv32, b: bv8)
    ensures FeedByte(c, b) == ByteStep(Xor(c, b as bv32))
  {
    hide Xor, BitStep, FeedBits, BitSteps, Halved, ByteStep;
    FeedBitsIsSteps(c, b as bv32, 8);
    HalvedByte(b);
    XorZero(FeedBits(c, b as bv32, 8));
    ByteStepIsBitSteps(Xor(c, b as bv32));
  }

  // ---------------------------------------------------------------- linearity

  /** The lowest n bits of y are clear. */
  ghost predicate ClearBelow(y: bv32, n: nat)
    decreases n
  {
    n == 0 || (Low(y) == 0 && ClearBelow(Half(y), n - 1))
  }

  lemma BitStepAbove(c: bv32, y: bv32)
    requires Low(y) == 0
    ensures BitStep(Xor(c, y)) == Xor(BitStep(c), Half(y))
  {
    hide Xor, Half, Low, Poly, BitStep;
    BitStepIs(Xor(c, y));
    BitStepIs(c);
    HalfXor(c, y);
    LowXorEven(c, y);
    XorSwap(Half(c), Half(y), Poly(Low(c)));
  }

  lemma {:induction false} StepsAbove(c: bv32, y: bv32, n: nat)
    requires ClearBelow(y, n)
    ensures BitSteps(Xor(c, y), n) == Xor(BitSteps(c, n), Halved(y, n))
    decreases n
  {
    hide Xor, Half, Low, BitStep;
    if n > 0 {
      BitStepAbove(c, y);
      StepsAbove(BitStep(c), Half(y), n - 1);
    }
  }

  lemma ClearByte(y: bv32)
    requires LowByte(y) == 0
    ensures ClearBelow(y, 8) && Halved(y, 8) == DropByte(y)
  {}

  /** Bits above the lowest byte only shift down by a byte. */
  lemma ByteStepAbove(c: bv32, y: bv32)
    requires LowByte(y) == 0
    ensures ByteStep(Xor(c, y)) == Xor(ByteStep(c), DropByte(y))
  {
    hide LowByte, DropByte;
    ClearByte(y);
    hide Xor, ByteStep, BitSteps, ClearBelow, Halved;
    StepsAbove(c, y, 8);
    ByteStepIsBitSteps(Xor(c, y));
    ByteStepIsBitSteps(c);
  }

  lemma SplitWord(z: bv32)
    ensures LowByte(AboveByte(z)) == 0 && DropByte(AboveByte(z)) == DropByte(z)
    ensures Xor(LowByte(z), AboveByte(z)) == z
  {}

  lemma DropMixed(c: bv32, b: bv8)
    ensures DropByte(Xor(c, b as bv32)) == DropByte(c)
  {}

  lemma IndexIsWord(z: bv32)
    ensures LowByte(z) as nat < 256 && Word(LowByte(z) as nat) == LowByte(z)
  {}

  /** One pass of the loop of updateCrc32. */
  function TableStep(c: bv32, b: bv8): bv32 {
    var x := LowByte(Xor(c, b as bv32));
    IndexIsWord(Xor(c, b as bv32));
    Xor(TableAt(x as nat), DropByte(c))
  }

  /** The table step shifts in exactly the eight bits of its byte. */
  lemma TableStepIsFeedByte(c: bv32, b: bv8)
    ensures TableStep(c, b) == FeedByte(c, b)
  {
    hide TableAt, ByteStep, FeedByte, LowByte, AboveByte, DropByte, Xor, Word;
    var z := Xor(c, b as bv32);
    SplitWord(z);
    DropMixed(c, b);
    IndexIsWord(z);
    TableIsByteStep(LowByte(z) as nat);
    ByteStepAbove(LowByte(z), AboveByte(z));
    FeedByteIsByteStep(c, b);
  }

  // ---------------------------------------------------------------- updateCrc32

  /** updateCrc32: the table loop computes the bit-serial CRC; a null buffer is an empty one. */
  method UpdateCrc32(start: bv32, buffer: array?<bv8>, bufferLen: nat) returns (crc: bv32)
    requires buffer != null ==> bufferLen <= buffer.Length
    ensures crc == Crc(start, if buffer == null then [] else buffer[..bufferLen])
  {
    hide TableStep, FeedByte, Xor;
    var c := Xor(start, 0xFFFFFFFF);
    var len := bufferLen;
    if buffer == null {
      len := 0;
    }
    var i := 0;
    while i < len
      invariant 0 <= i <= len
      invariant buffer == null ==> c == Xor(start, 0xFFFFFFFF)
      invariant buffer != null ==> c == Register(Xor(start, 0xFFFFFFFF), buffer[..i])
    {
      TableStepIsFeedByte(c, buffer[i]);
      assert buffer[..i + 1][..i] == buffer[..i];
      c := TableStep(c, buffer[i]);
      i := i + 1;
    }
    crc := Xor(c, 0xFFFFFFFF);
  }

  // ---------------------------------------------------------------- chunks

  lemma {:induction false} RegisterAppend(c: bv32, a: seq<bv8>, b: seq<bv8>)
    ensures Register(c, a + b) == Register(Register(c, a), b)
    decreases |b|
  {
    hide FeedByte;
    if b == [] {
      assert a + b == a;
    } else {
      assert (a + b)[..|a + b| - 1] == a + b[..|b| - 1];
      RegisterAppend(c, a, b[..|b| - 1]);
    }
  }

  /** Updating chunk by chunk is updating once. */
  lemma CrcInChunks(start: bv32, a: seq<bv8>, b: seq<bv8>)
    ensures Crc(start, a + b) == Crc(Crc(start, a), b)
  {
    hide Xor, Register;
    RegisterAppend(Xor(start, 0xFFFFFFFF), a, b);
    XorUndo(Register(Xor(start, 0xFFFFFFFF), a), 0xFFFFFFFF);
  }

  // ---------------------------------------------------------------- error detection

  lemma BitStepInjective(x: bv32, y: bv32)
    requires BitStep(x) == BitStep(y)
    ensures x == y
  {}

  lemma {:induction false} BitStepsInjective(x: bv32, y: bv32, n: nat)
    requires BitSteps(x, n) == BitSteps(y, n)
    ensures x == y
    decreases n
  {
    hide BitStep;
    if n > 0 {
      BitStepsInjective(BitStep(x), BitStep(y), n - 1);
      BitStepInjective(x, y);
    }
  }

  lemma {:induction false} RegisterInjective(x: bv32, y: bv32, m: seq<bv8>)
    requires Register(x, m) == Register(y, m)
    ensures x == y
    decreases |m|
  {
    hide FeedByte, Xor, ByteStep, BitSteps;
    if m != [] {
      var front, b := m[..|m| - 1], m[|m| - 1];
      var p, q := Register(x, front), Register(y, front);
      FeedByteIsByteStep(p, b);
      FeedByteIsByteStep(q, b);
      ByteStepIsBitSteps(Xor(p, b as bv32));
      ByteStepIsBitSteps(Xor(q, b as bv32));
      BitStepsInjective(Xor(p, b as bv32), Xor(q, b as bv32), 8);
      XorUndo(p, b as bv32);
      XorUndo(q, b as bv32);
      RegisterInjective(x, y, front);
    }
  }

  /** The bytes of a window of at most four, packed little-endian. */
  function Packed(w: seq<bv8>): (p: bv32)
    requires |w| <= 4
    ensures |w| == 0 ==> p == 0
    ensures |w| <= 1 ==> p <= 0xFF
    ensures |w| <= 2 ==> p <= 0xFFFF
    ensures |w| <= 3 ==> p <= 0xFFFFFF
  {
    if w == [] then 0 else Pack(Packed(w[1..]), w[0])
  }

  function Pack(p: bv32, b: bv8): bv32 {
    Xor(LiftByte(p), b as bv32)
  }

  lemma PackInjective(p: bv32, q: bv32, a: bv8, b: bv8)
    requires p <= 0xFFFFFF && q <= 0xFFFFFF && Pack(p, a) == Pack(q, b)
    ensures p == q && a == b
  {}

  lemma {:induction false} PackedInjective(u: seq<bv8>, w: seq<bv8>)
    requires |u| == |w| <= 4 && Packed(u) == Packed(w)
    ensures u == w
  {
    hide Pack;
    if u != [] {
      PackInjective(Packed(u[1..]), Packed(w[1..]), u[0], w[0]);
      PackedInjective(u[1..], w[1..]);
      assert u == [u[0]] + u[1..] && w == [w[0]] + w[1..];
    }
  }

  lemma MixIn(c: bv32, p: bv32, b: bv8)
    requires p <= 0xFFFFFF
    ensures Xor(c, Pack(p, b)) == Xor(Xor(c, b as bv32), LiftByte(p))
    ensures LowByte(LiftByte(p)) == 0 && DropByte(LiftByte(p)) == p
  {
    LiftedByte(p);
    hide Xor, LiftByte, LowByte, DropByte;
    XorSwap(c, LiftByte(p), b as bv32);
  }

  lemma LiftedByte(p: bv32)
    requires p <= 0xFFFFFF
    ensures LowByte(LiftByte(p)) == 0 && DropByte(LiftByte(p)) == p
  {}

  lemma {:induction false} RegisterFront(c: bv32, w: seq<bv8>)
    requires w != []
    ensures Register(c, w) == Register(FeedByte(c, w[0]), w[1..])
  {
    hide FeedByte;
    assert w == [w[0]] + w[1..];
    RegisterAppend(c, [w[0]], w[1..]);
    assert [w[0]][..0] == [];
    assert Register(c, [w[0]]) == FeedByte(Register(c, []), w[0]);
  }

  lemma {:induction false} BitStepsAppend(c: bv32, m: nat, n: nat)
    ensures BitSteps(BitSteps(c, m), n) == BitSteps(c, m + n)
    decreases m
  {
    hide BitStep;
    if m > 0 {
      BitStepsAppend(BitStep(c), m - 1, n);
    }
  }

  /** Up to four bytes reach the register as if mixed in at once. */
  lemma {:induction false} WindowIsMix(c: bv32, w: seq<bv8>)
    requires |w| <= 4
    ensures Register(c, w) == BitSteps(Xor(c, Packed(w)), 8 * |w|)
    decreases |w|
  {
    if w == [] {
      XorZero(c);
    } else {
      hide Xor, FeedByte, Pack, ByteStep, BitSteps, Register, LowByte, DropByte, LiftByte;
      var p, b := Packed(w[1..]), w[0] as bv32;
      MixIn(c, p, w[0]);
      RegisterFront(c, w);
      FeedByteIsByteStep(c, w[0]);
      ByteStepAbove(Xor(c, b), LiftByte(p));
      WindowIsMix(FeedByte(c, w[0]), w[1..]);
      ByteStepIsBitSteps(Xor(c, Packed(w)));
      BitStepsAppend(Xor(c, Packed(w)), 8, 8 * |w[1..]|);
    }
  }

  /** Damage confined to a window of at most four consecutive bytes is always detected: two
      messages that differ there, and only there, never have the same CRC. */
  lemma WindowErrorDetected(start: bv32, before: seq<bv8>, u: seq<bv8>, w: seq<bv8>, after: seq<bv8>)
    requires |u| == |w| <= 4 && u != w
    ensures Crc(start, before + u + after) != Crc(start, before + w + after)
  {
    if Crc(start, before + u + after) == Crc(start, before + w + after) {
      hide Xor, Register, Packed, BitSteps;
      var s := Xor(start, 0xFFFFFFFF);
      var c := Register(s, before);
      XorUndo(Register(s, before + u + after), 0xFFFFFFFF);
      XorUndo(Register(s, before + w + after), 0xFFFFFFFF);
      RegisterAppend(s, before + u, after);
      RegisterAppend(s, before + w, after);
      RegisterInjective(Register(s, before + u), Register(s, before + w), after);
      RegisterAppend(s, before, u);
      RegisterAppend(s, before, w);
      WindowIsMix(c, u);
      WindowIsMix(c, w);
      BitStepsInjective(Xor(c, Packed(u)), Xor(c, Packed(w)), 8 * |u|);
      XorUndo(Packed(u), c);
      XorUndo(Packed(w), c);
      PackedInjective(u, w);
    }
  }

  /** In particular two equal-length buffers that differ in exactly one byte. */
  lemma OneByteErrorDetected(start: bv32, a: seq<bv8>, b: seq<bv8>, k: nat)
    requires |a| == |b| && k < |a| && a[k] != b[k]
    requires forall i | 0 <= i < |a| && i != k :: a[i] == b[i]
    ensures Crc(start, a) != Crc(start, b)
  {
    hide Crc;
    assert a == a[..k] + [a[k]] + a[k + 1..];
    assert b == a[..k] + [b[k]] + a[k + 1..];
    WindowErrorDetected(start, a[..k], [a[k]], [b[k]], a[k + 1..]);
  }
}
