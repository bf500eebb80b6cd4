/** The checksum of lib/vtrc/common/hash/crc32-impl.h: the CRC-32 of section 8 of RFC 1952. */
module Crc32 {
  import opened Bytes
  import opened Sequences

  const LENGTH: nat := 4

  function Pick(k: bv8, a: bv32, b: bv32, c: bv32, d: bv32): bv32 {
    if k & 2 == 0 then (if k & 1 == 0 then a else b) else if k & 1 == 0 then c else d
  }

  function Block0(k: bv8): bv32 {
    match k >> 2
    case 0 => Pick(k, 0x00000000, 0x77073096, 0xee0e612c, 0x990951ba)
    case 1 => Pick(k, 0x076dc419, 0x706af48f, 0xe963a535, 0x9e6495a3)
    case 2 => Pick(k, 0x0edb8832, 0x79dcb8a4, 0xe0d5e91e, 0x97d2d988)
    case 3 => Pick(k, 0x09b64c2b, 0x7eb17cbd, 0xe7b82d07, 0x90bf1d91)
    case 4 => Pick(k, 0x1db71064, 0x6ab020f2, 0xf3b97148, 0x84be41de)
    case 5 => Pick(k, 0x1adad47d, 0x6ddde4eb, 0xf4d4b551, 0x83d385c7)
    case 6 => Pick(k, 0x136c9856, 0x646ba8c0, 0xfd62f97a, 0x8a65c9ec)
    case 7 => Pick(k, 0x14015c4f, 0x63066cd9, 0xfa0f3d63, 0x8d080df5)
    case 8 => Pick(k, 0x3b6e20c8, 0x4c69105e, 0xd56041e4, 0xa2677172)
    case 9 => Pick(k, 0x3c03e4d1, 0x4b04d447, 0xd20d85fd, 0xa50ab56b)
    case 10 => Pick(k, 0x35b5a8fa, 0x42b2986c, 0xdbbbc9d6, 0xacbcf940)
    case 11 => Pick(k, 0x32d86ce3, 0x45df5c75, 0xdcd60dcf, 0xabd13d59)
    case 12 => Pick(k, 0x26d930ac, 0x51de003a, 0xc8d75180, 0xbfd06116)
    case 13 => Pick(k, 0x21b4f4b5, 0x56b3c423, 0xcfba9599, 0xb8bda50f)
    case 14 => Pick(k, 0x2802b89e, 0x5f058808, 0xc60cd9b2, 0xb10be924)
    case _  => Pick(k, 0x2f6f7c87, 0x58684c11, 0xc1611dab, 0xb6662d3d)
  }

  function Block1(k: bv8): bv32 {
    match k >> 2
    case 0 => Pick(k, 0x76dc4190, 0x01db7106, 0x98d220bc, 0xefd5102a)
    case 1 => Pick(k, 0x71b18589, 0x06b6b51f, 0x9fbfe4a5, 0xe8b8d433)
    case 2 => Pick(k, 0x7807c9a2, 0x0f00f934, 0x9609a88e, 0xe10e9818)
    case 3 => Pick(k, 0x7f6a0dbb, 0x086d3d2d, 0x91646c97, 0xe6635c01)
    case 4 => Pick(k, 0x6b6b51f4, 0x1c6c6162, 0x856530d8, 0xf262004e)
    case 5 => Pick(k, 0x6c0695ed, 0x1b01a57b, 0x8208f4c1, 0xf50fc457)
    case 6 => Pick(k, 0x65b0d9c6, 0x12b7e950, 0x8bbeb8ea, 0xfcb9887c)
    case 7 => Pick(k, 0x62dd1ddf, 0x15da2d49, 0x8cd37cf3, 0xfbd44c65)
    case 8 => Pick(k, 0x4db26158, 0x3ab551ce, 0xa3bc0074, 0xd4bb30e2)
    case 9 => Pick(k, 0x4adfa541, 0x3dd895d7, 0xa4d1c46d, 0xd3d6f4fb)
    case 10 => Pick(k, 0x4369e96a, 0x346ed9fc, 0xad678846, 0xda60b8d0)
    case 11 => Pick(k, 0x44042d73, 0x33031de5, 0xaa0a4c5f, 0xdd0d7cc9)
    case 12 => Pick(k, 0x5005713c, 0x270241aa, 0xbe0b1010, 0xc90c2086)
    case 13 => Pick(k, 0x5768b525, 0x206f85b3, 0xb966d409, 0xce61e49f)
    case 14 => Pick(k, 0x5edef90e, 0x29d9c998, 0xb0d09822, 0xc7d7a8b4)
    case _  => Pick(k, 0x59b33d17, 0x2eb40d81, 0xb7bd5c3b, 0xc0ba6cad)
  }

  function Block2(k: bv8): bv32 {
    match k >> 2
    case 0 => Pick(k, 0xedb88320, 0x9abfb3b6, 0x03b6e20c, 0x74b1d29a)
    case 1 => Pick(k, 0xead54739, 0x9dd277af, 0x04db2615, 0x73dc1683)
    case 2 => Pick(k, 0xe3630b12, 0x94643b84, 0x0d6d6a3e, 0x7a6a5aa8)
    case 3 => Pick(k, 0xe40ecf0b, 0x9309ff9d, 0x0a00ae27, 0x7d079eb1)
    case 4 => Pick(k, 0xf00f9344, 0x8708a3d2, 0x1e01f268, 0x6906c2fe)
    case 5 => Pick(k, 0xf762575d, 0x806567cb, 0x196c3671, 0x6e6b06e7)
    case 6 => Pick(k, 0xfed41b76, 0x89d32be0, 0x10da7a5a, 0x67dd4acc)
    case 7 => Pick(k, 0xf9b9df6f, 0x8ebeeff9, 0x17b7be43, 0x60b08ed5)
    case 8 => Pick(k, 0xd6d6a3e8, 0xa1d1937e, 0x38d8c2c4, 0x4fdff252)
    case 9 => Pick(k, 0xd1bb67f1, 0xa6bc5767, 0x3fb506dd, 0x48b2364b)
    case 10 => Pick(k, 0xd80d2bda, 0xaf0a1b4c, 0x36034af6, 0x41047a60)
    case 11 => Pick(k, 0xdf60efc3, 0xa867df55, 0x316e8eef, 0x4669be79)
    case 12 => Pick(k, 0xcb61b38c, 0xbc66831a, 0x256fd2a0, 0x5268e236)
    case 13 => Pick(k, 0xcc0c7795, 0xbb0b4703, 0x220216b9, 0x5505262f)
    case 14 => Pick(k, 0xc5ba3bbe, 0xb2bd0b28, 0x2bb45a92, 0x5cb36a04)
    case _  => Pick(k, 0xc2d7ffa7, 0xb5d0cf31, 0x2cd99e8b, 0x5bdeae1d)
  }

  function Block3(k: bv8): bv32 {
    match k >> 2
    case 0 => Pick(k, 0x9b64c2b0, 0xec63f226, 0x756aa39c, 0x026d930a)
    case 1 => Pick(k, 0x9c0906a9, 0xeb0e363f, 0x72076785, 0x05005713)
    case 2 => Pick(k, 0x95bf4a82, 0xe2b87a14, 0x7bb12bae, 0x0cb61b38)
    case 3 => Pick(k, 0x92d28e9b, 0xe5d5be0d, 0x7cdcefb7, 0x0bdbdf21)
    case 4 => Pick(k, 0x86d3d2d4, 0xf1d4e242, 0x68ddb3f8, 0x1fda836e)
    case 5 => Pick(k, 0x81be16cd, 0xf6b9265b, 0x6fb077e1, 0x18b74777)
    case 6 => Pick(k, 0x88085ae6, 0xff0f6a70, 0x66063bca, 0x11010b5c)
    case 7 => Pick(k, 0x8f659eff, 0xf862ae69, 0x616bffd3, 0x166ccf45)
    case 8 => Pick(k, 0xa00ae278, 0xd70dd2ee, 0x4e048354, 0x3903b3c2)
    case 9 => Pick(k, 0xa7672661, 0xd06016f7, 0x4969474d, 0x3e6e77db)
    case 10 => Pick(k, 0xaed16a4a, 0xd9d65adc, 0x40df0b66, 0x37d83bf0)
    case 11 => Pick(k, 0xa9bcae53, 0xdebb9ec5, 0x47b2cf7f, 0x30b5ffe9)
    case 12 => Pick(k, 0xbdbdf21c, 0xcabac28a, 0x53b39330, 0x24b4a3a6)
    case 13 => Pick(k, 0xbad03605, 0xcdd70693, 0x54de5729, 0x23d967bf)
    case 14 => Pick(k, 0xb3667a2e, 0xc4614ab8, 0x5d681b02, 0x2a6f2b94)
    case _  => Pick(k, 0xb40bbe37, 0xc30c8ea1, 0x5a05df1b, 0x2d02ef8d)
  }

  /** The table, indexed by the low octet. */
  function GetValue(id: bv8): bv32 {
    match id >> 6
    case 0 => Block0(id)
    case 1 => Block1(id & 0x3f)
    case 2 => Block2(id & 0x3f)
    case _ => Block3(id & 0x3f)
  }

  /** One step of the division by the reflected polynomial. */
  function BitStep(c: bv32): bv32 {
    if c & 1 == 1 then (c >> 1) ^ 0xedb88320 else c >> 1
  }

  function EightSteps(c: bv32): bv32 {
    BitStep(BitStep(BitStep(BitStep(BitStep(BitStep(BitStep(BitStep(c))))))))
  }

  // ---- the division is linear and loses nothing --------------------------------------------

  /** Addition of polynomials over the two-element field. */
  function Plus(a: bv32, b: bv32): bv32 {
    a ^ b
  }

  lemma ShiftXor(a: bv32, b: bv32)
    ensures (a ^ b) >> 1 == (a >> 1) ^ (b >> 1)
  {
  }

  lemma FoldBoth(x: bv32, y: bv32)
    ensures (x ^ 0xedb88320) ^ (y ^ 0xedb88320) == x ^ y
  {
  }

  lemma FoldFirst(x: bv32, y: bv32)
    ensures (x ^ 0xedb88320) ^ y == (x ^ y) ^ 0xedb88320
  {
  }

  lemma BothOdd(a: bv32, b: bv32)
    requires a & 1 == 1 && b & 1 == 1
    ensures BitStep(a ^ b) == BitStep(a) ^ BitStep(b)
  {
    ShiftXor(a, b);
    FoldBoth(a >> 1, b >> 1);
    assert (a ^ b) & 1 == 0;
  }

  lemma FirstOdd(a: bv32, b: bv32)
    requires a & 1 == 1 && b & 1 == 0
    ensures BitStep(a ^ b) == BitStep(a) ^ BitStep(b)
  {
    ShiftXor(a, b);
    FoldFirst(a >> 1, b >> 1);
    assert (a ^ b) & 1 == 1;
  }

  lemma BothEven(a: bv32, b: bv32)
    requires a & 1 == 0 && b & 1 == 0
    ensures BitStep(a ^ b) == BitStep(a) ^ BitStep(b)
  {
    ShiftXor(a, b);
    assert (a ^ b) & 1 == 0;
  }

  lemma LowBit(a: bv32)
    ensures a & 1 == 0 || a & 1 == 1
  {
  }

  lemma XorCommutes(a: bv32, b: bv32)
    ensures a ^ b == b ^ a
  {
  }

  lemma BitStepLinear(a: bv32, b: bv32)
    ensures BitStep(Plus(a, b)) == Plus(BitStep(a), BitStep(b))
  {
    hide BitStep;
    LowBit(a);
    LowBit(b);
    if a & 1 == 0 {
      if b & 1 == 0 {
        BothEven(a, b);
      } else {
        FirstOdd(b, a);
        XorCommutes(a, b);
        XorCommutes(BitStep(a), BitStep(b));
      }
    } else if b & 1 == 0 {
      FirstOdd(a, b);
    } else {
      BothOdd(a, b);
    }
  }

  lemma EightStepsLinear(a: bv32, b: bv32)
    ensures EightSteps(Plus(a, b)) == Plus(EightSteps(a), EightSteps(b))
  {
    hide BitStep, Plus;
    var a1, b1 := BitStep(a), BitStep(b);
    var a2, b2 := BitStep(a1), BitStep(b1);
    var a3, b3 := BitStep(a2), BitStep(b2);
    var a4, b4 := BitStep(a3), BitStep(b3);
    var a5, b5 := BitStep(a4), BitStep(b4);
    var a6, b6 := BitStep(a5), BitStep(b5);
    var a7, b7 := BitStep(a6), BitStep(b6);
    BitStepLinear(a, b);
    BitStepLinear(a1, b1);
    BitStepLinear(a2, b2);
    BitStepLinear(a3, b3);
    BitStepLinear(a4, b4);
    BitStepLinear(a5, b5);
    BitStepLinear(a6, b6);
    BitStepLinear(a7, b7);
  }

  lemma BitStepInjective(a: bv32, b: bv32)
    requires BitStep(a) == BitStep(b)
    ensures a == b
  {
  }

  lemma EightStepsInjective(a: bv32, b: bv32)
    requires EightSteps(a) == EightSteps(b)
    ensures a == b
  {
    hide BitStep;
    var a1, b1 := BitStep(a), BitStep(b);
    var a2, b2 := BitStep(a1), BitStep(b1);
    var a3, b3 := BitStep(a2), BitStep(b2);
    var a4, b4 := BitStep(a3), BitStep(b3);
    var a5, b5 := BitStep(a4), BitStep(b4);
    var a6, b6 := BitStep(a5), BitStep(b5);
    var a7, b7 := BitStep(a6), BitStep(b6);
    BitStepInjective(a7, b7);
    BitStepInjective(a6, b6);
    BitStepInjective(a5, b5);
    BitStepInjective(a4, b4);
    BitStepInjective(a3, b3);
    BitStepInjective(a2, b2);
    BitStepInjective(a1, b1);
    BitStepInjective(a, b);
  }

  // ---- the table ---------------------------------------------------------------------------

  lemma Quarters(k: bv8)
    requires k < 64
    ensures k >> 4 == 0 || k >> 4 == 1 || k >> 4 == 2 || k >> 4 == 3
  {
  }

  // Each block of 64 entries, sixteen at a time.

  lemma Block0Quarter0(k: bv8)
    requires k >> 4 == 0
    ensures Block0(k) == EightSteps(k as bv32)
  {
  }

  lemma Block0Quarter1(k: bv8)
    requires k >> 4 == 1
    ensures Block0(k) == EightSteps(k as bv32)
  {
  }

  lemma Block0Quarter2(k: bv8)
    requires k >> 4 == 2
    ensures Block0(k) == EightSteps(k as bv32)
  {
  }

  lemma Block0Quarter3(k: bv8)
    requires k >> 4 == 3
    ensures Block0(k) == EightSteps(k as bv32)
  {
  }

  lemma Block0Is(k: bv8)
    requires k < 64
    ensures Block0(k) == EightSteps(k as bv32)
  {
    Quarters(k);
    hide Block0, EightSteps;
    if k >> 4 == 0 {
      Block0Quarter0(k);
    } else if k >> 4 == 1 {
      Block0Quarter1(k);
    } else if k >> 4 == 2 {
      Block0Quarter2(k);
    } else {
      Block0Quarter3(k);
    }
  }

  lemma Block1Quarter0(k: bv8)
    requires k >> 4 == 0
    ensures Block1(k) == EightSteps(k as bv32) ^ 0x76dc4190
  {
  }

  lemma Block1Quarter1(k: bv8)
    requires k >> 4 == 1
    ensures Block1(k) == EightSteps(k as bv32) ^ 0x76dc4190
  {
  }

  lemma Block1Quarter2(k: bv8)
    requires k >> 4 == 2
    ensures Block1(k) == EightSteps(k as bv32) ^ 0x76dc4190
  {
  }

  lemma Block1Quarter3(k: bv8)
    requires k >> 4 == 3
    ensures Block1(k) == EightSteps(k as bv32) ^ 0x76dc4190
  {
  }

  lemma Block1Is(k: bv8)
    requires k < 64
    ensures Block1(k) == EightSteps(k as bv32) ^ 0x76dc4190
  {
    Quarters(k);
    hide Block1, EightSteps;
    if k >> 4 == 0 {
      Block1Quarter0(k);
    } else if k >> 4 == 1 {
      Block1Quarter1(k);
    } else if k >> 4 == 2 {
      Block1Quarter2(k);
    } else {
      Block1Quarter3(k);
    }
  }

  lemma Block2Quarter0(k: bv8)
    requires k >> 4 == 0
    ensures Block2(k) == EightSteps(k as bv32) ^ 0xedb88320
  {
  }

  lemma Block2Quarter1(k: bv8)
    requires k >> 4 == 1
    ensures Block2(k) == EightSteps(k as bv32) ^ 0xedb88320
  {
  }

  lemma Block2Quarter2(k: bv8)
    requires k >> 4 == 2
    ensures Block2(k) == EightSteps(k as bv32) ^ 0xedb88320
  {
  }

  lemma Block2Quarter3(k: bv8)
    requires k >> 4 == 3
    ensures Block2(k) == EightSteps(k as bv32) ^ 0xedb88320
  {
  }

  lemma Block2Is(k: bv8)
    requires k < 64
    ensures Block2(k) == EightSteps(k as bv32) ^ 0xedb88320
  {
    Quarters(k);
    hide Block2, EightSteps;
    if k >> 4 == 0 {
      Block2Quarter0(k);
    } else if k >> 4 == 1 {
      Block2Quarter1(k);
    } else if k >> 4 == 2 {
      Block2Quarter2(k);
    } else {
      Block2Quarter3(k);
    }
  }

  lemma Block3Quarter0(k: bv8)
    requires k >> 4 == 0
    ensures Block3(k) == EightSteps(k as bv32) ^ 0x9b64c2b0
  {
  }

  lemma Block3Quarter1(k: bv8)
    requires k >> 4 == 1
    ensures Block3(k) == EightSteps(k as bv32) ^ 0x9b64c2b0
  {
  }

  lemma Block3Quarter2(k: bv8)
    requires k >> 4 == 2
    ensures Block3(k) == EightSteps(k as bv32) ^ 0x9b64c2b0
  {
  }

  lemma Block3Quarter3(k: bv8)
    requires k >> 4 == 3
    ensures Block3(k) == EightSteps(k as bv32) ^ 0x9b64c2b0
  {
  }

  lemma Block3Is(k: bv8)
    requires k < 64
    ensures Block3(k) == EightSteps(k as bv32) ^ 0x9b64c2b0
  {
    Quarters(k);
    hide Block3, EightSteps;
    if k >> 4 == 0 {
      Block3Quarter0(k);
    } else if k >> 4 == 1 {
      Block3Quarter1(k);
    } else if k >> 4 == 2 {
      Block3Quarter2(k);
    } else {
      Block3Quarter3(k);
    }
  }

  lemma BlockStarts()
    ensures EightSteps(0x40) == 0x76dc4190 && EightSteps(0x80) == 0xedb88320 && EightSteps(0xc0) == 0x9b64c2b0
  {
  }

  lemma TopBits(id: bv8)
    ensures id & 0x3f < 64
    ensures id >> 6 == 0 ==> id == id & 0x3f
    ensures id >> 6 == 1 ==> id as bv32 == (id & 0x3f) as bv32 ^ 0x40
    ensures id >> 6 == 2 ==> id as bv32 == (id & 0x3f) as bv32 ^ 0x80
    ensures id >> 6 == 0 || id >> 6 == 1 || id >> 6 == 2 || id as bv32 == (id & 0x3f) as bv32 ^ 0xc0
  {
  }

  /** Every table entry is its index taken through eight bit-serial steps. */
  lemma TableIs(id: bv8)
    ensures GetValue(id) == EightSteps(id as bv32)
  {
    hide Block0, Block1, Block2, Block3, EightSteps;
    var k := id & 0x3f;
    TopBits(id);
    BlockStarts();
    if id >> 6 == 0 {
      Block0Is(k);
    } else if id >> 6 == 1 {
      Block1Is(k);
      EightStepsLinear(k as bv32, 0x40);
    } else if id >> 6 == 2 {
      Block2Is(k);
      EightStepsLinear(k as bv32, 0x80);
    } else {
      Block3Is(k);
      EightStepsLinear(k as bv32, 0xc0);
    }
  }

  function LowOctet(x: bv32): bv8 {
    (x & 0xff) as bv8
  }

  function HighOctets(x: bv32): bv32 {
    x & 0xffffff00
  }

  function DropOctet(x: bv32): bv32 {
    x >> 8
  }

  function Update(register: bv32, val: bv8): bv32 {
    Plus(GetValue(LowOctet(Plus(register, val as bv32))), DropOctet(register))
  }

  lemma SplitLow(t: bv32)
    ensures t == Plus(LowOctet(t) as bv32, HighOctets(t))
  {
  }

  lemma HighOctetsPlus(register: bv32, val: bv8)
    ensures HighOctets(Plus(register, val as bv32)) == HighOctets(register)
  {
    hide HighOctets, Plus;
    var v := val as bv32;
    PlusIs(register, v);
    HighOctetsIs(Plus(register, v));
    HighOctetsIs(register);
    MaskedXor(register, val);
  }

  lemma PlusIs(a: bv32, b: bv32)
    ensures Plus(a, b) == a ^ b
  {
  }

  lemma HighOctetsIs(a: bv32)
    ensures HighOctets(a) == a & 0xffffff00
  {
  }

  lemma MaskedXor(register: bv32, val: bv8)
    ensures (register ^ (val as bv32)) & 0xffffff00 == register & 0xffffff00
  {
  }

  /** Eight steps only shift a value whose low octet is zero. */
  lemma EightStepsShift(register: bv32)
    ensures EightSteps(HighOctets(register)) == DropOctet(register)
  {
  }

  /** The table-driven update is eight steps of the register with the octet folded in. */
  lemma UpdateIs(register: bv32, val: bv8)
    ensures Update(register, val) == EightSteps(Plus(register, val as bv32))
  {
    hide GetValue, EightSteps, LowOctet, HighOctets, DropOctet, Plus;
    var t := Plus(register, val as bv32);
    HighOctetsPlus(register, val);
    SplitLow(t);
    TableIs(LowOctet(t));
    EightStepsLinear(LowOctet(t) as bv32, HighOctets(t));
    EightStepsShift(register);
  }

  // ---- octets ------------------------------------------------------------------------------

  function BitOf(a: int, weight: nat): int
    requires weight > 0
  {
    a / weight % 2
  }

  function Bit(a: byte, weight: nat): bool
    requires weight > 0
  {
    BitOf(a, weight) == 1
  }

  /** An octet as eight bits. */
  function Bits(a: byte): bv8 {
    (if Bit(a, 1) then 0x01 else 0) | (if Bit(a, 2) then 0x02 else 0) |
    (if Bit(a, 4) then 0x04 else 0) | (if Bit(a, 8) then 0x08 else 0) |
    (if Bit(a, 16) then 0x10 else 0) | (if Bit(a, 32) then 0x20 else 0) |
    (if Bit(a, 64) then 0x40 else 0) | (if Bit(a, 128) then 0x80 else 0)
  }

  lemma EqualBits(a: byte, b: byte)
    requires Bits(a) == Bits(b)
    ensures Bit(a, 1) == Bit(b, 1) && Bit(a, 2) == Bit(b, 2) && Bit(a, 4) == Bit(b, 4) && Bit(a, 8) == Bit(b, 8)
    ensures Bit(a, 16) == Bit(b, 16) && Bit(a, 32) == Bit(b, 32) && Bit(a, 64) == Bit(b, 64)
            && Bit(a, 128) == Bit(b, 128)
  {
    hide Bit;
  }

  function Over(a: int, weight: nat): int
    requires weight > 0
  {
    a / weight
  }

  predicate Weight(w: nat) {
    w == 1 || w == 2 || w == 4 || w == 8 || w == 16 || w == 32 || w == 64 || w == 128
  }

  lemma LowDigit(a: int)
    requires a >= 0
    ensures Over(a, 1) == 2 * Over(a, 2) + BitOf(a, 1) && Over(a, 2) == 2 * Over(a, 4) + BitOf(a, 2)
    ensures Over(a, 4) == 2 * Over(a, 8) + BitOf(a, 4) && Over(a, 8) == 2 * Over(a, 16) + BitOf(a, 8)
  {
  }

  lemma HighDigit(a: int)
    requires a >= 0
    ensures Over(a, 16) == 2 * Over(a, 32) + BitOf(a, 16) && Over(a, 32) == 2 * Over(a, 64) + BitOf(a, 32)
    ensures Over(a, 64) == 2 * Over(a, 128) + BitOf(a, 64) && Over(a, 128) == 2 * Over(a, 256) + BitOf(a, 128)
  {
  }

  lemma Digit(a: int, weight: nat)
    requires Weight(weight) && a >= 0
    ensures Over(a, weight) == 2 * Over(a, 2 * weight) + BitOf(a, weight)
  {
    LowDigit(a);
    HighDigit(a);
    hide Over, BitOf;
  }

  lemma BitIsBinary(a: int, weight: nat)
    requires weight > 0
    ensures BitOf(a, weight) == 0 || BitOf(a, weight) == 1
  {
  }

  lemma SameBit(a: byte, b: byte, weight: nat)
    requires weight > 0 && Bit(a, weight) == Bit(b, weight)
    ensures BitOf(a, weight) == BitOf(b, weight)
  {
    BitIsBinary(a, weight);
    BitIsBinary(b, weight);
  }

  /** The quotients agree at a weight if they agree above it and the bit there is the same. */
  lemma SameQuotient(a: byte, b: byte, weight: nat)
    requires Weight(weight) && Bit(a, weight) == Bit(b, weight)
    requires Over(a, 2 * weight) == Over(b, 2 * weight)
    ensures Over(a, weight) == Over(b, weight)
  {
    hide BitOf, Over;
    SameBit(a, b, weight);
    Digit(a, weight);
    Digit(b, weight);
  }

  lemma NothingAbove(a: byte)
    ensures Over(a, 256) == 0 && Over(a, 1) == a
  {
  }

  lemma UpperBits(a: byte, b: byte)
    requires Bits(a) == Bits(b)
    ensures Over(a, 16) == Over(b, 16)
  {
    hide Bit, Bits, Over;
    EqualBits(a, b);
    NothingAbove(a);
    NothingAbove(b);
    SameQuotient(a, b, 128);
    SameQuotient(a, b, 64);
    SameQuotient(a, b, 32);
    SameQuotient(a, b, 16);
  }

  lemma BitsInjective(a: byte, b: byte)
    requires Bits(a) == Bits(b)
    ensures a == b
  {
    hide Bit, Bits, Over;
    EqualBits(a, b);
    UpperBits(a, b);
    SameQuotient(a, b, 8);
    SameQuotient(a, b, 4);
    SameQuotient(a, b, 2);
    SameQuotient(a, b, 1);
    NothingAbove(a);
    NothingAbove(b);
  }

  /** The four octets of a register, the highest first. */
  function Octets(c: bv32): (s: seq<byte>)
    ensures |s| == LENGTH
  {
    [((c >> 24) & 0xff) as bv8 as int, ((c >> 16) & 0xff) as bv8 as int,
     ((c >> 8) & 0xff) as bv8 as int, (c & 0xff) as bv8 as int]
  }

  lemma OctetInjective(x: bv8, y: bv8)
    requires x as int == y as int
    ensures x == y
  {
  }

  lemma OctetsDetermine(a: bv32, b: bv32)
    requires (a >> 24) & 0xff == (b >> 24) & 0xff && (a >> 16) & 0xff == (b >> 16) & 0xff
    requires (a >> 8) & 0xff == (b >> 8) & 0xff && a & 0xff == b & 0xff
    ensures a == b
  {
  }

  lemma OctetsInjective(a: bv32, b: bv32)
    requires Octets(a) == Octets(b)
    ensures a == b
  {
    var s, t := Octets(a), Octets(b);
    assert s[0] == t[0] && s[1] == t[1] && s[2] == t[2] && s[3] == t[3];
    OctetInjective(((a >> 24) & 0xff) as bv8, ((b >> 24) & 0xff) as bv8);
    OctetInjective(((a >> 16) & 0xff) as bv8, ((b >> 16) & 0xff) as bv8);
    OctetInjective(((a >> 8) & 0xff) as bv8, ((b >> 8) & 0xff) as bv8);
    OctetInjective((a & 0xff) as bv8, (b & 0xff) as bv8);
    OctetsDetermine(a, b);
  }

  // ---- the checksum ------------------------------------------------------------------------

  /** The register after some octets. */
  function Run(register: bv32, data: seq<byte>): bv32
    decreases |data|
  {
    if data == [] then register else Run(Update(register, Bits(data[0])), data[1..])
  }

  function Complement(x: bv32): bv32 {
    !x
  }

  function Value(data: seq<byte>): bv32 {
    Complement(Run(0xffffffff, data))
  }

  function Get(data: seq<byte>): (hash: seq<byte>)
    ensures |hash| == LENGTH
  {
    Octets(Value(data))
  }

  predicate Check(data: seq<byte>, hash: seq<byte>)
  {
    |hash| >= LENGTH && hash[..LENGTH] == Get(data)
  }

  // ---- what it detects ---------------------------------------------------------------------

  lemma {:induction false} RunConcat(register: bv32, a: seq<byte>, b: seq<byte>)
    ensures Run(register, a + b) == Run(Run(register, a), b)
    decreases |a|
  {
    hide Update, Bits;
    if a == [] {
      assert a + b == b;
    } else {
      RunConcat(Update(register, Bits(a[0])), a[1..], b);
      assert (a + b)[1..] == a[1..] + b;
    }
  }

  lemma PlusCancels(x: bv32, y: bv32, v: bv32)
    requires Plus(x, v) == Plus(y, v)
    ensures x == y
  {
  }

  lemma UpdateInjective(x: bv32, y: bv32, val: bv8)
    requires Update(x, val) == Update(y, val)
    ensures x == y
  {
    hide Update, EightSteps, Plus;
    UpdateIs(x, val);
    UpdateIs(y, val);
    EightStepsInjective(Plus(x, val as bv32), Plus(y, val as bv32));
    PlusCancels(x, y, val as bv32);
  }

  /** Registers that differ stay different over the same octets. */
  lemma {:induction false} RunInjective(x: bv32, y: bv32, data: seq<byte>)
    ensures Run(x, data) == Run(y, data) <==> x == y
    decreases |data|
  {
    hide Update, Bits;
    if data != [] {
      var v := Bits(data[0]);
      RunInjective(Update(x, v), Update(y, v), data[1..]);
      if Update(x, v) == Update(y, v) {
        UpdateInjective(x, y, v);
      }
    }
  }

  function Shift8(x: bv32): bv32 {
    x << 8
  }

  /** Up to four octets as a little-endian word. */
  function Word(w: seq<byte>): bv32 {
    if w == [] then 0 else Plus(Bits(w[0]) as bv32, Shift8(Word(w[1..])))
  }

  /** The top octet is clear. */
  predicate Small(x: bv32) {
    x & 0xff000000 == 0
  }

  predicate OneOctet(x: bv32) {
    x & 0xffffff00 == 0
  }

  predicate TwoOctets(x: bv32) {
    x & 0xffff0000 == 0
  }

  lemma JoinNothing(v: bv8)
    ensures OneOctet(Plus(v as bv32, Shift8(0)))
  {
  }

  lemma JoinOne(v: bv8, x: bv32)
    requires OneOctet(x)
    ensures TwoOctets(Plus(v as bv32, Shift8(x)))
  {
  }

  lemma JoinTwo(v: bv8, x: bv32)
    requires TwoOctets(x)
    ensures Small(Plus(v as bv32, Shift8(x)))
  {
  }

  lemma OneIsSmall(x: bv32)
    requires OneOctet(x)
    ensures Small(x)
  {
  }

  lemma TwoAreSmall(x: bv32)
    requires TwoOctets(x)
    ensures Small(x)
  {
  }

  lemma NoneIsSmall()
    ensures Small(0)
  {
  }

  lemma WordOfOne(w: seq<byte>)
    requires |w| == 1
    ensures OneOctet(Word(w))
  {
    hide Plus, Shift8, Bits, OneOctet;
    assert w[1..] == [];
    JoinNothing(Bits(w[0]));
  }

  lemma WordOfTwo(w: seq<byte>)
    requires |w| == 2
    ensures TwoOctets(Word(w))
  {
    hide Plus, Shift8, Bits, OneOctet, TwoOctets;
    WordOfOne(w[1..]);
    JoinOne(Bits(w[0]), Word(w[1..]));
  }

  lemma WordOfThree(w: seq<byte>)
    requires |w| == 3
    ensures Small(Word(w))
  {
    hide Plus, Shift8, Bits, TwoOctets, Small;
    WordOfTwo(w[1..]);
    JoinTwo(Bits(w[0]), Word(w[1..]));
  }

  lemma SmallWord(w: seq<byte>)
    requires |w| <= 3
    ensures Small(Word(w))
  {
    hide Plus, Shift8, Bits, OneOctet, TwoOctets, Small;
    if |w| == 0 {
      NoneIsSmall();
    } else if |w| == 1 {
      WordOfOne(w);
      OneIsSmall(Word(w));
    } else if |w| == 2 {
      WordOfTwo(w);
      TwoAreSmall(Word(w));
    } else {
      WordOfThree(w);
    }
  }

  lemma JoinInjective(v: bv8, v': bv8, x: bv32, x': bv32)
    requires Small(x) && Small(x')
    requires Plus(v as bv32, Shift8(x)) == Plus(v' as bv32, Shift8(x'))
    ensures v == v' && x == x'
  {
  }

  lemma {:induction false} WordInjective(w: seq<byte>, w': seq<byte>)
    requires |w| == |w'| <= 4 && Word(w) == Word(w')
    ensures w == w'
  {
    if w != [] {
      hide Plus, Shift8, Bits, Small;
      var t, t' := w[1..], w'[1..];
      SmallWord(t);
      SmallWord(t');
      JoinInjective(Bits(w[0]), Bits(w'[0]), Word(t), Word(t'));
      BitsInjective(w[0], w'[0]);
      WordInjective(t, t');
      assert w == [w[0]] + t && w' == [w'[0]] + t';
    }
  }

  function Steps(x: bv32, octets: nat): bv32
    decreases octets
  {
    if octets == 0 then x else Steps(EightSteps(x), octets - 1)
  }

  lemma {:induction false} StepsInjective(x: bv32, y: bv32, octets: nat)
    requires Steps(x, octets) == Steps(y, octets)
    ensures x == y
    decreases octets
  {
    if octets > 0 {
      hide EightSteps;
      StepsInjective(EightSteps(x), EightSteps(y), octets - 1);
      EightStepsInjective(x, y);
    }
  }

  lemma ShiftedSteps(x: bv32)
    requires Small(x)
    ensures EightSteps(Shift8(x)) == x
  {
  }

  lemma PlusAssociates(x: bv32, y: bv32, z: bv32)
    ensures Plus(Plus(x, y), z) == Plus(x, Plus(y, z))
  {
  }

  lemma PlusZero(x: bv32)
    ensures Plus(x, 0) == x
  {
  }

  /** Up to four octets enter the register as one word. */
  lemma {:induction false} RunIsSteps(register: bv32, w: seq<byte>)
    requires |w| <= 4
    ensures Run(register, w) == Steps(Plus(register, Word(w)), |w|)
    decreases |w|
  {
    hide Plus, Shift8, Bits, Small, EightSteps, Update;
    if w == [] {
      PlusZero(register);
    } else {
      var v, t := Bits(w[0]), w[1..];
      var s := Plus(register, v as bv32);
      UpdateIs(register, v);
      RunIsSteps(EightSteps(s), t);
      SmallWord(t);
      ShiftedSteps(Word(t));
      EightStepsLinear(s, Shift8(Word(t)));
      PlusAssociates(register, v as bv32, Shift8(Word(t)));
    }
  }

  lemma ComplementInjective(x: bv32, y: bv32)
    requires Complement(x) == Complement(y)
    ensures x == y
  {
  }

  lemma PlusCancelsLeft(c: bv32, x: bv32, y: bv32)
    requires Plus(c, x) == Plus(c, y)
    ensures x == y
  {
  }

  /** What get wrote, check accepts. */
  lemma CheckAcceptsGet(data: seq<byte>, more: seq<byte>)
    ensures Check(data, Get(data) + more)
  {
    hide Get;
    assert (Get(data) + more)[..LENGTH] == Get(data);
  }

  /** Registers tell apart words of the same length, up to four octets. */
  lemma RunSeparates(c: bv32, w: seq<byte>, w': seq<byte>)
    requires |w| == |w'| <= 4 && Run(c, w) == Run(c, w')
    ensures w == w'
  {
    hide Run, Word, Steps, Plus;
    RunIsSteps(c, w);
    RunIsSteps(c, w');
    StepsInjective(Plus(c, Word(w)), Plus(c, Word(w')), |w|);
    PlusCancelsLeft(c, Word(w), Word(w'));
    WordInjective(w, w');
  }

  lemma RunThreeParts(register: bv32, a: seq<byte>, b: seq<byte>, c: seq<byte>)
    ensures Run(register, a + b + c) == Run(Run(Run(register, a), b), c)
  {
    hide Run;
    RunConcat(register, a + b, c);
    RunConcat(register, a, b);
  }

  lemma GetInjective(a: seq<byte>, b: seq<byte>)
    requires Get(a) == Get(b)
    ensures Run(0xffffffff, a) == Run(0xffffffff, b)
  {
    hide Run, Octets, Complement;
    OctetsInjective(Value(a), Value(b));
    ComplementInjective(Run(0xffffffff, a), Run(0xffffffff, b));
  }

  /**
   * Any change confined to four consecutive octets is detected, wherever it is and however long
   * the data.
   */
  lemma BurstDetected(before: seq<byte>, w: seq<byte>, w': seq<byte>, after: seq<byte>)
    requires |w| == |w'| <= 4 && w != w'
    ensures !Check(before + w' + after, Get(before + w + after))
  {
    hide Run, Get;
    var a, b := before + w + after, before + w' + after;
    if Check(b, Get(a)) {
      assert Get(a)[..LENGTH] == Get(a);
      GetInjective(a, b);
      var c := Run(0xffffffff, before);
      RunThreeParts(0xffffffff, before, w, after);
      RunThreeParts(0xffffffff, before, w', after);
      RunInjective(Run(c, w), Run(c, w'), after);
      RunSeparates(c, w, w');
    }
  }

  /** In particular one changed octet is. */
  lemma OneOctetDetected(data: seq<byte>, k: nat, b: byte)
    requires k < |data| && data[k] != b
    ensures !Check(data[k := b], Get(data))
  {
    hide Get, Check;
    BurstDetected(data[..k], [data[k]], [b], data[k + 1..]);
    assert data[..k] + [data[k]] + data[k + 1..] == data;
    assert data[..k] + [b] + data[k + 1..] == data[k := b];
  }

  // ---- what it is --------------------------------------------------------------------------

  lemma Bit0(v: bv8)
    ensures Bit(v as int, 1) == (v & 0x01 != 0)
  {
  }

  lemma Bit1(v: bv8)
    ensures Bit(v as int, 2) == (v & 0x02 != 0)
  {
  }

  lemma Bit2(v: bv8)
    ensures Bit(v as int, 4) == (v & 0x04 != 0)
  {
  }

  lemma Bit3(v: bv8)
    ensures Bit(v as int, 8) == (v & 0x08 != 0)
  {
  }

  lemma Bit4(v: bv8)
    ensures Bit(v as int, 16) == (v & 0x10 != 0)
  {
  }

  lemma Bit5(v: bv8)
    ensures Bit(v as int, 32) == (v & 0x20 != 0)
  {
  }

  lemma Bit6(v: bv8)
    ensures Bit(v as int, 64) == (v & 0x40 != 0)
  {
  }

  lemma Bit7(v: bv8)
    ensures Bit(v as int, 128) == (v & 0x80 != 0)
  {
  }

  lemma BitsOf(v: bv8)
    ensures Bits(v as int) == v
  {
    Bit0(v);
    Bit1(v);
    Bit2(v);
    Bit3(v);
    Bit4(v);
    Bit5(v);
    Bit6(v);
    Bit7(v);
    hide Bit;
  }

  lemma CheckRegisters0()
    ensures Update(0xffffffff, 0x31) == 0x7c231048
    ensures Update(0x7c231048, 0x32) == 0xb0acbb32
    ensures Update(0xb0acbb32, 0x33) == 0x77b79c2d
  {
  }

  lemma CheckRegisters1()
    ensures Update(0x77b79c2d, 0x34) == 0x641c1f5c
    ensures Update(0x641c1f5c, 0x35) == 0x340ac5e3
    ensures Update(0x340ac5e3, 0x36) == 0xf68d2c9e
  {
  }

  lemma CheckRegisters2()
    ensures Update(0xf68d2c9e, 0x37) == 0xaffc9660
    ensures Update(0xaffc9660, 0x38) == 0x651f2550
    ensures Update(0x651f2550, 0x39) == 0x340bc6d9
  {
  }

  const DIGITS: seq<byte> := [0x31, 0x32, 0x33, 0x34, 0x35, 0x36, 0x37, 0x38, 0x39]

  lemma DigitBits()
    ensures Bits(0x31) == 0x31 && Bits(0x32) == 0x32 && Bits(0x33) == 0x33
    ensures Bits(0x34) == 0x34 && Bits(0x35) == 0x35 && Bits(0x36) == 0x36
    ensures Bits(0x37) == 0x37 && Bits(0x38) == 0x38 && Bits(0x39) == 0x39
  {
  }

  lemma RunHead(register: bv32, a: byte, data: seq<byte>)
    ensures Run(register, [a] + data) == Run(Update(register, Bits(a)), data)
  {
    hide Update, Bits;
    assert ([a] + data)[1..] == data;
  }

  lemma RunNone(register: bv32)
    ensures Run(register, []) == register
  {
  }

  lemma DigitsOneToThree()
    ensures Run(0xffffffff, [0x31, 0x32, 0x33]) == 0x77b79c2d
  {
    CheckRegisters0();
    DigitBits();
    assert [0x31, 0x32, 0x33] == [0x31] + ([0x32] + ([0x33] + []));
    hide Run, Update, Bits;
    RunHead(0xffffffff, 0x31, [0x32] + ([0x33] + []));
    RunHead(0x7c231048, 0x32, [0x33] + []);
    RunHead(0xb0acbb32, 0x33, []);
    RunNone(0x77b79c2d);
  }

  lemma DigitsFourToSix()
    ensures Run(0x77b79c2d, [0x34, 0x35, 0x36]) == 0xf68d2c9e
  {
    CheckRegisters1();
    DigitBits();
    assert [0x34, 0x35, 0x36] == [0x34] + ([0x35] + ([0x36] + []));
    hide Run, Update, Bits;
    RunHead(0x77b79c2d, 0x34, [0x35] + ([0x36] + []));
    RunHead(0x641c1f5c, 0x35, [0x36] + []);
    RunHead(0x340ac5e3, 0x36, []);
    RunNone(0xf68d2c9e);
  }

  lemma DigitsSevenToNine()
    ensures Run(0xf68d2c9e, [0x37, 0x38, 0x39]) == 0x340bc6d9
  {
    CheckRegisters2();
    DigitBits();
    assert [0x37, 0x38, 0x39] == [0x37] + ([0x38] + ([0x39] + []));
    hide Run, Update, Bits;
    RunHead(0xf68d2c9e, 0x37, [0x38] + ([0x39] + []));
    RunHead(0xaffc9660, 0x38, [0x39] + []);
    RunHead(0x651f2550, 0x39, []);
    RunNone(0x340bc6d9);
  }

  lemma DigitsParts()
    ensures DIGITS == [0x31, 0x32, 0x33] + [0x34, 0x35, 0x36] + [0x37, 0x38, 0x39]
  {
  }

  lemma DigitsRun()
    ensures Run(0xffffffff, DIGITS) == 0x340bc6d9
  {
    hide *;
    DigitsParts();
    DigitsOneToThree();
    DigitsFourToSix();
    DigitsSevenToNine();
    RunThreeParts(0xffffffff, [0x31, 0x32, 0x33], [0x34, 0x35, 0x36], [0x37, 0x38, 0x39]);
  }

  lemma CheckOctets()
    ensures Octets(Complement(0x340bc6d9)) == [0xCB, 0xF4, 0x39, 0x26]
  {
  }

  /** The check value of CRC-32: the checksum of the digits 1 to 9. */
  lemma CheckValue()
    ensures Get(DIGITS) == [0xCB, 0xF4, 0x39, 0x26]
  {
    DigitsRun();
    CheckOctets();
    hide Run, Octets, Complement;
  }

  lemma WordHead(a: byte, w: seq<byte>)
    ensures Word([a] + w) == Plus(Bits(a) as bv32, Shift8(Word(w)))
  {
    hide Bits, Plus, Shift8;
    assert ([a] + w)[1..] == w;
  }

  /** Four octets put together, `a` the lowest. */
  function Joined(a: bv8, b: bv8, c: bv8, d: bv8): bv32 {
    Plus(a as bv32, Shift8(Plus(b as bv32, Shift8(Plus(c as bv32, Shift8(Plus(d as bv32, Shift8(0))))))))
  }

  lemma WordFour(a: byte, b: byte, c: byte, d: byte)
    ensures Word([a, b, c, d]) == Joined(Bits(a), Bits(b), Bits(c), Bits(d))
  {
    assert [a, b, c, d] == [a] + ([b] + ([c] + ([d] + [])));
    hide Bits, Plus, Shift8;
    WordHead(a, [b] + ([c] + ([d] + [])));
    WordHead(b, [c] + ([d] + []));
    WordHead(c, [d] + []);
    WordHead(d, []);
    assert Word([]) == 0;
    hide Word;
  }

  function OctetAt(c: bv32, shift: bv6): bv8
    requires shift <= 24
  {
    ((c >> shift) & 0xff) as bv8
  }

  lemma JoinsBack(c: bv32)
    ensures Joined(OctetAt(c, 0), OctetAt(c, 8), OctetAt(c, 16), OctetAt(c, 24)) == c
  {
  }

  lemma OctetsAre(c: bv32)
    ensures Octets(c) == [OctetAt(c, 24) as int, OctetAt(c, 16) as int, OctetAt(c, 8) as int, OctetAt(c, 0) as int]
  {
    assert c >> 0 == c;
  }

  /** The octets of a register, the lowest first, are that register as a word. */
  lemma WordOfOctets(c: bv32)
    ensures Word([Octets(c)[3], Octets(c)[2], Octets(c)[1], Octets(c)[0]]) == c
  {
    OctetsAre(c);
    JoinsBack(c);
    hide Bits, Word, Octets, Joined, OctetAt;
    BitsOf(OctetAt(c, 0));
    BitsOf(OctetAt(c, 8));
    BitsOf(OctetAt(c, 16));
    BitsOf(OctetAt(c, 24));
    WordFour(OctetAt(c, 0) as int, OctetAt(c, 8) as int, OctetAt(c, 16) as int, OctetAt(c, 24) as int);
  }

  lemma PlusComplement(r: bv32)
    ensures Plus(r, Complement(r)) == 0xffffffff
  {
  }

  lemma ResidueSteps()
    ensures Octets(Complement(Steps(0xffffffff, 4))) == [0x21, 0x44, 0xDF, 0x1C]
  {
    assert Steps(0xffffffff, 4) == 0xdebb20e3;
  }

  /**
   * The residue of CRC-32: the checksum of data followed by its own checksum, the lowest octet first, is the
   * same for all data.
   */
  lemma Residue(data: seq<byte>)
    ensures var h := Get(data); Get(data + [h[3], h[2], h[1], h[0]]) == [0x21, 0x44, 0xDF, 0x1C]
  {
    var h, r := Get(data), Run(0xffffffff, data);
    var w := [h[3], h[2], h[1], h[0]];
    hide Run, Octets, Complement, Word, Steps;
    RunConcat(0xffffffff, data, w);
    RunIsSteps(r, w);
    WordOfOctets(Value(data));
    PlusComplement(r);
    ResidueSteps();
  }

  // ---- the loops ---------------------------------------------------------------------------

  method GetHash(data: seq<byte>, out: array<byte>)
    requires out.Length >= LENGTH
    modifies out
    ensures out[..LENGTH] == Get(data)
    ensures out[LENGTH..] == old(out[LENGTH..])
  {
    hide Run, Octets;
    var register := Accumulate(data);
    register := Complement(register);
    var o := Octets(register);
    out[0], out[1], out[2], out[3] := o[0], o[1], o[2], o[3];
  }

  method CheckHash(data: seq<byte>, res: seq<byte>) returns (ok: bool)
    requires |res| >= LENGTH
    ensures ok == Check(data, res)
  {
    hide Run, Octets;
    var register := Accumulate(data);
    register := Complement(register);
    var o := Octets(register);
    ok := res[0] == o[0] && res[1] == o[1] && res[2] == o[2] && res[3] == o[3];
    assert res[..LENGTH] == [res[0], res[1], res[2], res[3]];
  }

  /** The loop both of them run. */
  method Accumulate(data: seq<byte>) returns (register: bv32)
    ensures register == Run(0xffffffff, data)
  {
    hide Update, Bits;
    register := 0xffffffff;
    var i := 0;
    while i < |data|
      invariant 0 <= i <= |data|
      invariant register == Run(0xffffffff, data[..i])
    {
      RunConcat(0xffffffff, data[..i], [data[i]]);
      assert data[..i + 1] == data[..i] + [data[i]];
      assert Run(register, [data[i]]) == Run(Update(register, Bits(data[i])), []);
      register := Update(register, Bits(data[i]));
      i := i + 1;
    }
    assert data[..i] == data;
  }
}
