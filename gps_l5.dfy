/**
  The integer parameters of the GPS L5 signal: code lengths and periods, the
  per-PRN XB shift-register tables of the I5 and Q5 ranging codes, the
  Neuman-Hofman overlay codes (as arrays and as strings) and the framing of
  the 300-bit CNAV page (IS-GPS-705, sections 3.3.2 and 20.3).
 */
module GpsL5 {
  import opened Wrappers
  import opened CDeclarations
  import opened BinaryDigits

  // Code lengths and periods

  const L5QCodeLengthChips: Int32 := 10230
  const L5ICodeLengthChips: Int32 := 10230
  const L5IPeriodMs: Int32 := 1
  const L5ISymbolPeriodMs: Int32 := 10
  const L5HistoryDeep: Int32 := 5

  /** Sampling frequency in samples per second chosen for acquisition. */
  const L5OptAcqFsSps: UInt32 := 10000000

  /**
    The I5 and Q5 chipping rate in whole chips per second; the header keeps
    it only as the floating-point value 10.23e6.
   */
  const L5ChipRateCps: int := 10_230_000

  // XB shift-register tables

  /** Number of stages of the XB shift register. */
  const XbStages: nat := 13

  /** Period of the maximal-length sequence of a 13-stage register: 2^13 - 1 chips. */
  const XbPeriod: nat := 8191

  /**
    What each table entry must be: a nonzero value below the XB period. Such a
    value is in particular a nonzero 13-bit register content (1..2^13 - 1).
   */
  predicate IsXbEntry(v: int) {
    0 < v < XbPeriod
  }

  /**
    The tables are declared `int32_t`; their element type here also records
    the range, so that the verifier checks every one of the 420 literals
    against it where the table is written.
   */
  type XbEntry = v: Int32 | IsXbEntry(v) witness 1

  /** Declared bound of both tables: one entry per PRN signal number 1..210. */
  const L5InitRegSize: nat := 210

  const L5IInitReg: seq<XbEntry> :=
    [
      266, 365, 804, 1138,
      1509, 1559, 1756, 2084,
      2170, 2303, 2527, 2687,
      2930, 3471, 3940, 4132,
      4332, 4924, 5343, 5443,
      5641, 5816, 5898, 5918,
      5955, 6243, 6345, 6477,
      6518, 6875, 7168, 7187,
      7329, 7577, 7720, 7777,
      8057, 5358, 3550, 3412,
      819,
      4608, 3698, 962, 3001,
      4441, 4937, 3717, 4730,
      7291, 2279, 7613, 5723,
      7030, 1475, 2593, 2904,
      2056, 2757, 3756, 6205,
      5053, 6437,
      7789, 2311, 7432, 5155,
      1593, 5841, 5014, 1545,
      3016, 4875, 2119, 229,
      7634, 1406, 4506, 1819,
      7580, 5446, 6053, 7958,
      5267, 2956, 3544, 1277,
      2996, 1758, 3360, 2718,
      3754, 7440, 2781, 6756,
      7314, 208, 5252, 696,
      527, 1399, 5879, 6868,
      217, 7681, 3788, 1337,
      2424, 4243, 5686, 1955,
      4791, 492, 1518, 6566,
      5349, 506, 113, 1953,
      2797, 934, 3023, 3632,
      1330, 4909, 4867, 1183,
      3990, 6217, 1224, 1733,
      2319, 3928, 2380, 841,
      5049, 7027, 1197, 7208,
      8000, 152, 6762, 3745,
      4723, 5502, 4796, 123,
      8142, 5091, 7875, 330,
      5272, 4912, 374, 2045,
      6616, 6321, 7605, 2570,
      2419, 1234, 1922, 4317,
      5110, 825, 958, 1089,
      7813, 6058, 7703, 6702,
      1714, 6371, 2281, 1986,
      6282, 3201, 3760, 1056,
      6233, 1150, 2823, 6250,
      645, 2401, 1639, 2946,
      7091, 923, 7045, 6493,
      1706, 5836, 926, 6086,
      950, 5905, 3240, 6675,
      3197, 1555, 3589, 4555,
      5671, 6948, 4664, 2086,
      5950, 5521, 1515
    ]

  const L5QInitReg: seq<XbEntry> :=
    [
      1701, 323, 5292, 2020,
      5429, 7136, 1041, 5947,
      4315, 148, 535, 1939,
      5206, 5910, 3595, 5135,
      6082, 6990, 3546, 1523,
      4548, 4484, 1893, 3961,
      7106, 5299, 4660, 276,
      4389, 3783, 1591, 1601,
      749, 1387, 1661, 3210,
      708,
      4226, 5604, 6375, 3056,
      1772, 3662, 4401, 5218,
      2838, 6913, 1685, 1194,
      6963, 5001, 6694, 991,
      7489, 2441, 639, 2097,
      2498, 6470, 2399, 242,
      3768, 1186,
      5246, 4259, 5907, 3870,
      3262, 7387, 3069, 2999,
      7993, 7849, 4157, 5031,
      5986, 4833, 5739, 7846,
      898, 2022, 7446, 6404,
      155, 7862, 7795, 6121,
      4840, 6585, 429, 6020,
      200, 1664, 1499, 7298,
      1305, 7323, 7544, 4438,
      2485, 3387, 7319, 1853,
      5781, 1874, 7555, 2132,
      6441, 6722, 1192, 2588,
      2188, 297, 1540, 4138,
      5231, 4789, 659, 871,
      6837, 1393, 7383, 611,
      4920, 5416, 1611, 2474,
      118, 1382, 1092, 7950,
      7223, 1769, 4721, 1252,
      5147, 2165, 7897, 4054,
      3498, 6571, 2858, 8126,
      7017, 1901, 181, 1114,
      5195, 7479, 4186, 3904,
      7128, 1396, 4513, 5967,
      2580, 2575, 7961, 2598,
      4508, 2090, 3685, 7748,
      684, 913, 5558, 2894,
      5858, 6432, 3813, 3573,
      7523, 5280, 3376, 7424,
      2918, 5793, 1747, 7079,
      2921, 2490, 4119, 3373,
      977, 681, 4273, 5419,
      5626, 1266, 5804, 2414,
      6444, 4757, 427, 5452,
      5182, 6606, 6531, 4268,
      3115, 6835, 862, 4856,
      2765, 37, 1943, 7977,
      2512, 4451, 4071
    ]

  // CNAV page framing and Neuman-Hofman codes

  const L5CnavDataPageBits: Int32 := 300
  const L5SymbolsPerBit: Int32 := 2
  const L5SamplesPerSymbol: Int32 := 10
  const L5CnavDataPageSymbols: Int32 := 600
  const L5CnavDataPageDurationS: Int32 := 6

  const L5INhCodeLength: Int32 := 10
  const L5INhCode: seq<Int32> := [0, 0, 0, 0, 1, 1, 0, 1, 0, 1]
  const L5QNhCodeLength: Int32 := 20
  const L5QNhCode: seq<Int32> := [0, 0, 0, 0, 0, 1, 0, 0, 1, 1, 0, 1, 0, 1, 0, 0, 1, 1, 1, 0]

  /** Declared bounds of the two overlay arrays. */
  const L5INhCodeSize: nat := 10
  const L5QNhCodeSize: nat := 20

  /** Declared bounds and literals of the two `char` arrays. */
  const L5INhCodeStrSize: nat := 11
  const L5INhCodeStrLiteral: string := "0000110101"
  const L5QNhCodeStrSize: nat := 21
  const L5QNhCodeStrLiteral: string := "00000100110101001110"

  // PRN lookup

  /** The entry of a per-PRN table for PRN signal number `prn` (numbered from 1); None outside the table. */
  function EntryForPrn(table: seq<XbEntry>, prn: int): (r: Option<int>)
    ensures r.Some? <==> 1 <= prn <= |table|
    ensures r.Some? ==> IsXbEntry(r.value) && r.value == table[prn - 1]
  {
    if 1 <= prn <= |table| then Some(table[prn - 1]) else None
  }

  /** The I5 XB table entry of a PRN; exactly the PRNs 1..210 have one. */
  function L5IInitRegister(prn: int): (r: Option<int>)
    ensures r.Some? <==> 1 <= prn <= L5InitRegSize
    ensures r.Some? ==> IsXbEntry(r.value) && r.value == L5IInitReg[prn - 1]
  {
    EntryForPrn(L5IInitReg, prn)
  }

  /** The Q5 XB table entry of a PRN; exactly the PRNs 1..210 have one. */
  function L5QInitRegister(prn: int): (r: Option<int>)
    ensures r.Some? <==> 1 <= prn <= L5InitRegSize
    ensures r.Some? ==> IsXbEntry(r.value) && r.value == L5QInitReg[prn - 1]
  {
    EntryForPrn(L5QInitReg, prn)
  }

  // Consistency of the tables

  /** 2^n. */
  function Pow2(n: nat): nat
  {
    if n == 0 then 1 else 2 * Pow2(n - 1)
  }

  /** The XB period is that of a maximal-length 13-stage register, and an entry fits the register's 13 bits. */
  lemma XbEntryIsRegisterState(v: int)
    requires IsXbEntry(v)
    ensures XbPeriod == Pow2(XbStages) - 1
    ensures 0 < v < Pow2(XbStages)
  {
  }

  /**
    Both tables have exactly their declared 210 entries, so the declarations
    pad nothing with zeros, and every entry is a valid XB value.
   */
  lemma InitRegTables()
    ensures |L5IInitReg| == L5InitRegSize && |L5QInitReg| == L5InitRegSize
    ensures ArrayInit<int>(L5InitRegSize, L5IInitReg, 0) == Some(L5IInitReg)
    ensures ArrayInit<int>(L5InitRegSize, L5QInitReg, 0) == Some(L5QInitReg)
    ensures forall i :: 0 <= i < |L5IInitReg| ==> IsXbEntry(L5IInitReg[i])
    ensures forall i :: 0 <= i < |L5QInitReg| ==> IsXbEntry(L5QInitReg[i])
  {
    assert L5IInitReg + Repeat<int>(0, 0) == L5IInitReg;
    assert L5QInitReg + Repeat<int>(0, 0) == L5QInitReg;
  }

  // Consistency of the Neuman-Hofman codes

  /** The I5 overlay array's bound is the code length, and the code has that many entries, each 0 or 1, filling the array exactly. */
  lemma L5INhCodeArray()
    ensures |L5INhCode| == L5INhCodeLength && AllBits(L5INhCode)
    ensures L5INhCodeSize == L5INhCodeLength as nat
    ensures ArrayInit<int>(L5INhCodeSize, L5INhCode, 0) == Some(L5INhCode)
  {
    assert L5INhCode + Repeat<int>(0, 0) == L5INhCode;
  }

  /** The Q5 overlay array's bound is the code length, and the code has that many entries, each 0 or 1, filling the array exactly. */
  lemma L5QNhCodeArray()
    ensures |L5QNhCode| == L5QNhCodeLength && AllBits(L5QNhCode)
    ensures L5QNhCodeSize == L5QNhCodeLength as nat
    ensures ArrayInit<int>(L5QNhCodeSize, L5QNhCode, 0) == Some(L5QNhCode)
  {
    assert L5QNhCode + Repeat<int>(0, 0) == L5QNhCode;
  }

  /**
    A `char` array initialised with the rendering of a 0/1 code, and bounded
    by the code length plus one, holds exactly the digits and a terminator,
    has the code length as its C length, and parses back to the code.
   */
  lemma RenderedCodeString(bits: seq<int>, size: nat)
    requires AllBits(bits) && size == |bits| + 1
    ensures StringInit(size, Render(bits)) == Some(Render(bits) + [Nul])
    ensures StrLen(Render(bits) + [Nul]) == |bits|
    ensures Parse(Render(bits)) == Some(bits)
  {
    var literal := Render(bits);
    StringInitLength(size, literal);
    assert (literal + [Nul]) + Repeat(Nul, 0) == literal + [Nul];
    ParseRender(bits);
  }

  /**
    The I5 string is the digit-by-digit rendering of the I5 array, parses
    back to it, and its bound of 11 is the code length plus the terminator.
   */
  lemma L5INhCodeString()
    ensures L5INhCodeStrSize == L5INhCodeLength as nat + 1
    ensures StringInit(L5INhCodeStrSize, L5INhCodeStrLiteral) == Some(L5INhCodeStrLiteral + [Nul])
    ensures StrLen(L5INhCodeStrLiteral + [Nul]) == L5INhCodeLength as nat
    ensures Render(L5INhCode) == L5INhCodeStrLiteral
    ensures Parse(L5INhCodeStrLiteral) == Some(L5INhCode)
  {
    L5INhCodeArray();
    assert Render(L5INhCode) == L5INhCodeStrLiteral;
    RenderedCodeString(L5INhCode, L5INhCodeStrSize);
  }

  /** The first ten chips of the Q5 array render the first ten digits of the Q5 string. */
  lemma L5QNhCodeFirstHalf()
    ensures AllBits(L5QNhCode[..10]) && Render(L5QNhCode[..10]) == L5QNhCodeStrLiteral[..10]
  {
    L5QNhCodeArray();
  }

  /** The last ten chips of the Q5 array render the last ten digits of the Q5 string. */
  lemma L5QNhCodeSecondHalf()
    ensures AllBits(L5QNhCode[10..]) && Render(L5QNhCode[10..]) == L5QNhCodeStrLiteral[10..]
  {
    L5QNhCodeArray();
  }

  /** The Q5 string renders the Q5 array, shown one half at a time. */
  lemma L5QNhCodeRendering()
    ensures AllBits(L5QNhCode) && Render(L5QNhCode) == L5QNhCodeStrLiteral
  {
    L5QNhCodeFirstHalf();
    L5QNhCodeSecondHalf();
    assert L5QNhCode == L5QNhCode[..10] + L5QNhCode[10..];
    assert L5QNhCodeStrLiteral == L5QNhCodeStrLiteral[..10] + L5QNhCodeStrLiteral[10..];
    RenderAppend(L5QNhCode[..10], L5QNhCode[10..]);
  }

  /**
    The Q5 string is the digit-by-digit rendering of the Q5 array, parses
    back to it, and its bound of 21 is the code length plus the terminator.
   */
  lemma L5QNhCodeString()
    ensures L5QNhCodeStrSize == L5QNhCodeLength as nat + 1
    ensures StringInit(L5QNhCodeStrSize, L5QNhCodeStrLiteral) == Some(L5QNhCodeStrLiteral + [Nul])
    ensures StrLen(L5QNhCodeStrLiteral + [Nul]) == L5QNhCodeLength as nat
    ensures Render(L5QNhCode) == L5QNhCodeStrLiteral
    ensures Parse(L5QNhCodeStrLiteral) == Some(L5QNhCode)
  {
    L5QNhCodeArray();
    L5QNhCodeRendering();
    RenderedCodeString(L5QNhCode, L5QNhCodeStrSize);
  }

  // Timing and framing of the CNAV page

  /** One CNAV page in symbols is its bits times the symbols per bit: 600 == 300 * 2. */
  lemma CnavPageSymbols()
    ensures L5CnavDataPageSymbols == L5CnavDataPageBits * L5SymbolsPerBit
  {
  }

  /** The page's symbols at one symbol per 10 ms last the page duration: 600 * 10 ms == 6 s. */
  lemma CnavPageDuration()
    ensures L5CnavDataPageSymbols * L5ISymbolPeriodMs == L5CnavDataPageDurationS * 1000
  {
  }

  /**
    A symbol spans a whole number of 1 ms code periods, as many as the
    samples per symbol and as the I5 overlay code has chips, so one
    overlay period covers exactly one symbol.
   */
  lemma SamplesPerSymbol()
    ensures L5ISymbolPeriodMs % L5IPeriodMs == 0
    ensures L5SamplesPerSymbol == L5ISymbolPeriodMs / L5IPeriodMs
    ensures L5SamplesPerSymbol == L5INhCodeLength
  {
  }

  /** I5 and Q5 codes have the same length, the number of chips sent in one 1 ms code period. */
  lemma CodeLengths()
    ensures L5ICodeLengthChips == L5QCodeLengthChips
    ensures L5ChipRateCps * L5IPeriodMs == L5ICodeLengthChips * 1000
  {
  }

  /** The acquisition sampling frequency is not a multiple of the chipping rate. */
  lemma OptAcqFsNotChipMultiple()
    ensures L5OptAcqFsSps % L5ChipRateCps != 0
  {
  }
}
