/** The build configuration of the runtime: the feature switches that select
    which variant of each internal macro is compiled, and the numeric limits
    that the frame, character and array code depend on. */
module Config {

  // Feature switches as this configuration sets them.
  const Unicode: bool := false        // ECL_UNICODE is left undefined
  const BoehmGC: bool := true         // GBC_BOEHM is defined (its value is irrelevant to #ifdef)
  const Threads: bool := true         // ECL_THREADS is defined

  // The C integer types.
  const IntBits: nat := 32            // ECL_INT_BITS: width of `int`
  const FixnumBits: nat := 32         // FIXNUM_BITS: width of `cl_fixnum`

  // The immediate integer range.
  const MostPositiveFixnum: int := 536870911
  const MostNegativeFixnum: int := -536870912

  // Function limits.
  const CallArgumentsLimit: nat := 65536
  const LambdaParametersLimit: nat := CallArgumentsLimit
  const CArgumentsLimit: nat := 64
  const MultipleValuesLimit: nat := 64

  // Structure and array limits.
  const SlotsLimit: nat := 32768
  const ArrayRankLimit: nat := 64

  function Pow2(n: nat): nat
  {
    if n == 0 then 1 else 2 * Pow2(n - 1)
  }

  lemma {:induction false} Pow2Add(a: nat, b: nat)
    ensures Pow2(a + b) == Pow2(a) * Pow2(b)
  {
    if a > 0 {
      Pow2Add(a - 1, b);
    }
  }

  /** The powers of two that the limits below are measured against. */
  lemma Pow2Values()
    ensures Pow2(8) == 256 && Pow2(29) == 536870912 && Pow2(31) == 2147483648
  {
    assert Pow2(4) == 16;
    Pow2Add(4, 4);
    Pow2Add(8, 8);
    Pow2Add(16, 4);
    Pow2Add(20, 8);
    Pow2Add(28, 1);
    Pow2Add(29, 2);
  }

  /** `x` is representable in a two's complement integer `bits` wide. */
  predicate FitsSigned(x: int, bits: nat)
    requires bits >= 1
  {
    -(Pow2(bits - 1) as int) <= x < Pow2(bits - 1)
  }

  /** CHAR_CODE_LIMIT: one past the largest character code. Every character
      code is a fixnum, and every 8-bit code is a character. */
  function CharCodeLimit(unicode: bool): (r: nat)
    ensures 256 <= r <= MostPositiveFixnum
  {
    if unicode then 1114112 else 256
  }

  /** ADIMLIM: the largest array dimension; every index is a fixnum. */
  function ArrayDimensionLimit(boehm: bool): (r: nat)
    ensures 0 < r <= MostPositiveFixnum
  {
    if boehm then 536870911 else 16 * 1024 * 1024
  }

  /** ATOTLIM: the largest total number of array elements; no smaller than a
      single dimension, and still a fixnum. */
  function ArrayTotalLimit(boehm: bool): (r: nat)
    ensures ArrayDimensionLimit(boehm) <= r <= MostPositiveFixnum
  {
    if boehm then 536870911 else 16 * 1024 * 1024
  }

  /** Every function limit fits in a signed `int`. */
  lemma FunctionLimitsFitInt()
    ensures FitsSigned(CallArgumentsLimit, IntBits)
    ensures FitsSigned(LambdaParametersLimit, IntBits)
    ensures FitsSigned(CArgumentsLimit, IntBits)
    ensures FitsSigned(MultipleValuesLimit, IntBits)
    ensures FitsSigned(SlotsLimit, IntBits)
  {
    Pow2Values();
  }

  /** A call below the C argument limit has few enough arguments to be copied
      into the multiple-values buffer. */
  lemma SmallFramesFitValues()
    ensures CArgumentsLimit <= MultipleValuesLimit
  {
  }

  /** A function may require as many parameters as a call may pass, and the
      C-stack threshold lies strictly below the call limit. */
  lemma LambdaParametersMatchCalls()
    ensures LambdaParametersLimit == CallArgumentsLimit
    ensures CArgumentsLimit < CallArgumentsLimit
  {
  }

  /** A constructor taking one argument per slot stays within the call limit. */
  lemma SlotsWithinCallLimit()
    ensures SlotsLimit <= CallArgumentsLimit
  {
  }

  /** The fixnum range is [-2^29, 2^29 - 1]: symmetric up to the extra
      negative value, and it fits in the 32-bit `cl_fixnum`. */
  lemma FixnumRange()
    ensures MostNegativeFixnum == -(MostPositiveFixnum + 1)
    ensures MostPositiveFixnum == Pow2(29) - 1
    ensures FitsSigned(MostPositiveFixnum, FixnumBits)
    ensures FitsSigned(MostNegativeFixnum, FixnumBits)
  {
    Pow2Values();
  }

  /** With the Boehm collector, the array dimension and total limits are both
      the largest fixnum, so every array index is a fixnum. */
  lemma ArrayLimitsAreFixnums()
    ensures ArrayDimensionLimit(BoehmGC) == MostPositiveFixnum
    ensures ArrayTotalLimit(BoehmGC) == MostPositiveFixnum
  {
  }

  /** With Unicode, character codes are exactly the code space U+0000..U+10FFFF;
      without it (this build) they are the 256 codes of an 8-bit character. */
  lemma CharCodeLimits()
    ensures CharCodeLimit(true) == 0x10FFFF + 1
    ensures CharCodeLimit(false) == Pow2(8)
    ensures CharCodeLimit(Unicode) == 256
  {
    Pow2Values();
  }
}
