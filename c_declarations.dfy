/**
  What a C++ declaration of a fixed-size object creates from its initializer:
  the integer widths `int32_t` and `uint32_t`, aggregate initialisation of a
  bounded array, initialisation of a `char` array from a string literal, and
  the length of a NUL-terminated string.
 */
module CDeclarations {
  import opened Wrappers

  /** The values of `int32_t`. */
  type Int32 = x: int | -0x8000_0000 <= x < 0x8000_0000

  /** The values of `uint32_t`. */
  type UInt32 = x: int | 0 <= x < 0x1_0000_0000

  /** The NUL character that terminates a C string. */
  const Nul: char := '\0'

  /** `n` copies of `v`. */
  function Repeat<T>(v: T, n: nat): (r: seq<T>)
    ensures |r| == n
    ensures forall i :: 0 <= i < n ==> r[i] == v
  {
    if n == 0 then [] else [v] + Repeat(v, n - 1)
  }

  /**
    `T a[size] = {init...}`: the declaration is ill-formed (None) when the
    initializer lists more elements than the bound; otherwise the array holds
    the listed elements followed by value-initialised (zero) ones.
   */
  function ArrayInit<T>(size: nat, init: seq<T>, zero: T): (r: Option<seq<T>>)
    ensures r.Some? <==> |init| <= size
    ensures r.Some? ==> |r.value| == size && r.value[..|init|] == init
    ensures r.Some? ==> forall i :: |init| <= i < size ==> r.value[i] == zero
  {
    if |init| <= size then Some(init + Repeat(zero, size - |init|)) else None
  }

  /**
    `char a[size] = "literal"`: in C++ the characters of the literal and its
    terminating NUL must fit in the bound; the rest of the array is NUL.
   */
  function StringInit(size: nat, literal: string): (r: Option<seq<char>>)
    ensures r.Some? <==> |literal| + 1 <= size
    ensures r.Some? ==> |r.value| == size && r.value[..|literal|] == literal
    ensures r.Some? ==> forall i :: |literal| <= i < size ==> r.value[i] == Nul
  {
    var r := ArrayInit(size, literal + [Nul], Nul);
    assert r.Some? ==> r.value[..|literal|] == (r.value[..|literal| + 1])[..|literal|];
    r
  }

  /** `strlen`: the number of characters before the first NUL, or the whole array when there is none. */
  function StrLen(a: seq<char>): (n: nat)
    ensures n <= |a|
    ensures forall i :: 0 <= i < n ==> a[i] != Nul
    ensures n < |a| ==> a[n] == Nul
  {
    if a == [] || a[0] == Nul then 0 else 1 + StrLen(a[1..])
  }

  /** A NUL-free literal that fits its bound gives a C string whose length is the literal's. */
  lemma StringInitLength(size: nat, literal: string)
    requires |literal| + 1 <= size
    requires forall i :: 0 <= i < |literal| ==> literal[i] != Nul
    ensures StringInit(size, literal).Some?
    ensures StrLen(StringInit(size, literal).value) == |literal|
  {
    var a := StringInit(size, literal).value;
    assert a[|literal|] == Nul;
    forall i | 0 <= i < |literal| ensures a[i] != Nul {
      assert a[i] == a[..|literal|][i];
    }
  }
}
