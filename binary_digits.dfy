/**
  Binary codes kept two ways: as a sequence of 0/1 integers and as a string
  of the digits '0' and '1'. `Render` turns the first into the second and
  `Parse` reads it back.
 */
module BinaryDigits {
  import opened Wrappers

  predicate IsBit(b: int) {
    b == 0 || b == 1
  }

  predicate AllBits(bits: seq<int>) {
    forall i :: 0 <= i < |bits| ==> IsBit(bits[i])
  }

  predicate IsDigit(c: char) {
    c == '0' || c == '1'
  }

  predicate AllDigits(s: string) {
    forall i :: 0 <= i < |s| ==> IsDigit(s[i])
  }

  /** The digit that writes bit `b`. */
  function DigitOf(b: int): (c: char)
    requires IsBit(b)
    ensures IsDigit(c)
    ensures (c == '1') == (b == 1)
  {
    if b == 1 then '1' else '0'
  }

  /** The bit a character writes, if it is a binary digit. */
  function BitOf(c: char): (r: Option<int>)
    ensures r.Some? <==> IsDigit(c)
    ensures r.Some? ==> IsBit(r.value) && DigitOf(r.value) == c
  {
    if c == '0' then Some(0) else if c == '1' then Some(1) else None
  }

  /** The digit-by-digit string of a 0/1 sequence. */
  function Render(bits: seq<int>): (s: string)
    requires AllBits(bits)
    ensures |s| == |bits| && AllDigits(s)
    ensures forall i :: 0 <= i < |bits| ==> s[i] == DigitOf(bits[i])
  {
    if bits == [] then "" else [DigitOf(bits[0])] + Render(bits[1..])
  }

  /** The 0/1 sequence a string writes; None when some character is not a binary digit. */
  function Parse(s: string): (r: Option<seq<int>>)
    ensures r.Some? <==> AllDigits(s)
    ensures r.Some? ==> |r.value| == |s| && AllBits(r.value)
    ensures r.Some? ==> forall i :: 0 <= i < |s| ==> DigitOf(r.value[i]) == s[i]
  {
    if s == [] then Some([])
    else
      match (BitOf(s[0]), Parse(s[1..]))
      case (Some(b), Some(rest)) => Some([b] + rest)
      case (None, _) => None
      case (_, None) => None
  }

  /** Rendering works piecewise: the rendering of a concatenation is the concatenation of the renderings. */
  lemma {:induction false} RenderAppend(a: seq<int>, b: seq<int>)
    requires AllBits(a) && AllBits(b)
    ensures AllBits(a + b) && Render(a + b) == Render(a) + Render(b)
  {
    if a != [] {
      assert (a + b)[1..] == a[1..] + b;
      RenderAppend(a[1..], b);
    }
  }

  /** Reading back a rendered code gives the code. */
  lemma {:induction false} ParseRender(bits: seq<int>)
    requires AllBits(bits)
    ensures Parse(Render(bits)) == Some(bits)
  {
    if bits != [] {
      var s := Render(bits);
      ParseRender(bits[1..]);
      assert s[1..] == Render(bits[1..]);
      assert BitOf(s[0]) == Some(bits[0]);
      assert [bits[0]] + bits[1..] == bits;
    }
  }

  /** Rendering a parsed string gives the string. */
  lemma {:induction false} RenderParse(s: string)
    requires AllDigits(s)
    ensures Parse(s).Some? && Render(Parse(s).value) == s
  {
    if s != [] {
      RenderParse(s[1..]);
    }
  }

  /** Two codes with the same rendering are the same code. */
  lemma RenderInjective(a: seq<int>, b: seq<int>)
    requires AllBits(a) && AllBits(b)
    requires Render(a) == Render(b)
    ensures a == b
  {
    ParseRender(a);
    ParseRender(b);
  }
}
