/** Shared vocabulary of the model: optional values, the exceptions the modelled
    code raises, C#'s 32-bit integers, and the text formatting the agents use. */
module Util {

  datatype Option<+T> = None | Some(value: T) {
    function GetOr(default: T): T {
      match this
      case Some(v) => v
      case None => default
    }
  }

  /** The exceptions raised by the modelled code, by their .NET or Python class. */
  datatype Exception =
    | ArgumentNull(paramName: string)   // System.ArgumentNullException
    | InvalidOperation(text: string)    // System.InvalidOperationException
    | NotSupported(text: string)        // System.NotSupportedException
    | ThreadState                       // System.Threading.ThreadStateException
    | Aggregate                         // System.AggregateException, from Task.Wait on a faulted task
    | Overflow                          // System.OverflowException, from Convert.ToInt32
    | ValueError(text: string)          // Python ValueError
    | TypeError                         // Python TypeError, from comparing values that do not compare
    | OverflowError                     // Python OverflowError, from binding an int SQLite cannot store

  /** A call that returns nothing, or the exception it threw. */
  datatype Outcome = Pass | Fail(error: Exception)

  /** A call that returns a value, or the exception it threw. */
  datatype Result<+T> = Ok(value: T) | Err(error: Exception)

  // ---------------------------------------------------------------------------
  // C# `int`

  const Int32Min: int := -0x8000_0000
  const Int32Max: int := 0x7FFF_FFFF
  const Int32Span: int := 0x1_0000_0000

  type int32 = x: int | Int32Min <= x <= Int32Max

  /** Unchecked C# arithmetic: the result is reduced modulo 2^32 into the int range. */
  function Wrap32(x: int): (r: int32)
    ensures Int32Min <= x <= Int32Max ==> r == x
    ensures (r - x) % Int32Span == 0
  {
    (x - Int32Min) % Int32Span + Int32Min
  }

  function Max(a: int, b: int): (r: int)
    ensures r >= a && r >= b && (r == a || r == b)
  {
    if a >= b then a else b
  }

  // ---------------------------------------------------------------------------
  // Decimal text of an integer, as C# interpolation and Python str() write it

  function DigitChar(d: nat): (c: char)
    requires d < 10
    ensures '0' <= c <= '9'
  {
    "0123456789"[d]
  }

  function NatToString(n: nat): (s: string)
    ensures |s| >= 1
    ensures forall i :: 0 <= i < |s| ==> '0' <= s[i] <= '9'
  {
    if n < 10 then [DigitChar(n)] else NatToString(n / 10) + [DigitChar(n % 10)]
  }

  function IntToString(i: int): (s: string)
    ensures |s| >= 1
  {
    if i < 0 then "-" + NatToString(-i) else NatToString(i)
  }

  /** Reads back a string of decimal digits. */
  function ParseDigits(s: string): (n: nat)
    requires forall i :: 0 <= i < |s| ==> '0' <= s[i] <= '9'
  {
    if s == [] then 0 else 10 * ParseDigits(s[..|s| - 1]) + (s[|s| - 1] as int - '0' as int)
  }

  /** The decimal text determines the number: formatting loses nothing. */
  lemma {:induction false} ParseNatToString(n: nat)
    ensures ParseDigits(NatToString(n)) == n
  {
    var s := NatToString(n);
    if n < 10 {
      assert s[..|s| - 1] == [];
    } else {
      assert s[..|s| - 1] == NatToString(n / 10);
      ParseNatToString(n / 10);
    }
  }

  lemma NatToStringInjective(a: nat, b: nat)
    requires NatToString(a) == NatToString(b)
    ensures a == b
  {
    ParseNatToString(a);
    ParseNatToString(b);
  }

  // ---------------------------------------------------------------------------
  // ToLower on the ASCII letters

  function LowerChar(c: char): (r: char)
    ensures 'A' <= c <= 'Z' ==> r as int == c as int + 32
    ensures !('A' <= c <= 'Z') ==> r == c
  {
    if 'A' <= c <= 'Z' then (c as int + 32) as char else c
  }

  function Lower(s: string): (r: string)
    ensures |r| == |s|
    ensures forall i :: 0 <= i < |s| ==> r[i] == LowerChar(s[i])
  {
    if s == [] then [] else [LowerChar(s[0])] + Lower(s[1..])
  }
}
