/** Failure-carrying wrappers used for the Java exceptions and nullable references of the model. */
module Wrappers {

  /** A nullable Java reference: None stands for `null`. */
  datatype Option<+T> = None | Some(value: T)

  /** The outcome of a Java call that either returns a value or throws. */
  datatype Result<+R, +E> = Success(value: R) | Failure(error: E)

  /** The outcome of a Java `void` call that either returns or throws. */
  datatype Outcome<+E> = Pass | Fail(error: E)
}

/** Java language types the model needs: fixed-width integers, `Instant`, bind values and exceptions. */
module Lang {
  import opened Wrappers

  const INT64_MIN: int := -0x8000_0000_0000_0000
  const INT64_MAX: int := 0x7fff_ffff_ffff_ffff

  /** Java `int`. */
  newtype int32 = x: int | -0x8000_0000 <= x < 0x8000_0000

  /** Java `long`. */
  newtype int64 = x: int | INT64_MIN <= x <= INT64_MAX

  /** The nanosecond part of a `java.time.Instant`. */
  type NanoOfSecond = n: int | 0 <= n < 1_000_000_000

  /** `java.time.Instant`: seconds since the epoch plus a nanosecond adjustment. */
  datatype Instant = Instant(epochSecond: int64, nano: NanoOfSecond)

  /**
   * A bind value (a Java `Object` handed to the driver); `ArrayValue` is an `Object[]`
   * passed as a single element.
   */
  datatype Value = NullValue | IntValue(i: int) | TextValue(s: string) | ArrayValue(elements: seq<Value>)

  /** The exceptions thrown by the modelled code. */
  datatype JavaException =
    | ArithmeticException(message: string)
    | ArrayIndexOutOfBoundsException(index: int)
    | UnsupportedOperationException
    | CharybdisParsingException(message: string)
    | CharybdisUnsupportedOperation(message: string)

  predicate InInt64Range(x: int) {
    INT64_MIN <= x <= INT64_MAX
  }

  /** `Math.multiplyExact(long, long)`. */
  function MultiplyExact(a: int64, b: int64): (r: Result<int64, JavaException>)
    ensures r.Success? <==> InInt64Range(a as int * b as int)
    ensures r.Success? ==> r.value as int == a as int * b as int
  {
    if InInt64Range(a as int * b as int) then Success((a as int * b as int) as int64)
    else Failure(ArithmeticException("long overflow"))
  }

  /** `Math.addExact(long, long)`. */
  function AddExact(a: int64, b: int64): (r: Result<int64, JavaException>)
    ensures r.Success? <==> InInt64Range(a as int + b as int)
    ensures r.Success? ==> r.value as int == a as int + b as int
  {
    if InInt64Range(a as int + b as int) then Success((a as int + b as int) as int64)
    else Failure(ArithmeticException("long overflow"))
  }

  /**
   * `Instant.toEpochMilli()`, with the two branches of the JDK: for a negative second with a
   * positive nanosecond part it multiplies `epochSecond + 1` and adds a negative adjustment.
   * Whatever the branch, the call succeeds exactly when the exact millisecond count fits a `long`.
   */
  function ToEpochMilli(t: Instant): (r: Result<int64, JavaException>)
    ensures r.Success? <==> InInt64Range(t.epochSecond as int * 1000 + t.nano / 1_000_000)
    ensures r.Success? ==> r.value as int == t.epochSecond as int * 1000 + t.nano / 1_000_000
  {
    var s := t.epochSecond as int;
    var adjust := t.nano / 1_000_000;
    if s < 0 && t.nano > 0 then
      match MultiplyExact((s + 1) as int64, 1000)
      case Failure(e) => Failure(e)
      case Success(millis) => AddExact(millis, (adjust - 1000) as int64)
    else
      match MultiplyExact(s as int64, 1000)
      case Failure(e) => Failure(e)
      case Success(millis) => AddExact(millis, adjust as int64)
  }

  /** The number a string of decimal digits denotes, most significant digit first. */
  function DecimalValue(digits: string): nat
    requires forall i :: 0 <= i < |digits| ==> '0' <= digits[i] <= '9'
  {
    if |digits| == 0 then 0
    else DecimalValue(digits[..|digits| - 1]) * 10 + (digits[|digits| - 1] - '0') as int
  }

  /** Decimal rendering of a natural number, as `String.format("%d", n)` prints it. */
  function NatToString(n: nat): (r: string)
    ensures |r| > 0
    ensures forall i :: 0 <= i < |r| ==> '0' <= r[i] <= '9'
    ensures n > 0 ==> r[0] != '0'
    ensures DecimalValue(r) == n
  {
    if n < 10 then [DigitChar(n)]
    else
      var r := NatToString(n / 10) + [DigitChar(n % 10)];
      assert r[..|r| - 1] == NatToString(n / 10);
      r
  }

  /** The character of a decimal digit. */
  function DigitChar(d: nat): (c: char)
    requires d < 10
    ensures '0' <= c <= '9' && (c - '0') as int == d
  {
    ('0' as int + d) as char
  }
}
