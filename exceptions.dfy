/** The service's error taxonomy (service/src/utilities/exceptions.py).

    Every exception class becomes a `Kind`; a raised exception is the value
    (kind, HTTP status, detail message) that the router turns into a response.
    The logging done by the constructors is not modelled. */
module Exceptions {

  /** The four exception classes. InvalidSampleLength and
      InvalidSamplePixelValue are subclasses of SampleValidation;
      LabelValidation is a separate HTTP exception. */
  datatype Kind = SampleValidation | LabelValidation | InvalidSampleLength | InvalidSamplePixelValue

  /** An HTTP exception as the router sees it */
  datatype HttpError = HttpError(kind: Kind, status: int, detail: string)

  const BadRequest: int := 400

  const LabelPrefix: string := "Label has to be a number between 0 and 9, not "
  const LengthPrefix: string := "Sample length must be 784 ("
  const LengthSuffix: string := " given)."
  const DefaultPixelDetail: string := "Every sample pixel value must be between 0-255 (inclusive)."

  /** True of the kinds that `except SampleValidationException` catches */
  predicate IsSampleValidation(k: Kind) {
    k == SampleValidation || k == InvalidSampleLength || k == InvalidSamplePixelValue
  }

  // ---------------------------------------------------------------------------
  // Decimal rendering of integers, as Python's f-string `{x}` writes them

  function DigitChar(d: nat): char
    requires d < 10
  {
    ('0' as int + d) as char
  }

  function DigitValue(c: char): int {
    c as int - '0' as int
  }

  predicate IsDigit(c: char) {
    '0' <= c <= '9'
  }

  /** Decimal digits of `n`, most significant first, without leading zeros */
  function NatToString(n: nat): (s: string)
    ensures |s| > 0
    ensures forall i :: 0 <= i < |s| ==> IsDigit(s[i])
    decreases n
  {
    if n < 10 then [DigitChar(n)] else NatToString(n / 10) + [DigitChar(n % 10)]
  }

  /** Decimal rendering of `x`, with a leading '-' when it is negative */
  function IntToString(x: int): string {
    if x < 0 then "-" + NatToString(-x) else NatToString(x)
  }

  /** Reads back a string of decimal digits */
  function ParseNat(s: string): int {
    if s == [] then 0 else ParseNat(s[..|s| - 1]) * 10 + DigitValue(s[|s| - 1])
  }

  /** Reads back an optionally negative decimal number */
  function ParseInt(s: string): int {
    if |s| > 0 && s[0] == '-' then -ParseNat(s[1..]) else ParseNat(s)
  }

  lemma {:induction false} ParseNatToString(n: nat)
    ensures ParseNat(NatToString(n)) == n
    decreases n
  {
    if n >= 10 {
      var s := NatToString(n);
      assert s[..|s| - 1] == NatToString(n / 10);
      ParseNatToString(n / 10);
    }
  }

  /** Rendering an integer and reading it back gives the integer */
  lemma ParseIntToString(x: int)
    ensures ParseInt(IntToString(x)) == x
  {
    if x < 0 {
      assert IntToString(x)[1..] == NatToString(-x);
      ParseNatToString(-x);
    } else {
      var s := NatToString(x);
      assert IsDigit(s[0]);
      ParseNatToString(x);
    }
  }

  // ---------------------------------------------------------------------------
  // The exception constructors

  /** SampleValidationException(detail, status_code=400) */
  function SampleValidationError(detail: string, status: int := BadRequest): HttpError {
    HttpError(SampleValidation, status, detail)
  }

  /** LabelValidationException(actual_label) */
  function LabelValidationError(actualLabel: int): HttpError {
    HttpError(LabelValidation, BadRequest, LabelPrefix + IntToString(actualLabel))
  }

  /** InvalidSampleLengthException(actual_len): the base constructor with the default status */
  function InvalidSampleLengthError(actualLen: int): HttpError {
    var base := SampleValidationError(LengthPrefix + IntToString(actualLen) + LengthSuffix);
    base.(kind := InvalidSampleLength)
  }

  /** InvalidSamplePixelValueException(detail=default): the base constructor with the default status */
  function InvalidSamplePixelValueError(detail: string := DefaultPixelDetail): HttpError {
    var base := SampleValidationError(detail);
    base.(kind := InvalidSamplePixelValue)
  }

  // ---------------------------------------------------------------------------
  // What the constructors promise

  /** The label error is a 400 that is not a sample-validation error, and the
      offending label can be read back from the end of its detail message. */
  lemma LabelErrorNamesLabel(actual: int)
    ensures LabelValidationError(actual).status == BadRequest
    ensures !IsSampleValidation(LabelValidationError(actual).kind)
    ensures var d := LabelValidationError(actual).detail;
      |LabelPrefix| <= |d| && d[..|LabelPrefix|] == LabelPrefix && ParseInt(d[|LabelPrefix|..]) == actual
  {
    var d := LabelValidationError(actual).detail;
    assert d[|LabelPrefix|..] == IntToString(actual);
    ParseIntToString(actual);
  }

  /** The length error is a 400 sample-validation error whose detail carries
      the rejected length between the fixed prefix and suffix. */
  lemma LengthErrorNamesLength(len: nat)
    ensures InvalidSampleLengthError(len).status == BadRequest
    ensures IsSampleValidation(InvalidSampleLengthError(len).kind)
    ensures var d := InvalidSampleLengthError(len).detail;
      |LengthPrefix| + |LengthSuffix| <= |d|
      && d[..|LengthPrefix|] == LengthPrefix
      && d[|d| - |LengthSuffix|..] == LengthSuffix
      && ParseInt(d[|LengthPrefix|..|d| - |LengthSuffix|]) == len
  {
    var d := InvalidSampleLengthError(len).detail;
    assert d[|LengthPrefix|..|d| - |LengthSuffix|] == IntToString(len);
    ParseIntToString(len);
  }

  /** The pixel error is a 400 sample-validation error with the default detail */
  lemma PixelErrorDefaults()
    ensures InvalidSamplePixelValueError().status == BadRequest
    ensures InvalidSamplePixelValueError().detail == DefaultPixelDetail
    ensures IsSampleValidation(InvalidSamplePixelValueError().kind)
  {
  }

  /** The base sample-validation status is only a default: a caller's status is kept */
  lemma SampleStatusOverridable(detail: string, status: int)
    ensures SampleValidationError(detail).status == BadRequest
    ensures SampleValidationError(detail, status).status == status
    ensures SampleValidationError(detail, status).detail == detail
  {
  }
}
