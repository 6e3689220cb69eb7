/** Vocabulary shared by the whole expense tracker model: optional values,
    the .NET exception kinds the services throw and the handlers catch,
    identifiers, timestamps, money, and the ASCII string helpers that stand
    for `ToLower`, `Trim`, `char.IsUpper`, `char.IsDigit` and ordinal order. */
module Common {

  datatype Option<+T> = None | Some(value: T) {
    /** `x ?? default` */
    function GetOr(default: T): T {
      if Some? then value else default
    }
  }

  /** The exception types that the core throws or that its handlers test for. */
  datatype ExceptionKind =
    | ArgumentException
    | ArgumentNullException
    | ArgumentOutOfRangeException
    | ValidationException           // FluentValidation.ValidationException
    | KeyNotFoundException
    | UnauthorizedAccessException
    | OtherException                // anything else (database, cache, null reference, ...)

  /** `ex is ArgumentException` in C#: the class itself and its subclasses. */
  predicate IsArgumentException(e: ExceptionKind) {
    e.ArgumentException? || e.ArgumentNullException? || e.ArgumentOutOfRangeException?
  }

  /** The value of a call that either returns or throws. */
  datatype Result<+T> = Ok(value: T) | Thrown(exception: ExceptionKind)

  /** A call that returns nothing of interest (the services' `Task<bool>`
      results are always `true`) or throws. */
  datatype Outcome = Done | Failed(exception: ExceptionKind)

  /** A GUID; 0 stands for `Guid.Empty`. */
  type Guid = nat
  const EmptyGuid: Guid := 0

  /** `DateTime` as its tick count, between `DateTime.MinValue` and `DateTime.MaxValue`. */
  const MaxTicks: int := 3155378975999999999
  type DateTime = t: int | 0 <= t <= MaxTicks
  const MinValue: DateTime := 0
  const MaxValue: DateTime := MaxTicks
  const TicksPerSecond: nat := 10000000
  const SecondsPerDay: nat := 86400

  /** A `decimal(10,2)` amount, counted in hundredths. */
  type Money = int

  // ---------------------------------------------------------------- characters

  predicate IsUpper(c: char) { 'A' <= c <= 'Z' }

  predicate IsDigit(c: char) { '0' <= c <= '9' }

  /** Space, tab, line feed, vertical tab, form feed, carriage return. */
  predicate IsWhiteSpace(c: char) { c == ' ' || '\t' <= c <= '\r' }

  predicate IsHexDigit(c: char) { IsDigit(c) || 'a' <= c <= 'f' || 'A' <= c <= 'F' }

  function ToLowerChar(c: char): (r: char)
    ensures !IsUpper(r)
    ensures IsWhiteSpace(r) == IsWhiteSpace(c)
    ensures !IsUpper(c) ==> r == c
  {
    if IsUpper(c) then (c as int + 32) as char else c
  }

  // ---------------------------------------------------------------- strings

  /** `s.ToLower()` with ASCII case folding. */
  function ToLower(s: string): (r: string)
    ensures |r| == |s|
    ensures forall i :: 0 <= i < |s| ==> r[i] == ToLowerChar(s[i])
  {
    if s == [] then [] else [ToLowerChar(s[0])] + ToLower(s[1..])
  }

  lemma ToLowerIdempotent(s: string)
    ensures ToLower(ToLower(s)) == ToLower(s)
  {
  }

  /** `string.IsNullOrWhiteSpace` for a non-null string. */
  predicate IsWhiteSpaceOnly(s: string) {
    forall i :: 0 <= i < |s| ==> IsWhiteSpace(s[i])
  }

  predicate IsTrimmed(s: string) {
    s == [] || (!IsWhiteSpace(s[0]) && !IsWhiteSpace(s[|s| - 1]))
  }

  function TrimStart(s: string): (r: string)
    ensures r == [] || !IsWhiteSpace(r[0])
    ensures |r| <= |s| && r == s[|s| - |r|..]
    ensures IsWhiteSpaceOnly(s[..|s| - |r|])
  {
    if s != [] && IsWhiteSpace(s[0]) then
      var r := TrimStart(s[1..]);
      TrimStartStep(s, r);
      r
    else s
  }

  /** One white-space character in front of an already trimmed tail. */
  lemma TrimStartStep(s: string, r: string)
    requires s != [] && IsWhiteSpace(s[0])
    requires |r| <= |s| - 1 && r == s[1..][|s| - 1 - |r|..] && IsWhiteSpaceOnly(s[1..][..|s| - 1 - |r|])
    ensures r == s[|s| - |r|..] && IsWhiteSpaceOnly(s[..|s| - |r|])
  {
    var n := |s| - |r|;
    assert s[..n] == [s[0]] + s[1..][..n - 1];
  }

  function TrimEnd(s: string): (r: string)
    ensures r == [] || !IsWhiteSpace(r[|r| - 1])
    ensures |r| <= |s| && r == s[..|r|]
    ensures IsWhiteSpaceOnly(s[|r|..])
  {
    if s != [] && IsWhiteSpace(s[|s| - 1]) then
      var r := TrimEnd(s[..|s| - 1]);
      TrimEndStep(s, r);
      r
    else s
  }

  /** An already trimmed head followed by one white-space character. */
  lemma TrimEndStep(s: string, r: string)
    requires s != [] && IsWhiteSpace(s[|s| - 1])
    requires |r| <= |s| - 1 && r == s[..|s| - 1][..|r|] && IsWhiteSpaceOnly(s[..|s| - 1][|r|..])
    ensures r == s[..|r|] && IsWhiteSpaceOnly(s[|r|..])
  {
    assert s[|r|..] == s[..|s| - 1][|r|..] + [s[|s| - 1]];
  }

  /** `r` is an infix of `s` with only white space before and after it. */
  predicate IsPaddedInfix(s: string, r: string) {
    exists i, j :: 0 <= i <= j <= |s| && r == s[i..j] && IsWhiteSpaceOnly(s[..i]) && IsWhiteSpaceOnly(s[j..])
  }

  /** `s.Trim()`: the longest infix of `s` that neither starts nor ends with white space. */
  function Trim(s: string): (r: string)
    ensures IsTrimmed(r)
    ensures |r| <= |s|
    ensures IsPaddedInfix(s, r)
  {
    var t := TrimStart(s);
    var r := TrimEnd(t);
    TrimmedInfix(s, t, r);
    r
  }

  /** Trimming the start and then the end leaves a trimmed infix with only
      white space around it. */
  lemma TrimmedInfix(s: string, t: string, r: string)
    requires |t| <= |s| && t == s[|s| - |t|..] && IsWhiteSpaceOnly(s[..|s| - |t|])
    requires t == [] || !IsWhiteSpace(t[0])
    requires |r| <= |t| && r == t[..|r|] && IsWhiteSpaceOnly(t[|r|..])
    requires r == [] || !IsWhiteSpace(r[|r| - 1])
    ensures IsTrimmed(r) && |r| <= |s|
    ensures IsPaddedInfix(s, r)
  {
    var i := |s| - |t|;
    var j := i + |r|;
    assert t[|r|..] == s[j..];
    assert r == s[i..j];
    if r != [] {
      assert r[0] == t[0];
    }
  }

  lemma {:induction false} TrimOfTrimmed(s: string)
    requires IsTrimmed(s)
    ensures Trim(s) == s
  {
  }

  lemma {:induction false} ToLowerKeepsTrimmed(s: string)
    requires IsTrimmed(s)
    ensures IsTrimmed(ToLower(s))
  {
  }

  // ---------------------------------------------------------------- ordinal order

  /** Ordinal (code-unit) lexicographic order on strings: `a <= b`. */
  predicate LexLe(a: string, b: string) {
    a == [] || (b != [] && (a[0] < b[0] || (a[0] == b[0] && LexLe(a[1..], b[1..]))))
  }

  lemma {:induction false} LexLeTotal(a: string, b: string)
    ensures LexLe(a, b) || LexLe(b, a)
  {
    if a != [] && b != [] && a[0] == b[0] {
      LexLeTotal(a[1..], b[1..]);
    }
  }

  lemma {:induction false} LexLeTransitive(a: string, b: string, c: string)
    requires LexLe(a, b) && LexLe(b, c)
    ensures LexLe(a, c)
  {
    if a != [] && b != [] && c != [] && a[0] == b[0] && b[0] == c[0] {
      LexLeTransitive(a[1..], b[1..], c[1..]);
    }
  }

  lemma {:induction false} LexLeAntisymmetric(a: string, b: string)
    requires LexLe(a, b) && LexLe(b, a)
    ensures a == b
  {
    if a != [] && b != [] {
      LexLeAntisymmetric(a[1..], b[1..]);
      assert a == [a[0]] + a[1..] && b == [b[0]] + b[1..];
    }
  }
}
