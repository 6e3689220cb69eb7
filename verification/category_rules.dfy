/** CreateCategoryDtoValidator and UpdateCategoryDtoValidator, together with
    the data annotations of the two DTOs: the rules that decide `ModelState`
    for a category request. A validator's verdict is the list of messages of
    the rules that failed, in rule order; the request is valid when the list
    is empty. */
module CategoryRules {
  import opened Common
  import opened Models

  const NameMaxLength: nat := 100

  const NameRequired := "Name is required."
  const NameTooLong := "Name cannot exceed 100 characters."
  const ColorRequired := "Color is required."
  const ColorNotHex := "Color must be a valid hex code (e.g., #FF5733)."

  // ---------------------------------------------------------------- the colour pattern

  predicate IsHexTriple(t: string) {
    |t| == 3 && IsHexDigit(t[0]) && IsHexDigit(t[1]) && IsHexDigit(t[2])
  }

  /** `#` followed by one or two groups of three hex digits and nothing else:
      what `^#(?:[0-9a-fA-F]{3}){1,2}$` is meant to accept. */
  predicate IsHexColor(s: string) {
    |s| >= 1 && s[0] == '#'
    && (IsHexTriple(s[1..]) || (|s| >= 4 && IsHexTriple(s[1..4]) && IsHexTriple(s[4..])))
  }

  /** Every accepted colour is `#rgb` or `#rrggbb`. */
  lemma HexColorLength(s: string)
    requires IsHexColor(s)
    ensures |s| == 4 || |s| == 7
    ensures forall i :: 1 <= i < |s| ==> IsHexDigit(s[i])
  {
    if !IsHexTriple(s[1..]) {
      assert s[1..4][0] == s[1] && s[1..4][1] == s[2] && s[1..4][2] == s[3];
      assert s[4..][0] == s[4] && s[4..][1] == s[5] && s[4..][2] == s[6];
    }
  }

  /** The converse: `#` and three or six hex digits is accepted. */
  lemma HexDigitsAreHexColor(s: string)
    requires |s| == 4 || |s| == 7
    requires s[0] == '#' && forall i :: 1 <= i < |s| ==> IsHexDigit(s[i])
    ensures IsHexColor(s)
  {
    if |s| == 7 {
      assert IsHexTriple(s[1..4]) && IsHexTriple(s[4..]);
    } else {
      assert IsHexTriple(s[1..]);
    }
  }

  /** The pattern as .NET evaluates it: without `RegexOptions.Multiline`, `$`
      matches at the end of the input and also just before a final line feed. */
  predicate MatchesColorPattern(s: string) {
    IsHexColor(s) || (|s| >= 1 && s[|s| - 1] == '\n' && IsHexColor(s[..|s| - 1]))
  }

  /** A colour with a trailing line feed passes the pattern as written,
      though it is not a hex code and has length 5. */
  lemma TrailingNewlineAccepted()
    ensures MatchesColorPattern("#abc\n")
    ensures !IsHexColor("#abc\n") && |"#abc\n"| == 5
  {
    var s := "#abc\n";
    assert s[..|s| - 1] == "#abc";
    assert IsHexTriple("#abc"[1..]);
    assert !IsHexDigit(s[4]);
  }

  /** A hex colour starts with `#`, so it is never blank. */
  lemma HexColorNotBlank(s: string)
    ensures IsHexColor(s) ==> !IsWhiteSpaceOnly(s)
  {
    if IsHexColor(s) {
      assert !IsWhiteSpace(s[0]);
    }
  }

  // ---------------------------------------------------------------- create

  /** FluentValidation's `NotEmpty` on a string: not empty and not only white space. */
  predicate NotEmpty(s: string) {
    !IsWhiteSpaceOnly(s)
  }

  /** CreateCategoryDtoValidator: the failed rules' messages, in rule order. */
  function CreateCategoryErrors(dto: CreateCategoryDto): (r: seq<string>)
    ensures r == [] <==> NotEmpty(dto.name) && |dto.name| <= NameMaxLength && IsHexColor(dto.color)
    ensures NameRequired in r <==> !NotEmpty(dto.name)
    ensures NameTooLong in r <==> |dto.name| > NameMaxLength
    ensures ColorRequired in r <==> !NotEmpty(dto.color)
    ensures ColorNotHex in r <==> !IsHexColor(dto.color)
    ensures |r| <= 4
  {
    (if NotEmpty(dto.name) then [] else [NameRequired])
    + (if |dto.name| <= NameMaxLength then [] else [NameTooLong])
    + (if NotEmpty(dto.color) then [] else [ColorRequired])
    + (if IsHexColor(dto.color) then [] else [ColorNotHex])
  }

  /** A hex colour is never blank, so with an empty colour both colour
      messages are reported. */
  lemma {:induction false} BlankColorFailsBothRules(dto: CreateCategoryDto)
    requires IsWhiteSpaceOnly(dto.color)
    ensures ColorRequired in CreateCategoryErrors(dto) && ColorNotHex in CreateCategoryErrors(dto)
  {
    HexColorNotBlank(dto.color);
  }

  /** The annotations of CreateCategoryDto: `[Required]` (which refuses
      blank strings) and `[MaxLength(100)]` on the name, `[Required]` on the
      colour. */
  predicate CreateCategoryAnnotationsHold(dto: CreateCategoryDto) {
    NotEmpty(dto.name) && |dto.name| <= NameMaxLength && NotEmpty(dto.color)
  }

  /** `ModelState.IsValid` for a create request. */
  predicate CreateCategoryModelValid(dto: CreateCategoryDto) {
    CreateCategoryAnnotationsHold(dto) && CreateCategoryErrors(dto) == []
  }

  /** The annotations add nothing to the validator. */
  lemma CreateAnnotationsSubsumed(dto: CreateCategoryDto)
    ensures CreateCategoryModelValid(dto) <==> CreateCategoryErrors(dto) == []
  {
  }

  // ---------------------------------------------------------------- update

  /** UpdateCategoryDtoValidator: each rule only when its field is non-empty. */
  function UpdateCategoryErrors(dto: UpdateCategoryDto): (r: seq<string>)
    ensures r == [] <==>
              (dto.name.None? || |dto.name.value| <= NameMaxLength)
              && (dto.color.None? || dto.color.value == [] || IsHexColor(dto.color.value))
    ensures |r| <= 2
  {
    (if dto.name.Some? && dto.name.value != [] && |dto.name.value| > NameMaxLength then [NameTooLong] else [])
    + (if dto.color.Some? && dto.color.value != [] && !IsHexColor(dto.color.value) then [ColorNotHex] else [])
  }

  /** `ModelState.IsValid` for an update request (`[MaxLength(100)]` on the name). */
  predicate UpdateCategoryModelValid(dto: UpdateCategoryDto) {
    (dto.name.None? || |dto.name.value| <= NameMaxLength) && UpdateCategoryErrors(dto) == []
  }

  /** An update that passes validation sets no colour other than a hex code
      or the empty string. */
  lemma {:induction false} ValidUpdateColor(dto: UpdateCategoryDto)
    requires UpdateCategoryModelValid(dto) && dto.color.Some?
    ensures dto.color.value == [] || |dto.color.value| == 4 || |dto.color.value| == 7
  {
    if dto.color.value != [] {
      HexColorLength(dto.color.value);
    }
  }
}
