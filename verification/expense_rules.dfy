/** CreateExpenseDtoValidator and UpdateExpenseDtoValidator, together with
    the data annotations of the two DTOs: the rules that decide `ModelState`
    for an expense request. `now` stands for the `DateTime.UtcNow` read when
    the rule runs. */
module ExpenseRules {
  import opened Common
  import opened Models

  const DescriptionMaxLength: nat := 500

  const CategoryIdRequired := "CategoryId is required."
  const AmountNotPositive := "Amount must be greater than zero."
  const DateInFuture := "Date cannot be in the future."
  const DescriptionTooLong := "Description cannot exceed 500 characters."

  /** `MaximumLength(500)` and `[MaxLength(500)]`: a null description passes. */
  predicate DescriptionFits(description: Option<string>) {
    description.None? || |description.value| <= DescriptionMaxLength
  }

  /** CreateExpenseDtoValidator: the failed rules' messages, in rule order. */
  function CreateExpenseErrors(dto: CreateExpenseDto, now: DateTime): (r: seq<string>)
    ensures r == [] <==>
              dto.categoryId != EmptyGuid && dto.amount > 0 && dto.date <= now && DescriptionFits(dto.description)
    ensures CategoryIdRequired in r <==> dto.categoryId == EmptyGuid
    ensures AmountNotPositive in r <==> dto.amount <= 0
    ensures DateInFuture in r <==> dto.date > now
    ensures DescriptionTooLong in r <==> !DescriptionFits(dto.description)
    ensures |r| <= 4
  {
    (if dto.categoryId != EmptyGuid then [] else [CategoryIdRequired])
    + (if dto.amount > 0 then [] else [AmountNotPositive])
    + (if dto.date <= now then [] else [DateInFuture])
    + (if DescriptionFits(dto.description) then [] else [DescriptionTooLong])
  }

  /** The annotations of CreateExpenseDto: `[Range(0.01, ...)]` on the amount
      (one hundredth at least) and `[MaxLength(500)]` on the description;
      `[Required]` on the non-nullable key and date always holds. */
  predicate CreateExpenseAnnotationsHold(dto: CreateExpenseDto) {
    dto.amount >= 1 && DescriptionFits(dto.description)
  }

  /** `ModelState.IsValid` for a create request. */
  predicate CreateExpenseModelValid(dto: CreateExpenseDto, now: DateTime) {
    CreateExpenseAnnotationsHold(dto) && CreateExpenseErrors(dto, now) == []
  }

  /** A valid create request has a positive amount and a date that is not in
      the future, so the controller's own checks of both never fire. */
  lemma {:induction false} ValidCreateIsPositiveAndPast(dto: CreateExpenseDto, now: DateTime)
    ensures CreateExpenseModelValid(dto, now) <==> CreateExpenseErrors(dto, now) == []
    ensures CreateExpenseModelValid(dto, now) ==> dto.amount > 0 && dto.date <= now
  {
  }

  /** UpdateExpenseDtoValidator: amount and date rules only for a present field. */
  function UpdateExpenseErrors(dto: UpdateExpenseDto, now: DateTime): (r: seq<string>)
    ensures r == [] <==>
              (dto.amount.None? || dto.amount.value > 0)
              && (dto.date.None? || dto.date.value <= now)
              && DescriptionFits(dto.description)
    ensures |r| <= 3
  {
    (if dto.amount.Some? && dto.amount.value <= 0 then [AmountNotPositive] else [])
    + (if dto.date.Some? && dto.date.value > now then [DateInFuture] else [])
    + (if DescriptionFits(dto.description) then [] else [DescriptionTooLong])
  }

  /** The annotations of UpdateExpenseDto: `[Range(0.01, ...)]` on a present
      amount, `[MaxLength(500)]` on the description. */
  predicate UpdateExpenseAnnotationsHold(dto: UpdateExpenseDto) {
    (dto.amount.None? || dto.amount.value >= 1) && DescriptionFits(dto.description)
  }

  /** `ModelState.IsValid` for an update request. */
  predicate UpdateExpenseModelValid(dto: UpdateExpenseDto, now: DateTime) {
    UpdateExpenseAnnotationsHold(dto) && UpdateExpenseErrors(dto, now) == []
  }

  /** An empty update (no field supplied) is always valid. */
  lemma EmptyUpdateIsValid(now: DateTime)
    ensures UpdateExpenseModelValid(UpdateExpenseDto(None, None, None, None), now)
  {
  }
}
