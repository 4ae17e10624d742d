/**
 * The field catalog of the credit-risk form: the twenty values the page
 * collects, the labels each select box offers, the value each widget starts
 * with and the bounds each numeric widget enforces.
 */
module Catalog {

  /** The seven select boxes whose label is encoded through a dict lookup. */
  datatype CategoricalField =
    | EmploymentStatus
    | HomeOwnership
    | LoanPurpose
    | MaritalStatus
    | EducationLevel
    | LocationType
    | LoanDefaultHistory

  /** What the widgets hand back: integers, one fraction, and select-box labels. */
  datatype Form = Form(
    age: int,
    income: int,
    loanAmount: int,
    loanDuration: int,
    creditHistory: string,
    employmentStatus: string,
    homeOwnership: string,
    debtToIncomeRatio: real,
    numCreditCards: int,
    outstandingDebt: int,
    loanPurpose: string,
    maritalStatus: string,
    educationLevel: string,
    financialDependents: int,
    employmentDuration: int,
    numPreviousLoans: int,
    existingCreditScore: int,
    locationType: string,
    loanDefaultHistory: string,
    previousDefaultCount: int
  )

  /** The credit-history select box offers these labels. */
  const CreditHistoryOptions: seq<string> := ["Good", "Bad"]

  /** The labels each dict-encoded select box offers, in display order. */
  function Options(f: CategoricalField): (labels: seq<string>)
    ensures |labels| > 0
  {
    match f
    case EmploymentStatus => ["Employed", "Unemployed", "Self-employed", "Retired"]
    case HomeOwnership => ["Owned", "Rented", "Mortgaged", "Other"]
    case LoanPurpose => ["Personal", "Business", "Education", "Home Improvement", "Medical"]
    case MaritalStatus => ["Single", "Married", "Divorced", "Widowed"]
    case EducationLevel => ["High School", "Bachelor's", "Master's", "Doctorate", "Other"]
    case LocationType => ["Urban", "Suburban", "Rural"]
    case LoanDefaultHistory => ["None", "1-2 Defaults", "3+ Defaults"]
  }

  /** The label a form holds for one of the dict-encoded select boxes. */
  function Label(form: Form, f: CategoricalField): string {
    match f
    case EmploymentStatus => form.employmentStatus
    case HomeOwnership => form.homeOwnership
    case LoanPurpose => form.loanPurpose
    case MaritalStatus => form.maritalStatus
    case EducationLevel => form.educationLevel
    case LocationType => form.locationType
    case LoanDefaultHistory => form.loanDefaultHistory
  }

  /** Every dict-encoded label of the form is one its select box offers. */
  predicate Encodable(form: Form) {
    forall f: CategoricalField :: Label(form, f) in Options(f)
  }

  /** Every label of the form, credit history included, could have been picked in the page. */
  predicate Selectable(form: Form) {
    form.creditHistory in CreditHistoryOptions && Encodable(form)
  }

  /** The bounds the numeric widgets enforce (`min_value` / `max_value`). */
  predicate WithinWidgetBounds(form: Form) {
    && 18 <= form.age <= 100
    && 0 <= form.income
    && 0 <= form.loanAmount
    && 1 <= form.loanDuration
    && 0.0 <= form.debtToIncomeRatio <= 100.0
    && 0 <= form.numCreditCards
    && 0 <= form.outstandingDebt
    && 0 <= form.financialDependents
    && 0 <= form.employmentDuration
    && 0 <= form.numPreviousLoans
    && 0 <= form.existingCreditScore <= 850
    && 0 <= form.previousDefaultCount
  }

  /**
   * The form as the page first shows it: every numeric widget at its declared
   * `value=`, every select box on its first option. It lies inside every
   * widget's bounds and holds only labels the select boxes offer.
   */
  function DefaultForm(): (form: Form)
    ensures WithinWidgetBounds(form)
    ensures Selectable(form)
  {
    Form(
      age := 30,
      income := 3000,
      loanAmount := 10000,
      loanDuration := 12,
      creditHistory := CreditHistoryOptions[0],
      employmentStatus := Options(EmploymentStatus)[0],
      homeOwnership := Options(HomeOwnership)[0],
      debtToIncomeRatio := 30.0,
      numCreditCards := 2,
      outstandingDebt := 5000,
      loanPurpose := Options(LoanPurpose)[0],
      maritalStatus := Options(MaritalStatus)[0],
      educationLevel := Options(EducationLevel)[0],
      financialDependents := 1,
      employmentDuration := 5,
      numPreviousLoans := 1,
      existingCreditScore := 650,
      locationType := Options(LocationType)[0],
      loanDefaultHistory := Options(LoanDefaultHistory)[0],
      previousDefaultCount := 0
    )
  }

  /** Every select box offers each label once, so a label picks out one option. */
  lemma OptionsAreDistinct(f: CategoricalField)
    ensures forall i, j :: 0 <= i < j < |Options(f)| ==> Options(f)[i] != Options(f)[j]
  {
  }

  /** The credit-history select box offers each label once. */
  lemma CreditHistoryOptionsAreDistinct()
    ensures forall i, j :: 0 <= i < j < |CreditHistoryOptions| ==> CreditHistoryOptions[i] != CreditHistoryOptions[j]
  {
  }
}
