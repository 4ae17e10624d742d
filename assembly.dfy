/**
 * The assembly of the twenty-feature input vector: the numeric widget values
 * pass through unchanged and the select-box labels are replaced by their
 * codes, in the one order the classifier was trained with.
 */
module Assembly {
  import opened Wrappers
  import opened Catalog
  import opened Encoding

  /** One column of the feature vector. */
  datatype Column =
    | Age
    | Income
    | LoanAmount
    | LoanDuration
    | CreditHistory
    | DebtToIncomeRatio
    | NumCreditCards
    | OutstandingDebt
    | FinancialDependents
    | EmploymentDuration
    | NumPreviousLoans
    | ExistingCreditScore
    | PreviousDefaultCount
    | Categorical(field: CategoricalField)

  /** The columns of the feature vector, in the order the classifier expects them: twenty of them. */
  function Schema(): (columns: seq<Column>)
    ensures |columns| == 20
  {
    [
      Age, Income, LoanAmount, LoanDuration, CreditHistory, Categorical(EmploymentStatus),
      Categorical(HomeOwnership), DebtToIncomeRatio, NumCreditCards, OutstandingDebt,
      Categorical(LoanPurpose), Categorical(MaritalStatus), Categorical(EducationLevel), FinancialDependents,
      EmploymentDuration, NumPreviousLoans, ExistingCreditScore, Categorical(LocationType),
      Categorical(LoanDefaultHistory), PreviousDefaultCount
    ]
  }

  /** The order in which the dict subscripts are evaluated. */
  const EncodingOrder: seq<CategoricalField> := [
    EmploymentStatus, HomeOwnership, LoanPurpose, MaritalStatus,
    EducationLevel, LocationType, LoanDefaultHistory
  ]

  /** Every dict-encoded select box is subscripted exactly once. */
  lemma EncodingOrderListsEveryField()
    ensures forall f: CategoricalField :: f in EncodingOrder
    ensures forall i, j :: 0 <= i < j < |EncodingOrder| ==> EncodingOrder[i] != EncodingOrder[j]
    ensures forall form: Form :: Encodable(form) <==> KnownLabels(form, EncodingOrder)
  {
    forall f: CategoricalField ensures f in EncodingOrder {
      match f
      case EmploymentStatus => assert EncodingOrder[0] == f;
      case HomeOwnership => assert EncodingOrder[1] == f;
      case LoanPurpose => assert EncodingOrder[2] == f;
      case MaritalStatus => assert EncodingOrder[3] == f;
      case EducationLevel => assert EncodingOrder[4] == f;
      case LocationType => assert EncodingOrder[5] == f;
      case LoanDefaultHistory => assert EncodingOrder[6] == f;
    }
    forall form: Form ensures Encodable(form) <==> KnownLabels(form, EncodingOrder) {
      if KnownLabels(form, EncodingOrder) {
        forall f: CategoricalField ensures Label(form, f) in Options(f) {
          assert f in EncodingOrder;
          var i :| 0 <= i < |EncodingOrder| && EncodingOrder[i] == f;
        }
      }
    }
  }

  /** A column whose value is a code rather than a widget value. */
  predicate IsEncoded(c: Column) {
    c.CreditHistory? || c.Categorical?
  }

  /** The widget value of a column that is passed through. */
  function RawValue(form: Form, c: Column): real
    requires !IsEncoded(c)
  {
    match c
    case Age => form.age as real
    case Income => form.income as real
    case LoanAmount => form.loanAmount as real
    case LoanDuration => form.loanDuration as real
    case DebtToIncomeRatio => form.debtToIncomeRatio
    case NumCreditCards => form.numCreditCards as real
    case OutstandingDebt => form.outstandingDebt as real
    case FinancialDependents => form.financialDependents as real
    case EmploymentDuration => form.employmentDuration as real
    case NumPreviousLoans => form.numPreviousLoans as real
    case ExistingCreditScore => form.existingCreditScore as real
    case PreviousDefaultCount => form.previousDefaultCount as real
  }

  /** The code of a select box's label, for a label its table holds. */
  function Code(form: Form, f: CategoricalField): int
    requires Label(form, f) in Options(f)
  {
    Encode(f, Label(form, f)).value
  }

  /** What a column of the vector holds for a form whose labels all encode. */
  function ColumnValue(form: Form, c: Column): real
    requires Encodable(form)
  {
    match c
    case CreditHistory => CreditHistoryCode(form.creditHistory) as real
    case Categorical(f) => Code(form, f) as real
    case _ => RawValue(form, c)
  }

  /** The form's label for each select box is one its table holds. */
  predicate KnownLabels(form: Form, fields: seq<CategoricalField>) {
    forall i :: 0 <= i < |fields| ==> Label(form, fields[i]) in Options(fields[i])
  }

  /**
   * The dict subscripts for the given select boxes, evaluated one after the
   * other: the codes, or the KeyError of the first subscript that fails.
   */
  function EncodeInOrder(form: Form, fields: seq<CategoricalField>): (r: Result<seq<int>, KeyError>)
    ensures r.Ok? <==> KnownLabels(form, fields)
    ensures r.Ok? ==> |r.value| == |fields|
    ensures r.Ok? ==> forall i :: 0 <= i < |fields| ==> Encode(fields[i], Label(form, fields[i])) == Ok(r.value[i])
  {
    if fields == [] then Ok([])
    else
      var code :- Encode(fields[0], Label(form, fields[0]));
      var rest :- EncodeInOrder(form, fields[1..]);
      Ok([code] + rest)
  }

  /**
   * When a subscript fails, it is the first one, in evaluation order, whose
   * label the table does not hold, and the KeyError names that label.
   */
  lemma {:induction false} EncodeInOrderReportsFirstUnknown(form: Form, fields: seq<CategoricalField>)
    requires EncodeInOrder(form, fields).Err?
    ensures exists k :: (0 <= k < |fields|
      && Label(form, fields[k]) !in Options(fields[k])
      && KnownLabels(form, fields[..k])
      && EncodeInOrder(form, fields).error == KeyError(Label(form, fields[k])))
  {
    var r := EncodeInOrder(form, fields);
    if Label(form, fields[0]) !in Options(fields[0]) {
      assert KnownLabels(form, fields[..0]);
    } else {
      var rest := fields[1..];
      EncodeInOrderReportsFirstUnknown(form, rest);
      var k :| 0 <= k < |rest|
        && Label(form, rest[k]) !in Options(rest[k])
        && KnownLabels(form, rest[..k])
        && EncodeInOrder(form, rest).error == KeyError(Label(form, rest[k]));
      assert fields[k + 1] == rest[k];
      assert KnownLabels(form, fields[..k + 1]) by {
        forall i | 0 <= i < k + 1 ensures Label(form, fields[i]) in Options(fields[i]) {
          if i > 0 { assert fields[i] == rest[..k][i - 1]; }
        }
      }
    }
  }

  /**
   * The feature vector of a form, or the KeyError of the first dict subscript
   * that fails.
   */
  function Assemble(form: Form): (r: Result<seq<real>, KeyError>)
    ensures r.Ok? <==> Encodable(form)
    ensures r.Ok? ==> |r.value| == |Schema()|
  {
    EncodingOrderListsEveryField();
    var creditHistory := CreditHistoryCode(form.creditHistory);
    var codes :- EncodeInOrder(form, EncodingOrder);
    Ok(Vector(form, creditHistory, codes))
  }

  /**
   * The list of twenty values handed to the classifier, given the credit
   * history code and the seven dict codes in evaluation order. The vector
   * holds reals because the one fractional field makes the whole array
   * fractional.
   */
  function Vector(form: Form, creditHistory: int, codes: seq<int>): (v: seq<real>)
    requires |codes| == |EncodingOrder|
    ensures |v| == |Schema()|
  {
    [
      form.age as real, form.income as real, form.loanAmount as real, form.loanDuration as real,
      creditHistory as real, codes[0] as real, codes[1] as real, form.debtToIncomeRatio,
      form.numCreditCards as real, form.outstandingDebt as real, codes[2] as real,
      codes[3] as real, codes[4] as real, form.financialDependents as real,
      form.employmentDuration as real, form.numPreviousLoans as real, form.existingCreditScore as real,
      codes[5] as real, codes[6] as real, form.previousDefaultCount as real
    ]
  }

  /** Every column appears in the schema exactly once. */
  lemma SchemaListsEveryColumnOnce()
    ensures forall c: Column :: c in Schema()
    ensures forall i, j :: 0 <= i < j < |Schema()| ==> Schema()[i] != Schema()[j]
  {
    forall c: Column ensures c in Schema() {
      if c.Categorical? {
        match c.field
        case EmploymentStatus => assert Schema()[5] == c;
        case HomeOwnership => assert Schema()[6] == c;
        case LoanPurpose => assert Schema()[10] == c;
        case MaritalStatus => assert Schema()[11] == c;
        case EducationLevel => assert Schema()[12] == c;
        case LocationType => assert Schema()[17] == c;
        case LoanDefaultHistory => assert Schema()[18] == c;
      }
    }
  }

  /** The eight encoded columns sit at positions 4, 5, 6, 10, 11, 12, 17 and 18; the other twelve pass through. */
  lemma EncodedPositions()
    ensures forall i :: 0 <= i < |Schema()| ==> (IsEncoded(Schema()[i]) <==> i in {4, 5, 6, 10, 11, 12, 17, 18})
  {
  }

  /** Where a select box's code sits among the seven codes, in evaluation order. */
  function CodeIndex(f: CategoricalField): (k: nat)
    ensures k < |EncodingOrder| && EncodingOrder[k] == f
  {
    match f
    case EmploymentStatus => 0
    case HomeOwnership => 1
    case LoanPurpose => 2
    case MaritalStatus => 3
    case EducationLevel => 4
    case LocationType => 5
    case LoanDefaultHistory => 6
  }

  /** What a column holds, given the credit-history code and the seven dict codes. */
  function ColumnOf(form: Form, creditHistory: int, codes: seq<int>, c: Column): real
    requires |codes| == |EncodingOrder|
  {
    match c
    case CreditHistory => creditHistory as real
    case Categorical(f) => codes[CodeIndex(f)] as real
    case _ => RawValue(form, c)
  }

  /** Each position of an assembled vector holds the value of the column the schema puts there. */
  lemma AssembleFollowsSchema(form: Form)
    requires Encodable(form)
    ensures forall i :: 0 <= i < |Schema()| ==> Assemble(form).value[i] == ColumnValue(form, Schema()[i])
  {
    EncodingOrderListsEveryField();
    var creditHistory := CreditHistoryCode(form.creditHistory);
    var codes := EncodeInOrder(form, EncodingOrder).value;
    assert Assemble(form).value == Vector(form, creditHistory, codes);
    VectorFollowsSchema(form, creditHistory, codes);
    EncodedColumnsMatch(form);
  }

  /** The codes computed in evaluation order are the codes of each column. */
  lemma EncodedColumnsMatch(form: Form)
    requires Encodable(form)
    ensures EncodeInOrder(form, EncodingOrder).Ok?
    ensures forall c: Column ::
      ColumnOf(form, CreditHistoryCode(form.creditHistory), EncodeInOrder(form, EncodingOrder).value, c)
      == ColumnValue(form, c)
  {
    EncodingOrderListsEveryField();
    var codes := EncodeInOrder(form, EncodingOrder).value;
    forall c: Column
      ensures ColumnOf(form, CreditHistoryCode(form.creditHistory), codes, c) == ColumnValue(form, c)
    {
      if c.Categorical? {
        var k := CodeIndex(c.field);
        assert Encode(EncodingOrder[k], Label(form, EncodingOrder[k])) == Ok(codes[k]);
      }
    }
  }

  /** The list literal puts each value at the position the schema gives its column. */
  lemma VectorFollowsSchema(form: Form, creditHistory: int, codes: seq<int>)
    requires |codes| == |EncodingOrder|
    ensures forall i :: 0 <= i < |Schema()| ==>
      Vector(form, creditHistory, codes)[i] == ColumnOf(form, creditHistory, codes, Schema()[i])
  {
  }

  /**
   * Named positions of the schema: age first, the credit-history code at 4,
   * the debt-to-income ratio at 7, the loan-purpose code at 10, the
   * location-type code at 17 and the previous default count last.
   */
  lemma NamedPositions()
    ensures Schema()[0] == Age && Schema()[4] == CreditHistory && Schema()[7] == DebtToIncomeRatio
    ensures Schema()[10] == Categorical(LoanPurpose) && Schema()[17] == Categorical(LocationType)
    ensures Schema()[19] == PreviousDefaultCount
  {
  }

  /** A numeric widget value reaches its position of the vector unchanged. */
  lemma NumericPassThrough(form: Form, i: int)
    requires Encodable(form)
    requires 0 <= i < |Schema()| && !IsEncoded(Schema()[i])
    ensures Assemble(form).value[i] == RawValue(form, Schema()[i])
  {
    AssembleFollowsSchema(form);
  }

  /**
   * A form that fails to assemble fails on the first label, in evaluation
   * order, that its table does not hold, and the KeyError names that label.
   */
  lemma AssembleReportsFirstUnknownLabel(form: Form)
    requires !Encodable(form)
    ensures exists k :: (0 <= k < |EncodingOrder|
      && Label(form, EncodingOrder[k]) !in Options(EncodingOrder[k])
      && (forall j :: 0 <= j < k ==> Label(form, EncodingOrder[j]) in Options(EncodingOrder[j]))
      && Assemble(form) == Err(KeyError(Label(form, EncodingOrder[k]))))
  {
    EncodingOrderListsEveryField();
    assert Assemble(form) == Err(EncodeInOrder(form, EncodingOrder).error);
    EncodeInOrderReportsFirstUnknown(form, EncodingOrder);
    var k :| 0 <= k < |EncodingOrder|
      && Label(form, EncodingOrder[k]) !in Options(EncodingOrder[k])
      && KnownLabels(form, EncodingOrder[..k])
      && EncodeInOrder(form, EncodingOrder).error == KeyError(Label(form, EncodingOrder[k]));
    assert forall j :: 0 <= j < k ==> EncodingOrder[..k][j] == EncodingOrder[j];
  }

  /** The credit-history label never makes assembly fail, whatever it is. */
  lemma CreditHistoryNeverFails(form: Form, other: string)
    ensures Assemble(form).Ok? == Assemble(form.(creditHistory := other)).Ok?
  {
    var form' := form.(creditHistory := other);
    assert forall f: CategoricalField :: Label(form', f) == Label(form, f);
    assert Encodable(form') == Encodable(form);
  }

  /** The page's initial form assembles to the vector the classifier is first offered. */
  lemma DefaultFormAssembles()
    ensures Assemble(DefaultForm()) == Ok([
      30.0, 3000.0, 10000.0, 12.0, 1.0, 1.0, 1.0, 30.0, 2.0, 5000.0,
      0.0, 0.0, 0.0, 1.0, 5.0, 1.0, 650.0, 0.0, 0.0, 0.0
    ])
  {
    var form := DefaultForm();
    assert Encodable(form);
    FirstTwoCodesSwapped(EmploymentStatus, 0);
    FirstTwoCodesSwapped(HomeOwnership, 0);
    CodeIsOptionIndex(LoanPurpose, 0);
    CodeIsOptionIndex(MaritalStatus, 0);
    CodeIsOptionIndex(EducationLevel, 0);
    CodeIsOptionIndex(LocationType, 0);
    CodeIsOptionIndex(LoanDefaultHistory, 0);
    AssembleFollowsSchema(form);
  }
}
