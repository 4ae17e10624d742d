/**
 * The encoding of select-box labels into the integer codes the classifier
 * was trained on: a conditional for credit history and a dict display,
 * subscripted by the label, for each of the seven other select boxes.
 */
module Encoding {
  import opened Wrappers
  import opened Catalog

  /** The exception a dict subscript raises for a key the dict does not hold. */
  datatype KeyError = KeyError(key: string)

  /** No two keys of the dict share a code. */
  predicate Injective(d: map<string, int>) {
    forall a, b :: a in d && b in d && d[a] == d[b] ==> a == b
  }

  /** The codes 0 .. n-1. */
  function Codes(n: nat): (s: set<int>)
    ensures forall c :: c in s <==> 0 <= c < n
    ensures |s| == n
  {
    if n == 0 then {} else Codes(n - 1) + {n - 1}
  }

  /** A set of n codes, each in 0 .. n-1, is all of 0 .. n-1. */
  lemma SubsetOfCodesIsCodes(s: set<int>, n: nat)
    requires |s| == n
    requires forall c :: c in s ==> 0 <= c < n
    ensures s == Codes(n)
  {
    var missing := Codes(n) - s;
    assert Codes(n) == s + missing;
  }

  /** An injective dict has as many distinct codes as entries. */
  lemma {:induction false} InjectiveValuesSize(d: map<string, int>)
    requires Injective(d)
    ensures |d.Values| == |d|
    decreases |d|
  {
    if |d| > 0 {
      var k :| k in d;
      var d' := d - {k};
      assert Injective(d');
      InjectiveValuesSize(d');
      forall v | v in d.Values ensures v in d'.Values + {d[k]} {
        var j :| j in d && d[j] == v;
        if j != k { assert j in d' && d'[j] == v; }
      }
      assert d.Values == d'.Values + {d[k]};
      assert d[k] !in d'.Values;
    }
  }

  /**
   * An injective dict of n entries whose codes all lie in 0 .. n-1 uses
   * every code 0 .. n-1.
   */
  lemma InjectiveCodesAreAllCodes(d: map<string, int>)
    requires Injective(d)
    requires forall k :: k in d ==> 0 <= d[k] < |d|
    ensures d.Values == Codes(|d|)
  {
    InjectiveValuesSize(d);
    SubsetOfCodesIsCodes(d.Values, |d|);
  }

  /** The dict display written for each select box: every option the select box offers is a key. */
  function Table(f: CategoricalField): (t: map<string, int>)
    ensures forall i :: 0 <= i < |Options(f)| ==> Options(f)[i] in t
  {
    match f
    case EmploymentStatus =>
      map["Employed" := 1, "Unemployed" := 0, "Self-employed" := 2, "Retired" := 3]
    case HomeOwnership =>
      map["Owned" := 1, "Rented" := 0, "Mortgaged" := 2, "Other" := 3]
    case LoanPurpose =>
      map["Personal" := 0, "Business" := 1, "Education" := 2, "Home Improvement" := 3, "Medical" := 4]
    case MaritalStatus =>
      map["Single" := 0, "Married" := 1, "Divorced" := 2, "Widowed" := 3]
    case EducationLevel =>
      map["High School" := 0, "Bachelor's" := 1, "Master's" := 2, "Doctorate" := 3, "Other" := 4]
    case LocationType =>
      map["Urban" := 0, "Suburban" := 1, "Rural" := 2]
    case LoanDefaultHistory =>
      map["None" := 0, "1-2 Defaults" := 1, "3+ Defaults" := 2]
  }

  /** The keys of a table are exactly the labels its select box offers, one entry each. */
  predicate KeysAreOptions(t: map<string, int>, options: seq<string>) {
    && (forall s :: s in t ==> s in options)
    && (forall s :: s in options ==> s in t)
    && |t| == |options|
  }

  /** No two keys of a table share a code and every code is below n. */
  predicate CodesDistinctBelow(t: map<string, int>, n: nat) {
    Injective(t) && forall s :: s in t ==> 0 <= t[s] < n
  }

  /** A table's keys are exactly the labels its select box offers, one entry per option. */
  lemma TableKeys(f: CategoricalField)
    ensures KeysAreOptions(Table(f), Options(f))
  {
    var t, options := Table(f), Options(f);
    assert t.Keys == set s | s in options;
    OptionsAreDistinct(f);
    DistinctElementsCount(options);
  }

  /** A sequence without repeated elements has as many distinct elements as positions. */
  lemma {:induction false} DistinctElementsCount(xs: seq<string>)
    requires forall i, j :: 0 <= i < j < |xs| ==> xs[i] != xs[j]
    ensures |set x | x in xs| == |xs|
  {
    if xs != [] {
      var rest := xs[1..];
      assert forall i, j :: 0 <= i < j < |rest| ==> rest[i] != rest[j] by {
        assert forall i :: 0 <= i < |rest| ==> rest[i] == xs[i + 1];
      }
      DistinctElementsCount(rest);
      assert (set x | x in xs) == {xs[0]} + (set x | x in rest);
      assert xs[0] !in rest by {
        assert forall i :: 0 <= i < |rest| ==> rest[i] == xs[i + 1];
      }
    }
  }

  /** No two keys of a table share a code, and every code is below the number of options. */
  lemma TableCodes(f: CategoricalField)
    ensures CodesDistinctBelow(Table(f), |Options(f)|)
  {
    TableCodesBelow(f);
    TableInjective(f);
  }

  /** Every code of a table is below the number of options. */
  lemma TableCodesBelow(f: CategoricalField)
    ensures forall s :: s in Table(f) ==> 0 <= Table(f)[s] < |Options(f)|
  {
  }

  /** No two keys of a table share a code. */
  lemma TableInjective(f: CategoricalField)
    ensures Injective(Table(f))
  {
  }

  /**
   * Each table is injective, its keys are exactly the labels its select box
   * offers, and its codes are exactly 0 .. n-1 for n options.
   */
  lemma TableWellFormed(f: CategoricalField)
    ensures Injective(Table(f))
    ensures forall s :: s in Table(f) <==> s in Options(f)
    ensures Table(f).Values == Codes(|Options(f)|)
    ensures |Table(f)| == |Options(f)|
  {
    TableKeys(f);
    TableCodes(f);
    InjectiveCodesAreAllCodes(Table(f));
  }

  /**
   * Subscripting a select box's table with a label: the label's code, or the
   * KeyError the subscript raises for a label the table does not hold.
   */
  function Encode(f: CategoricalField, choice: string): (r: Result<int, KeyError>)
    ensures r.Ok? <==> choice in Options(f)
    ensures r.Ok? ==> 0 <= r.value < |Options(f)|
    ensures r.Err? ==> r.error == KeyError(choice)
  {
    TableWellFormed(f);
    var t := Table(f);
    if choice in t then
      assert t[choice] in t.Values;
      Ok(t[choice])
    else
      Err(KeyError(choice))
  }

  /**
   * Two labels of one select box with the same outcome are the same label: a
   * code picks out one option, and a KeyError names its label.
   */
  lemma EncodeInjective(f: CategoricalField, a: string, b: string)
    ensures Encode(f, a) == Encode(f, b) ==> a == b
  {
    TableWellFormed(f);
  }

  /** Every code 0 .. n-1 of a select box is the encoding of one of its options. */
  lemma EncodeOnto(f: CategoricalField, c: int)
    requires 0 <= c < |Options(f)|
    ensures exists i :: 0 <= i < |Options(f)| && Encode(f, Options(f)[i]) == Ok(c)
  {
    TableWellFormed(f);
    var options := Options(f);
    assert c in Table(f).Values;
    var s :| s in Table(f) && Table(f)[s] == c;
    var i :| 0 <= i < |options| && options[i] == s;
    assert Encode(f, options[i]) == Ok(c);
  }

  /**
   * For loan purpose, marital status, education level, location type and
   * loan-default history the code of a label is its position in the select box.
   */
  lemma CodeIsOptionIndex(f: CategoricalField, i: int)
    requires f != EmploymentStatus && f != HomeOwnership
    requires 0 <= i < |Options(f)|
    ensures Encode(f, Options(f)[i]) == Ok(i)
  {
  }

  /**
   * For employment status and home ownership the first two options swap
   * codes (the first option is 1, the second 0); the rest keep their position.
   */
  lemma FirstTwoCodesSwapped(f: CategoricalField, i: int)
    requires f == EmploymentStatus || f == HomeOwnership
    requires 0 <= i < |Options(f)|
    ensures Encode(f, Options(f)[i]) == Ok(if i == 0 then 1 else if i == 1 then 0 else i)
  {
  }

  /** The code of the credit-history conditional: 1 for "Good", 0 for any other label. */
  function CreditHistoryCode(choice: string): (c: int)
    ensures c == 1 <==> choice == "Good"
    ensures c == 0 || c == 1
  {
    if choice == "Good" then 1 else 0
  }

  /** The credit-history conditional tells its two options apart, "Bad" being 0, and never fails. */
  lemma CreditHistoryOptionsEncoded()
    ensures CreditHistoryCode(CreditHistoryOptions[0]) == 1
    ensures CreditHistoryCode(CreditHistoryOptions[1]) == 0
  {
  }
}
