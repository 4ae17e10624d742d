# Credit-risk form: feature encoding, in Dafny

This project models the core of a one-page Streamlit app that asks an
applicant twenty questions, turns the answers into a twenty-element feature
vector, hands it to a pre-trained classifier and shows a GOOD or BAD
credit-risk verdict. The core modelled here is the feature-encoding contract
of `app.py` and the verdict drawn from the classifier's answer:

- `catalog.dfy` (module `Catalog`): the form's values (`Form`), the labels each
  select box offers, the value each widget starts with and the bounds the
  numeric widgets enforce.
- `encoding.dfy` (module `Encoding`): the credit-history conditional and the
  seven dict displays that map a select-box label to its integer code; a
  subscript with a label the dict does not hold raises `KeyError`, modelled
  as an `Err` result. That each table's codes are in range and pairwise
  distinct, and that its keys are its select box's options, follows from the
  literal itself; a sequence lemma (distinct options count as many labels
  as positions) gives one entry per option; two generic dict lemmas (an injective dict has as
  many codes as keys; n distinct codes below n are all of 0 .. n-1) then
  show that the codes are exactly 0 .. n-1.
- `assembly.dfy` (module `Assembly`): the twenty-value list handed to the
  classifier. The seven subscripts are evaluated in source order
  (`EncodeInOrder`), so a failure is the `KeyError` of the first unknown
  label. `Schema` names the column at each position; the lemmas prove that
  every position holds its column's value, that the twelve numeric values
  pass through unchanged and that the page's initial form assembles to
  `[30, 3000, 10000, 12, 1, 1, 1, 30.0, 2, 5000, 0, 0, 0, 1, 5, 1, 650, 0, 0, 0]`.
  NumPy turns a list of integers and one float into a float array, so the
  vector is a `seq<real>`.
- `verdict.dfy` (module `Presenter`): the verdict drawn from the
  classifier's answer (the first label being 1 gives GOOD, any other first
  label BAD, an exception an error carrying its text; an empty answer makes
  `prediction[0]` raise inside the `try`, which is an error too) and the
  banner that shows it.
- `page.dfy` (module `Page`): one run of the script. The classifier is a
  function parameter. The encoding runs on every run, before the Predict
  button is looked at, so an unknown label ends the run (`Crashed`) whether
  or not the button was pressed.
- `wrappers.dfy` (module `Wrappers`): the `Result` type used for exceptions.

Three behaviours of the code are worth stating on their own: the
credit-history conditional (app.py:102) maps every label other than `"Good"`
to 0 and never fails, unlike the seven dict subscripts; a `KeyError` from a
dict subscript is not caught, because app.py:103-123 lie outside the `try` of
app.py:136-143; and the verdict treats any first label other than 1 as BAD,
while an empty prediction raises inside the `try` and is shown as an error.

## Model

| member | source | states |
|---|---|---|
| `Catalog.Options` | app.py:35-92 | every dict-encoded select box offers at least one label |
| `Catalog.OptionsAreDistinct` | app.py:31-92 | no select box offers a label twice |
| `Catalog.DefaultForm` | app.py:15-96 | the page's initial form (each `value=`, each first option) lies inside every widget's bounds and holds only selectable labels |
| `Catalog.CreditHistoryOptionsAreDistinct` | app.py:31-34 | the credit-history select box offers each label once |
| `Encoding.CreditHistoryCode` | app.py:102 | the credit-history code is 1 exactly when the label is "Good" and 0 otherwise; it has no failure path |
| `Encoding.CreditHistoryOptionsEncoded` | app.py:102 | "Good" encodes to 1 and "Bad" to 0 |
| `Encoding.Table` | app.py:103-123 | the seven dict displays, entry for entry; every label the select box offers is a key |
| `Encoding.TableKeys` | app.py:103-123 | each dict's keys are exactly the labels its select box offers, one entry per option |
| `Encoding.TableCodes` | app.py:103-123 | no two keys of a dict share a code and every code is below the number of options |
| `Encoding.TableCodesBelow` | app.py:103-123 | every code of a dict is below the number of its select box's options |
| `Encoding.TableInjective` | app.py:103-123 | no two keys of a dict share a code |
| `Encoding.TableWellFormed` | app.py:103-123 | each dict is injective, keyed by exactly its options, and its codes are exactly 0 .. n-1 (0..3 for employment, home ownership and marital status, 0..4 for loan purpose and education, 0..2 for location and default history) |
| `Encoding.Encode` | app.py:103-123 | a subscript succeeds exactly when the label is one its select box offers, then yields a code in 0 .. n-1; otherwise it raises a KeyError naming the label |
| `Encoding.EncodeInjective` | app.py:103-123 | two labels with the same outcome are the same label: a code picks out one option and a KeyError names its label |
| `Encoding.EncodeOnto` | app.py:103-123 | every code 0 .. n-1 is the code of some option |
| `Encoding.CodeIsOptionIndex` | app.py:109-123 | for loan purpose, marital status, education, location and default history the code of an option is its position in the select box |
| `Encoding.FirstTwoCodesSwapped` | app.py:103-108 | for employment status and home ownership the first option is 1, the second 0 and the others keep their position |
| `Assembly.EncodingOrderListsEveryField` | app.py:103-123 | the subscripts cover each of the seven select boxes exactly once, so all succeeding is the same as every label being selectable |
| `Assembly.EncodeInOrder` | app.py:103-123 | the ordered subscripts succeed exactly when every label is known, and then give one code per select box, each the code of that box's label |
| `Assembly.EncodeInOrderReportsFirstUnknown` | app.py:103-123 | a failing sequence of subscripts fails on the first unknown label and the KeyError names it |
| `Assembly.Assemble` | app.py:102-132 | assembly succeeds exactly when every dict-encoded label is known, and then gives a vector of length 20 |
| `Assembly.Schema` | app.py:126-132 | the columns of the list literal, in its order: twenty of them |
| `Assembly.Vector` | app.py:126-132 | the list literal has exactly as many values as the schema has columns |
| `Assembly.SchemaListsEveryColumnOnce` | app.py:126-132 | every one of the twenty columns appears exactly once in the vector's order |
| `Assembly.EncodedPositions` | app.py:126-132 | positions 4, 5, 6, 10, 11, 12, 17 and 18 are the encoded ones; the other twelve pass values through |
| `Assembly.NamedPositions` | app.py:126-132 | position 0 is age, 4 credit history, 7 debt-to-income ratio, 10 loan purpose, 17 location type, 19 previous default count |
| `Assembly.VectorFollowsSchema` | app.py:126-132 | the list literal puts each value at the position the schema gives its column |
| `Assembly.EncodedColumnsMatch` | app.py:102-132 | the codes computed in evaluation order are each column's own code |
| `Assembly.AssembleFollowsSchema` | app.py:126-132 | each position of an assembled vector holds its column's value: the widget value or the label's code |
| `Assembly.NumericPassThrough` | app.py:126-132 | a numeric widget value reaches its position unchanged |
| `Assembly.AssembleReportsFirstUnknownLabel` | app.py:103-123 | a form that fails to assemble fails with the KeyError of the first unknown label in evaluation order |
| `Assembly.CreditHistoryNeverFails` | app.py:102 | whatever the credit-history label, it does not change whether assembly succeeds |
| `Assembly.DefaultFormAssembles` | app.py:15-132 | the initial form assembles to `[30, 3000, 10000, 12, 1, 1, 1, 30.0, 2, 5000, 0, 0, 0, 1, 5, 1, 650, 0, 0, 0]` |
| `Presenter.Judge` | app.py:136-143 | GOOD exactly when the first predicted label is 1, BAD exactly when there is a first label and it is not 1, an error with the exception's text when the call raised, and an index error for an empty prediction |
| `Presenter.Render` | app.py:138-143 | only GOOD shows a success banner, with the text of app.py:139; BAD shows the text of app.py:141 in an error banner; an error shows the prefix `Error during prediction: ` followed by the failure text |
| `Presenter.RenderInjective` | app.py:138-143 | different verdicts show different banners |
| `Presenter.ErrorTextIsNotBadMessage` | app.py:141-143 | no failure text makes the error banner read as the BAD verdict |
| `Page.Run` | app.py:102-143 | a run crashes exactly when a label is unknown, otherwise holds the 20-value vector, and shows a banner exactly when Predict was pressed |
| `Page.SelectableFormNeverCrashes` | app.py:102-123 | a form filled in through the widgets never crashes the page |
| `Page.GoodBannerOnlyForLabelOne` | app.py:135-139 | pressing Predict shows the success banner exactly when the form encodes and the first predicted label is 1 |
| `Page.BadBannerForOtherLabel` | app.py:138-141 | pressing Predict when the first predicted label is not 1 shows the BAD message in an error banner |
| `Page.EmptyPredictionIsShown` | app.py:136-143 | pressing Predict when the classifier returns no labels shows the index error after the error prefix |
| `Page.ClassifierFailureIsShown` | app.py:136-143 | an exception from the classifier becomes an error banner carrying its text instead of ending the run |

## Left out

- Loading the classifier from `loan_model.pkl` (app.py:7-8): file I/O and deserialisation of an opaque object.
- The classifier's `predict` (app.py:137): a foreign library call, modelled only as a function parameter of `Page.Run` returning either labels or an exception's text.
- Streamlit rendering (titles, help texts, widgets, banners): only the banner kind and its text are modelled.
- The widget bounds (`min_value`, `max_value`) are enforced by the widget library, not by this code; `Catalog.WithinWidgetBounds` records them and `Assemble` does not require them.
- `np.array(...).reshape(1, -1)`: the one-row layout is not modelled; the vector is a flat sequence.
- The unused `LabelEncoder()` instance (app.py:99): it has no effect.
- Floating point: the debt-to-income ratio and the vector are exact reals, so the rounding of large integers to 64-bit floats is not modelled.
- Predicted labels are modelled as integers; labels of other types compared with `== 1` are not modelled.
- The text of a Python `KeyError` is modelled as the missing key itself, and the text of the index error for an empty prediction as NumPy's message.
- What Streamlit shows for an uncaught `KeyError` is not modelled; the run ends in `Page.Crashed` with the error.
