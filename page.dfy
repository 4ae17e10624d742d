/**
 * One run of the credit-risk page: the labels are encoded and the vector is
 * assembled on every run, and only a run in which Predict was pressed asks
 * the classifier and shows a banner. The classifier itself is a parameter.
 */
module Page {
  import opened Wrappers
  import opened Catalog
  import opened Encoding
  import opened Assembly
  import opened Presenter

  /** What one run of the script leaves on the page. */
  datatype Outcome =
    | Crashed(error: KeyError)
    | Waiting(input: seq<real>)
    | Shown(input: seq<real>, banner: Banner)

  /**
   * A run with the given widget values, with Predict pressed or not, against
   * the given classifier. A KeyError from the encoding ends the run before
   * the button is looked at; an exception from the classifier does not.
   */
  function Run(form: Form, pressed: bool, predict: seq<real> -> Prediction): (o: Outcome)
    ensures o.Crashed? <==> !Encodable(form)
    ensures o.Crashed? ==> Assemble(form) == Err(o.error)
    ensures !o.Crashed? ==> |o.input| == |Schema()| && Assemble(form) == Ok(o.input)
    ensures o.Shown? <==> pressed && Encodable(form)
  {
    match Assemble(form)
    case Err(e) => Crashed(e)
    case Ok(input) =>
      if pressed then Shown(input, Render(Judge(predict(input)))) else Waiting(input)
  }

  /** A form filled in through the widgets never crashes the page. */
  lemma SelectableFormNeverCrashes(form: Form, pressed: bool, predict: seq<real> -> Prediction)
    requires Selectable(form)
    ensures !Run(form, pressed, predict).Crashed?
  {
  }

  /**
   * Pressing Predict shows the success banner exactly when the form encodes
   * and the classifier's first label for its vector is 1.
   */
  lemma GoodBannerOnlyForLabelOne(form: Form, predict: seq<real> -> Prediction)
    ensures (Run(form, true, predict).Shown? && Run(form, true, predict).banner.SuccessBanner?)
      <==> (Encodable(form) && predict(Assemble(form).value).Returned?
            && |predict(Assemble(form).value).labels| > 0 && predict(Assemble(form).value).labels[0] == 1)
  {
  }

  /**
   * An exception from the classifier is shown as an error banner that carries
   * its text, and the run completes.
   */
  lemma ClassifierFailureIsShown(form: Form, predict: seq<real> -> Prediction)
    requires Encodable(form)
    requires predict(Assemble(form).value).Raised?
    ensures Run(form, true, predict).Shown?
    ensures Run(form, true, predict).banner
      == ErrorBanner(ErrorPrefix + predict(Assemble(form).value).message)
  {
  }

  /**
   * Pressing Predict when the classifier's first label is anything but 1
   * shows the BAD message, in an error banner.
   */
  lemma BadBannerForOtherLabel(form: Form, predict: seq<real> -> Prediction)
    requires Encodable(form)
    requires predict(Assemble(form).value).Returned?
    requires |predict(Assemble(form).value).labels| > 0 && predict(Assemble(form).value).labels[0] != 1
    ensures Run(form, true, predict) == Shown(Assemble(form).value, ErrorBanner(BadMessage))
  {
  }

  /**
   * A classifier that returns no labels makes reading the first label raise
   * inside the `try`, so the page shows that error instead of a verdict.
   */
  lemma EmptyPredictionIsShown(form: Form, predict: seq<real> -> Prediction)
    requires Encodable(form)
    requires predict(Assemble(form).value) == Returned([])
    ensures Run(form, true, predict) == Shown(Assemble(form).value, ErrorBanner(ErrorPrefix + EmptyPredictionMessage))
  {
  }
}
