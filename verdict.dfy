/**
 * What the page shows once the classifier has been asked: the verdict drawn
 * from its prediction, and the banner that states it.
 */
module Presenter {

  /**
   * What the call to the classifier produced: the array of predicted labels,
   * or the text of the exception it raised.
   */
  datatype Prediction = Returned(labels: seq<int>) | Raised(message: string)

  datatype Verdict = Good | Bad | Error(message: string)

  /** A success banner or an error banner, with its text. */
  datatype Banner = SuccessBanner(text: string) | ErrorBanner(text: string)

  /** The banner texts; each verdict text is split once so that its first character can be read off. */
  const GoodMessage: string := "Congratulations! " + "Your credit risk is predicted to be GOOD. \U{2705}"
  const BadMessage: string := "Bad luck! " + "Your credit risk is predicted to be BAD. \U{274C}"
  const ErrorPrefix: string := "Error during prediction: "

  /** What reading the first label of an empty prediction raises. */
  const EmptyPredictionMessage: string := "index 0 is out of bounds for axis 0 with size 0"

  /**
   * The verdict: GOOD when the first predicted label is 1, BAD for any other
   * first label, and an error carrying the exception's text when the call
   * raised or there is no first label to read.
   */
  function Judge(p: Prediction): (v: Verdict)
    ensures v == Good <==> p.Returned? && |p.labels| > 0 && p.labels[0] == 1
    ensures v == Bad <==> p.Returned? && |p.labels| > 0 && p.labels[0] != 1
    ensures p.Raised? ==> v == Error(p.message)
    ensures p == Returned([]) ==> v == Error(EmptyPredictionMessage)
  {
    match p
    case Raised(message) => Error(message)
    case Returned(labels) =>
      if |labels| == 0 then Error(EmptyPredictionMessage)
      else if labels[0] == 1 then Good
      else Bad
  }

  /** The banner for a verdict: only GOOD is a success; an error shows the failure text after a fixed prefix. */
  function Render(v: Verdict): (b: Banner)
    ensures b.SuccessBanner? <==> v == Good
    ensures v == Good ==> b.text == GoodMessage
    ensures v == Bad ==> b.text == BadMessage
    ensures v.Error? ==> |ErrorPrefix| <= |b.text| && b.text[..|ErrorPrefix|] == ErrorPrefix
    ensures v.Error? ==> |ErrorPrefix| <= |b.text| && b.text[|ErrorPrefix|..] == v.message
  {
    match v
    case Good => SuccessBanner(GoodMessage)
    case Bad => ErrorBanner(BadMessage)
    case Error(message) => ErrorBanner(ErrorPrefix + message)
  }

  /** Different verdicts show different banners, so the banner tells the user which verdict was reached. */
  lemma RenderInjective(v: Verdict, w: Verdict)
    requires Render(v) == Render(w)
    ensures v == w
  {
    if v.Error? {
      ErrorTextIsNotBadMessage(v.message);
    }
    if w.Error? {
      ErrorTextIsNotBadMessage(w.message);
    }
  }

  /** No failure text can make the error banner read like the BAD verdict. */
  lemma ErrorTextIsNotBadMessage(message: string)
    ensures ErrorPrefix + message != BadMessage
  {
    assert ErrorPrefix[0] == 'E' && BadMessage[0] == 'B';
    assert (ErrorPrefix + message)[0] == 'E';
  }
}
