/**
  How a verdict is shown: the handler picks a colour name per verdict and
  then dispatches on that name to one of three alert boxes, with the last
  branch catching everything that is neither "info" nor "error".
*/
module Display {
  import opened Fairness

  /** The three alert boxes a verdict can be rendered in. */
  datatype Alert = Info | Error | Warning

  /** The colour name the handler attaches to each verdict. */
  function ColorName(l: Label): (color: string)
    ensures color == "info" <==> l == Underpriced
    ensures color == "error" <==> l == Overpriced
    ensures color == "warning" <==> l == Fair
  {
    match l
    case Underpriced => "info"
    case Overpriced => "error"
    case Fair => "warning"
  }

  /** Dispatch on the colour name; any name other than "info" or "error" is a warning. */
  function AlertFor(color: string): (a: Alert)
    ensures a == Info <==> color == "info"
    ensures a == Error <==> color == "error"
    ensures a == Warning <==> color != "info" && color != "error"
  {
    if color == "info" then Info
    else if color == "error" then Error
    else Warning
  }

  /** The alert box a verdict ends up in, through its colour name. */
  function DisplayClass(l: Label): (a: Alert)
    ensures a == Info <==> l == Underpriced
    ensures a == Error <==> l == Overpriced
    ensures a == Warning <==> l == Fair
  {
    AlertFor(ColorName(l))
  }

  /** Reads the verdict back from the alert box it was shown in. */
  function VerdictOf(a: Alert): Label
  {
    match a
    case Info => Underpriced
    case Error => Overpriced
    case Warning => Fair
  }

  /** The alert box determines the verdict: no two verdicts share a box. */
  lemma DisplayClassRoundTrip(l: Label)
    ensures VerdictOf(DisplayClass(l)) == l
  {
  }

  /** Every alert box is used by some verdict. */
  lemma DisplayClassOnto(a: Alert)
    ensures DisplayClass(VerdictOf(a)) == a
  {
  }

  /** For a classified price, the alert box follows the deviation's side of the +-20% band. */
  lemma AlertOfPrice(price: int, c: Category)
    ensures DisplayClass(Classify(price, c).verdict) == Info <==> Classify(price, c).deviation < -0.20
    ensures DisplayClass(Classify(price, c).verdict) == Error <==> Classify(price, c).deviation > 0.20
    ensures DisplayClass(Classify(price, c).verdict) == Warning <==>
              -0.20 <= Classify(price, c).deviation <= 0.20
  {
  }
}
