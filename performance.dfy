/**
 * The three-band classification of a percentage score on the results page
 * (src/pages/Results.tsx:33-43): 80 and above is good, 60 to 79 is a
 * warning, below 60 is poor. The colour class and the icon are chosen by two
 * separate chains of comparisons; the lemmas show that they always agree.
 */
module Performance {

  /** The lucide icon drawn beside a score. */
  datatype Glyph = TrendingUp | AlertTriangle | TrendingDown

  /** An icon element: its glyph and its `className`. */
  datatype Icon = Icon(glyph: Glyph, className: string)

  const SuccessClass: string := "text-success"
  const WarningClass: string := "text-warning"
  const DestructiveClass: string := "text-destructive"

  /** The sizing classes every performance icon carries before its colour. */
  const IconSize: string := "h-4 w-4 "

  /** The scores shown on the results page. */
  const Attentiveness: int := 78
  const Impulsivity: int := 85
  const Consistency: int := 72

  /**
   * `getPerformanceColor`: each colour class holds exactly its interval of
   * scores, and every score gets one of the three.
   */
  function PerformanceColor(score: int): (colorClass: string)
    ensures colorClass == SuccessClass <==> 80 <= score
    ensures colorClass == WarningClass <==> 60 <= score < 80
    ensures colorClass == DestructiveClass <==> score < 60
    ensures colorClass in {SuccessClass, WarningClass, DestructiveClass}
  {
    if score >= 80 then SuccessClass
    else if score >= 60 then WarningClass
    else DestructiveClass
  }

  /**
   * `getPerformanceIcon`: the icon is drawn in the score's colour, with the
   * glyph of that colour's band, although it is chosen by its own chain of
   * comparisons.
   */
  function PerformanceIcon(score: int): (icon: Icon)
    ensures icon.className == IconSize + PerformanceColor(score)
    ensures icon.glyph == GlyphFor(PerformanceColor(score))
  {
    if score >= 80 then Icon(TrendingUp, IconSize + SuccessClass)
    else if score >= 60 then Icon(AlertTriangle, IconSize + WarningClass)
    else Icon(TrendingDown, IconSize + DestructiveClass)
  }

  /** How bad a colour class is: 0 good, 1 warning, 2 poor. */
  function Severity(colorClass: string): nat
  {
    if colorClass == SuccessClass then 0
    else if colorClass == WarningClass then 1
    else 2
  }

  /** The glyph that goes with each colour class. */
  function GlyphFor(colorClass: string): Glyph
  {
    if colorClass == SuccessClass then TrendingUp
    else if colorClass == WarningClass then AlertTriangle
    else TrendingDown
  }

  /** Raising a score never moves it to a worse band. */
  lemma ColorMonotonic(lower: int, higher: int)
    requires lower <= higher
    ensures Severity(PerformanceColor(higher)) <= Severity(PerformanceColor(lower))
  {
  }

  /** On the results page attentiveness and consistency are warnings and impulse control is good. */
  lemma ShownScores()
    ensures PerformanceColor(Attentiveness) == WarningClass
    ensures PerformanceColor(Consistency) == WarningClass
    ensures PerformanceColor(Impulsivity) == SuccessClass
    ensures PerformanceIcon(Attentiveness).glyph == AlertTriangle
    ensures PerformanceIcon(Impulsivity).glyph == TrendingUp
  {
  }
}
