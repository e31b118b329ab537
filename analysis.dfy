/** `generate_recommendations` of the analysis router: textual advice
    derived from the blur, brightness and contrast scores.

    The advice is specified here as a fixed, ordered table of rules, each
    contributing its message when it fires; the source's step-by-step list
    building is the method `GenerateRecommendations`, proved to produce the
    table's answer. */
module Analysis {

  const TooBlurryMessage: string := "Image is too blurry. Consider retaking the photo."
  const TooDarkMessage: string := "Image is too dark. Increase lighting."
  const TooBrightMessage: string := "Image is too bright. Reduce exposure."
  const LowContrastMessage: string := "Low contrast. Enhance details for better clarity."
  const GoodQualityMessage: string := "Image quality is good!"

  /** Blur scores below this are reported as too blurry. */
  const BlurFloor: real := 40.0
  /** Brightness scores below this are too dark, above the ceiling too bright. */
  const BrightnessFloor: real := 30.0
  const BrightnessCeiling: real := 80.0
  /** Contrast scores below this are reported as low contrast. */
  const ContrastFloor: real := 20.0

  datatype Rule = TooBlurry | TooDark | TooBright | LowContrast

  /** The rules in the order their messages appear. */
  const Rules: seq<Rule> := [TooBlurry, TooDark, TooBright, LowContrast]

  predicate Fires(rule: Rule, blur: real, brightness: real, contrast: real)
  {
    match rule
    case TooBlurry => blur < BlurFloor
    case TooDark => brightness < BrightnessFloor
    case TooBright => brightness > BrightnessCeiling
    case LowContrast => contrast < ContrastFloor
  }

  function Message(rule: Rule): string
  {
    match rule
    case TooBlurry => TooBlurryMessage
    case TooDark => TooDarkMessage
    case TooBright => TooBrightMessage
    case LowContrast => LowContrastMessage
  }

  /** The messages of the rules in `rules` that fire, in table order. */
  function Warnings(rules: seq<Rule>, blur: real, brightness: real, contrast: real): (w: seq<string>)
    ensures |w| <= |rules|
    ensures forall m :: m in w ==> exists k :: 0 <= k < |rules| && m == Message(rules[k])
  {
    if rules == [] then []
    else
      var rest := Warnings(rules[1..], blur, brightness, contrast);
      if Fires(rules[0], blur, brightness, contrast) then [Message(rules[0])] + rest else rest
  }

  /** No rule's message is the "good" message. */
  lemma GoodIsNotAWarning(rules: seq<Rule>, blur: real, brightness: real, contrast: real)
    ensures GoodQualityMessage !in Warnings(rules, blur, brightness, contrast)
  {
  }

  /** The advice for three scores: the warnings, or the single "good"
      message when there is none. */
  function Recommendations(blur: real, brightness: real, contrast: real): (r: seq<string>)
    ensures r != [] && |r| <= |Rules|
    ensures forall m :: m in r ==>
      m == GoodQualityMessage || exists k :: 0 <= k < |Rules| && m == Message(Rules[k])
  {
    var w := Warnings(Rules, blur, brightness, contrast);
    if w == [] then [GoodQualityMessage] else w
  }

  /** `Warnings` over the whole table, one rule at a time. */
  lemma {:induction false} WarningsOfRules(blur: real, brightness: real, contrast: real)
    ensures Warnings(Rules, blur, brightness, contrast)
         == (if blur < BlurFloor then [TooBlurryMessage] else [])
          + (if brightness < BrightnessFloor then [TooDarkMessage] else [])
          + (if brightness > BrightnessCeiling then [TooBrightMessage] else [])
          + (if contrast < ContrastFloor then [LowContrastMessage] else [])
  {
    var w4 := Warnings(Rules[3..], blur, brightness, contrast);
    assert Rules[3..][1..] == [];
    assert w4 == (if contrast < ContrastFloor then [LowContrastMessage] else []);
    var w3 := Warnings(Rules[2..], blur, brightness, contrast);
    assert Rules[2..][1..] == Rules[3..];
    assert w3 == (if brightness > BrightnessCeiling then [TooBrightMessage] else []) + w4;
    var w2 := Warnings(Rules[1..], blur, brightness, contrast);
    assert Rules[1..][1..] == Rules[2..];
    assert w2 == (if brightness < BrightnessFloor then [TooDarkMessage] else []) + w3;
  }

  /** `generate_recommendations`: start from an empty list, append a message
      for each problem in turn (brightness low or high, not both), and fall
      back to the "good" message when nothing was appended. */
  method GenerateRecommendations(blur: real, brightness: real, contrast: real)
    returns (recommendations: seq<string>)
    ensures recommendations == Recommendations(blur, brightness, contrast)
    ensures 1 <= |recommendations| <= 3
  {
    recommendations := [];
    if blur < BlurFloor {
      recommendations := recommendations + [TooBlurryMessage];
    }
    if brightness < BrightnessFloor {
      recommendations := recommendations + [TooDarkMessage];
    } else if brightness > BrightnessCeiling {
      recommendations := recommendations + [TooBrightMessage];
    }
    if contrast < ContrastFloor {
      recommendations := recommendations + [LowContrastMessage];
    }
    WarningsOfRules(blur, brightness, contrast);
    if recommendations == [] {
      recommendations := [GoodQualityMessage];
    }
  }

  // ---------------------------------------------------------------------
  // Properties of the advice
  // ---------------------------------------------------------------------

  /** The advice is never empty, and holds at most three messages. */
  lemma RecommendationsLength(blur: real, brightness: real, contrast: real)
    ensures 1 <= |Recommendations(blur, brightness, contrast)| <= 3
  {
    WarningsOfRules(blur, brightness, contrast);
  }

  /** The advice is exactly the "good" message iff every score is in range. */
  lemma GoodIffNoProblem(blur: real, brightness: real, contrast: real)
    ensures Recommendations(blur, brightness, contrast) == [GoodQualityMessage]
        <==> blur >= BlurFloor && BrightnessFloor <= brightness <= BrightnessCeiling
             && contrast >= ContrastFloor
  {
    WarningsOfRules(blur, brightness, contrast);
    var w := Warnings(Rules, blur, brightness, contrast);
    if w != [] {
      GoodIsNotAWarning(Rules, blur, brightness, contrast);
      assert w[0] in w;
    }
  }

  /** The "good" message never appears beside a warning. */
  lemma GoodIsAlone(blur: real, brightness: real, contrast: real)
    ensures GoodQualityMessage in Recommendations(blur, brightness, contrast)
        ==> Recommendations(blur, brightness, contrast) == [GoodQualityMessage]
  {
    GoodIsNotAWarning(Rules, blur, brightness, contrast);
  }

  /** The blur message is present iff blur is below 40, and then it is first. */
  lemma BlurMessageFirst(blur: real, brightness: real, contrast: real)
    ensures TooBlurryMessage in Recommendations(blur, brightness, contrast) <==> blur < BlurFloor
    ensures blur < BlurFloor ==> Recommendations(blur, brightness, contrast)[0] == TooBlurryMessage
  {
    WarningsOfRules(blur, brightness, contrast);
  }

  /** At most one brightness message: "too dark" iff brightness is below 30,
      "too bright" iff it is above 80. */
  lemma BrightnessMessagesExclusive(blur: real, brightness: real, contrast: real)
    ensures TooDarkMessage in Recommendations(blur, brightness, contrast) <==> brightness < BrightnessFloor
    ensures TooBrightMessage in Recommendations(blur, brightness, contrast) <==> brightness > BrightnessCeiling
    ensures !(TooDarkMessage in Recommendations(blur, brightness, contrast)
              && TooBrightMessage in Recommendations(blur, brightness, contrast))
  {
    WarningsOfRules(blur, brightness, contrast);
  }

  /** The contrast message is present iff contrast is below 20, and then it
      is last. */
  lemma ContrastMessageLast(blur: real, brightness: real, contrast: real)
    ensures LowContrastMessage in Recommendations(blur, brightness, contrast) <==> contrast < ContrastFloor
    ensures contrast < ContrastFloor ==>
      var r := Recommendations(blur, brightness, contrast); r[|r| - 1] == LowContrastMessage
  {
    WarningsOfRules(blur, brightness, contrast);
  }

  /** The two worked cases: every warning in order for (30, 20, 10), and only
      the "good" message for the analysis endpoint's placeholder metrics. */
  lemma RecommendationExamples()
    ensures Recommendations(30.0, 20.0, 10.0) == [TooBlurryMessage, TooDarkMessage, LowContrastMessage]
    ensures Recommendations(70.0, 55.0, 40.0) == [GoodQualityMessage]
  {
    WarningsOfRules(30.0, 20.0, 10.0);
    WarningsOfRules(70.0, 55.0, 40.0);
  }
}
