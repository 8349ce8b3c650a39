/**
  The expression classifier of main.py: an ordered, first-match-wins cascade of
  strict `> 0.5` tests over six blendshape scores, and the caption drawn from its
  label.
 */
module Expression {
  import opened Wrappers

  /** The five labels the cascade can assign. */
  datatype Label = Neutral | Happy | Sad | Angry | Surprised

  /** The six blendshape scores the cascade reads. */
  datatype Scores = Scores(smileLeft: real, smileRight: real, frownLeft: real,
                           browDown: real, jawOpen: real, eyeWide: real)

  /** Every test of the cascade compares a score strictly against this value. */
  const Threshold: real := 0.5

  predicate Above(score: real) {
    score > Threshold
  }

  /** The cascade, tested top to bottom; the first test that holds decides. */
  function Classify(s: Scores): (r: Label)
    // A smile on both sides wins whatever the other four scores are.
    ensures r == Happy <==> Above(s.smileLeft) && Above(s.smileRight)
    ensures r == Sad <==>
      !(Above(s.smileLeft) && Above(s.smileRight)) && Above(s.frownLeft)
    ensures r == Angry <==>
      !(Above(s.smileLeft) && Above(s.smileRight)) && !Above(s.frownLeft) && Above(s.browDown)
    ensures r == Surprised <==>
      !(Above(s.smileLeft) && Above(s.smileRight)) && !Above(s.frownLeft) && !Above(s.browDown)
      && Above(s.jawOpen) && Above(s.eyeWide)
    // Neutral is the fall-through, reported exactly when no test holds.
    ensures r == Neutral <==>
      !(Above(s.smileLeft) && Above(s.smileRight)) && !Above(s.frownLeft) && !Above(s.browDown)
      && !(Above(s.jawOpen) && Above(s.eyeWide))
  {
    if s.smileLeft > Threshold && s.smileRight > Threshold then Happy
    else if s.frownLeft > Threshold then Sad
    else if s.browDown > Threshold then Angry
    else if s.jawOpen > Threshold && s.eyeWide > Threshold then Surprised
    else Neutral
  }

  // ---------------------------------------------------------------------------
  // An independent reading of the cascade: a table of (condition, label) rules
  // evaluated in order, where a condition is a set of scores that must all be
  // above the threshold.

  datatype Feature = SmileLeft | SmileRight | FrownLeft | BrowDown | JawOpen | EyeWide

  function Score(s: Scores, f: Feature): real {
    match f
    case SmileLeft => s.smileLeft
    case SmileRight => s.smileRight
    case FrownLeft => s.frownLeft
    case BrowDown => s.browDown
    case JawOpen => s.jawOpen
    case EyeWide => s.eyeWide
  }

  datatype Rule = Rule(needs: seq<Feature>, result: Label)

  predicate Fires(rule: Rule, s: Scores) {
    forall i :: 0 <= i < |rule.needs| ==> Above(Score(s, rule.needs[i]))
  }

  const Rules: seq<Rule> := [
    Rule([SmileLeft, SmileRight], Happy),
    Rule([FrownLeft], Sad),
    Rule([BrowDown], Angry),
    Rule([JawOpen, EyeWide], Surprised)
  ]

  /** The label of the first rule that fires, or Neutral when none does. */
  function FirstMatch(rules: seq<Rule>, s: Scores): Label {
    if rules == [] then Neutral
    else if Fires(rules[0], s) then rules[0].result
    else FirstMatch(rules[1..], s)
  }

  /** The cascade and the ordered rule table agree on every input. */
  lemma ClassifyIsFirstMatch(s: Scores)
    ensures Classify(s) == FirstMatch(Rules, s)
  {
    var needs := [Rules[0].needs, Rules[1].needs, Rules[2].needs, Rules[3].needs];
    assert Fires(Rules[0], s) <==> Above(s.smileLeft) && Above(s.smileRight) by {
      assert needs[0][0] == SmileLeft && needs[0][1] == SmileRight;
    }
    assert Fires(Rules[1], s) <==> Above(s.frownLeft) by {
      assert needs[1][0] == FrownLeft;
    }
    assert Fires(Rules[2], s) <==> Above(s.browDown) by {
      assert needs[2][0] == BrowDown;
    }
    assert Fires(Rules[3], s) <==> Above(s.jawOpen) && Above(s.eyeWide) by {
      assert needs[3][0] == JawOpen && needs[3][1] == EyeWide;
    }
    var t1 := Rules[1..];
    var t2 := t1[1..];
    var t3 := t2[1..];
    assert t3[1..] == [];
    assert FirstMatch(t3, s) == if Fires(Rules[3], s) then Surprised else Neutral;
    assert FirstMatch(t2, s) == if Fires(Rules[2], s) then Angry else FirstMatch(t3, s);
    assert FirstMatch(t1, s) == if Fires(Rules[1], s) then Sad else FirstMatch(t2, s);
  }

  /**
    The thresholds are strict: a frame whose six scores are all at most 0.5 (in
    particular all exactly 0.5, or all zero) is Neutral.
   */
  lemma AtMostThresholdIsNeutral(s: Scores)
    requires s.smileLeft <= 0.5 && s.smileRight <= 0.5 && s.frownLeft <= 0.5
    requires s.browDown <= 0.5 && s.jawOpen <= 0.5 && s.eyeWide <= 0.5
    ensures Classify(s) == Neutral
  {
  }

  // ---------------------------------------------------------------------------
  // The caption drawn on the frame.

  function Name(l: Label): string {
    match l
    case Neutral => "Neutral"
    case Happy => "Happy"
    case Sad => "Sad"
    case Angry => "Angry"
    case Surprised => "Surprised"
  }

  const Prefix: string := "You seem "
  const Suffix: string := "!"

  /** The text put on a frame whose face came with blendshapes. */
  function Caption(l: Label): string {
    Prefix + Name(l) + Suffix
  }

  function LabelNamed(name: string): Option<Label> {
    if name == "Neutral" then Some(Neutral)
    else if name == "Happy" then Some(Happy)
    else if name == "Sad" then Some(Sad)
    else if name == "Angry" then Some(Angry)
    else if name == "Surprised" then Some(Surprised)
    else None
  }

  /** Reads a label back from a caption; None for any other text. */
  function ParseCaption(text: string): Option<Label> {
    if |text| >= |Prefix| + |Suffix| && text[..|Prefix|] == Prefix
       && text[|text| - |Suffix|..] == Suffix
    then LabelNamed(text[|Prefix|..|text| - |Suffix|])
    else None
  }

  /** The caption names its label unambiguously: it parses back to that label. */
  lemma ParseCaptionRoundTrip(l: Label)
    ensures ParseCaption(Caption(l)) == Some(l)
  {
    var text := Caption(l);
    assert text[..|Prefix|] == Prefix;
    assert text[|text| - |Suffix|..] == Suffix;
    assert text[|Prefix|..|text| - |Suffix|] == Name(l);
  }

  /** Different labels give different captions. */
  lemma CaptionInjective(l1: Label, l2: Label)
    requires Caption(l1) == Caption(l2)
    ensures l1 == l2
  {
    ParseCaptionRoundTrip(l1);
    ParseCaptionRoundTrip(l2);
  }
}
