/** The blendshape-to-emotion classifier: four derived signals, three strict
    thresholds tried in a fixed priority order, and the text and colour shown
    for each resulting label. */
module Emotion {
  import opened Wrappers
  import opened Blendshapes

  datatype Label = Neutral | Happy | Angry | Surprised

  /** Thresholds and weight of the decision rule (script.js:156, 170, 175, 180). */
  const SmileThreshold: real := 0.6
  const BrowDownThreshold: real := 0.5
  const SurpriseThreshold: real := 0.8
  const BrowUpWeight: real := 0.5

  /** The ten category names the classifier reads; every other name is ignored. */
  const ConsumedNames: set<string> := {
    "mouthSmileLeft", "mouthSmileRight",
    "browInnerDown", "browDownLeft", "browDownRight",
    "eyeWideLeft", "eyeWideRight",
    "browInnerUp", "browOuterUpLeft", "browOuterUpRight"
  }

  /** Both mouth-corner smile scores; 0 when neither is reported. */
  function Smile(shapes: seq<Category>): (r: real)
    ensures Absent(shapes, "mouthSmileLeft") && Absent(shapes, "mouthSmileRight") ==> r == 0.0
    ensures InUnitRange(shapes) ==> 0.0 <= r <= 2.0
  {
    GetScore(shapes, "mouthSmileLeft") + GetScore(shapes, "mouthSmileRight")
  }

  /** The three brow-lowering scores; 0 when none is reported. */
  function BrowDown(shapes: seq<Category>): (r: real)
    ensures (Absent(shapes, "browInnerDown") && Absent(shapes, "browDownLeft")
             && Absent(shapes, "browDownRight")) ==> r == 0.0
    ensures InUnitRange(shapes) ==> 0.0 <= r <= 3.0
  {
    GetScore(shapes, "browInnerDown") + GetScore(shapes, "browDownLeft") + GetScore(shapes, "browDownRight")
  }

  /** Both wide-eye scores; 0 when neither is reported. */
  function EyeOpen(shapes: seq<Category>): (r: real)
    ensures Absent(shapes, "eyeWideLeft") && Absent(shapes, "eyeWideRight") ==> r == 0.0
    ensures InUnitRange(shapes) ==> 0.0 <= r <= 2.0
  {
    GetScore(shapes, "eyeWideLeft") + GetScore(shapes, "eyeWideRight")
  }

  /** The three brow-raising scores; 0 when none is reported. */
  function BrowUp(shapes: seq<Category>): (r: real)
    ensures (Absent(shapes, "browInnerUp") && Absent(shapes, "browOuterUpLeft")
             && Absent(shapes, "browOuterUpRight")) ==> r == 0.0
    ensures InUnitRange(shapes) ==> 0.0 <= r <= 3.0
  {
    GetScore(shapes, "browInnerUp") + GetScore(shapes, "browOuterUpLeft") + GetScore(shapes, "browOuterUpRight")
  }

  /** The composite surprise signal: wide eyes plus half the raised-brow
      signal. Raised brows alone reach at most 1.5, so without wide eyes the
      signal crosses 0.8 only if the brow-up scores sum above 1.6. */
  function Surprise(shapes: seq<Category>): (r: real)
    ensures EyeOpen(shapes) == 0.0 ==> (r > SurpriseThreshold <==> BrowUp(shapes) > 1.6)
    ensures InUnitRange(shapes) ==> 0.0 <= r <= 3.5
  {
    EyeOpen(shapes) + BrowUp(shapes) * BrowUpWeight
  }

  /** The three signals the thresholds are applied to. */
  datatype Signals = Signals(smile: real, browDown: real, surprise: real)

  /** The signals of one face. Each is 0 when none of its categories is
      reported, and with scores in [0, 1] each stays within its sum's range. */
  function SignalsOf(shapes: seq<Category>): (r: Signals)
    ensures (forall i :: 0 <= i < |shapes| ==> shapes[i].name !in ConsumedNames)
            ==> r == Signals(0.0, 0.0, 0.0)
    ensures InUnitRange(shapes) ==>
      && 0.0 <= r.smile <= 2.0
      && 0.0 <= r.browDown <= 3.0
      && 0.0 <= r.surprise <= 3.5
  {
    Signals(Smile(shapes), BrowDown(shapes), Surprise(shapes))
  }

  /*
   * A declarative reading of the decision rule, independent of the if-chain
   * below: each label has a firing condition and a rank, and the label shown
   * is the highest-ranked one that fires. Neutral always fires and ranks last.
   */

  function Rank(l: Label): nat
  {
    match l
    case Happy => 0
    case Angry => 1
    case Surprised => 2
    case Neutral => 3
  }

  predicate Fires(l: Label, s: Signals)
  {
    match l
    case Happy => s.smile > SmileThreshold
    case Angry => s.browDown > BrowDownThreshold
    case Surprised => s.surprise > SurpriseThreshold
    case Neutral => true
  }

  /** True iff `l` fires and no label of higher priority does. */
  predicate Wins(l: Label, s: Signals)
  {
    Fires(l, s) && forall m: Label :: Rank(m) < Rank(l) ==> !Fires(m, s)
  }

  /** The first satisfied threshold, tried as Happy, Angry, Surprised. */
  function Decide(s: Signals): (r: Label)
    ensures Wins(r, s)
    ensures forall l: Label :: Wins(l, s) ==> l == r
  {
    if s.smile > SmileThreshold then Happy
    else if s.browDown > BrowDownThreshold then Angry
    else if s.surprise > SurpriseThreshold then Surprised
    else Neutral
  }

  /** Classifies one face's blendshapes. Total: every list, the empty one
      included, yields exactly one label. */
  function Classify(shapes: seq<Category>): (r: Label)
    ensures Wins(r, SignalsOf(shapes))
    ensures forall l: Label :: Wins(l, SignalsOf(shapes)) ==> l == r
  {
    Decide(SignalsOf(shapes))
  }

  /** Leading word of the result text for each label; no two labels share one. */
  function Text(l: Label): (r: string)
    ensures r == "HAPPY!" <==> l == Happy
    ensures r == "ANGRY" <==> l == Angry
    ensures r == "SURPRISED" <==> l == Surprised
    ensures r == "NEUTRAL" <==> l == Neutral
  {
    match l
    case Happy => "HAPPY!"
    case Angry => "ANGRY"
    case Surprised => "SURPRISED"
    case Neutral => "NEUTRAL"
  }

  /** CSS colour of the result text for each label; no two labels share one,
      and white, the colour before any threshold is tried, is Neutral's. */
  function Colour(l: Label): (r: string)
    ensures r == "#00ff00" <==> l == Happy
    ensures r == "red" <==> l == Angry
    ensures r == "yellow" <==> l == Surprised
    ensures r == "white" <==> l == Neutral
  {
    match l
    case Happy => "#00ff00"
    case Angry => "red"
    case Surprised => "yellow"
    case Neutral => "white"
  }

  /** Recovers the label from the colour shown. */
  function LabelOfColour(c: string): (r: Option<Label>)
    ensures forall l: Label :: r == Some(l) <==> Colour(l) == c
  {
    if c == "#00ff00" then Some(Happy)
    else if c == "red" then Some(Angry)
    else if c == "yellow" then Some(Surprised)
    else if c == "white" then Some(Neutral)
    else None
  }

  /** Recovers the label from the leading word of the text shown. */
  function LabelOfText(t: string): (r: Option<Label>)
    ensures forall l: Label :: r == Some(l) <==> Text(l) == t
  {
    if t == "HAPPY!" then Some(Happy)
    else if t == "ANGRY" then Some(Angry)
    else if t == "SURPRISED" then Some(Surprised)
    else if t == "NEUTRAL" then Some(Neutral)
    else None
  }

  /** Text and colour each identify the label: distinct labels never share
      either one. */
  lemma PresentationRoundTrip(l: Label)
    ensures LabelOfColour(Colour(l)) == Some(l)
    ensures LabelOfText(Text(l)) == Some(l)
  {
  }

  /*
   * The threshold rules stated directly over the named scores.
   */

  lemma HappyIff(shapes: seq<Category>)
    ensures Classify(shapes) == Happy
        <==> GetScore(shapes, "mouthSmileLeft") + GetScore(shapes, "mouthSmileRight") > 0.6
  {
  }

  lemma AngryIff(shapes: seq<Category>)
    ensures Classify(shapes) == Angry
        <==> && Classify(shapes) != Happy
             && GetScore(shapes, "browInnerDown") + GetScore(shapes, "browDownLeft")
                + GetScore(shapes, "browDownRight") > 0.5
  {
  }

  lemma SurprisedIff(shapes: seq<Category>)
    ensures Classify(shapes) == Surprised
        <==> && Classify(shapes) != Happy
             && Classify(shapes) != Angry
             && GetScore(shapes, "eyeWideLeft") + GetScore(shapes, "eyeWideRight")
                + 0.5 * (GetScore(shapes, "browInnerUp") + GetScore(shapes, "browOuterUpLeft")
                         + GetScore(shapes, "browOuterUpRight")) > 0.8
  {
  }

  lemma NeutralIff(shapes: seq<Category>)
    ensures Classify(shapes) == Neutral
        <==> && Smile(shapes) <= 0.6
             && BrowDown(shapes) <= 0.5
             && Surprise(shapes) <= 0.8
  {
  }

  /** The thresholds are strict: a signal exactly at its threshold does not fire. */
  lemma ThresholdsAreStrict(s: Signals)
    ensures s.smile == SmileThreshold ==> Decide(s) != Happy
    ensures s.browDown == BrowDownThreshold ==> Decide(s) != Angry
    ensures s.surprise == SurpriseThreshold ==> Decide(s) != Surprised
  {
  }

  /** A smile above the threshold decides Happy whatever the other signals. */
  lemma SmileDominates(s: Signals, browDown: real, surprise: real)
    requires s.smile > SmileThreshold
    ensures Decide(s.(browDown := browDown, surprise := surprise)) == Happy
  {
  }

  /** Smile 0.3, brow-down 0.6, surprise 0.9: brow-down outranks surprise. */
  lemma AngryOutranksSurprised()
    ensures Decide(Signals(0.3, 0.6, 0.9)) == Angry
  {
  }

  /** An entry whose name the classifier does not read, inserted anywhere,
      never changes the label. */
  lemma {:induction false} OtherNamesIrrelevant(a: seq<Category>, b: seq<Category>, c: Category)
    requires c.name !in ConsumedNames
    ensures Classify(a + [c] + b) == Classify(a + b)
  {
    forall n | n in ConsumedNames
      ensures GetScore(a + [c] + b, n) == GetScore(a + b, n)
    {
      InsertOtherName(a, b, c, n);
    }
  }

  /** With none of the consumed names present (the empty list included),
      every signal is zero and the result is Neutral in white. */
  lemma NoConsumedNamesIsNeutral(shapes: seq<Category>)
    requires forall i :: 0 <= i < |shapes| ==> shapes[i].name !in ConsumedNames
    ensures Classify(shapes) == Neutral
    ensures Colour(Classify(shapes)) == "white"
  {
    forall n | n in ConsumedNames
      ensures GetScore(shapes, n) == 0.0
    {
      assert Absent(shapes, n);
    }
  }

  /*
   * Worked inputs, each a single face's category list.
   */

  lemma SmileBoundary()
    ensures Classify([Category("mouthSmileLeft", 0.3), Category("mouthSmileRight", 0.3)]) != Happy
    ensures Classify([Category("mouthSmileLeft", 0.31), Category("mouthSmileRight", 0.3)]) == Happy
  {
  }

  lemma HappyScenario()
    ensures var l := Classify([Category("mouthSmileLeft", 0.4), Category("mouthSmileRight", 0.3)]);
            l == Happy && Colour(l) == "#00ff00" && Text(l) == "HAPPY!"
  {
  }

  lemma AngryScenario()
    ensures var l := Classify([Category("browInnerDown", 0.3), Category("browDownLeft", 0.2),
                               Category("browDownRight", 0.1)]);
            l == Angry && Colour(l) == "red"
  {
  }

  lemma SurprisedScenario()
    ensures var l := Classify([Category("eyeWideLeft", 0.5), Category("eyeWideRight", 0.4),
                               Category("browInnerUp", 0.2)]);
            l == Surprised && Colour(l) == "yellow"
  {
  }

  lemma EmptyScenario()
    ensures Classify([]) == Neutral && Colour(Classify([])) == "white"
  {
  }
}
