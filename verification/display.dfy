/** The page state the classifier drives: which of the four emotion
    indicators exist and which carry the "active" mark, the result text and
    its colour, and the video time of the last evaluated frame. */
module Display {
  import opened Blendshapes
  import opened Emotion

  const AllLabels: set<Label> := {Neutral, Happy, Angry, Surprised}

  /** What the face tracker returned for one video frame: either it threw, or
      it produced the blendshape lists of the faces it found (possibly none). */
  datatype Detection = DetectionError | Detected(faces: seq<seq<Category>>)

  /** One scheduler tick: the video's current time and what detection would
      return if the frame is evaluated. */
  datatype Tick = Tick(currentTime: real, detection: Detection)

  datatype Screen = Screen(
    present: set<Label>,   // indicators whose page element exists
    active: set<Label>,    // indicators carrying the "active" mark
    text: string,          // leading word of the result text
    colour: string,        // colour of the result text
    lastVideoTime: real)

  /** Well-formedness kept by every step: only existing indicators are ever
      marked, and with all four present exactly one of them is active. */
  predicate Consistent(s: Screen)
  {
    && s.active <= s.present
    && (s.present == AllLabels ==> |s.active| == 1)
  }

  /** The page as loaded: Neutral marked if its element exists, the result
      text and colour whatever the page starts with, no frame seen yet. */
  function Init(present: set<Label>, text: string, colour: string): (s: Screen)
    ensures Consistent(s)
    ensures Neutral in present ==> s.active == {Neutral}
    ensures Neutral !in present ==> s.active == {}
  {
    Screen(present, if Neutral in present then {Neutral} else {}, text, colour, -1.0)
  }

  /** Removing the mark from each of the four indicators in turn leaves no
      indicator marked, whatever was marked before. */
  lemma ClearingAllFourClearsAll(marked: set<Label>)
    ensures marked - {Neutral} - {Happy} - {Angry} - {Surprised} == {}
  {
    forall m | m in marked
      ensures m in {Neutral, Happy, Angry, Surprised}
    {
      match m
      case Neutral =>
      case Happy =>
      case Angry =>
      case Surprised =>
    }
  }

  /** Clears the mark from all four indicators, then marks `l`. */
  function SetActive(s: Screen, l: Label): (r: Screen)
    ensures forall m: Label :: m in r.active <==> m == l
    ensures r.present == s.present && r.text == s.text && r.colour == s.colour
    ensures r.lastVideoTime == s.lastVideoTime
  {
    ClearingAllFourClearsAll(s.active);
    s.(active := s.active - {Neutral} - {Happy} - {Angry} - {Surprised} + {l})
  }

  /** Marking an already-marked indicator is observationally a no-op. */
  lemma SetActiveIdempotent(s: Screen, l: Label)
    ensures SetActive(SetActive(s, l), l) == SetActive(s, l)
  {
  }

  /** Evaluation of one face: with any indicator element missing nothing
      changes; otherwise the classified label becomes the sole active
      indicator and sets the text and colour. */
  function DetectEmotion(s: Screen, shapes: seq<Category>): (r: Screen)
    ensures s.present != AllLabels ==> r == s
    ensures s.present == AllLabels ==>
      && r.active == {Classify(shapes)}
      && r.text == Text(Classify(shapes))
      && r.colour == Colour(Classify(shapes))
    ensures r.present == s.present && r.lastVideoTime == s.lastVideoTime
  {
    if s.present != AllLabels then s
    else
      var l := Classify(shapes);
      SetActive(s, l).(text := Text(l), colour := Colour(l))
  }

  /** No hysteresis: the state after evaluating a face does not depend on
      which label was active before, and evaluating the same face again
      changes nothing. */
  lemma DetectEmotionForgetsPast(s1: Screen, s2: Screen, shapes: seq<Category>)
    requires s1.present == AllLabels && s2.present == AllLabels
    ensures DetectEmotion(s1, shapes).active == DetectEmotion(s2, shapes).active
    ensures DetectEmotion(DetectEmotion(s1, shapes), shapes) == DetectEmotion(s1, shapes)
  {
  }

  /** A frame in which no face was found: with all four elements present,
      Neutral becomes the sole active indicator; the result text and colour
      are left as they were. */
  function NoFace(s: Screen): (r: Screen)
    ensures s.present != AllLabels ==> r == s
    ensures s.present == AllLabels ==> r.active == {Neutral}
    ensures r.text == s.text && r.colour == s.colour
    ensures r.present == s.present && r.lastVideoTime == s.lastVideoTime
  {
    if s.present != AllLabels then s else SetActive(s, Neutral)
  }

  /** One run of the prediction loop. A frame whose video time equals the
      last one seen is skipped entirely. Otherwise the time is recorded first,
      so it is recorded even when detection throws; then the first face found
      is classified, or the no-face rule applies. */
  function Frame(s: Screen, t: Tick): (r: Screen)
    ensures t.currentTime == s.lastVideoTime ==> r == s
    ensures t.currentTime != s.lastVideoTime ==>
      var s' := s.(lastVideoTime := t.currentTime);
      match t.detection
      case DetectionError => r == s'
      case Detected(faces) =>
        if |faces| > 0 then r == DetectEmotion(s', faces[0]) else r == NoFace(s')
    ensures Consistent(s) ==> Consistent(r)
  {
    if t.currentTime == s.lastVideoTime then s
    else
      var s' := s.(lastVideoTime := t.currentTime);
      match t.detection
      case DetectionError => s'
      case Detected(faces) =>
        if |faces| > 0 then DetectEmotion(s', faces[0]) else NoFace(s')
  }

  /** The prediction loop over a sequence of ticks. */
  function Run(s: Screen, ticks: seq<Tick>): (r: Screen)
    ensures Consistent(s) ==> Consistent(r)
    ensures r.present == s.present
    ensures s.present != AllLabels ==>
      r.active == s.active && r.text == s.text && r.colour == s.colour
    decreases |ticks|
  {
    if |ticks| == 0 then s else Run(Frame(s, ticks[0]), ticks[1..])
  }

  /** From page load with all four indicators present, every run of the loop
      leaves exactly one indicator active. */
  lemma {:induction false} ExactlyOneActive(text: string, colour: string, ticks: seq<Tick>)
    ensures |Run(Init(AllLabels, text, colour), ticks).active| == 1
  {
  }

  /** With any indicator element missing, no run of the loop ever changes
      the marks, the text or the colour. */
  lemma {:induction false} MissingElementFreezesDisplay(present: set<Label>, text: string, colour: string, ticks: seq<Tick>)
    requires present != AllLabels
    ensures var r := Run(Init(present, text, colour), ticks);
      r.active == Init(present, text, colour).active && r.text == text && r.colour == colour
  {
  }
}
