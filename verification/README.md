# Emotion mirror: blendshape-to-emotion classifier

A Dafny model of the decision logic in the "emotion mirror" page
(`emotion-mirror/script.js`). A face tracker reports, once per video frame,
named facial-muscle scores ("blendshapes") for the first face it sees. The page
turns them into one of four labels (Neutral, Happy, Angry, Surprised) and shows
that label three ways: by marking one of four indicator elements "active", by
the result text, and by the colour of that text.

The model has four modules:

- `Blendshapes` (`blendshapes.dfy`): a face's scores as a `seq<Category>` of
  (name, score) pairs, and `GetScore`, the first-match lookup that reads a
  missing name as 0.
- `Emotion` (`emotion.dfy`): the four derived signals, the three strict
  thresholds tried in the order Happy, Angry, Surprised (Neutral otherwise),
  and the fixed text and colour for each label. Scores are `real`, so sums and
  the 0.5 weight are exact. The decision rule is also stated declaratively
  (`Fires`, `Rank`, `Wins`: the label shown is the highest-priority one whose
  condition holds), and the classifier is proved to pick exactly that label.
- `Display` (`display.dfy`): the page state as an immutable `Screen` record.
  It holds which indicator elements exist, which carry the active mark, the
  result text and colour, and the last video time evaluated. Three step
  functions change it: evaluating a face (`DetectEmotion`), the no-face rule
  (`NoFace`), and one tick of the prediction loop with its frame-time gate
  (`Frame`). `Run` folds a sequence of ticks.
- `Wrappers` (`wrappers.dfy`): an `Option` type for the reverse lookups.

Three facts about `script.js` shape the model:

- The classifier reads ten category names (script.js:142-155).
- When no face is found, the page marks the Neutral indicator but leaves the
  result text and its colour as they were (script.js:100-113).
- The video time is recorded before detection runs (script.js:92-94). A frame
  whose detection throws still advances the gate, and nothing else changes.

## Model

| member | source | states |
|---|---|---|
| Blendshapes.GetScore | emotion-mirror/script.js:136-139 | the result is the score of the first entry whose name equals the query, and 0 when no entry has that name; with every score in [0, 1] the result is in [0, 1] |
| Blendshapes.FirstMatchOrAbsent | emotion-mirror/script.js:136-139 | every name either has a first occurrence or is absent, so the two cases of the lookup cover all inputs |
| Blendshapes.GetScoreConcat | emotion-mirror/script.js:136-139 | a lookup in a concatenation is answered by the first part when that part holds the name, otherwise by the second part |
| Blendshapes.AppendShadowed | emotion-mirror/script.js:136-139 | appending an entry whose name already occurs changes no lookup |
| Blendshapes.InsertOtherName | emotion-mirror/script.js:136-139 | inserting an entry with a different name anywhere leaves the lookup unchanged |
| Emotion.Smile | emotion-mirror/script.js:142 | the smile signal is 0 when neither mouth-corner smile score is reported, and lies in [0, 2] when scores lie in [0, 1] |
| Emotion.BrowDown | emotion-mirror/script.js:145-148 | the brow-down signal is 0 when none of its three scores is reported, and lies in [0, 3] when scores lie in [0, 1] |
| Emotion.EyeOpen | emotion-mirror/script.js:151 | the eye-open signal is 0 when neither wide-eye score is reported, and lies in [0, 2] when scores lie in [0, 1] |
| Emotion.BrowUp | emotion-mirror/script.js:152-155 | the brow-up signal is 0 when none of its three scores is reported, and lies in [0, 3] when scores lie in [0, 1] |
| Emotion.Surprise | emotion-mirror/script.js:156 | with no wide-eye signal, surprise passes 0.8 exactly when the brow-up scores sum above 1.6 (the 0.5 weight); it lies in [0, 3.5] when scores lie in [0, 1] |
| Emotion.SignalsOf | emotion-mirror/script.js:142-156 | a list holding none of the ten read names gives all-zero signals; with scores in [0, 1] each signal stays within its range |
| Emotion.Decide | emotion-mirror/script.js:168-188 | the chosen label fires and no higher-priority label fires (Happy > Angry > Surprised > Neutral), and it is the only such label |
| Emotion.Classify | emotion-mirror/script.js:141-188 | every face's list, the empty one included, gets exactly one label: the highest-priority label whose threshold its summed signals exceed |
| Emotion.HappyIff | emotion-mirror/script.js:142-174 | Happy exactly when mouthSmileLeft + mouthSmileRight > 0.6 |
| Emotion.AngryIff | emotion-mirror/script.js:145-179 | Angry exactly when not Happy and browInnerDown + browDownLeft + browDownRight > 0.5 |
| Emotion.SurprisedIff | emotion-mirror/script.js:150-184 | Surprised exactly when neither Happy nor Angry and eyeWideLeft + eyeWideRight + 0.5 * (browInnerUp + browOuterUpLeft + browOuterUpRight) > 0.8 |
| Emotion.NeutralIff | emotion-mirror/script.js:185-188 | Neutral exactly when smile <= 0.6, brow-down <= 0.5 and surprise <= 0.8 |
| Emotion.ThresholdsAreStrict | emotion-mirror/script.js:170-180 | a signal exactly at its threshold does not select its label |
| Emotion.SmileDominates | emotion-mirror/script.js:169-174 | a smile above 0.6 gives Happy whatever the brow-down and surprise signals are |
| Emotion.AngryOutranksSurprised | emotion-mirror/script.js:169-184 | smile 0.3, brow-down 0.6 and surprise 0.9 give Angry |
| Emotion.OtherNamesIrrelevant | emotion-mirror/script.js:136-156 | an entry whose name is not one of the ten read names, inserted anywhere, never changes the label |
| Emotion.NoConsumedNamesIsNeutral | emotion-mirror/script.js:136-188 | a list holding none of the ten read names, the empty list included, gives Neutral with colour "white" |
| Emotion.Text | emotion-mirror/script.js:158-181 | the leading word is "HAPPY!", "ANGRY", "SURPRISED" or "NEUTRAL" exactly for Happy, Angry, Surprised or Neutral respectively |
| Emotion.Colour | emotion-mirror/script.js:159-182 | the colour is "#00ff00", "red", "yellow" or "white" exactly for Happy, Angry, Surprised or Neutral respectively |
| Emotion.LabelOfColour | emotion-mirror/script.js:158-191 | each of the four colours "#00ff00", "red", "yellow", "white" belongs to exactly one label, and no other colour belongs to any |
| Emotion.LabelOfText | emotion-mirror/script.js:158-191 | each of the leading words "HAPPY!", "ANGRY", "SURPRISED", "NEUTRAL" belongs to exactly one label, and no other text belongs to any |
| Emotion.PresentationRoundTrip | emotion-mirror/script.js:158-191 | a label is recovered from the colour it is shown in and from its text |
| Emotion.SmileBoundary | emotion-mirror/script.js:142-174 | smile scores summing to exactly 0.6 do not give Happy; summing to 0.61 they do |
| Emotion.HappyScenario | emotion-mirror/script.js:142-191 | mouthSmileLeft 0.4 and mouthSmileRight 0.3 give Happy, colour "#00ff00", text "HAPPY!" |
| Emotion.AngryScenario | emotion-mirror/script.js:145-191 | browInnerDown 0.3, browDownLeft 0.2, browDownRight 0.1 give Angry in "red" |
| Emotion.SurprisedScenario | emotion-mirror/script.js:150-191 | eyeWideLeft 0.5, eyeWideRight 0.4, browInnerUp 0.2 give Surprised in "yellow" |
| Emotion.EmptyScenario | emotion-mirror/script.js:158-191 | the empty list gives Neutral in "white" |
| Display.Init | emotion-mirror/script.js:17-24 | on page load Neutral is the only marked indicator if its element exists, and none is marked otherwise |
| Display.ClearingAllFourClearsAll | emotion-mirror/script.js:163-166 | removing the mark from each of the four indicators leaves none marked, whatever was marked before |
| Display.SetActive | emotion-mirror/script.js:162-166 | after clearing all four marks and marking one label, that label is the only one marked; text, colour and element presence are unchanged |
| Display.SetActiveIdempotent | emotion-mirror/script.js:162-188 | marking the already-marked label again changes nothing |
| Display.DetectEmotion | emotion-mirror/script.js:123-192 | with an indicator element missing nothing changes; otherwise the classified label becomes the only marked indicator and sets the text and colour |
| Display.DetectEmotionForgetsPast | emotion-mirror/script.js:158-191 | the indicator marked after evaluating a face does not depend on the earlier state, and evaluating the same face twice equals evaluating it once |
| Display.NoFace | emotion-mirror/script.js:100-113 | with all four elements present Neutral becomes the only marked indicator; text and colour are never changed |
| Display.Frame | emotion-mirror/script.js:82-120 | a tick at the last evaluated video time changes nothing; any other tick records the time and then applies detection error, face, or no-face handling; it keeps the state consistent |
| Display.Run | emotion-mirror/script.js:82-120 | every sequence of ticks keeps the state consistent and the element presence unchanged, and with an element missing it never changes marks, text or colour |
| Display.ExactlyOneActive | emotion-mirror/script.js:17-20 | from page load with all four indicators present, exactly one indicator is active after any sequence of ticks |
| Display.MissingElementFreezesDisplay | emotion-mirror/script.js:125-133 | from page load with an indicator element missing, no sequence of ticks changes the marks, the text or the colour |

## Left out

- Loading the vision bundle, `setupAI`, and creating the face landmarker (script.js:27-66). These are calls into an external machine-learning library. Its per-frame output is the input `Detection`: either an error, or the blendshape lists of the faces found.
- Camera acquisition, `requestAnimationFrame` scheduling, `performance.now` and console logging (script.js:69-79, 89, 119). These are I/O and timing. The loop is a sequence of `Tick`s, each carrying the video's current time.
- The guard against an uninitialised landmarker (script.js:84-87). The loop is only started after the landmarker exists, so this guard never fires once frames arrive.
- A missing result-text element. The code writes to it during setup, before any frame is evaluated, so the model assumes it exists.
- Display.Init: the page markup is assumed to give no indicator the `active` class. The code only adds it to the Neutral element (script.js:18-20); the other three elements' starting classes come from HTML that is not part of this model. `ExactlyOneActive` rests on this assumption.
- DOM handles, `classList`, `innerText` and `style`. They are replaced by the `Screen` record.
- The local `activeEmotion` string (script.js:160, 173, 178, 183, 186). It is assigned but never read.
- The emoji suffixes of the result texts (script.js:158, 171, 176, 181). Text is modelled by its leading word only.
- IEEE-754 double rounding. Scores are exact `real`s. The source sums IEEE-754 doubles, so a sum that lies exactly on a threshold could round to either side there.
- NaN video times. Video times are `real`s compared exactly. A NaN time, which never equals itself in the source, is not modelled.
