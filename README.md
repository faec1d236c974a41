# Meme generator: image fit, button states, volume icon and voice choice

This project models the logic inside a browser meme generator, a single
script (`script.js`). The user picks an image, the page scales and
centres it on a canvas, and captions are drawn over it. The caption can
then be read aloud in a chosen voice, at a volume set by a slider. Most of
the script calls browser interfaces. The model covers the four pieces that
compute something:

- **Fit** (`fit.dfy`): `getDimmensions`. It computes the drawn size and
  top-left corner of the image from the canvas and image sizes. It works
  over exact `real` numbers and requires every side to be positive.
  A portrait image (width over height below 1) fills the canvas height. Any
  other image, including a square one, fills the canvas width. The image is
  centred on the other axis. The script's misspelt name is kept as
  `GetDimmensions`.
- **Buttons** (`buttons.dfy`): `toggleButtons`. The `disabled` flags of the
  generate, clear and read-aloud buttons and of the voice selector are a
  class with four `bool` fields. The pure function `Toggled` specifies it.
- **Volume** (`volume.dfy`): the slider's change listener. It maps the
  slider value to one of four icon levels and icon files. The read-aloud
  handler sets speech volume to the slider value divided by 100.
- **Speech** (`speech.dfy`): the read-aloud handler's loop. Every voice
  whose name equals the selected name is assigned to the utterance in turn,
  so the last match wins. When nothing matches, the existing voice stays.
  The loop is a `for` loop. Its invariant ties it to the recursive function
  `LastMatch`.

Two facts about the code are worth stating up front:

- An image with the canvas's own proportions spans both axes, whichever
  branch it takes (`Fit.SameProportionsCoversCanvas`). A square image on a
  square canvas is one such case. `Fit.GetDimmensions` therefore promises
  that at least one axis is spanned, not exactly one.
- The doc comment (script.js:141-143) and the comment at script.js:155
  promise that the image fits inside the canvas. The code keeps that
  promise only on a square canvas (`Fit.InsideSquareCanvas`): every other
  canvas has an image that overflows it (`Fit.NonSquareOverflows`). On a wide
  canvas a landscape image can overflow vertically
  (`Fit.OverflowsWideCanvas`). On a tall canvas a portrait image can
  overflow sideways (`Fit.OverflowsTallCanvas`). See Findings.

## Model

| member | source | states |
|---|---|---|
| `Fit.GetDimmensions` | script.js:152-179 | For positive sizes, the drawn width and height are positive. The drawn rectangle has the image's proportions (`width * imageHeight == height * imageWidth`). Its centre is the canvas centre on both axes. It spans the full canvas width or the full canvas height. |
| `Fit.RatioBelowOneIffTaller` | script.js:156-159 | The portrait test `imageWidth / imageHeight < 1` holds exactly when the image is narrower than it is tall. |
| `Fit.PortraitFillsHeight` | script.js:159-166 | A portrait image gets height = canvas height, startY = 0 and width = canvasHeight * imageWidth / imageHeight, which is less than the canvas height. |
| `Fit.LandscapeFillsWidth` | script.js:168-176 | A landscape or square image gets width = canvas width, startX = 0 and height = canvasWidth * imageHeight / imageWidth, which is at most the canvas width. |
| `Fit.SquareImageTakesLandscapeBranch` | script.js:159-176 | A square image follows the landscape branch (the test is `< 1`). It is drawn canvasWidth by canvasWidth at x = 0, centred vertically. |
| `Fit.SquareOnSquareCoversCanvas` | script.js:159-176 | A square image on a square canvas covers the whole canvas from (0, 0), spanning both axes. |
| `Fit.SameProportionsCoversCanvas` | script.js:159-176 | An image whose width-to-height ratio equals the canvas's is drawn as the whole canvas from (0, 0) in either branch, so both axes are spanned. |
| `Fit.InsideSquareCanvas` | script.js:141-179 | On a square canvas the drawn rectangle lies inside the canvas: both offsets are non-negative and neither far edge passes the canvas edge. |
| `Fit.OverflowsWideCanvas` | script.js:155-176 | A 500-by-100 canvas with a 3-by-2 image gives a drawn height of 1000/3, and the rectangle is not inside the canvas. |
| `Fit.OverflowsTallCanvas` | script.js:159-166 | A 100-by-500 canvas with a 2-by-3 image gives a drawn width of 1000/3, and the rectangle is not inside the canvas. |
| `Fit.NonSquareOverflows` | script.js:159-176 | For every positive canvas that is not square, some positive image is drawn partly outside the canvas. |
| `Fit.FitInside` | script.js:141-143 | The corrected fit compares the image's proportions with the canvas's. For every positive size it keeps the proportions, centres the image, spans one full axis and stays inside the canvas. |
| `Fit.FitInsideIsLargest` | script.js:141-143 | Scale the image by any factor that keeps it inside the canvas. The result is no wider and no taller than the corrected fit's rectangle. |
| `Fit.FitInsideAgreesOnSquareCanvas` | script.js:152-179 | On a square canvas the corrected fit and `getDimmensions` return the same placement. |
| `Buttons.Toggled` | script.js:62-75 | The generate flag is inverted. Afterwards clear, read and voice each have `disabled == !generate.disabled`. |
| `Buttons.ToggleTwiceRestores` | script.js:62-75 | Toggling twice gives back the original flags if and only if clear, read and voice were already the opposite of generate. In every case it gives back the generate flag. |
| `Buttons.ToggleChangesState` | script.js:62-75 | One toggle always changes the flags. |
| `Buttons.Form.ToggleButtons` | script.js:62-75 | The four fields become `Toggled` of their old values, and nothing else changes. The generate flag is inverted and the other three are its opposite. |
| `Buttons.Form.SubmitThenClear` | script.js:35-51 | Starting from flags where the other three are the opposite of generate, a submit followed by a clear (one toggle each) restores all four flags. |
| `Volume.LevelThreshold` | script.js:111-122 | The least slider values for icon levels 1, 2 and 3 are 1, 34 and 67. |
| `Volume.IconLevel` | script.js:111-122 | The icon level is between 0 and 3. It is 0 exactly when the value is below 1. |
| `Volume.IconLevelMatchesThresholds` | script.js:111-122 | For levels 1 to 3, the icon reaches a level if and only if the value reaches that level's threshold. So the level is 3 for v >= 67, 2 for 34 <= v < 67, 1 for 1 <= v < 34 and 0 otherwise. |
| `Volume.IconLevelMonotone` | script.js:111-122 | A larger slider value never gives a lower icon level. |
| `Volume.IconSource` | script.js:111-122 | The icon path has the fixed length of `icons/volume-level-N.svg`. Its digit is the icon level. |
| `Volume.SameIconIffSameLevel` | script.js:111-122 | Two slider values select the same icon file if and only if they have the same icon level. |
| `Volume.UtteranceVolume` | script.js:103 | Over exact reals, speech volume times 100 is the slider value. A slider value from 0 to 100 gives a volume from 0 to 1. |
| `Speech.LastMatch` | script.js:98-102 | The result is an index whose voice has the selected name, with no such voice after it. The result is none if and only if no voice has that name. |
| `Speech.ChosenVoiceAppend` | script.js:98-102 | Appending a voice with the selected name makes it the choice. Appending any other voice leaves the choice unchanged. |
| `Speech.Utterance.constructor` | script.js:45 | A new utterance's text is the top caption followed by the bottom caption. It has no voice and the default volume 1. |
| `Speech.Utterance.ReadAloud` | script.js:96-103 | The voice becomes the last voice whose name equals the selected name, or stays as it was if none matches. The volume becomes the slider value over 100. The text is unchanged. |

## Left out

- Element lookup, attribute setting and building the voice options (`populateVoiceList`, with its `voicesAdded` flag and removal of the placeholder option): these are DOM operations whose results depend on the browser.
- Canvas drawing and text: `writeFunction`, the fill, stroke, clear and `drawImage` calls and the font settings only call the Canvas API.
- Image loading and building the image URL from the chosen file name, and the speech engine's `cancel` and `speak`: platform I/O.
- Event-listener registration and the submit handler's orchestration, including `preventDefault`. `Buttons.Form.SubmitThenClear` keeps only the two handlers' toggles.
- The page's initial button flags and canvas size come from the HTML page, which is not part of this model. `Buttons.Form.constructor` therefore takes the initial flags as a parameter.
- Fit.GetDimmensions: computed over exact reals, so IEEE-754 rounding is not modelled. The aspect ratio and centring hold exactly here and only approximately in the browser.
- Fit.GetDimmensions: requires every side to be positive. The script does no check. On a zero or negative side it still returns a rectangle, which may have zero, negative or NaN sizes or lie outside the canvas; this model describes none of these inputs.
- Volume.UtteranceVolume: the division by 100 is exact here. In the browser it is rounded to a double, so multiplying the volume by 100 can miss the slider value slightly (7 gives 7.000000000000001).
- Speech.Voice: only the voice's name is modelled. Its language and default flag are read only when the voice list is built, which is left out.
- Volume.IconLevel: the slider value is modelled as an integer. The conversion of the slider's text value to a number before `>=` and `/` is not modelled.
- Speech.Utterance.ReadAloud: the selected name is a string parameter. The missing-attribute case (`getAttribute` returning null, which matches no voice) is not modelled. Neither is the error raised when no utterance exists yet, because the read-aloud button is disabled until the first submit.

## Findings

| source | as written | input that shows it | evidently intended | confidence | as-written member | corrected member |
|---|---|---|---|---|---|---|
| script.js:155-176 | The portrait test compares the image's width over height with 1, not with the canvas's width over height. A landscape image therefore always fills the canvas width, even when that makes it taller than the canvas. A portrait image likewise always fills the height, even when that makes it wider than the canvas (`Fit.OverflowsTallCanvas`: canvas 100 by 500, image 2 by 3, width 1000/3). | Canvas 500 by 100, image 3 by 2: drawn height 1000/3, beyond the canvas height 100. | The doc comment (script.js:141-143) and the comment at script.js:155 promise the picture always fits inside the canvas. That needs the test against the canvas's proportions. | not executed; the fault shows only on a non-square canvas, and the page's canvas size is not part of this model | `Fit.OverflowsWideCanvas` | `Fit.FitInside` |

`Fit.GetDimmensions` stays as written, because it is what the page draws.
`Fit.FitInside` is proved to fit, to be the largest fit
(`Fit.FitInsideIsLargest`), and to match the script whenever the canvas is
square (`Fit.FitInsideAgreesOnSquareCanvas`).
