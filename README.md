# Matrix animations, modelled in Dafny

A model of the animation logic behind a "Matrix" landing page:

- the **text scramble animator** `TextScramble`, which moves a heading from the text it shows to a new text. Every character position becomes a queue cell that shows its old character, then a scramble symbol, then its new character, on a schedule of frames drawn when the pass begins.
- the **falling-glyph field** of `RainingLetters`:
  - 100 columns of 3 glyphs each, built once.
  - An animation frame moves each glyph down by its speed, and respawns it above the top when it was at or below the bottom line.
  - A 50 ms interval picks a small set of highlighted glyphs.
- the **quote selection** `getQuote`: a random member of the fetched list, or the constant "Welcome to the Matrix" when the request fails.
- four **glitch wrappers**, each a resting/glitching cycle driven by one tracked timeout, with parameters derived linearly from an intensity on a 0–10 scale:
  - `ScreenGlitch`: a self-rescheduling firing, each firing starting one glitch with its own untracked ending timeout.
  - `GlitchText`: two shifted copies of the text.
  - `GlitchImage`: an RGB-split overlay, plus the loop that fills a canvas buffer with black and white noise.
  - `GlitchEffect`: two tinted overlays and a row of horizontal lines.

Modelling conventions:

- Every `Math.random()` is a `real` parameter `r` with `0 <= r < 1` (`Draws.Unit`). Numbers are exact reals.
- An object the source mutates is a Dafny `class` over its fields, reduced as listed under "## Left out". Step-by-step code is a method with loops and invariants, proved against a pure function. Expression code is a function.
- A React component is a class over its state and its `timeoutRef`:
  - Mounting, when the first effect run happens, is the constructor.
  - A render with new props is `SetProps`: when a dependency changed, the old run's cleanup happens, then a new run.
  - A timer or animation-frame callback is an event method, callable only while that timer is pending. For `RainField`, whose interval and animation frame run for as long as it is mounted, that means only while `mounted`.
  - Unmounting is `Unmount`; its cleanups clear the pending timers.

| file | module | models |
|---|---|---|
| draws.dfy | `Draws` | `Option`, the draw contract, `Math.max`, `Math.ceil`, `Math.floor(r * n)`, `Array.from` lengths, random shifts |
| scramble.dfy | `Scramble` | `TextScramble`: `setText`, `update`, the animation frame |
| glyphs.dfy | `Glyphs` | `createCharacters`, `updatePositions`, `updateActiveIndices`, the `RainingLetters` state |
| quote.dfy | `Quote` | `getQuote` and the `if (newQuote)` test of its callers |
| pulse.dfy | `Pulse` | the frequency/duration/offset formulas and the timeout shared by the three wrappers |
| glitch_text.dfy | `GlitchText` | `GlitchText` |
| glitch_image.dfy | `GlitchImage` | `GlitchImage` and its noise loop |
| glitch_effect.dfy | `GlitchEffect` | `GlitchEffect` |
| screen_glitch.dfy | `ScreenGlitch` | `ScreenGlitch` |

Behaviour of the code worth noting:

- **Highlighted set size.** The loop adds 3 to 5 draws to a `Set`, and equal draws collapse, so the set holds 1 to 5 indices.
- **Empty quote list.** Indexing an empty quote list makes `getQuote` return `undefined` (`Quote.GetQuote` yields `None`), neither a member of the list nor the fallback. Its callers then keep the current quote.
- **When a glyph respawns.** A glyph respawns on the frame after its `y` reached 100, judged by its previous `y`: it spends one frame at or past `y = 100` before it comes back above the top.
- **A superseded pass never resolves.** A scramble pass resolves exactly once, at frame `MaxEnd`. The exception is a pass that a later `setText` supersedes: its promise is never resolved, because `setText` overwrites the stored `resolve` and cancels the pending frame.
- **The noise effect is ill-formed as written.** The canvas noise effect of components/glitch-image.tsx (lines 134-159) is a `useEffect` call at module level, outside any component, so it is a hook called outside a render. It also names `canvasRef` and `isGlitching`, which are not declared in that scope, so read as written the file does not type-check. Only its fill loop is modelled (`GlitchImage.NoiseFill`).

## Model

| member | source | states |
|---|---|---|
| Draws.Max | components/RainingLetters.tsx:57 | the larger of two integers: at least both, and one of them |
| Draws.Ceil | components/glitch-text.tsx:27 | `Math.ceil(x)` is the integer in [x, x + 1) |
| Draws.ArrayLength | components/glitch-effects.tsx:93 | an `Array.from` length `Math.floor(x)`: within 1 below x for x >= 0, and 0 for a negative x |
| Draws.Pick | components/RainingLetters.tsx:64 | `Math.floor(r * n)` is an index below n (0 when n is 0) |
| Draws.PickOnto | components/RainingLetters.tsx:111 | every index below n is picked by some draw, namely k / n |
| Draws.ScaledUnit | components/ScreenGlitch.tsx:58 | a draw scaled by w >= 0 lies in [0, w], below w when w > 0 |
| Draws.ShiftRange | components/glitch-text.tsx:45 | a shift `(r - 0.5) * m * k` lies in [-m*k/2, m*k/2), and is 0 when m is 0 |
| Scramble.NewCell | components/RainingLetters.tsx:62-66 | cell i takes from/to from the old/new text's character i ("" past the end), has no symbol, 0 <= start <= 39 and start <= end <= start + 39 |
| Scramble.Schedule | components/RainingLetters.tsx:57-67 | the queue has max(\|old\|, \|new\|) cells, each bounded and carrying both texts' characters, none with a symbol |
| Scramble.BuildQueue | components/RainingLetters.tsx:59-67 | the push loop builds exactly `Schedule` |
| Scramble.Reroll | components/RainingLetters.tsx:84-88 | a cell inside its window draws a new symbol exactly when it has none or the coin is below 0.28, otherwise it is unchanged; only the symbol ever changes, and afterwards a cell in its window has one |
| Scramble.Show | components/RainingLetters.tsx:81-92 | a cell shows its new character `to` exactly when frame >= end, its stored symbol exactly inside [start, end), otherwise its old character `from` |
| Scramble.Display | components/RainingLetters.tsx:79-93 | one shown cell per queue cell |
| Scramble.Advance | components/RainingLetters.tsx:79-88 | re-rolling keeps the queue's length and leaves every cell in its window with a symbol |
| Scramble.CountSettled | components/RainingLetters.tsx:81-82 | the `complete` counter never exceeds the queue length |
| Scramble.CompleteCountIsFull | components/RainingLetters.tsx:96 | `complete === queue.length` holds if and only if every cell has reached its end |
| Scramble.SettledFromMaxEnd | components/RainingLetters.tsx:96-101 | every cell has settled if and only if frame >= the latest end frame |
| Scramble.ScheduleFromSymbols | components/RainingLetters.tsx:66 | a fresh queue holds no symbol from outside the alphabet (it holds none at all) |
| Scramble.DudsFromSymbols | components/RainingLetters.tsx:86-89 | every scramble symbol a display shows is a member of the 18-symbol alphabet |
| Scramble.MaxEndIsLast | components/RainingLetters.tsx:96-101 | no cell ends after `MaxEnd` |
| Scramble.MaxEndOfEnds | components/RainingLetters.tsx:87 | the latest end depends only on the cells' end frames, so re-rolling keeps it |
| Scramble.MaxEndBound | components/RainingLetters.tsx:64-65 | every pass resolves by frame 78 (39 + 39) |
| Scramble.RenderSpells | components/RainingLetters.tsx:79-93 | cells whose texts spell s character by character (then "") render as s |
| Scramble.ResolvedShowsNewText | components/RainingLetters.tsx:81-83 | once every cell of a pass has settled, the element shows exactly the new text |
| Scramble.UnstartedShowsOldText | components/RainingLetters.tsx:90-91 | before any cell of a pass starts, the element shows exactly the old text |
| Scramble.RenderCells | components/RainingLetters.tsx:76-95 | the update loop re-rolls exactly as `Advance`, outputs `Display` and counts `CountSettled` |
| Scramble.AdvanceKeepsSchedule | components/RainingLetters.tsx:85-88 | re-rolling keeps a pass's queue of the same two texts and its latest end |
| Scramble.AdvanceFromSymbols | components/RainingLetters.tsx:85-88 | re-rolling draws every new symbol from the alphabet, so a queue keeps holding alphabet symbols only |
| Scramble.UpdateStep | components/RainingLetters.tsx:75-102 | one update keeps the queue, its latest end and its alphabet symbols; it completes if and only if frame >= MaxEnd, and then shows the new text; every symbol it shows is from the alphabet |
| Scramble.TextScramble.constructor | components/RainingLetters.tsx:45-53 | an empty queue at frame 0, no frame requested, over the element's text |
| Scramble.TextScramble.Update | components/RainingLetters.tsx:75-102 | writes the rendered cells, every shown symbol from the alphabet; before MaxEnd it requests a frame and advances exactly one frame; at MaxEnd it resolves once and requests nothing |
| Scramble.TextScramble.SetText | components/RainingLetters.tsx:55-73 | a new pass from the shown text to the new text, whose first update runs at frame 0; the superseded pass's frame is cancelled |
| Scramble.TextScramble.Frame | components/RainingLetters.tsx:99 | the requested frame runs one update; when it resolves, the element shows the new text |
| Quote.GetQuote | components/RainingLetters.tsx:105-116 | a failure gives the fallback; a list gives one of its members, or nothing when it is empty |
| Quote.EveryQuoteReachable | components/RainingLetters.tsx:111 | every quote of a non-empty list is picked by some draw |
| Quote.NextQuote | components/RainingLetters.tsx:129-132 | a picked non-empty quote replaces the shown one; any other outcome (an empty list, or an empty string picked) keeps the shown one; it only ever changes to the non-empty fallback or a list member |
| Glyphs.PerColumnIsThree | components/RainingLetters.tsx:199 | `Math.ceil(300 / 100)` is 3 |
| Glyphs.Spawn | components/RainingLetters.tsx:204-209 | glyph i of column col: a corpus character, x in [col - 1, col + 1), y in [i * 100/3, i * 100/3 + 5), speed in [0.1, 0.4) |
| Glyphs.Field | components/RainingLetters.tsx:200-215 | the fresh field has one glyph per draw |
| Glyphs.ColumnMajor | components/RainingLetters.tsx:202-204 | glyph i of column col is number col * 3 + i |
| Glyphs.CreateCharacters | components/RainingLetters.tsx:196-216 | the nested loops push 100 * 3 = 300 glyphs in column-major order, exactly `Field` |
| Glyphs.SpawnWellPlaced | components/RainingLetters.tsx:204-209 | every glyph made for a column below 100 and a row below 3 is well placed |
| Glyphs.FieldWellPlaced | components/RainingLetters.tsx:202-209 | every glyph of a fresh field is well placed (corpus character, speed in [0.1, 0.4), on screen up to the jitter) |
| Glyphs.Fall | components/RainingLetters.tsx:241-251 | speed kept; y < 100 moves down by speed with x and character kept; y >= 100 goes to y = -5 with x in [0, 100) and a corpus character |
| Glyphs.FallKeepsPlaced | components/RainingLetters.tsx:241-251 | a frame keeps a glyph well placed |
| Glyphs.SteadyFall | components/RainingLetters.tsx:243 | while above the bottom line a glyph keeps its speed and falls at least 0.1 per frame |
| Glyphs.RespawnWithin | components/RainingLetters.tsx:243-246 | every well-placed glyph reaches the bottom line within 1050 frames, so it respawns |
| Glyphs.UpdatePositions | components/RainingLetters.tsx:240-252 | the frame keeps the field's length |
| Glyphs.PositionsStep | components/RainingLetters.tsx:240-252 | the frame applies `Fall` to every glyph in place and keeps a well-placed field well placed |
| Glyphs.HighlightsSize | components/RainingLetters.tsx:224-228 | the set holds at least one index for at least one draw, and at most one per draw |
| Glyphs.HighlightsMembers | components/RainingLetters.tsx:227 | the set holds exactly the drawn indices, each below the field size (0 for an empty field) |
| Glyphs.ActiveCount | components/RainingLetters.tsx:225 | 3, 4 or 5 draws |
| Glyphs.UpdateActiveIndices | components/RainingLetters.tsx:223-230 | the loop builds exactly `Highlights`: 1 to 5 indices, each below the field size (0 for an empty field) |
| Glyphs.RainField.constructor | components/RainingLetters.tsx:193-194 | mounted, with no glyphs and nothing highlighted |
| Glyphs.RainField.Populate | components/RainingLetters.tsx:218-220 | the mount effect installs `Field`, keeping the field valid |
| Glyphs.RainField.Flicker | components/RainingLetters.tsx:232 | the interval replaces the highlighted set by `Highlights` (no accumulation) and keeps the glyphs |
| Glyphs.RainField.Tick | components/RainingLetters.tsx:239-254 | the animation frame replaces the field by `UpdatePositions`, keeping it valid |
| Glyphs.RainField.Unmount | components/RainingLetters.tsx:233-257 | the cleanups clear the interval and cancel the pending frame, so neither callback runs again; glyphs and highlights are kept |
| Pulse.Frequency | components/glitch-text.tsx:25 | the pause bound lies in [500, 2000] ms for intensities in [0, 10] |
| Pulse.FrequencyFalls | components/glitch-text.tsx:75 | a stronger intensity gives a strictly shorter pause bound, so equal bounds mean equal intensities |
| Pulse.Duration | components/glitch-text.tsx:26 | a glitch lasts between 50 and 50 + span ms for intensities in [0, 10] |
| Pulse.MaxOffset | components/glitch-text.tsx:27 | the largest shift is the ceiling of (intensity / 10) * reach, in [0, reach] on the 0-10 scale |
| Pulse.ScaledBelow | components/glitch-text.tsx:67 | a draw times f lies between 0 and f |
| Pulse.Delay | components/glitch-text.tsx:67 | a random delay lies in [0, frequency) |
| Pulse.DelayOnto | components/glitch-text.tsx:61 | every delay in [0, frequency) can be drawn |
| GlitchText.ParameterRanges | components/glitch-text.tsx:22-27 | frequency in [500, 2000], duration in [50, 200], largest offset in [0, 10] |
| GlitchText.Jitter | components/glitch-text.tsx:44-52 | an offset's x lies in [-maxOffset, maxOffset) and y in [-maxOffset/4, maxOffset/4), both 0 for maxOffset 0 |
| GlitchText.GlitchText.Layers | components/glitch-text.tsx:83 | the red and cyan layers exist exactly while glitching, with the two offsets |
| GlitchText.GlitchText.constructor | components/glitch-text.tsx:29-68 | disabled: rests with no timeout; enabled: the first trigger is pending after a delay below the frequency |
| GlitchText.GlitchText.Glitch | components/glitch-text.tsx:40-55 | glitching with two fresh offsets; the reset is pending after the duration |
| GlitchText.GlitchText.Settle | components/glitch-text.tsx:55-63 | resting with both offsets (0, 0); the next trigger is pending after a delay below the frequency |
| GlitchText.GlitchText.SetProps | components/glitch-text.tsx:70-75 | unchanged deps keep everything; disabled clears the timeout and rests; enabled replaces the timeout by a new first trigger |
| GlitchText.GlitchText.Unmount | components/glitch-text.tsx:70-74 | the cleanup clears the pending timeout |
| GlitchImage.ParameterRanges | components/glitch-image.tsx:29-35 | frequency in [500, 2000], duration in [50, 250], largest offset in [0, 15] |
| GlitchImage.TriggerParams | components/glitch-image.tsx:50-56 | offsetX in [-maxOffset, maxOffset), offsetY in [-maxOffset/2, maxOffset/2), both slices in [0, 100), hue an integer in [0, 359] |
| GlitchImage.GlitchImage.Overlay | components/glitch-image.tsx:91 | the RGB-split overlay exists exactly while glitching, with the parameters |
| GlitchImage.GlitchImage.constructor | components/glitch-image.tsx:37-70 | disabled: rests with no timeout; enabled: the first trigger is pending after a delay below the frequency |
| GlitchImage.GlitchImage.Glitch | components/glitch-image.tsx:46-59 | glitching with fresh parameters; the reset is pending after the duration |
| GlitchImage.GlitchImage.Settle | components/glitch-image.tsx:59-65 | stops glitching, leaves the parameters unchanged, and the next trigger is pending after a delay below the frequency |
| GlitchImage.GlitchImage.SetProps | components/glitch-image.tsx:72-77 | unchanged deps keep everything; disabled clears the timeout and rests; enabled replaces the timeout by a new first trigger |
| GlitchImage.GlitchImage.Unmount | components/glitch-image.tsx:72-76 | the cleanup clears the pending timeout |
| GlitchImage.Noise | components/glitch-image.tsx:150-156 | the noise image has the buffer's length |
| GlitchImage.NoisePixels | components/glitch-image.tsx:150-156 | each complete pixel has equal red, green and blue bytes, all 0 or all 255 by its coin, and alpha 255 |
| GlitchImage.NoiseFill | components/glitch-image.tsx:150-156 | the loop stepping by 4 leaves exactly the noise image in the buffer and writes nothing past its end |
| GlitchEffect.ParameterRanges | components/glitch-effects.tsx:19-24 | frequency in [500, 2000], duration in [50, 250] |
| GlitchEffect.LineCount | components/glitch-effects.tsx:93 | `Math.floor((intensity / 10) * 5)` lines, at most 5 on the 0-10 scale, none for a negative intensity |
| GlitchEffect.View | components/glitch-effects.tsx:64-93 | overlays exactly when enabled; resting: both clips `inset(50% 0 50% 0)`, no shift, no lines; glitching: clips in [0, 100)%, red shift in [-5, 5) px, `LineCount` lines |
| GlitchEffect.GlitchEffect.constructor | components/glitch-effects.tsx:26-50 | disabled: rests with no timeout; enabled: the first trigger is pending after a delay below the frequency |
| GlitchEffect.GlitchEffect.Glitch | components/glitch-effects.tsx:35-39 | glitching; the reset is pending after the duration |
| GlitchEffect.GlitchEffect.Settle | components/glitch-effects.tsx:39-45 | resting; the next trigger is pending after a delay below the frequency |
| GlitchEffect.GlitchEffect.SetProps | components/glitch-effects.tsx:52-57 | unchanged deps keep everything; disabled clears the timeout and rests; enabled replaces the timeout by a new first trigger |
| GlitchEffect.GlitchEffect.Unmount | components/glitch-effects.tsx:52-56 | the cleanup clears the pending timeout |
| ScreenGlitch.MaxDuration | components/ScreenGlitch.tsx:38 | the longest glitch lies in [120, 320] ms for intensities in [0, 10] |
| ScreenGlitch.GlitchLength | components/ScreenGlitch.tsx:54 | a glitch lasts between 50 ms and `maxDuration`, strictly below it when it exceeds 50 |
| ScreenGlitch.ScanCount | components/ScreenGlitch.tsx:57 | `Math.floor(3 + (intensity / 10) * 5)` scan lines, 3 to 8 on the 0-10 scale |
| ScreenGlitch.Line | components/ScreenGlitch.tsx:58-62 | top in [0, 100)%, height in [1, 4) px, shift in [-5, 5) px, opacity in [0.5, 1), delay in [0, 50) ms |
| ScreenGlitch.ScanLines | components/ScreenGlitch.tsx:57-63 | `ScanCount` scan lines, each in range |
| ScreenGlitch.ShakeRange | components/ScreenGlitch.tsx:69 | the shake lies in [-intensity/2, intensity/2) px |
| ScreenGlitch.MainStyles | components/ScreenGlitch.tsx:68-72 | a shift exactly when its coin exceeds 0.7, inside the shake range; a clip exactly when its coin exceeds 0.5, insets in [0, 30)%; always a filter with a hue in [0, 360) and saturation 1 + (intensity / 10) * 5 |
| ScreenGlitch.NextDelay | components/ScreenGlitch.tsx:44 | the next firing comes after 0.5 to 1.5 times the frequency |
| ScreenGlitch.SameDepsIffSameProps | components/ScreenGlitch.tsx:92 | the effect re-runs exactly when the intensity or the frequency changes |
| ScreenGlitch.ScreenGlitch.constructor | components/ScreenGlitch.tsx:41-50 | mounting schedules the first firing, with nothing glitching |
| ScreenGlitch.ScreenGlitch.Fire | components/ScreenGlitch.tsx:46-81 | one firing starts exactly one glitch, with scan lines, styles and its own ending timeout, then schedules the next firing |
| ScreenGlitch.ScreenGlitch.Stop | components/ScreenGlitch.tsx:78-80 | any pending ending timeout stops the glitch, including after an unmount; nothing else changes |
| ScreenGlitch.ScreenGlitch.SetProps | components/ScreenGlitch.tsx:86-92 | changed deps replace the pending firing by a new one from the new frequency; a glitch in progress and its ending timeout stay |
| ScreenGlitch.ScreenGlitch.Unmount | components/ScreenGlitch.tsx:87-91 | the cleanup clears the pending firing; the ending timeouts stay pending |

## Left out

- The `fetch` request and its JSON decoding are reduced to their outcome (`Quote.Response`), because they are network I/O. The effects that call `getQuote` and `setText` in turn are left out for the same reason: the 2500 ms re-fetch timer and the `mounted`/`quote` state of `ScrambledTitle`.
- `useSystemInfo` is left out: it reads browser `navigator` fields.
- The commented-out phrase cycle is left out: it is not code.
- components/Music.tsx and app/page.tsx are not part of this model. One is an audio element wrapper; the other draws the page's props and composes the components.
- JSX, CSS strings and class names are left out. So are the `dud` span markup and the canvas context calls (`getContext`, `clearRect`, `createImageData`, `putImageData`). These are rendering: the model keeps what is shown as values.
- `innerText`/`innerHTML` are reduced to the text and the per-cell display the animator writes. Characters are Dafny `char`s, not UTF-16 code units.
- Timers and animation frames are event methods. Their timing, ordering and the real `Math.random` generator are not modelled: any order of pending callbacks is allowed.
- Glyph positions and style numbers are exact reals. IEEE-754 rounding is not modelled.
- A React state update made after unmounting is a no-op in React. The model still records one: `ScreenGlitch.ScreenGlitch.Stop` clears `isGlitching` on an unmounted instance, which nothing renders any more.
- The default props are not modelled: `enabled = true`, `intensity = 5` and `frequency = 5000`. The constructors take these values as explicit arguments.
- The `TextScramble` fields are reduced:
  - The element `el` becomes the text it shows (`text`) and the per-cell display last written (`shown`). `text` is the concatenation of the cells' characters. The model does not capture two browser behaviours:
    - `innerHTML = output` parses raw `from`/`to` characters as HTML, so a text holding `<b` or `&amp;` is not shown as written.
    - `innerText` collapses runs of whitespace and trims the ends.

    So for such texts, `Scramble.ResolvedShowsNewText` describes the characters written, not what the browser shows or what the next pass reads back as its old text.
  - The `frameRequest` handle becomes a flag that says whether a frame is pending.
  - The `resolve` callback becomes a ghost count of its calls.
  - The constant `chars` becomes the module constant `Symbols`.
- Scramble.TextScramble.Update: the promise is reduced to a count of its `resolve` calls for the current pass.
- Glyphs.SteadyFall: it states a fall of at least 0.1 per frame, not the exact y + n * speed.
- GlitchText.GlitchText.Layers: the random `clipPath` insets drawn at every render are not modelled.
- GlitchImage.GlitchImage.Overlay: the scale class, the scan-line background and the canvas element are not modelled, because they are presentation only.
- GlitchEffect.View: the random `top` and `translateY` of each horizontal line are not modelled; only the number of lines is.
- ScreenGlitch.ScreenGlitch.Fire: the render-time randoms are not modelled (the RGB-split clips and the vertical tear with its coin). A draw the source skips after a losing coin is passed in and ignored.
