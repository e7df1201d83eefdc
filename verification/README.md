# Signature pen: a Dafny model

This project models the core of the `startDraw` signature pad (`src/main.ts`).
The pad is a canvas on which a mouse press starts a stroke, moves draw line
segments while the button is held, and a release ends the stroke. The model
covers four pure pieces of that class:

- **The pen state machine** (`Pen`). It holds the fields `canDraw`, `x` and `y`.
  The `mousedown` handler and the `move`, `up` and `keydown` listeners are
  transition functions. Each one returns the next state and the canvas
  commands it issues (`BeginPath`, `MoveTo`, `LineTo`, `Stroke`). `Run`
  delivers a sequence of events one at a time.
- **The canvas** (`Render`). It gives those commands the meaning of the path
  operations of the HTML Living Standard's canvas 2D context, with the path
  kept in logical coordinates. This makes it possible to state what a
  gesture actually paints.
- **Density-aware sizing in `init`** (`Sizing`, with `Css` for pixel-length
  strings). The backing store is the layout size times the device pixel
  ratio, and a matching scale is applied.
- **Configuration defaulting** (`Config`). The caller's keys are merged over
  `{lineWidth: 6, color: '#black'}`; `'#black'` is not a valid CSS colour.
- **Data-URL decoding** (`DataUrl`). This covers `dataURLtoBlob` and
  `dataURLtoFile` on `data:` URLs as described in RFC 2397. The URL is split on
  commas and the media type is taken with `/:(.*?);/`. The payload is decoded
  by `atob`, and the result is copied into bytes by a count-down loop. The
  `Blob` and `File` constructors store the media type lowered in ASCII, or as
  the empty string when it holds a character outside U+0020 to U+007E.

Events are delivered in order, one at a time, so the handlers are applied to an
event sequence. Pointer positions are `layerX`/`layerY` as given. The code
subtracts no offset and has no touch path. `atob` is a parameter of type
`string -> Option<BinaryString>`, where `None` stands for the exception it
throws. The layout width and height are natural numbers. The pixel ratio is a
natural number, with 0 standing for an absent or zero ratio.

The history array `stacks` is created and never written, and the undo shortcut
only logs a message. So the model has no history, no undo and no redraw.
Instead, `Pen.UndoShortcutIsInert` states that Ctrl+Z leaves the drawing as it
was.

## Model

| member | source | states |
|---|---|---|
| Pen.OnPress | src/main.ts:72-78 | A press always enters the drawing phase with the cursor at the pressed point, even while already drawing, and issues exactly `BeginPath, MoveTo(p)` |
| Pen.OnMove | src/main.ts:27-35 | A move never changes the phase. While drawing, it moves the cursor to the point and issues exactly `LineTo(p), Stroke`. While idle, it leaves the state unchanged and issues nothing |
| Pen.OnRelease | src/main.ts:36-38 | A release from either phase ends in the idle phase, keeps the cursor and issues nothing |
| Pen.OnKeyDown | src/main.ts:84-88 | The keydown listener neither changes the pen nor issues a canvas command |
| Pen.Handle | src/main.ts:72-80 | Each event moves the phase as the two-state table `Next` says (press draws, release stops, others keep the phase). An idle pen is left unchanged and issues nothing for every event except a press |
| Pen.Run | src/main.ts:72-80 | An idle pen that receives no press in a whole event sequence stays exactly as it was and issues no command |
| Pen.ReleaseIdempotent | src/main.ts:36-38 | Release changes only the drawing flag, and releasing twice is the same as releasing once |
| Pen.UndoShortcutIsInert | src/main.ts:83-88 | Ctrl+Z changes neither the pen nor the canvas, even in the middle of a stroke: undo is not implemented |
| Pen.MovesWhileDrawing | src/main.ts:27-35 | While drawing, a run of moves issues one `LineTo, Stroke` pair per point in order, and the cursor ends at the last point |
| Pen.GestureTrace | src/main.ts:27-80 | From any state, the events press(P0), move(P1..Pn), release and any further moves issue `BeginPath, MoveTo(P0)`, then `LineTo(Pi), Stroke` for i = 1..n. Nothing is issued after the release, and the pen ends idle at Pn |
| Pen.HandleKeepsCoupled | src/main.ts:27-78 | While drawing, the canvas path ends at the pen's cursor, and every event preserves this. So a move's segment runs from the previous point to the new one, extending only the last subpath, and its stroke paints the new path |
| Pen.RunKeepsCoupled | src/main.ts:27-80 | The pen/canvas coupling holds along every event sequence |
| Pen.FromInitial | src/main.ts:16-18 | From the initial state (not drawing) and a blank canvas, events without a press draw nothing, and the pen and canvas stay coupled along any events, so the placeholder starting position is never drawn from |
| Pen.GesturePaints | src/main.ts:27-80 | After a complete gesture on any canvas, the current path is the single polyline `P0..Pn`. The k-th move strokes the polyline `P0..Pk` |
| Pen.SegmentStep | src/main.ts:32-33 | A single `lineTo(p)` followed by `stroke()` extends the last subpath by `p` and paints the result |
| Pen.SegmentsExtend | src/main.ts:28-34 | Executing the segments for points `ps` on a non-empty path appends `ps` to its last subpath and strokes once per point |
| Render.Exec | src/main.ts:76-77 | beginPath empties the path, moveTo opens a subpath at its point, lineTo extends the last subpath by its point (or opens one at it on an empty path), and stroke paints the current path unchanged |
| Render.ExecAll | src/main.ts:32-33 | Executing commands only appends to what has been painted: one painted path per `stroke()` call, and earlier paintings are kept |
| Css.ParseInt | src/main.ts:43-44 | For a string with no leading blanks, sign or `0x` prefix, `parseInt` is NaN exactly when the string does not start with a digit; otherwise it is the value of the leading digits |
| Css.ParseIntOfPxLength | src/main.ts:42-44 | `parseInt` of a computed integer width such as "300px" gives back that width |
| Css.PxLengthRoundTrip | src/main.ts:51-52 | A computed width is a valid style length of the same size |
| Css.DoubledUnitRejected | src/main.ts:51-52 | A numeral followed by "pxpx" is not a valid pixel length |
| Sizing.Configure | src/main.ts:53-60 | A nonzero ratio d gives a backing store of `w*d` by `h*d` and applies scale `d`. Ratio 0 gives `w` by `h` and no scale |
| Sizing.Init | src/main.ts:50-60 | Corrected `init`: the same density branch, and the style strings read back as exactly `w` by `h` pixels whatever the ratio |
| Sizing.InitAsWritten | src/main.ts:50-60 | `init` as written: the same backing store and scale as the corrected one, but the style strings are `"<w>pxpx"` and `"<h>pxpx"` |
| Sizing.StyleAsWrittenRejected | src/main.ts:51-52 | As written, neither style string is a valid length, so neither assignment pins the display size |
| Sizing.StyleAsWrittenExample | src/main.ts:51-52 | As written, a 300-pixel-wide canvas is given the style width "300pxpx" |
| Sizing.DevicePointCoversBacking | src/main.ts:53-60 | For every ratio, a logical point lies on the `w` by `h` canvas exactly when the pixel the scale maps it to lies inside the backing store |
| Config.Merge | src/main.ts:21-25 | The merged keys are the caller's keys plus `lineWidth` and `color`. Caller values always win, `lineWidth` defaults to 6 and `color` defaults to `'#black'` |
| Config.MergeIdempotent | src/main.ts:21-25 | Merging an already merged config changes nothing, and merging an empty config gives the defaults |
| Config.MergeUnique | src/main.ts:21-25 | Any map that keeps the caller's values and otherwise the defaults equals the merge |
| DataUrl.Split | src/main.ts:107 | `split(',')` gives at least one piece, no piece contains a comma, and joining the pieces with commas gives back the input |
| DataUrl.SplitJoin | src/main.ts:107 | Splitting comma-free pieces joined with commas gives back those pieces |
| DataUrl.MatchFrom | src/main.ts:108 | The match found for `/:(.*?);/` is the leftmost colon that reaches a semicolon with no line terminator between, ending at the nearest such semicolon. No match is found exactly when no such pair exists |
| DataUrl.MediaType | src/main.ts:108 | `arr[0].match(/:(.*?);/)[1]`: None exactly when no colon reaches a semicolon on the same line; otherwise the text strictly between the leftmost such colon and the nearest semicolon after it |
| DataUrl.BlobType | src/main.ts:115 | The type the `Blob` and `File` constructors store: the empty string if any character lies outside U+0020 to U+007E, otherwise the same length with every character lowered in ASCII |
| DataUrl.MediaTypeOfPlainHeader | src/main.ts:108 | In a header without line terminators, the media type is the text between the first colon and the next semicolon after it |
| DataUrl.MediaTypeOfDataHeader | src/main.ts:108 | The header `data:<mime>;base64` has media type `<mime>` when `<mime>` has no semicolon or line terminator |
| DataUrl.MediaTypeOfPngHeader | src/main.ts:108 | The header "data:image/png;base64" has media type "image/png" |
| DataUrl.NoSemicolonNoMediaType | src/main.ts:108 | A header without a semicolon has no media type, so decoding it throws |
| DataUrl.MediaTypeMissingExamples | src/main.ts:108 | The headers "data:" (from `data:,x`) and "data:text/plain" (from `data:text/plain,x`) have no media type |
| DataUrl.NoCommaPayload | src/main.ts:107-109 | Without a comma the whole URL is the header, and `atob` receives "undefined" |
| DataUrl.NoCommaFails | src/main.ts:107-109 | A comma-free URL whose header has a media type fails with InvalidEncoding when `atob` rejects "undefined" |
| DataUrl.BlobTypeNormal | src/main.ts:115 | The type a `Blob` stores is printable ASCII without capitals, and storing it again changes nothing |
| DataUrl.BlobTypeLowersExample | src/main.ts:115 | A media type `Image/PNG` is stored as `image/png` |
| DataUrl.Decode | src/main.ts:106-116 | Decoding fails with NoMediaType exactly when the header has no media type. It fails with InvalidEncoding exactly when there is a media type and `atob` throws. Otherwise it yields that media type as a `Blob` stores it and one byte per decoded character, equal to its character code |
| DataUrl.CopyBytes | src/main.ts:110-114 | The count-down loop yields an array as long as the string, and byte i is character code i modulo 256 |
| DataUrl.DataUrlToBlob | src/main.ts:106-116 | `dataURLtoBlob` computes `Decode`, including both error cases |
| DataUrl.DataUrlToFile | src/main.ts:117-127 | `dataURLtoFile` succeeds or fails exactly as `dataURLtoBlob` does, with the same media type, the same bytes and the name `''` |
| DataUrl.DecodeEncoded | src/main.ts:94-96 | For a `data:<mime>;base64,<data>` URL such as `toDataURL` produces, decoding gives back `<mime>` as a `Blob` stores it and the bytes `atob` decodes from `<data>`, or InvalidEncoding when `atob` throws |

## Left out

- The history array `stacks`, undo, redraw and reset are not implemented in the source (src/main.ts:26, 84-88). The console message of the undo shortcut is output and is not modelled.
- Touch input and offset normalisation do not exist in the source. The event point is taken as given.
- `getComputedStyle`, `getContext` and the registration of listeners are DOM plumbing and are not modelled. The module-level bootstrap (src/main.ts:129-131) is left out for the same reason.
- `clear` (src/main.ts:90-93) is a single pass-through `clearRect` and is not modelled.
- The assignments of `lineWidth`, `strokeStyle`, `lineCap` and `lineJoin` in `init` (src/main.ts:61-64) depend on the canvas' own validation of those values, which is outside this model. A browser ignores `'#black'` as a colour, so strokes keep the default black.
- `getPNGImage`, `downloadPNGImage`, `URL.createObjectURL` and the anchor click are image encoding and I/O, and are not modelled.
- `atob` is a foreign decoder and is a parameter here, not a re-implementation of RFC 4648.
- The construction of `Blob` and `File` objects is reduced to a (stored type, bytes) record.
- DataUrl.Decode: the `Blob` is its stored `type` and bytes; its other properties (size, slicing, streams) are not modelled.
- DataUrl.DataUrlToFile: the `lastModified` stamp the `File` constructor takes from the clock is dropped.
- Css.ParsePxLength: only the plain form digits-then-`px` is recognised; other forms the `style.width` setter accepts (`300PX`, `300.5px`, `+300px`, `3e2px`) are outside this model. A numeral followed by `pxpx` is invalid in every form.
- Sizing.Configure: fractional pixel ratios, and the truncation applied when a fractional size is assigned to `canvas.width`, are not modelled. The ratio is a natural number.
- Css.ParseInt: `parseInt`'s skipping of leading blanks, its signs, its switch to base 16 on a `0x`/`0X` prefix and its rounding of results above 2^53 to doubles are not modelled; the model reads leading decimal digits only. The call in `init` only receives computed lengths such as "300px", which have none of these.
- Css.ParseIntOfPxLength: `parseInt`'s handling of leading blanks, signs and fractional widths is not modelled. Only integer computed widths are covered.
- Config.Merge: configuration values are integers or strings; fractional numbers are not modelled.
- DataUrl.NoCommaPayload: a URL without a comma hands `atob` the nine-character text "undefined", which a real base64 decoder rejects (its length is 1 modulo 4). With `atob` a parameter the model only shows the consequence for a decoder that rejects it (`DataUrl.NoCommaFails`).
- Pen.OnPress: before the first press `x` and `y` are `undefined`. The model starts them at 0, and no handler reads them before a press sets them.

## Findings

| source | as written | input that shows it | evidently intended | confidence | as-written member | corrected member |
|---|---|---|---|---|---|---|
| src/main.ts:51-52 | `` canvas.style.width = `${width}px` `` appends `px` to the computed width, which already ends in `px` | a 300-pixel-wide canvas: the width is "300px", so the assigned string is "300pxpx", which is not a length and is ignored | assign `` `${w}px` `` so that the display size stays `w` by `h` when the backing store is scaled | high; not executed | Sizing.InitAsWritten | Sizing.Init |
