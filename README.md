# Certificate generator: viewport and template renderer

The application is a React editor for martial-arts course completion
certificates. A form edits a record (student, course start year and month,
course, coach, issue date, optional background image). The record is rendered
live in one of three templates (classic, traditional, modern) on a fixed
1122 x 794 pixel page. The page sits in a preview area that can be panned and
zoomed. The page can be exported as a single-page A4 landscape PDF.

This project models two parts of that program:

- **The editor state and its handlers** (`App.tsx`). The class
  `App.CertificateApp` has one field per React state variable: `transform`,
  `isDragging`, the `dragStart` anchor, `data`, `template` and the busy flag
  `isGeneratingPdf`. A `saved` field records the file names handed to the
  browser's save. Each handler is a method that updates only the fields it
  sets. The viewport handlers are specified by the pure state machine
  `Viewport.Step`, and the properties are proved about `Step` and its helpers:
  - the zoom clamp to [0.1, 3];
  - exact pan arithmetic;
  - the two-state drag;
  - fit-to-screen centring.
  Export is modelled by its skeleton only: the element guard, the busy flag
  around one pipeline step that may fail, the single save and the file name.
- **The template renderer** (`components/CertificatePreview.tsx`). It is a
  pure function `Preview.Render` from the record and the template tag to a
  `Document` of fixed size whose wrapper background is always white. Inside
  it the document holds an ordered stack of layers: the template's own base
  fill, custom background image, decorations, borders, and content. The
  content is reduced to the data slots it substitutes. The issue date is
  decomposed by an idealised `YYYY-MM-DD` parser.

Modules: `Wrappers` (Option), `Text` (decimal digits, JavaScript
number-to-text, `split`), `Types` (`types.ts`), `Preview`, `Viewport`,
`Export` and `App`.

Three points where the code's behaviour is easy to misread; the model follows the code:

- Fit-to-screen does not clamp its scale. The zoom range [0.1, 3] therefore
  holds only on the zoom paths. `Viewport.FitCanLeaveZoomRange` shows a
  container for which fit gives a scale below 0.1.
- An unparsable issue date shows `NaN` in the three date slots, not the raw
  string.
- Wheel and button zoom keep the offsets unchanged. This is zoom about the
  document's top-left corner (the CSS transform origin is `0 0`), not about
  the centre or the cursor.

## Model

| member | source | states |
|---|---|---|
| Types.TagOf | types.ts:1 | each layout has its own one of the three string tags `classic`, `traditional`, `modern` |
| Types.WithField | App.tsx:33-36 | a form edit replaces exactly the named field, leaves the other five and the background image unchanged |
| Text.Split | components/CertificatePreview.tsx:132 | `split('-')` yields at least one piece, no piece contains `-`, and joining the pieces with `-` gives back the input |
| Text.NatToString | components/CertificatePreview.tsx:88 | a number is written in shortest decimal: all digits, a leading zero only for 0, one digit exactly below 10 |
| Text.ValueOfNatToString | components/CertificatePreview.tsx:19-21 | reading back the written number gives the number |
| Text.NatToStringOfValue | components/CertificatePreview.tsx:132 | a digit string without a superfluous leading zero is the written form of its own value |
| Preview.ParseIsoDate | components/CertificatePreview.tsx:18-21 | an accepted issue date is a valid calendar date (month index below 12, day within the month) with a four-digit year |
| Preview.FormatThenParse | components/CertificatePreview.tsx:18 | every valid date written as `YYYY-MM-DD` parses back to itself |
| Preview.ParseThenFormat | components/CertificatePreview.tsx:18 | an accepted string is exactly the `YYYY-MM-DD` text of the date it parses to |
| Preview.DateSlotsFollowParse | components/CertificatePreview.tsx:18-21 | the year, month and day slots show the parsed year, `getMonth()+1` and day (and read back as those numbers); an unparsable date shows `NaN` in all three |
| Preview.EndMonthText | components/CertificatePreview.tsx:132 | the traditional end month never contains `-` |
| Preview.EndMonthIsRawMonthText | components/CertificatePreview.tsx:132 | for a valid date the end month is the raw `MM` text, the month slot is that number written without padding, and the two agree exactly when `MM` has no leading zero |
| Preview.SeptemberEndMonth | components/CertificatePreview.tsx:132 | for `2025-09-05` the end month is `09` and the month slot is `9` |
| Preview.YearText | components/CertificatePreview.tsx:18-19 | the year slot is `NaN` exactly when the date does not parse; otherwise it is digits without a superfluous leading zero that read back as the parsed year |
| Preview.MonthText | components/CertificatePreview.tsx:18-20 | the month slot is `NaN` exactly when the date does not parse; otherwise it is digits without a leading zero that read back as `getMonth()+1` |
| Preview.DayText | components/CertificatePreview.tsx:18-21 | the day slot is `NaN` exactly when the date does not parse; otherwise it is digits without a leading zero that read back as the day of the month |
| Preview.Variant | components/CertificatePreview.tsx:40-41 | the tag `modern` selects the modern layout and only it does; `traditional` likewise; every other tag, `classic` included, selects classic |
| Preview.VariantOfTag | components/CertificatePreview.tsx:158-159 | the tag of each of the three layouts selects that layout |
| Preview.FillColor | components/CertificatePreview.tsx:41-161 | each template has a non-empty page colour, and only the modern one is plain white |
| Preview.Decorations | components/CertificatePreview.tsx:47-168 | every template has at least one decoration layer, and all are decorations |
| Preview.Borders | components/CertificatePreview.tsx:56-173 | every template has at least two border layers, and all are borders (the traditional corner ornaments above its two frames) |
| Preview.DateSlots | components/CertificatePreview.tsx:18-214 | the date slots are year, month and day, in that order |
| Preview.ContentSlots | components/CertificatePreview.tsx:72-214 | the content has nine slots in the traditional template and eight otherwise, the student's name first and the three date slots last; an end-month slot only appears in the traditional template and holds `EndMonthText` |
| Preview.BaseFill | components/CertificatePreview.tsx:43-161 | the template's fill is one layer of its own colour, and is absent exactly when there is a custom background |
| Preview.CustomBackground | components/CertificatePreview.tsx:24-36 | the background image is one layer with the given source, and is present exactly when there is a custom background |
| Preview.PlainDecorations | components/CertificatePreview.tsx:47-168 | decorations are drawn exactly when there is no custom background |
| Preview.Layers | components/CertificatePreview.tsx:43-176 | the template's layer tree has its content on top and at least two borders below it; its bottom layer is the custom image when there is one and the template's fill otherwise (each part recovered exactly by selecting its kind, in `LayersAreFiveParts`) |
| Preview.Render | components/CertificatePreview.tsx:223-230 | every rendering, for every record and tag, is 1122 x 794 on the wrapper's white background |
| Preview.RenderIsStacked | components/CertificatePreview.tsx:43-176 | layers are painted fill, image, decorations, borders, content in that order; there is exactly one content layer, and it is on top |
| Preview.CustomBackgroundReplacesFillAndDecorations | components/CertificatePreview.tsx:24-169 | the wrapper's white is always there; with a non-empty background the only image layer is that image, at the bottom, and there is no template fill and no decoration; without one there is no image layer, the template's fill is its one fill layer, and decorations are present |
| Preview.BordersIndependentOfData | components/CertificatePreview.tsx:56-173 | the border layers (at least two) are the same for every record, with or without a background |
| Types.HasCustomBg | components/CertificatePreview.tsx:25-47 | an absent image and the empty string are falsy; a truthy image is a non-empty string |
| Preview.FieldsShownVerbatim | components/CertificatePreview.tsx:72-214 | every template shows student, start year, start month, course and coach verbatim, and the three issue-date slots |
| Preview.EndMonthOnlyInTraditional | components/CertificatePreview.tsx:131-132 | the traditional template has the end-month slot from the issue date; the other two have none |
| Preview.SampleIssueDate | components/CertificatePreview.tsx:150 | with issue date `2025-12-23` every template shows 2025, 12 and 23 in its date slots |
| Viewport.ToContainer | App.tsx:335-336 | a document point p is shown at p*scale + (x, y): the document origin sits at the offset, and at scale 1 every point is just shifted by it |
| Viewport.ClampScale | App.tsx:107 | `min(max(0.1, s), 3)` lies in [0.1, 3], is `s` inside that range, and is the nearer bound outside it |
| Viewport.AdjustZoom | App.tsx:105-110 | button zoom moves the scale by `delta`, clamped to [0.1, 3], and leaves the offsets unchanged |
| Viewport.WheelTransform | App.tsx:63-83 | with Ctrl or Meta the wheel zooms by `-deltaY*0.001` through the clamp; otherwise it subtracts the deltas from the offsets and keeps the scale |
| Viewport.Fit | App.tsx:40-59 | the fitted scale is the least of 1, `(W-80)/1122` and `(H-80)/794`, so at most 1 |
| Viewport.FitCentres | App.tsx:55-57 | after fit the left and right margins are equal, and so are the top and bottom |
| Viewport.FitStaysInsidePadding | App.tsx:47-57 | when the container is at least 80 x 80 the fitted document lies inside the 40-pixel padding |
| Viewport.FitCanLeaveZoomRange | App.tsx:53 | fitting a 100 x 100 container gives scale 20/1122, outside [0.1, 3] |
| Viewport.DragAnchor | App.tsx:90 | the anchor taken at a press is the one under which a move to the same point changes nothing |
| Viewport.Dragged | App.tsx:96-98 | a drag move keeps the scale and puts the document origin at the pointer less the anchor |
| Viewport.Step | App.tsx:40-110 | only zooms and fit change the scale; a zoom ends in [0.1, 3]; presses and releases leave the transform alone; only presses and releases touch the drag flag and anchor; a release ends the drag; a press starts one exactly when it is the primary button or one is already on |
| Viewport.StepKeepsZoomRange | App.tsx:63-110 | every handler except fit keeps a scale in [0.1, 3] inside it |
| Viewport.RunKeepsZoomRange | App.tsx:63-110 | any sequence of events without fit keeps a scale in [0.1, 3] inside it |
| Viewport.ZoomsClampScale | App.tsx:64-72 | after any non-empty sequence of wheel or button zooms the scale is in [0.1, 3], whatever it was before, and the offsets and drag state are unchanged |
| Viewport.ZoomKeepsOrigin | App.tsx:105-110 | a zoom keeps the document's top-left corner fixed on screen |
| Viewport.WheelPanShiftsDocument | App.tsx:80-82 | a wheel pan moves every document point on screen by minus the wheel deltas |
| Viewport.DragShiftsOffset | App.tsx:86-99 | a primary press at p then a move to p+(dx,dy) gives the press-time offset plus (dx,dy), keeps the scale, and leaves the drag on |
| Viewport.MovesFollowLastPointer | App.tsx:93-99 | while dragging, a sequence of moves sets the offset from the last pointer position and the anchor; the scale and the anchor are unchanged |
| Viewport.DragFollowsPointer | App.tsx:86-99 | after a primary press at p and any moves, the offset is the press-time offset plus the total pointer travel |
| Viewport.EndPanIsIdempotent | App.tsx:101-103 | mouse-up and mouse-leave both end the drag and change nothing else; they are idempotent and need no prior press |
| Viewport.IgnoredInputs | App.tsx:40-94 | a non-primary press, a move without a drag and a fit without a container change nothing |
| Viewport.Transition | App.tsx:339 | the transform is eased exactly when no drag is in progress |
| Export.FileName | App.tsx:137 | the file name is the student's name followed by `_结业证书.pdf` |
| Export.FileNameRoundTrip | App.tsx:137 | file names and student names correspond one to one |
| Export.SampleFileName | App.tsx:137 | the certificate for 张三 is saved as `张三_结业证书.pdf` |
| Export.Saves | App.tsx:136-140 | an export saves one file, named for the student, exactly when the pipeline succeeds, and nothing on failure |
| App.CertificateApp.constructor | App.tsx:11-26 | starts at offset (0, 0), scale 0.8, no drag, anchor (0, 0), the sample record, template classic, not busy |
| App.CertificateApp.CurrentPreview | App.tsx:343-348 | the preview is 1122 x 794 and shows the content of the selected template for the current record |
| App.CertificateApp.CurrentTransition | App.tsx:339 | the wrapper's transform is eased exactly when no drag is in progress |
| App.CertificateApp.HandleFitToScreen | App.tsx:40-61 | the viewport becomes `Step` of fit; without a container nothing changes |
| App.CertificateApp.HandleWheel | App.tsx:63-84 | the viewport becomes `Step` of the wheel event; only `transform` may change |
| App.CertificateApp.HandleMouseDown | App.tsx:86-91 | the viewport becomes `Step` of the press; only the drag flag and anchor may change |
| App.CertificateApp.HandleMouseMove | App.tsx:93-99 | the viewport becomes `Step` of the move; only `transform` may change |
| App.CertificateApp.HandleMouseUp | App.tsx:101-103 | the viewport becomes `Step` of mouse-up, which equals that of mouse-leave; only the drag flag changes |
| App.CertificateApp.AdjustZoom | App.tsx:105-110 | the viewport becomes `Step` of the button zoom; only `transform` may change |
| App.CertificateApp.HandleChange | App.tsx:33-36 | the record becomes `WithField` of the edit; nothing else changes |
| App.CertificateApp.SetTemplate | App.tsx:172-189 | the selected template becomes the clicked one |
| App.CertificateApp.CaptureAndSave | App.tsx:117-137 | runs only while busy; appends exactly the saves of `Saves` for the current student |
| App.CertificateApp.HandleDownloadPdf | App.tsx:114-144 | without an element nothing changes; otherwise busy is raised around the pipeline and is false afterwards, on success and on failure, and the saves are those of `Saves` |

## Left out

- The rasterising, PNG encoding, PDF composition and save are calls into html2canvas and jsPDF (App.tsx:118-137). They are one abstract step whose `PipelineResult` is a parameter; a failure names the stage that threw, and a failed save saves nothing. The 2x oversampling and the A4 page size are not modelled.
- `alert` and `console.error` on failure are output only and are not modelled.
- services/geminiService.ts (course-name suggestions from a remote model) is not part of this model.
- Preview.ParseIsoDate: accepts only `YYYY-MM-DD` with a real calendar day. It does not model the other strings JavaScript's `Date` accepts, a day-of-month rollover, or the local time zone shifting the displayed day.
- App.CertificateApp.HandleDownloadPdf: the asynchronous handler is one sequential step. The busy flag is raised before the pipeline and cleared after it within one call. The disabled button that blocks a second export while one is in flight is therefore not modelled separately.
- App.CertificateApp.HandleChange: takes one of the six field names the form binds. No input writes `customBgImage`, and nothing in App.tsx sets it.
- Event objects are replaced by the values the handlers read (button, client position, wheel deltas, modifier keys, container size). `preventDefault` is not modelled.
- JavaScript numbers are modelled as exact reals. IEEE rounding (for example of `deltaY * 0.001`) is not modelled.
- The mount effect that calls fit-to-screen, the `Math.round(scale*100)` percentage label, and React's render scheduling are not modelled. Each handler is a sequential state update.
- The preview component's own `scale` prop is not modelled. The application always passes 1, and `Render` draws at that size.
- CSS class strings, typography and the static Chinese prose of each template are not modelled. Layers keep only their kind and colours, and the content keeps only its data slots in reading order.
- The preview area's own white box behind the transformed wrapper (App.tsx:341) is not modelled separately; it has the same colour as the wrapper's background, which `Document.background` records. `FillKind` layers are the template's own fill only.
