# GLViewer scene model

A Dafny model of the core of the 3D-Modelling scene editor. That core is the
`GLViewer` widget in `gl_viewer.cc`. The model includes:

- **The scene store.** Five parallel lists: kind codes, translations,
  rotations, scales and colours. `createPlane` … `createWedge` append to all
  five. `removeObject` erases a row. The `receive*` slots overwrite one row of
  one list. `answerInfo` reports a row as twelve numbers.
- **The scene file (".vox").** `saveFile` writes five records, one per line.
  `loadFile` reads them back with its own split-based parser.
- **The camera's angle wrap.** A right-button drag lowers yaw and pitch by a
  step and adds or subtracts 2π at most once, which brings the angle back
  into [0, 2π] whenever the step is at most one whole turn.
- **The flat primitives.** The face tables `paintGL` draws for the plane, cube,
  pyramid and wedge, with their geometric facts.

Modules:

- `Wrappers`: `Option`.
- `Text`: how an `int` is written and read back (`QString::toInt`), and
  `QString::split`.
- `SceneStore`: the scene as a value and the pure form of each slot.
- `SceneFile`: the file as the lines `loadFile` reads, the records `saveFile`
  writes, the decoder, and the round-trip lemmas.
- `Camera`: the angle wrap.
- `Primitives`: the face tables and their geometry.
- `Viewer`: class `GLViewer`, whose fields are the source's member lists and
  camera angles. Its methods edit those fields in place. Beside it are the
  `saveFile`/`loadFile` loops as methods, each proved against the `SceneFile`
  function it computes.

What the code does, where it is easy to misread:

- **Angle range.** The comment at gl_viewer.cc:381 promises a rotation
  "between 0 and 360.0 degrees". The tests at gl_viewer.cc:383-386 are
  `< 0` and `> 2π`, so the range kept is [0, 2π] with both ends included
  (`Camera.Wrap`).
- **Loading into a non-empty scene.** The program's help text at viewer.cc:235
  asks for an empty scene before a load. The code does not enforce this. Kind
  codes are appended after the old ones. Each vector row read from the file is
  written at index i counted from 0, so the saved rows replace the first rows.
  The rows the load appends stay (0,0,0) unless a saved row lands on them
  (`SceneFile.Overlay`, `SceneFile.LoadIntoNonEmpty`,
  `SceneFile.LoadIsNotConcatenation`).
- **Index past the end.** The slots guard only against a negative index,
  which they ignore. An index at or past the end of a list is undefined
  behaviour, so here it is a precondition.
- **The class invariant.** It is that every row has three components
  (`GLViewer.Valid`). Create, remove and receive keep the five lists at equal
  length, but `loadFile` can break that with records of different lengths
  (`SceneFile.DecodeMayMisalign`).

Number text is abstract. `RealText(format, parse)` stands for `QTextStream <<
double` and `QString::toDouble`. The round trip needs two assumptions:
formatted numbers contain no `,`, `;` or newline, and every number the scene
holds is written exactly, so that `parse` gives it back (`ExactScene`). No
format is exact on every real; the program's writer is exact on 0, 1 and 0.8,
the numbers a new object holds, so every scene built only by creating objects
qualifies (`SceneFile.CreatedSurvivesSaveLoad`, `SceneFile.SampleRoundTrip`).

## Model

| member | source | states |
|---|---|---|
| Text.IntText | gl_viewer.cc:693 | an integer is written as at least one character; the text is all digits exactly when the integer is non-negative; a negative integer is a '-' followed by digits |
| Text.ParseInt | gl_viewer.cc:756 | the text reads as an integer exactly when it is a non-empty run of digits, optionally after one '+' or '-' |
| Text.ToInt | gl_viewer.cc:756 | toInt gives the value when it fits an `int`; 0 for text that is not an integer and for values out of range |
| Text.ToIntIntText | gl_viewer.cc:693 | a kind code written by saveFile reads back as the same code, for every 32-bit integer |
| Text.Split | gl_viewer.cc:743 | split keeps empty pieces: at least one piece, none holds the separator, and joining them with it gives back the line |
| Text.SplitTerminated | gl_viewer.cc:752-754 | a list written as piece-then-separator splits back into its pieces plus one empty piece, so dropping the last piece gives the list exactly |
| SceneStore.Kind.Code | gl_viewer.cc:433-557 | each create slot stores a kind code between 0 and 6 |
| SceneStore.Create | gl_viewer.cc:433-557 | a create appends exactly one element to each of the five lists (its code, position 0, rotation 0, scale 1, grey 0.8) and leaves the earlier rows alone; equal lengths and 3-component rows are kept |
| SceneStore.Remove | gl_viewer.cc:563-576 | with index >= 0 the element at index leaves all five lists, earlier rows stay, later rows move down one; a negative index changes nothing; equal lengths and 3-component rows are kept |
| SceneStore.Receive | gl_viewer.cc:579-631 | with index >= 0 only the first three components of row index of that one list change, to (x, y, z); other rows, other lists and the kinds are unchanged; a negative index changes nothing |
| SceneStore.Info | gl_viewer.cc:633-652 | the report has 12 numbers: translation, rotation, scale and colour, three each, in that order |
| SceneStore.RemoveUndoesCreate | gl_viewer.cc:563-576 | removing the object just created gives back the scene as it was |
| SceneStore.InfoOfCreated | gl_viewer.cc:436-443 | a new object reports (0,0,0, 0,0,0, 1,1,1, 0.8,0.8,0.8) |
| SceneStore.ReadAfterWrite | gl_viewer.cc:579-652 | after a receive, answerInfo reports the values just written in that attribute's slot and the old values in the other slots |
| SceneFile.ReadKinds | gl_viewer.cc:750-760 | line 0 gives one kind per ','-piece except the last, each read with toInt |
| SceneFile.Fill | gl_viewer.cc:774-778 | component j of the row becomes the j-th number read; components past the last number keep their value |
| SceneFile.ReadVectors | gl_viewer.cc:763-780 | a vector line is readable exactly when no group has more numbers than its row has components; the result has one appended row per group; group i fills row i counted from the start; rows past the groups are the padded rows |
| SceneFile.Overlay | gl_viewer.cc:766-778 | what loading saved rows into existing rows leaves: the list is longer by the number of saved rows; the saved rows come first; old rows past them stay; appended rows past them are (0,0,0) |
| SceneFile.Decode | gl_viewer.cc:739-837 | loadFile on top of a scene reads at most five lines. It fails exactly when a present vector line has a group too long for its row. Otherwise the old kinds stay in front and are followed by one kind per ','-piece of line 0; each vector list grows by one row per ';'-piece of its line; with no lines the scene is unchanged |
| SceneFile.ReadVectorsKeepsRows3 | gl_viewer.cc:766-778 | reading into rows of three components gives rows of three components |
| SceneFile.DecodeKeepsShape | gl_viewer.cc:740-837 | however the file reads, every row of the loaded scene still has three components |
| SceneFile.ReadKindsRecord | gl_viewer.cc:692-694 | the kinds record saveFile writes reads back as the same kind codes |
| SceneFile.RowRoundTrip | gl_viewer.cc:698-699 | one written group whose numbers are written exactly reads back into any row at least as long: the saved components in front, the rest of the row kept |
| SceneFile.ReadVectorsRecord | gl_viewer.cc:696-701 | a written vector record whose numbers are written exactly, read into existing rows, puts the saved rows at the front (Overlay), not after the old ones |
| SceneFile.LoadIntoNonEmpty | gl_viewer.cc:740-837 | loading a saved scene whose numbers are written exactly into a non-empty one appends the kinds, and each vector list becomes Overlay of the old rows and the saved ones |
| SceneFile.LoadIsNotConcatenation | gl_viewer.cc:766-778 | for a saved scene whose numbers are written exactly: when the first saved translate differs from the old first one, the load succeeds and the loaded translates are not the old ones followed by the saved ones; when the file has no more rows than the scene, every loaded object gets scale (0,0,0) |
| SceneFile.Encode | gl_viewer.cc:692-725 | saveFile writes five records; each is empty exactly when its list is; no record holds a newline when the numbers' text holds none |
| SceneFile.FileText | gl_viewer.cc:692-726 | the file has a newline after each of the first four records, so splitting it at newlines gives back exactly the five records |
| SceneFile.ReadLines | gl_viewer.cc:740-742 | an empty file gives no lines; no line holds a newline; joining the lines with newlines gives back the text, plus the final newline when the text ends in one, so a final newline ends the last line and adds no empty line |
| SceneFile.DecodeEncode | gl_viewer.cc:692-726 | round trip: the five records of a scene whose rows have three components and whose numbers are written exactly, read into an empty scene, give back that scene |
| SceneFile.ReadLinesFileText | gl_viewer.cc:692-726 | the saved file reads back line by line as the five records (four when the colour record is empty) |
| SceneFile.SaveThenLoad | gl_viewer.cc:685-845 | the file text saveFile writes for a scene whose numbers are written exactly, read by loadFile into an empty scene, gives back the scene |
| SceneFile.CreateKeepsExact | gl_viewer.cc:436-443 | when 0, 1 and 0.8 are written exactly, creating an object keeps every number of the scene written exactly |
| SceneFile.CreatedSurvivesSaveLoad | gl_viewer.cc:685-845 | under such a format, a scene with a newly created object comes back whole from save then load |
| SceneFile.SampleText | gl_viewer.cc:698-699 | a number text that writes no separator, is exact on 0, 1 and 0.8, and is not exact on 0.5: the round-trip assumptions can be met |
| SceneFile.SampleRoundTrip | gl_viewer.cc:685-845 | with that number text, a scene holding one freshly created object of any kind survives save then load |
| SceneFile.DecodeReadsFiveLines | gl_viewer.cc:740 | lines after the fifth are never read |
| SceneFile.ReadVectorsEmptyLine | gl_viewer.cc:763-764 | an empty vector line leaves the rows as they were |
| SceneFile.ReadIntoEmpty | gl_viewer.cc:766-778 | read into an empty list, each group of at most three numbers becomes a row of three, missing components 0 |
| SceneFile.DecodeMayMisalign | gl_viewer.cc:750-780 | a file with a kind but no vector records loads into a scene whose five lists have different lengths |
| SceneFile.OverlongGroupIsOutOfBounds | gl_viewer.cc:774-778 | a group of four numbers read into a fresh row writes past its end: the decoder reports None |
| Camera.Step | gl_viewer.cc:382 | with a positive speed a look step has the sign of the drag; at rotateSpeed 50, a drag of 7.2 viewports is one whole turn |
| Camera.Turn | gl_viewer.cc:382-386 | a look step lowers the angle by the step, up to one whole turn added or subtracted; if the lowered angle is already in [0, 2π] it is kept |
| Camera.Wrap | gl_viewer.cc:383-386 | the wrap moves an angle by one whole turn at most, leaves angles in [0, 2π] alone, and lands in range whenever the angle was at most one turn outside |
| Camera.TurnStaysInRange | gl_viewer.cc:382-392 | an angle in [0, 2π] stays in range after a look step of at most one turn |
| Camera.SmallDragSmallStep | gl_viewer.cc:382-388 | with rotateSpeed 50 a look step is at most one turn exactly when the drag is at most 7.2 viewport widths |
| Camera.SpinStaysInRange | gl_viewer.cc:382-392 | a sustained drag of any number of such steps never takes the angle out of [0, 2π] |
| Camera.FirstStepNormalisesPitch | gl_viewer.cc:24 | the initial pitch -π/6 starts outside [0, 2π]; the first look step of under eleven twelfths of a turn brings it in |
| Primitives.PlaneGeometry | gl_viewer.cc:115-124 | the plane is one flat quad in y = 0 inside the unit square, normal +Y |
| Primitives.CubeGeometry | gl_viewer.cc:127-177 | every cube face is flat, at distance 0.5 along an axis unit normal (n·v = 0.5 for all its vertices), inside [-0.5, 0.5]^3 with no corner beyond it; the solid is convex with outward normals |
| Primitives.CubeNormalsDistinct | gl_viewer.cc:127-177 | the six cube normals are six different directions |
| Primitives.WedgeGeometry | gl_viewer.cc:276-320 | the wedge's five faces are flat, inside the unit cube, no vertex beyond any face: convex with outward normals |
| Primitives.WedgeSlantOrthogonal | gl_viewer.cc:296-303 | the slant normal (-1, 1, 0) is perpendicular to every edge of the slant |
| Primitives.SharedFaces | gl_viewer.cc:235-294 | the pyramid, wedge and cube share the bottom quad; the wedge and cube share the right side |
| Primitives.PyramidSideNormalsTilted | gl_viewer.cc:245-271 | as drawn, the pyramid lies in the unit cube with its sides meeting at (0, 0.5, 0), but each side normal has dot product 0.75 with the edge to the apex, so no side is flat against its normal |
| Primitives.CorrectedPyramidGeometry | gl_viewer.cc:235-271 | with the corrected side normals (vertices unchanged) the pyramid is convex with every normal flat against its face and pointing out |
| Viewer.WriteKindRecord | gl_viewer.cc:692-694 | the first save loop writes exactly the kinds record |
| Viewer.WriteRow | gl_viewer.cc:698-699 | the inner save loop writes exactly one row's group |
| Viewer.WriteVectorRecord | gl_viewer.cc:696-701 | the nested save loops write exactly the vector record of a list |
| Viewer.WriteScene | gl_viewer.cc:692-726 | saveFile's body writes exactly the file text: the five records, a newline after each of the first four |
| Viewer.ReadKindRecord | gl_viewer.cc:750-760 | the line-0 loop appends exactly the kinds read from the line |
| Viewer.FillRow | gl_viewer.cc:774-778 | the inner load loop fills the row exactly as Fill says |
| Viewer.FillGroups | gl_viewer.cc:766-779 | the outer load loop leaves one more row per group, group i written into row i, the rest as padded |
| Viewer.ReadVectorRecord | gl_viewer.cc:763-780 | the loops of one vector line compute exactly what ReadVectors describes |
| Viewer.ReadScene | gl_viewer.cc:739-837 | the lineCount loop reads at most five lines, and the result is exactly the decoded scene; three-component rows are kept |
| Viewer.GLViewer.Valid | gl_viewer.cc:637-650 | the class invariant: every row has three components, so every index below the four list lengths has the three numbers answerInfo reads |
| Viewer.GLViewer.constructor | gl_viewer.cc:22-28 | the viewer starts with an empty scene, yaw π + π/4, pitch -π/6, rotateSpeed 50 |
| Viewer.GLViewer.Append | gl_viewer.cc:436-443 | pushes the default row onto each list: the new state is Create of the old one; the camera is unchanged |
| Viewer.GLViewer.CreatePlane | gl_viewer.cc:433-449 | the new scene is the old one with a plane created |
| Viewer.GLViewer.CreateCube | gl_viewer.cc:451-467 | the new scene is the old one with a cube created |
| Viewer.GLViewer.CreateSphere | gl_viewer.cc:469-485 | the new scene is the old one with a sphere created |
| Viewer.GLViewer.CreateCone | gl_viewer.cc:487-503 | the new scene is the old one with a cone created |
| Viewer.GLViewer.CreateCylinder | gl_viewer.cc:505-521 | the new scene is the old one with a cylinder created |
| Viewer.GLViewer.CreatePyramid | gl_viewer.cc:523-539 | the new scene is the old one with a pyramid created |
| Viewer.GLViewer.CreateWedge | gl_viewer.cc:541-557 | the new scene is the old one with a wedge created |
| Viewer.GLViewer.RemoveObject | gl_viewer.cc:563-576 | the erase in place leaves Remove of the old scene; the camera is unchanged |
| Viewer.GLViewer.ReceiveTranslation | gl_viewer.cc:579-590 | the element writes leave Receive of the old scene for translations |
| Viewer.GLViewer.ReceiveRotation | gl_viewer.cc:593-604 | the element writes leave Receive of the old scene for rotations |
| Viewer.GLViewer.ReceiveScale | gl_viewer.cc:607-618 | the element writes leave Receive of the old scene for scales |
| Viewer.GLViewer.ReceiveColor | gl_viewer.cc:620-631 | the element writes leave Receive of the old scene for colours |
| Viewer.GLViewer.AnswerInfo | gl_viewer.cc:633-652 | nothing is sent for a negative index; otherwise the 12 numbers of Info |
| Viewer.GLViewer.SaveFile | gl_viewer.cc:685-729 | the text written is the scene's file text |
| Viewer.GLViewer.LoadFile | gl_viewer.cc:732-845 | the lists become the decoded scene read on top of what they held; rows keep three components; the camera is unchanged |
| Viewer.GLViewer.MouseMove | gl_viewer.cc:378-400 | with the right button alone both angles take one look step and the in-place wrap, which keeps an in-range yaw in range; with other buttons the angles stay; the scene never changes |

## Left out

- Camera position: the dolly and pan branches of `mouseMoveEvent` (gl_viewer.cc:365-376 and 402-418), `camPosition`, `moveSpeed` and the basis vectors. These are floating-point updates along vectors computed with sine and cosine.
- `updateCameraRotation` (gl_viewer.cc:660-682): trigonometry.
- Viewer.GLViewer.MouseMove: models only the angle update. It leaves out the position changes of the other button combinations, the cursor recentring, the `changeCoords` signal and the redraw. The drag fractions `dx` and `dy` are parameters.
- Cursor handling in `mousePressEvent` and `mouseReleaseEvent`: input layer.
- Drawing:
  - the floor grid;
  - the per-object transforms (gl_viewer.cc:103-110);
  - the sphere, cone and cylinder (gl_viewer.cc:179-233), which are GLU library calls and sine/cosine fans;
  - `initializeGL` and `resizeGL`.
- Signals: `addToList`, `sendInfo` (modelled as `AnswerInfo`'s result) and `updateGL`. They are Qt signal plumbing.
- File handles: `QFile`, its open failure, `ReadWrite` without truncation (which can leave stale bytes), and flushing. These are I/O. The file is the text `saveFile` writes, or the lines `loadFile` reads.
- Number formatting and parsing of doubles: `RealText` stands for them. Rows, the yaw and pitch angles and the look step are `real`, not IEEE doubles; π is M_PI to 16 significant digits. Rounding is left out.
- SceneFile.DecodeEncode and SceneFile.SaveThenLoad: hold only for scenes whose every number the writer renders exactly, so that reading its text gives it back. `QTextStream << double` does that for 0, 1 and 0.8, so every freshly created scene qualifies, but not for every number. By default `QTextStream << double` writes six significant digits, so save then load loses precision beyond that. For example, a colour component of 128/255 is saved as "0.501961".
- `Text.ToInt`: models base-10 digits with an optional sign. It leaves out `QString::toInt`'s tolerance of surrounding whitespace.
- `SceneFile.ReadLines`: splits at '\n' only. It leaves out the stripping of a "\r\n" line ending.
- Viewer.GLViewer.LoadFile: requires that no group has more numbers than its row has components. The source writes such a group out of bounds (undefined behaviour). The decoder reports that case as None (`SceneFile.OverlongGroupIsOutOfBounds`).
- `printInfo` and everything in viewer.cc: debug output and user-interface wiring.

## Findings

| source | as written | input that shows it | evidently intended | confidence | as-written member | corrected member |
|---|---|---|---|---|---|---|
| gl_viewer.cc:246-271 | the four pyramid side normals are (±0.5, 1, 0) and (0, 1, ±0.5) | side (0.5,-0.5,-0.5), (0.5,-0.5,0.5), (0,0.5,0) with normal (0.5,1,0): dot with the edge to the apex is 0.75, not 0 | normals perpendicular to the sides: (±1, 0.5, 0) and (0, 0.5, ±1) | not executed; high, lighting of the sides uses these normals | Primitives.PyramidSideNormalsTilted | Primitives.CorrectedPyramidGeometry |
