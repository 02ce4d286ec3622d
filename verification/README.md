# ArUco grid generator: layout and pose core

A Dafny model of the geometric core of arucogridgen's `app.py`. The
program prints a grid of ArUco markers on an A4 or A3 sheet and reports
the rigid transform of that sheet for camera calibration. The model has
two parts:

- **Grid layout** (`generate_aruco_grid` without its drawing). It looks up
  the page in millimetres and computes the nominal grid footprint. It
  shrinks the grid uniformly when it does not fit, and never enlarges it.
  It truncates millimetres to whole pixels at 72 dpi (preview) or 300 dpi
  (print) and centres the grid with floor division. Finally it walks the
  cells row by row, giving each marker its id and its top-left pixel.
- **Pose transform** (`calculate_transformation` without the quaternion).
  The rotation is the user's Z-Y-X rotation applied after the fixed half
  turn about X. The translation is the vector (-w/2 - tx, h/2 - ty, -tz)
  for the page's width w and height h and the user's offset (tx, ty, tz).
  Together they form a 4x4 homogeneous matrix, and the translation is also
  returned in metres.

Files and modules:

- `paper.dfy` (`Paper`): the page table. The program keeps two copies of
  it, and the model has both.
- `placement.dfy` (`Placement`): the row-major placement of the markers,
  in whole pixels.
- `grid_layout.dfy` (`GridLayout`): requests, auto-scale, rasterisation,
  centring and the whole layout of a sheet.
- `matrix.dfy` (`Matrix`): 3-vectors, 3x3 and 4x4 matrices.
- `pose.dfy` (`Pose`): elemental rotations, the sheet's rotation and the
  assembled transform.
- `pose_examples.dfy` (`PoseExamples`): the transform of the default
  request, worked out entry by entry.

Millimetres are exact reals. Python's `int(x)` on a non-negative float is
`.Floor`, and `// 2` on an integer is Dafny's `/ 2`; the two agree because
the divisor is positive. An angle is given as its (cosine, sine) pair, so
every matrix entry is exact arithmetic.

`app.py` has no validation of its own. It reads every field with a
default and shrinks an oversized grid instead of failing, so it fails only
through exceptions raised by Python or by the libraries it calls (listed
under "Left out"). The model follows the code:
- there are no error results;
- the layout's arithmetic is meaningful only for at least one row and one
  column, a positive marker and a non-negative gap, so that is the
  `requires` of the layout functions (`GridLayout.Valid`).

## Model

| member | source | states |
|---|---|---|
| Paper.Dimensions | app.py:31-40 | A4 portrait is 210 x 297 mm and any other size in portrait is A3, 297 x 420 mm; the page is taller than wide exactly when the orientation is "portrait" |
| Paper.PoseDimensions | app.py:271-274 | the pose calculator's own page table gives the same page as the layout's table for every paper size and orientation |
| Paper.LandscapeIsTurnedPortrait | app.py:31-40 | any orientation other than "portrait" gives the portrait page of that size with its sides exchanged |
| Paper.UnknownSizeIsA3 | app.py:36-40 | every paper size other than "A4" is laid out exactly as A3 |
| Paper.PositiveSides | app.py:31-40 | every page has positive width and height |
| GridLayout.Footprint | app.py:43-44 | the extent of n markers with n - 1 gaps, plus one more gap, is n times one marker plus one gap |
| GridLayout.AutoScale | app.py:43-53 | the scale factor lies in (0, 1], so the grid is never enlarged, and the realised grid's width and height fit the page |
| GridLayout.FitKeepsNominal | app.py:47-48 | a grid whose nominal footprint fits both axes keeps scale 1, its requested marker and gap, and its nominal totals |
| GridLayout.OverflowShrinks | app.py:48-53 | a grid overflowing either axis gets scale min(page width / total width, page height / total height), strictly between 0 and 1, and meets the page exactly on the limiting axis |
| GridLayout.ScalesUniformly | app.py:48-53 | marker, gap and both totals are multiplied by the same factor, and the scaled totals are the footprint of the scaled marker and gap |
| GridLayout.ScaledFits | app.py:43-53 | the realised marker is positive, the realised gap non-negative, and the footprint rebuilt from them fits the page on both axes |
| GridLayout.ScaleShrinks | app.py:48-49 | for an overflowing extent, the smaller axis ratio is in (0, 1), keeps both axes inside the page and makes one of them meet it |
| GridLayout.Dpi | app.py:56 | the preview raster is 72 dpi and the print raster 300 dpi, so the resolution is below 300 exactly for the preview |
| GridLayout.ToPx | app.py:57-60 | a length in pixels is the largest whole number not exceeding millimetres times dpi / 25.4 |
| GridLayout.PixelGridFits | app.py:59-68 | n truncated markers with n - 1 truncated gaps never exceed the truncated page size when the millimetre grid fits the page |
| GridLayout.SpanOfFloors | app.py:63-64 | the span built from truncated marker and gap is non-negative and at most the truncated bound of a span that fits |
| GridLayout.Centre | app.py:74-75 | floor division by 2 of a non-negative leftover gives a non-negative margin m with 2 m <= leftover <= 2 m + 1 |
| GridLayout.Rasterise | app.py:56-75 | marker, gap and page sides are the truncations of their millimetre lengths at the given dpi; the pixel grid's width and height are the spans of cols and rows truncated markers with truncated gaps; the pixel grid is no wider or taller than the pixel page, and both centring offsets are non-negative |
| GridLayout.Compute | app.py:30-94 | the layout uses 72 dpi for the preview and 300 dpi for print and the auto-scaled grid on the table's page; its raster holds the truncations of that grid and page at that dpi and the spans built from them; the pixel grid fits the pixel page and both offsets are non-negative |
| GridLayout.Centred | app.py:74-75 | each offset is half the space left over, rounded down: 2 offset <= leftover <= 2 offset + 1 on both axes |
| GridLayout.RowMajorIds | app.py:78-94 | there are rows x cols placements, the i-th has id i and the realised marker size, and cell (r, c) has id r cols + c and top-left corner (offset x + c (marker + gap), offset y + r (marker + gap)) |
| GridLayout.MarkersInsidePage | app.py:88-92 | every marker square [x, x + size) x [y, y + size) lies inside the pixel page |
| GridLayout.MarkersDisjoint | app.py:88-92 | the squares of two different markers are apart on at least one axis, so they never overlap |
| GridLayout.FarEdgesCloseGrid | app.py:63-64 | the right edge of the last column is the left offset plus the grid's pixel width, and the bottom edge of the last row the top offset plus its pixel height |
| GridLayout.DefaultSheetPrint | app.py:17-22 | the default 5 x 7 grid of 30 mm markers 10 mm apart on A4 portrait is shrunk by 7/9; at 300 dpi it has 275 px markers, 91 px gaps and a 2471 x 1739 px grid at (4, 884) on a 2480 x 3507 px page, with 35 markers |
| GridLayout.DefaultSheetPreview | app.py:17-22 | the same grid at the 72 dpi preview has 66 px markers, 22 px gaps and a 594 x 418 px grid at (0, 211) on a 595 x 841 px page |
| Placement.Placements | app.py:78-94 | rows x cols placements; position i carries id i and the marker size; cell (r, c) sits at position r cols + c with its grid position |
| Placement.PlaceMarkers | app.py:78-94 | the nested loop with a running marker id builds exactly the row-major sequence |
| Placement.Span | app.py:63-64 | the pixel extent of n squares with n - 1 gaps, plus one more gap, is n times one square plus one gap |
| Placement.Cell | app.py:88-89 | the cell's id divided by cols gives back its row and the remainder its column; its corner is c steps of square plus gap right of the offset and r steps below it |
| Placement.IndexDivMod | app.py:79-80 | the running id of cell (r, c) is inside the grid, and division and remainder by cols give back r and c |
| Placement.IndexCovers | app.py:79-80 | every id in 0 .. rows cols - 1 is the running id of the cell named by its quotient and remainder |
| Placement.InsideGrid | app.py:88-89 | every square lies inside the grid's bounding box |
| Placement.Disjoint | app.py:88-89 | two different markers' squares never overlap |
| Placement.Neighbours | app.py:88-89 | neighbours in a row or a column are one marker plus one gap apart, aligned on the other axis |
| Placement.FarEdges | app.py:63-64 | the last column and the last row end exactly at the grid's pixel span |
| Matrix.MulAssoc | app.py:304-306 | the 3x3 product is associative |
| Matrix.OrthogonalCompose | app.py:304-306 | the product of two matrices with orthonormal columns has orthonormal columns |
| Matrix.TransposeMul | app.py:304-306 | the transpose of a product is the product of the transposes in reverse order |
| Matrix.MulApplies | app.py:304-306 | the matrix product is composition: applying A B to a vector is applying B, then A |
| Pose.FlipIsHalfTurn | app.py:279-280 | the fixed matrix diag(1, -1, -1) is the rotation by 180 degrees about X, and it is its own inverse |
| Pose.ElementalAxes | app.py:283-303 | Rx fixes the X axis and turns Y to (0, cos, sin); Ry fixes Y and turns Z to (sin, 0, cos); Rz fixes Z and turns X to (cos, sin, 0); each has determinant cos² + sin² |
| Pose.UserRotationIsEulerZYX | app.py:283-304 | the user rotation Rz Ry Rx is the Z-Y-X Euler matrix, entry by entry, in the cosines and sines of roll, pitch and yaw |
| Pose.Rotation | app.py:306 | applying the fixed flip keeps the first column of the user rotation and negates the other two |
| Pose.UserRotationRecovered | app.py:306 | flipping the sheet's rotation once more gives back the user rotation |
| Pose.ZeroAnglesGiveFlip | app.py:280-306 | with zero roll, pitch and yaw the sheet's rotation is diag(1, -1, -1) |
| Pose.ElementalAreRotations | app.py:283-303 | for an actual angle, each elemental matrix is orthonormal with determinant 1 |
| Pose.RotationIsProper | app.py:280-306 | for actual angles the sheet's rotation is orthonormal with determinant 1 |
| Pose.DetTimesRx | app.py:283-289 | right-multiplying by Rx scales the determinant by cos² + sin² |
| Pose.DetTimesRy | app.py:290-296 | right-multiplying by Ry scales the determinant by cos² + sin² |
| Pose.Translation | app.py:308 | the translation plus the user's offset is always (-w/2, h/2, 0) for the page's width w and height h |
| Pose.TranslationIsInvolution | app.py:308 | applying the translation map twice gives back the offset, so the offset is recoverable |
| Pose.Homogeneous | app.py:311-313 | the rotation and the translation are read back from the top-left block and the last column, and the bottom row is (0, 0, 0, 1) |
| Pose.HomogeneousOfBlocks | app.py:311-313 | conversely, every 4x4 matrix with bottom row (0, 0, 0, 1) is the homogeneous matrix of its own blocks |
| Pose.HomogeneousEntries | app.py:311-313 | entry (i, j) of the homogeneous matrix is r(i, j) in the block, t(i) in the last column, and the identity's entry in the bottom row |
| Pose.ToMetres | app.py:316 | each metric component times 1000 is the millimetre component |
| Pose.Assemble | app.py:270-316 | the rotation block is the given rotation; translation column plus offset is the page-fixed point of the layout's page table; the bottom row is (0, 0, 0, 1); the metric translation is the column scaled to metres |
| Pose.Calculate | app.py:264-316 | the rotation block of the returned matrix is the flipped user rotation Rz Ry Rx diag(1, -1, -1); translation column plus offset is (-w/2, h/2, 0) for the layout's page; the bottom row is (0, 0, 0, 1); the metric translation is the column scaled to metres |
| Pose.CalculateIsRigid | app.py:264-316 | for actual angles the returned matrix's rotation block is a proper rotation |
| PoseExamples.DefaultPose | app.py:265-316 | the default request (A4 portrait, no offset, no rotation) gives rotation diag(1, -1, -1), translation (-105, 148.5, 0) mm and (-0.105, 0.1485, 0) m |

## Left out

- The Flask routes, request parsing, `send_file` and the browser script: input and output plumbing only.
- The marker dictionary lookup and marker bitmaps from cv2: foreign calls. The model keeps each marker's id, position and size.
- All drawing and PDF output: id labels, scale ruler, parameter caption, coordinate-system glyph, preview border, font fallback and the reportlab page. These are decoration and packaging.
- The `dictionary`, `show_ids`, `show_scale` and `show_coordsys` fields: they only choose bitmaps or decorations.
- `math.radians`, `sin` and `cos`: each angle enters as its (cosine, sine) pair. `Pose.OnUnitCircle` states when such a pair is an actual angle.
- The quaternion returned by scipy's `Rotation.from_matrix(...).as_quat()`: a foreign floating-point routine. Its round trip back to the matrix is not modelled.
- IEEE floating-point rounding: millimetres are exact reals, and a float product near a whole number can truncate to a different pixel count in either direction:
  - an exact value just above a whole number can round down below it in floats, and the program then has one pixel fewer than the model;
  - an exact value just below a whole number can round up onto it in floats, and the program then has one pixel more than the model.
- Input checks: the program has none. Rows, columns and marker sizes are assumed valid (`GridLayout.Valid`), and the grid for zero or negative counts is not modelled.
- Failures by exception, which the model does not represent:
  - an unknown dictionary name makes `getattr` at app.py:28 raise;
  - rows or cols sent as null (the browser sends an empty number field as null) make the footprint arithmetic at app.py:43-44 raise, and a non-integer count makes `range` at app.py:79-80 raise;
  - more markers than the dictionary holds, or a pixel marker too small for cv2 to draw, make `generateImageMarker` at app.py:82-84 fail;
  - a `base_translation` or `base_rotation` that is not three values makes the unpacking at app.py:276-277 raise; a null angle makes `math.radians` at app.py:277 raise, and a null offset makes the subtraction at app.py:308 raise.
  The browser script only reports that the request failed. The model covers only requests that do not raise.
