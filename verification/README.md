# Bouncing-shape animation of GraphicsDemo, in Dafny

GraphicsDemo is a WinForms drawing and animation demo. This project models
the part of it with behaviour worth stating: the animated shapes and the
animation list of the main form.

- `animated_shape.dfy`, module `AnimatedShapes` (from `AnimatedShape.cs`):
  - the shape's fields as the value `ShapeState`;
  - the class `AnimatedShape`, whose `Move` updates the position and velocity fields in place;
  - the one-tick physics as the function `Moved`, built from the per-axis `Bounce`;
  - the randomised factory as the function `RandomShape`. Its random numbers are injected as a `Draws` record;
  - the triangle's three vertices;
  - the star's ten vertices, which `StarPoints` fills into an array in a loop.
- `main_form.dfy`, module `Forms` (from `MainForm.cs`):
  - the class `MainForm` holding the ordered, owning list `animatedShapes`;
  - the "add shape" button with its capacity of 20;
  - the timer tick, which moves every shape once in list order;
  - the reset to exactly five new shapes, and the "new" menu item that uses it;
  - the size of the drawing bitmap;
  - the localised-text lookup that falls back to the key;
  - the choice of image format from the file extension when saving.

The numeric fields are `float` in the program, but every value it stores in
them is a whole number: sizes 25..54, speeds ±1..3, integer panel sizes.
They are `int` here. The vertex coordinates use `real`, because they involve
`size / 2` and `size / 4`.

The random source is injected. A `Draws` value holds the nine raw numbers that one
`CreateRandom` call takes, in the order the code takes them. `Random.Next(lo, hi)` becomes
`lo + raw % (hi - lo)`, a value in `[lo, hi)`. `RandomShapeCovers` shows that every value
of the range can be drawn.

The scene invariant `MainForm.Valid` holds after every operation. It says:
- the shapes are distinct objects;
- there are at most 20 of them;
- each has a size in 25..54 and both velocity components in {±1, ±2, ±3}.

Notes on the code's behaviour:
- the start coordinate's upper bound `max(11, side - size - 10)` is exclusive, because `Random.Next(lo, hi)` never returns `hi`;
- the tick moves the shapes in list order;
- the position ends inside `[0, side - size]` only when the container is at least as large as the shape. Otherwise it ends at the negative value `side - size` (`BounceDegenerate`).

## Model

| member | source | states |
|---|---|---|
| `AnimatedShapes.AnimatedShape.constructor` | AnimatedShape.cs:127-138 | the new shape holds exactly the given position, size, velocity, colours and type |
| `AnimatedShapes.AnimatedShape.Move` | AnimatedShape.cs:201-228 | the fields after the call are `Moved` of the fields before: both coordinates advanced first, then each axis tested, bounced and clamped on its own |
| `AnimatedShapes.Bounce` | AnimatedShape.cs:208-227 | one axis of a step: the velocity is kept or negated, never otherwise changed; the coordinate ends in `[0, side - size]` when that interval is not empty, and at `side - size` when it is |
| `AnimatedShapes.Moved` | AnimatedShape.cs:201-228 | a step keeps size, both colours and the shape type, and keeps the magnitude of each velocity component |
| `AnimatedShapes.BounceInside` | AnimatedShape.cs:204-216 | if the container is at least as large as the shape, the new coordinate lies in `[0, side - size]` from any start, and equals the advanced coordinate clamped into that interval |
| `AnimatedShapes.BounceDegenerate` | AnimatedShape.cs:213-215 | if the container is smaller than the shape, the coordinate ends at the negative `side - size` and the velocity is negated |
| `AnimatedShapes.BounceFlips` | AnimatedShape.cs:208-211 | a nonzero velocity is negated exactly when the advanced coordinate is `<= 0` or `>= side - size`, and is kept exactly when it lies strictly between |
| `AnimatedShapes.MoveInside` | AnimatedShape.cs:201-228 | if the container is at least as large as the shape, after `Move` it lies inside the container on both axes |
| `AnimatedShapes.MoveAxesIndependent` | AnimatedShape.cs:208-227 | the new x and x-velocity depend only on x, x-velocity, size and width; the new y and y-velocity depend only on y, y-velocity, size and height |
| `AnimatedShapes.CornerDoubleBounce` | AnimatedShape.cs:204-227 | a shape at (0,0) with velocity (-1,-1) has both velocity components flipped after one call, in any container; in a container at least as large as the shape it also stays at (0,0) |
| `AnimatedShapes.MoveKeepsWellFormed` | AnimatedShape.cs:201-228 | a step keeps a factory size and speeds in {±1, ±2, ±3} |
| `AnimatedShapes.RunKeepsInvariant` | AnimatedShape.cs:201-228 | any number of ticks keeps a shape well formed; after one or more ticks in a container at least 55 on each side, the shape is inside it |
| `AnimatedShapes.NextInRange` | AnimatedShape.cs:165-182 | each injected draw yields a value in the half-open range that `Random.Next` is asked for |
| `AnimatedShapes.RandomShape` | AnimatedShape.cs:151-185 | the factory's result has size in 25..54, x in `[10, max(11, width - size - 10))`, y likewise, both velocity components in {±1, ±2, ±3} (never zero), and one of the six colour pairs |
| `AnimatedShapes.RandomShapeCovers` | AnimatedShape.cs:151-185 | every shape in that range is produced by some draws, so the range is exact |
| `AnimatedShapes.RandomShapeFits` | AnimatedShape.cs:173-174 | in a container at least 75 on each side, a new shape starts inside it with a margin of 10 on every side |
| `AnimatedShapes.AnimatedShape.CreateRandom` | AnimatedShape.cs:151-185 | returns a new object whose state is the factory's result for the given draws |
| `AnimatedShapes.TrianglePoints` | AnimatedShape.cs:313-318 | exactly three vertices, all inside the bounding square when the size is not negative |
| `AnimatedShapes.TriangleShape` | AnimatedShape.cs:313-318 | the apex is on the top edge, the two base vertices are on the bottom edge one side-length apart, and the apex is horizontally midway between them |
| `AnimatedShapes.StarVertices` | AnimatedShape.cs:332-348 | the star has exactly ten vertices |
| `AnimatedShapes.StarShape` | AnimatedShape.cs:332-348 | vertex i is at step i around the centre of the bounding square; even vertices have radius `size/2`; odd vertices have half that, `size/4`; no vertex is further from the centre than `size/2` |
| `AnimatedShapes.AnimatedShape.StarPoints` | AnimatedShape.cs:329-354 | the loop fills an array of length 10 with exactly the star vertices of the current state |
| `Forms.MoveAll` | MainForm.cs:554-560 | a tick keeps the list length, and element i afterwards is element i moved once with the same width and height |
| `Forms.MoveAllInside` | MainForm.cs:551-560 | after a tick, every shape no larger than the panel lies inside it |
| `Forms.MoveAllKeepsWellFormed` | MainForm.cs:551-560 | a tick keeps every shape well formed |
| `Forms.MainForm.constructor` | MainForm.cs:84 | the animation list starts empty |
| `Forms.MainForm.AddShape` | MainForm.cs:529-542 | a shape is appended exactly when the list held fewer than 20: the old shape objects stay in place, in order, and the new last element is a new object with the factory's state for the panel size; otherwise the list holds the same objects as before; the list never exceeds 20 |
| `Forms.MainForm.AnimationTick` | MainForm.cs:551-564 | the same shape objects, in the same order, each moved exactly once with the panel's width and height; the scene invariant holds afterwards; with a panel at least 55 on each side, every shape is inside it afterwards |
| `Forms.MainForm.InitializeAnimatedShapes` | MainForm.cs:208-231 | the list afterwards holds exactly 5 new shapes, created for the client size with each side raised to at least 100, all starting inside that area |
| `Forms.MainForm.NewDocument` | MainForm.cs:575-581 | the list afterwards holds exactly 5 new shapes from the factory |
| `Forms.DrawingBitmapSize` | MainForm.cs:164-202 | the bitmap is at least 10×10; when creating it succeeds, each side on its own is the client side when that is at least 10 and 10 when it is smaller, so it is never smaller than the client area; it is 100×100 when creating the bitmap fails |
| `Forms.LocalizedString` | MainForm.cs:840-851 | the stored text when the key is present; the key itself when the key is missing (null) or the resources cannot be loaded (exception) |
| `Forms.LocalizedStringSource` | MainForm.cs:840-851 | the lookup returns either the key or one of the stored texts, never anything else |
| `Forms.Extension` | MainForm.cs:623 | the extension is empty, or is a suffix of the path that starts with '.' and holds no further '.' and no separator |
| `Forms.ExtensionFrom` | MainForm.cs:623 | the backward scan of `Path.GetExtension` from a given index: its result is empty or an extension that is a suffix of the path |
| `Forms.ExtensionOfName` | MainForm.cs:623 | appending an extension to any name and then taking the extension gives back that extension |
| `Forms.NoExtensionAfterSeparator` | MainForm.cs:623 | a path that ends in a directory separator has no extension |
| `Forms.ToLowerChar` | MainForm.cs:623 | an upper-case ASCII letter becomes the lower-case letter at the same alphabet position; every other character is kept (non-ASCII capitals too, see Left out); the result is never an ASCII capital |
| `Forms.ToLower` | MainForm.cs:623 | lower-casing keeps the length, leaves no upper-case ASCII letter, and keeps every character that is not one |
| `Forms.ToLowerIdempotent` | MainForm.cs:623 | lower-casing a lower-cased string changes nothing |
| `Forms.ToLowerIgnoresCase` | MainForm.cs:623 | two strings that at each position hold the same character, or an ASCII capital and its small letter, lower-case to the same string |
| `Forms.FormatForExtension` | MainForm.cs:622-634 | Jpeg exactly for lower-cased ".jpg" or ".jpeg", Bmp exactly for lower-cased ".bmp", otherwise Png |
| `Forms.SaveFormatOfName` | MainForm.cs:621-634 | for a name ending in any extension, the format is Jpeg, Bmp or Png exactly as that extension's lower-case form says |
| `Forms.SaveFormatIgnoresCase` | MainForm.cs:623-634 | ".JPG" and ".Jpeg" select Jpeg, ".BMP" selects Bmp, ".png" selects Png, after any name |
| `Forms.SaveFormat` | MainForm.cs:621-634 | the whole save rule (extension, lower-casing, switch): a name without an extension is saved as Png; Jpeg exactly when the lower-cased extension is ".jpg" or ".jpeg"; Bmp exactly when it is ".bmp" |

## Left out

- Painting: the gradient brush, `FillEllipse`, `FillRectangle` and `FillPolygon`, the circle's highlight and the square's border (AnimatedShape.cs:245-300). These are drawing calls with no value to state. The dispatch on the shape type is not modelled.
- `StarPoints`: the Cartesian coordinates `centre + radius·(cos θ, −sin θ)` are floating-point trigonometry. A vertex is kept as its centre, radius and step i, where the angle is 90° + i·36°.
- IEEE `float` rounding is not modelled. Every stored value is a whole number, so `int` and `real` arithmetic are exact here.
- `RandomShape`: the model states the range of the result, not the uniform distribution of `Random`.
- The `X`, `Y`, `Size` and `Shape` property accessors are not modelled. Nothing in the animation reads or sets them.
- `DrawingBitmapSize`: the early return when the drawing panel is null (MainForm.cs:167) is not modelled. The designer code always creates the panel first. Disposing the previous bitmap and graphics object is not modelled either.
- `InitializeAnimatedShapes`: the early return when the panel is null is not modelled. The designer code always creates the panel before the method runs. The surrounding try/catch is not modelled either, because the factory cannot fail.
- `NewDocument`: the call to the drawing-canvas clear (`btnClear_Click`) is not modelled. It belongs to the freehand drawing surface.
- `AddShape`: the message box shown when the list is full is represented only by the result `added` being false.
- The timer's scheduling and the repaint request (`Invalidate`) are left out. A tick is one sequential call.
- `LocalizedString`: the resource manager's culture fallback chain is not modelled. The map stands for whatever it answers for the current culture.
- `Extension`: `Path.GetExtension` is modelled with '/' and '\\' as separators. Rejection of invalid path characters is not modelled.
- `ToLower`, `ToLowerChar`: only ASCII capitals are lowered. Non-ASCII capitals such as 'É' are kept, while the program's `ToLower()` lowers them with the culture's case mapping. No non-ASCII capital lowers to a letter of "jpg", "jpeg" or "bmp", so the chosen save format is the same.
- Left out entirely: freehand mouse drawing, the random rectangle/ellipse/line/text buttons, opening and writing image files, message boxes, language switching and `UpdateLocalizedTexts`, double buffering, copying the bitmap on resize, `GraphicsHelper.cs`, `MainForm.Designer.cs` and `Resources/Strings.Designer.cs`. These are GUI glue or foreign drawing calls with nothing to state beyond what is modelled.
