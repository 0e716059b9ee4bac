# Ocean sketch: image store, page-to-scene placement and frame step

The `Sketch` class of the ocean gallery turns the page's `<img>` elements into
planes of a WebGL scene laid out like the page. For each tracked element it
keeps a record in an image store. The record holds the element, its mesh and the
element's bounding rect (`top`, `left`, `width`, `height`). Repositioning moves
every mesh from page coordinates to scene coordinates with one affine formula.
Page coordinates have their origin at the top-left corner and y pointing down.
Scene coordinates have their origin at the viewport centre and y pointing up.
The class also keeps the viewport size, which a resize updates. Its frame step
advances a time counter by 0.05 and derives the rotation and the shader `time`
of a spinning plane from it.

The model has two modules.

- `Layout` (`layout.dfy`) holds what is pure. It defines the records and the
  store built from the elements (`Records`). It defines the placement formula
  (`Place`) and the repositioned store (`Positioned`). The lemmas state what
  placement means: a rect's centre is carried into the scene, the origin is
  the viewport centre, vertical order flips, repositioning is idempotent, and
  a new viewport size shifts every mesh.
- `App` (`sketch.dfy`) holds the `Sketch` class. Its fields are `time`,
  `width`, `height`, `images`, `imageStore`, the plane's `rotation` and its
  `uniformTime`. A ghost field `frames` counts rendered frames. `Valid()`
  ties `time` to that count. Each method names in its `modifies` clause
  exactly the fields the source method writes, so every other field is
  unchanged by frame. `SetPosition` updates the store record by record in a
  loop, as the source's `forEach` does, and is proved equal to `Positioned`.

All numbers are exact reals.

Two consequences of the code are worth stating:

- The placement formula has no scroll term (assets/js/app.js:69-70).
- `resize` does not call `setPosition`, so the meshes keep the placement made
  for the previous viewport size until `setPosition` runs again
  (assets/js/app.js:59-65; `PlacementDependsOnViewport`).

## Model

| member | source | states |
|---|---|---|
| `Layout.Records` | assets/js/app.js:74-100 | the store has exactly one record per element, in the elements' order; record k holds element k, a mesh at the origin, and element k's bounding-rect top, left, width and height |
| `Layout.Place` | assets/js/app.js:69-70 | a mesh goes to the centre of its record's rect carried into the scene (origin at the viewport centre, y flipped); carrying the position back to the page gives that centre |
| `Layout.Positioned` | assets/js/app.js:67-72 | repositioning keeps the store's length and order and every record's element and layout; only each mesh changes, to x = left - W/2 + width/2 and y = -top + H/2 - height/2 |
| `Layout.PageSceneRoundTrip` | assets/js/app.js:69-70 | the page-to-scene map and the scene-to-page map are mutual inverses: both compositions are the identity |
| `Layout.PlaceAtOriginIffCentred` | assets/js/app.js:69-70 | a mesh lands on the scene origin if and only if its rect's centre is the viewport's centre |
| `Layout.PlaceOrdering` | assets/js/app.js:69-70 | placement keeps left-to-right order of rect centres and reverses top-to-bottom order (y points up in the scene) |
| `Layout.PositionedIdempotent` | assets/js/app.js:67-72 | repositioning twice for the same viewport gives the same store as repositioning once |
| `Layout.PositionedForgetsMeshes` | assets/js/app.js:67-72 | the repositioned store depends only on the layouts and the viewport, not on where the meshes were before |
| `Layout.ViewportShift` | assets/js/app.js:69-70 | placing for a viewport of width W' and height H' instead of W and H moves every mesh by -(W'-W)/2 in x and +(H'-H)/2 in y |
| `Layout.PlacementDependsOnViewport` | assets/js/app.js:59-72 | for a non-empty store, placements for two viewports of different size differ, so positions placed before a resize are stale after it |
| `Layout.CornerExample` | assets/js/app.js:69-70 | a 100 by 50 rect at the top-left corner of an 800 by 600 viewport is placed at (-350, 275) |
| `Layout.ThreeImageExample` | assets/js/app.js:67-100 | three elements at (top, left, width, height) (0,0,100,50), (200,50,80,80), (500,0,100,100) in an 800 by 600 viewport end up at (-350, 275), (-310, 60), (-350, -250) |
| `App.TimeAfterIsLinear` | assets/js/app.js:121-122 | after n frames from construction, the accumulated time is exactly n * 0.05 |
| `App.TimeAfterIncreasing` | assets/js/app.js:121-122 | time strictly grows with the frame count, by 0.05 per frame |
| `App.RotationAt` | assets/js/app.js:124-125 | the derived y rotation is twice the x rotation, and time is recovered as 1000 times the y rotation |
| `App.Sketch.constructor` | assets/js/app.js:12-32 | time starts at 0, the viewport is the container's size, the elements are collected in order, the store is empty |
| `App.Sketch.Start` | assets/js/app.js:44-50 | after loading: the store is the elements' records placed for the current viewport, one frame has run, time is 0.05, and rotation and uniform time are derived from it |
| `App.Sketch.Resize` | assets/js/app.js:59-65 | width and height become the container's new size; nothing else changes, in particular no mesh moves |
| `App.Sketch.SetPosition` | assets/js/app.js:67-72 | the store becomes the old store repositioned for the current width and height; no other field changes |
| `App.Sketch.AddImages` | assets/js/app.js:74-100 | the store becomes the records of the tracked elements; no other field changes |
| `App.Sketch.AddObjects` | assets/js/app.js:102-119 | the spinning plane starts unrotated with its material's time at 0 |
| `App.Sketch.Render` | assets/js/app.js:121-131 | time grows by exactly 0.05 and the frame count by 1; the rotation becomes (time/2000, time/1000) and the uniform time becomes time; nothing else changes |
| `App.StartUpScenario` | assets/js/app.js:134-136 | the three-image page, started in an 800 by 600 container, resized and rendered once more, has time 2 * 0.05, width 1000, and its second mesh still at (-310, 60) |

## Left out

- All three.js objects (scene, camera, renderer, geometries, textures, materials, orbit controls): a mesh is reduced to its (x, y) position, and `scene.add` is not modelled.
- The camera's field of view and aspect ratio: computed in the sketch with `Math.atan` and floating-point division, and used only by the library's camera.
- The geometry size taken from `img.width` and `img.height`: it only goes to the library; placement uses the stored bounds.
- DOM access (`querySelectorAll`, `getBoundingClientRect`, `offsetWidth`, `offsetHeight`): these become the constructor's and `Resize`'s parameters and the elements' `bounds`.
- Font and image preloading (`FontFaceObserver`, `imagesLoaded`, `Promise.all`): asynchronous I/O. `Start` models what runs once they complete.
- Event binding and the `requestAnimationFrame` rescheduling: `Render` is one frame.
- The GLSL shaders: their text is not part of this model.
- IEEE-754 rounding of the `+= 0.05` accumulation and of the pixel arithmetic: all numbers are exact reals.
- Aliasing of mesh objects: records hold mesh positions as values, so the model does not capture that the scene and the store share one mesh object.
- The spinning plane and its material exist in the source only once `addObjects` has run; the model gives `rotation` and `uniformTime` the values `addObjects` sets (0) already at construction, and `AddObjects` sets them again before the first frame.
- Before `addImages` runs the source's store is undefined, so repositioning would throw; the model starts with an empty store, on which `SetPosition` does nothing.
- The top-level `app.js`: an earlier draft that spins a cube. Its only logic is the same time step and rotation.
