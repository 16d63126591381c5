# Escape-time fractal viewer: a Dafny model

This project models the computational core of a small interactive viewer for
the Mandelbrot and Julia sets, which exists twice in the repository, as
`project.cpp` (C++ over GLFW and OpenGL) and `project.py` (Python over the same
libraries). Both files implement the same logic, and one model covers both:

- **The view state.** Three globals hold the zoom (initially 1) and the pan
  offset (initially 0, 0). An affine map takes a pixel of a `width x height`
  frame to a point of the complex plane. The real axis is scaled by 1.5 and the
  imaginary axis by 1, both divided by `0.5 * zoom * dimension`. The frame
  centre lands on the offset.
- **The scroll handler.** It maps the cursor to an anchor point with the old
  view. It multiplies the zoom by 1.1 for a positive wheel offset and divides it
  by 1.1 otherwise. It then moves each offset to
  `anchor - (anchor - offset) * (zoom / (zoom / 1.1))`. The ratio in that
  formula is the constant 1.1 whichever way the wheel turned. The model keeps
  the formula as written and proves what follows from it, in pixel
  coordinates. After a zoom-out, the cursor's pixel coordinates map to the
  anchor again (`View.ZoomOutKeepsCursorPoint`). After a zoom-in, they map to a
  point 21/110 of the anchor-to-offset vector away from the anchor, unless the
  cursor is at the frame centre (`View.ZoomInShiftsCursorPoint`). These are
  statements about the pixel map, not about what appears under the mouse on
  screen (see "Left out").
- **The escape-time evaluator.** A bounded loop runs `z := z*z + c` while
  `|z| <= 2` and fewer than `max_iterations` steps were taken. Mandelbrot mode
  starts at `z = 0` with `c` the pixel's point. Julia mode starts at the pixel's
  point with a fixed `c`, which defaults to `-0.7 + 0.27015i`. The count becomes
  the grey level `iteration / max_iterations`.

Modelling choices:

- `double` is modelled as `real`.
- Complex numbers are the datatype `Plane.Complex`. `|z| <= 2` is written as
  `re*re + im*im <= 4`, which is the same test over the reals and needs no
  square root.
- The loop is the method `Escape.Iterate`. It is proved equal to the recursive
  specification `Escape.EscapeCount`. That specification is in turn
  characterised as "the first step at which the orbit leaves the disk, capped
  at the budget".
- The globals become the class `View.Viewport`, whose invariant is `zoom > 0`.
  The cursor position and the framebuffer size, which the source asks GLFW for,
  become parameters of `Scroll`.
- The pixel loops write each grey level into a `width x height` array. The
  source passes it to `glColor3f` instead.
- The default arguments of the draw functions (`max_iterations = 100`,
  `c = -0.7 + 0.27015i`) are the default parameter values
  `Render.DefaultMaxIterations` and `Render.DefaultJuliaConstant`.

Edge cases, modelled as the code handles them:

- `max_iterations` is an unconstrained integer. A bound of zero or less gives
  a count of 0.
- A centred cursor leaves the offsets unchanged for every offset, not only for
  a zero offset.
- The division by zero that a zero `max_iterations` or a zero-size frame
  causes is described under "Left out", member by member.

## Model

| member | source | states |
|---|---|---|
| Escape.EscapeCount | project.cpp:17-21 | the number of steps the escape loop takes never exceeds `max_iterations`, and is 0 when the bound is zero or negative |
| Escape.EscapeCountIsFirstExit | project.cpp:18 | every orbit point before the count lies in the disk of radius 2; if the count is below the bound, the point reached lies outside it (escape versus exhaustion) |
| Escape.EscapeCountIsUnique | project.py:19-21 | any count within the bound that has the two first-exit properties equals `EscapeCount`, so those properties define the count |
| Escape.Iterate | project.cpp:17-21 | the `while` loop terminates; its count equals `EscapeCount`, lies in `0..max_iterations`, and its final `z` is the orbit point at that count; stopping early means `|z|^2 > 4`, and `|z|^2 <= 4` at exit means the bound was reached |
| Escape.Color | project.cpp:22 | the grey level lies in [0,1] for any count the loop can return; it is 0 exactly for count 0 and 1 exactly for count `max_iterations` |
| Escape.ColorIsMonotone | project.py:22 | for a positive bound, a larger count never gives a darker grey level |
| Escape.MandelbrotCountsAtLeastOne | project.cpp:15-21 | in Mandelbrot mode (z starts at 0) with a bound of at least 1, the count is at least 1 |
| Escape.FixedPointNeverEscapes | project.cpp:38-41 | a start point inside the disk that the recurrence leaves fixed runs the loop to the bound |
| Escape.OriginNeverEscapes | project.py:16-22 | Mandelbrot mode with c = 0 runs the loop to the bound, and the pixel gets grey level 1.0 |
| Escape.MandelbrotFarPointEscapesAtOnce | project.py:16-21 | in Mandelbrot mode, any c with `|c|^2 > 4` gives count 1 for a bound of at least 1 |
| Escape.JuliaOutsidePointIsBlack | project.cpp:36-42 | in Julia mode, a start point with `|z|^2 > 4` gives count 0 and grey level 0.0 |
| View.MapPixel | project.cpp:13-14 | the pixel-to-plane map can be undone: the pixel is recovered from the point, the offset and the zoom, so distinct pixels give distinct points |
| View.CentreMapsToOffset | project.py:14-15 | the pixel (width/2, height/2) maps exactly to (offset_x, offset_y) |
| View.MapPixelStep | project.cpp:34-35 | one pixel to the right adds `3/(zoom*width)` to the real part; one pixel down adds `2/(zoom*height)` to the imaginary part |
| View.MapPixelIsIncreasing | project.py:31-32 | for zoom > 0 the map is strictly increasing in x (real part) and in y (imaginary part) |
| View.ZoomAfter | project.cpp:60-64 | the zoom stays positive, and it grows exactly when the wheel offset is positive (zero counts as zooming out) |
| View.ZoomInOutRestores | project.py:53-56 | zooming in then out, or out then in, restores the zoom exactly |
| View.OffsetRatioIsConstant | project.cpp:67-68 | the ratio `zoom / (zoom / 1.1)` is 1.1 for every non-zero zoom, so it is the same in both scroll directions |
| View.ScrolledOffset | project.py:59-60 | the new offset is `anchor - (anchor - offset) * 1.1`, and it equals the old offset exactly when the anchor is the old offset |
| View.CentredScrollKeepsOffsets | project.cpp:57-68 | with the cursor at the frame centre, a scroll in either direction leaves both offsets unchanged |
| View.ZoomOutKeepsCursorPoint | project.py:50-60 | after a zoom-out, the cursor pixel maps to the same point as before |
| View.ZoomInShiftsCursorPoint | project.cpp:57-68 | after a zoom-in, the cursor pixel maps to `anchor - (anchor - offset) * 21/110` on each axis; this is the old point exactly when the cursor is at the frame centre |
| View.Viewport.constructor | project.cpp:5-7 | the initial view is zoom 1.0 and offset (0.0, 0.0), and it satisfies `zoom > 0` |
| View.Viewport.Scroll | project.py:43-60 | the handler keeps `zoom > 0`; the new zoom is `ZoomAfter(old zoom, yoffset)`; each new offset is `ScrolledOffset(anchor, old offset, new zoom)`, that is `anchor - (anchor - old offset) * 1.1`, where `anchor` is the cursor mapped with the old view; a zero-size frame leaves the state unchanged |
| Render.DrawMandelbrot | project.cpp:9-28 | every pixel of the `width x height` frame holds the grey level of its point, taken as c with z starting at 0, and that level lies in [0,1] |
| Render.DrawJulia | project.py:27-41 | every pixel of the frame holds the grey level of its point, taken as the starting z with the fixed constant c, and that level lies in [0,1] |

## Left out

- Window creation, the render loop, event polling and buffer swapping (`main`, project.cpp:71-110, project.py:62-100) are library lifecycle and I/O. The two window sizes (1024x786 and 1920x1080) and the choice of set that `main` draws are part of this.
- The OpenGL calls (`glBegin`, `glColor3f`, `glVertex2f`, `glOrtho`, `glEnd`) are foreign rendering calls. The draw methods write each grey level into an array instead. The conversion of the colour to a single-precision `float` by `glColor3f` is not modelled.
- `glfwGetCursorPos` and `glfwGetFramebufferSize` are foreign calls and become parameters of `Scroll`. The model takes the cursor in the same units as the framebuffer, as the source does. The unused `window` and `xoffset` arguments are dropped.
- IEEE-754 rounding, overflow, infinities and NaN are not modelled, because every quantity is a `real`. In particular, `View.ZoomInOutRestores` holds for reals only.
- The complex `abs` (a square root) is replaced by the squared-magnitude test `re*re + im*im <= 4`, which is equivalent over the reals.
- The drawn frame's y-axis and the cursor's y-axis run in opposite directions, and the model does not capture this. Pixel (x, y) is drawn at vertex (x - w/2, y - h/2) (project.cpp:24, project.py:40) under `glOrtho(-w/2, w/2, -h/2, h/2, ...)` (project.cpp:95, project.py:85), so pixel row 0 is at the bottom of the window. `glfwGetCursorPos` measures y from the top. The scroll anchor is therefore the point drawn at the vertically mirrored row, not the point under the mouse. On screen, even a zoom-out moves the point under the mouse by 0.2 * (anchor.im - offset_y) in y unless the cursor is on the centre row. `View.ZoomOutKeepsCursorPoint` and `View.ZoomInShiftsCursorPoint` speak of pixel coordinates only.
- Escape.Color: requires `maxIterations != 0`. For a zero bound, Python raises `ZeroDivisionError` and C++ yields NaN (0.0 / 0); the model has no value for that case.
- Render.DrawMandelbrot: requires a non-zero `maxIterations` whenever the frame has at least one pixel, for the same reason as `Escape.Color`. With a zero bound, the source raises at the first pixel (Python) or draws every pixel with a NaN colour (C++).
- Render.DrawJulia: requires a non-zero `maxIterations` whenever the frame has at least one pixel, as `Render.DrawMandelbrot` does.
- View.Viewport.Scroll: on a framebuffer of zero width or height, the model changes nothing and returns `handled == false`. This follows Python, which raises `ZeroDivisionError` in the cursor map before any global changes. C++ behaves differently. It still multiplies or divides `zoom`, which stays finite. The anchor on the zero-size axis becomes infinite (or NaN at cursor 0), so that axis's offset becomes NaN (inf - inf). The other axis's offset is updated normally. A NaN offset makes every later frame black (Julia, count 0) or nearly black (Mandelbrot, count 1), and the model does not capture this.
- The unused `numpy` import is not modelled.
