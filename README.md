# WebBouncingFaces core, modelled in Dafny

WebBouncingFaces draws faces in a WebGPU canvas. Each face is a head circle with two eye circles and a semicircle mouth. Its vertices come from compute kernels, and a 3x3 transform moves it. This project models the parts of the application that hold state and logic. The modules follow the program's files:

- `Calc` (`calc.dfy`) models `Calc.roundUp`, which rounds a buffer size up to a multiple of 16 bytes.
- `WgpuVector` (`wgpu_vector.dfy`) models the wgpu-math `Vector`. It holds 2, 3 or 4 floats in a Float32Array, and a 3-vector is padded to 4 lanes. The model covers its checked getters and setters and `dot`.
- `WgpuMatrix` (`wgpu_matrix.dfy`) models the wgpu-math `Matrix`. It stores 2 to 4 columns of 2 to 4 rows column-major, and every column of a 3-row matrix is padded to 4 floats. The model covers `identity`, `row`, `column`, `multiply`, `translation` and the in-place `translate`.
- `Colors` (`color.dfy`) models the attribute `Color`: hex code validation, upper-casing, and the RGBA channels.
- `AttributeVector` (`attribute_vector.dfy`) models the attribute `Vector`, which packs x and its defined y, z and h components.
- `Geometry` (`geometry.dfy`) models `Circle` and `SemiCircle` as one tagged datatype `Primitive`. The tag `Kind` is `Full` or `Semi(angle)`.
- `FaceModel` (`face.dfy`) models `Face`: where the features sit, `getCircles`, `setTransformBuffer` and `translate`.
- `ControllerModel` (`controller.dfy`) models the `Controller`: the frame clock in `updateTime`, and the resize debounce in `handleResize` and its timeout callback.
- `Wrappers` and `JsNumber` are support modules.
  - `Wrappers` holds `Option`, `Result` and `Outcome`. A thrown `TypeError` becomes a `Failure` or `Fail` carrying a named error.
  - `JsNumber` holds `IsInteger`, which plays the role of `Number.isInteger` on `real`.

JavaScript numbers are modelled as `real`. Float32Array storage is modelled as `array<real>` inside the classes and as `seq<real>` inside the specification functions.

Four entities become classes with methods that change state:
- the wgpu-math `Vector` and `Matrix`. Each class has a static `New` that makes the constructor's checks and returns a `Result`;
- `Face` and `Controller`.

Every such method is specified against a pure function:
- `Mat`, `Layout`, `Product` and `TranslationMat` for matrices;
- `LaneLayout` and `DotPrefix` for vectors;
- `Moved` for `Face.translate`;
- `Tick`, `Resized` and `Expired` for the controller.

The lemmas about the program's properties are stated on these functions.

The model uses two stand-ins for things outside the code:
- Timers are explicit. `setTimeout` hands out the next positive id. `clearTimeout` removes a pending id. The event `Expire(id)` stands for timer `id` running out.
- `performance.now()` is a constructor parameter of `Face`.

The view's `isPaused` flag and its `resizeCanvas` calls are fields of the controller model, `isPaused` and `resizes`.

## Model

| member | source | states |
|---|---|---|
| Calc.RoundUp | src/util/Calc.js:15-20 | Fails exactly when k or n is not positive or not an integer. Otherwise the result is a multiple of k with n <= result < n + k. |
| Calc.RoundUpIsLeast | src/util/Calc.js:20 | The result is the least multiple of k that is not below n. |
| Calc.RoundUpIdempotent | src/util/Calc.js:20 | A multiple of k comes back unchanged, so rounding twice gives the same as rounding once. |
| Calc.BufferSizes | src/model/Model.js:162-176 | roundUp(16, 12) = 16, roundUp(16, 16) = 16 and roundUp(16, 2048) = 2048. These are the sizes the props and vertex buffers get. |
| WgpuVector.LaneLayout | src/lib/wgpu-math/Vector.js:36-43 | The storage has 4 lanes for n = 3 and n lanes otherwise. The first n lanes are the given data, or zeros when no data is given. Every padding lane is 0. |
| WgpuVector.Vector.New | src/lib/wgpu-math/Vector.js:16-43 | InvalidSize exactly when n is not an integer in [2, 4]. Otherwise SizeMismatch exactly when data of a length other than n is given. On success the vector has size n and storage `LaneLayout(n, data)`. |
| WgpuVector.Vector.Init | src/lib/wgpu-math/Vector.js:30-43 | For a checked size, builds size n with storage `LaneLayout(n, data)`. |
| WgpuVector.Vector.X | src/lib/wgpu-math/Vector.js:49-51 | x is lane 0. |
| WgpuVector.Vector.Y | src/lib/wgpu-math/Vector.js:61-63 | y is lane 1. |
| WgpuVector.Vector.Z | src/lib/wgpu-math/Vector.js:72-80 | Fails with MissingComponent exactly when size < 3. Otherwise returns lane 2. |
| WgpuVector.Vector.W | src/lib/wgpu-math/Vector.js:96-104 | Fails with MissingComponent exactly when size < 4. Otherwise returns lane 3. |
| WgpuVector.Vector.SetX | src/lib/wgpu-math/Vector.js:53-55 | Lane 0 becomes val. Every other lane is unchanged. |
| WgpuVector.Vector.SetY | src/lib/wgpu-math/Vector.js:65-67 | Lane 1 becomes val. Every other lane is unchanged. |
| WgpuVector.Vector.SetZ | src/lib/wgpu-math/Vector.js:82-90 | Fails exactly when size < 3 and then changes nothing. Otherwise lane 2 becomes val and every other lane is unchanged. |
| WgpuVector.Vector.SetW | src/lib/wgpu-math/Vector.js:106-114 | Fails exactly when size < 4 and then changes nothing. Otherwise lane 3 becomes val and every other lane is unchanged. |
| WgpuVector.Vector.Dot | src/lib/wgpu-math/Vector.js:133-143 | Fails with SizeMismatch exactly when the sizes differ. Otherwise returns the sum of a[i] * b[i] over i < size. |
| WgpuVector.DotPrefixOnlyReadsPrefix | src/lib/wgpu-math/Vector.js:139-143 | The dot product depends only on the first `size` lanes, so the padding lane of a 3-vector never contributes. |
| WgpuVector.DotPrefixSymmetric | src/lib/wgpu-math/Vector.js:139-143 | dot(a, b) = dot(b, a). |
| WgpuMatrix.Padded | src/lib/wgpu-math/Matrix.js:46-68 | Each 3-float column is followed by a 0: padded cell (i, j) equals unpadded cell (i, j), and cell (i, 3) is 0. |
| WgpuMatrix.Layout | src/lib/wgpu-math/Matrix.js:45-73 | The storage has c * stride floats. Cell (i, j) is data[i * r + j], or 0 without data. Every padding float is 0. |
| WgpuMatrix.IdentityMat | src/lib/wgpu-math/Matrix.js:90-101 | Cell (i, j) is 1 when i = j and 0 otherwise, padding rows included. |
| WgpuMatrix.ColumnOf | src/lib/wgpu-math/Matrix.js:137-140 | Column i has `rows` entries, and entry j is cell (i, j). |
| WgpuMatrix.RowOf | src/lib/wgpu-math/Matrix.js:159-163 | Row j has `columns` entries, and entry i is cell (i, j). |
| WgpuMatrix.ProductFlat | src/lib/wgpu-math/Matrix.js:192-197 | The list pushed after n outer iterations has n * a.rows entries. |
| WgpuMatrix.ProductFlatCell | src/lib/wgpu-math/Matrix.js:192-197 | Entry (i, j) of that list, at i * a.rows + j, is dot(row j of a, column i of b). |
| WgpuMatrix.Product | src/lib/wgpu-math/Matrix.js:198 | The product has shape (b.columns, a.rows), and its padding is zero. |
| WgpuMatrix.ProductAt | src/lib/wgpu-math/Matrix.js:195 | Cell (i, j) of a * b is dot(row j of a, column i of b). |
| WgpuMatrix.TranslationOffset | src/lib/wgpu-math/Matrix.js:233 | The offset (8 or 12) is where the last column starts, (n - 1) * stride. |
| WgpuMatrix.TranslationMat | src/lib/wgpu-math/Matrix.js:231-236 | The first n - 1 columns are those of the identity. The last column holds v, then 1, and its padding is zero. |
| WgpuMatrix.TranslationCompose | src/lib/wgpu-math/Matrix.js:117-118 | translation(w) * translation(v) = translation(v + w). |
| WgpuMatrix.TranslationComposeAt | src/lib/wgpu-math/Matrix.js:117-118 | The same, one cell (i, j) at a time. |
| WgpuMatrix.TranslateChain | src/lib/wgpu-math/Matrix.js:110-119 | Three `translate` calls on the identity give the translation by the sum of their vectors. |
| WgpuMatrix.ProductIdentityRight | src/lib/wgpu-math/Matrix.js:117-118 | m * identity = m for a square matrix with zero padding, so `translate` applied to an identity gives the translation. |
| WgpuMatrix.ZeroLayoutExample | src/lib/wgpu-math/__tests__/Matrix.test.js:4-11 | The 3x2 matrix without data stores six zeros. |
| WgpuMatrix.PaddedLayoutExample | src/lib/wgpu-math/__tests__/Matrix.test.js:24-33 | The filled 3x3 matrix stores [3, 5, 8, 0, 2, 4, 8, 0, 4, 0, 2, 0]. |
| WgpuMatrix.WidePaddedLayoutExample | src/lib/wgpu-math/__tests__/Matrix.test.js:35-44 | The filled 4x3 matrix stores a zero after every column of three. |
| WgpuMatrix.AccessExamples | src/lib/wgpu-math/__tests__/Matrix.test.js:102-165 | Rows 0 and 2 and columns 1 and 3 of the 4x3 example matrix. |
| WgpuMatrix.ProductExample | src/lib/wgpu-math/__tests__/Matrix.test.js:168-178 | The 2x2 by 3x2 product is [1, 19, 0, 25, 2, 18]. |
| WgpuMatrix.PaddedProductExample | src/lib/wgpu-math/__tests__/Matrix.test.js:180-190 | The 2x3 by 2x2 product is [5, 9, -3, 0, -5, 2, -4, 0], with padding. |
| WgpuMatrix.SquareProductExample | src/lib/wgpu-math/__tests__/Matrix.test.js:192-202 | The 3x2 by padded 2x3 product is [13, 9, 11, 5]. |
| WgpuMatrix.TranslationExamples | src/lib/wgpu-math/__tests__/Matrix.test.js:206-226 | The stored data of translation(3, [5, 6]), translation(4, [3, 7, 9]) and translation(3, [4, 7]). |
| WgpuMatrix.TranslateIdentityExample | src/lib/wgpu-math/__tests__/Matrix.test.js:236-247 | Translating the 3x3 identity by [-6, 8] stores [1, 0, 0, 0, 0, 1, 0, 0, -6, 8, 1, 0]. |
| WgpuMatrix.TranslateIdentity4Example | src/lib/wgpu-math/__tests__/Matrix.test.js:249-260 | Translating the 4x4 identity by [9, 4, 7] stores [1, 0, 0, 0, 0, 1, 0, 0, 0, 0, 1, 0, 9, 4, 7, 1]. |
| WgpuMatrix.TranslateChainExample | src/lib/wgpu-math/__tests__/Matrix.test.js:262-275 | Translating the identity by [5, 3], then [0, 8], then [-1, -4] gives translation(3, [4, 7]), whose data `TranslationExamples` states. |
| WgpuMatrix.Matrix.Init | src/lib/wgpu-math/Matrix.js:32-73 | For a checked shape, the value is `Layout(c, r, data)`. |
| WgpuMatrix.Matrix.New | src/lib/wgpu-math/Matrix.js:15-73 | InvalidShape exactly when c or r is not an integer in [2, 4]. Otherwise DataSizeMismatch exactly when data of a length other than c * r is given. On success the value is `Layout(c, r, data)` and isSquare equals (c = r). |
| WgpuMatrix.Matrix.Identity | src/lib/wgpu-math/Matrix.js:81-102 | Fails with NotSquare exactly on a non-square matrix and then leaves the data unchanged. Otherwise the value becomes `IdentityMat(columns)`. |
| WgpuMatrix.Matrix.Column | src/lib/wgpu-math/Matrix.js:128-142 | Fails exactly when index is not an integer in [0, columns). Otherwise returns a `rows`-vector holding `ColumnOf(value, index)`. |
| WgpuMatrix.Matrix.Row | src/lib/wgpu-math/Matrix.js:151-165 | Fails exactly when index is not an integer in [0, rows). Otherwise the loop pushes `RowOf(value, index)` into a `columns`-vector. |
| WgpuMatrix.Matrix.Entry | src/lib/wgpu-math/Matrix.js:195 | dot(a.row(j), b.column(i)) is entry j of column i of the product. |
| WgpuMatrix.Matrix.PushColumn | src/lib/wgpu-math/Matrix.js:194-196 | The inner loop appends exactly column i of the product to the list. |
| WgpuMatrix.Matrix.Multiply | src/lib/wgpu-math/Matrix.js:177-199 | Fails with DimensionMismatch exactly when a.columns differs from b.rows. Otherwise the nested loops build exactly `Product(a, b)`. |
| WgpuMatrix.Matrix.Translation | src/lib/wgpu-math/Matrix.js:210-238 | Fails as the constructor does, then for n = 2, then for a vector whose length is not n - 1. Otherwise returns `TranslationMat(n, v)`. |
| WgpuMatrix.Matrix.Translate | src/lib/wgpu-math/Matrix.js:110-119 | Fails exactly on a non-square matrix, a 2x2 matrix, or a vector of the wrong size, and then leaves the data unchanged. Otherwise the value becomes translation(columns, v) * old value. |
| Colors.MatchesHexCodeIff | src/model/attributes/Color.js:18 | The unanchored scan accepts exactly the strings that contain six consecutive hex digits somewhere. |
| Colors.UpperChar | src/model/attributes/Color.js:27-29 | An ASCII lower-case letter becomes its upper-case letter, and every other character is kept. A hex digit stays a hex digit with the same value. |
| Colors.PairChannel | src/model/attributes/Color.js:39-41 | A pair of two hex digits gives a level in [0, 1] whose value times 255 is the pair's value. Any other pair is unparsed. |
| Colors.NewColor | src/model/attributes/Color.js:17-50 | InvalidHex exactly when there is no run of six hex digits. Otherwise InvalidAlpha exactly when alpha is outside [0, 1]. On success the hex is the upper-cased input with '#' prefixed unless it is already there, r, g and b come from pairs 1-2, 3-4 and 5-6, a = alpha, and value = [r, g, b, a]. |
| Colors.WellFormedChannels | src/model/attributes/Color.js:38-41 | For '#' plus six hex digits, or six hex digits alone, the construction succeeds. The hex is '#' plus the upper-cased digits, and each channel times 255 is its pair's value in [0, 255]. |
| Colors.LooseCodeExamples | src/model/attributes/Color.js:18-29 | Because the test is unanchored, "zz123456" is accepted as "#ZZ123456" with an unparsed red channel. |
| Colors.CodeCheckExamples | src/model/attributes/Color.js:18-29 | "#FF8800" is accepted; "12345" is rejected, and alpha 1.5 is rejected. |
| AttributeVector.Present | src/model/attributes/Vector.js:23-42 | A defined component contributes exactly its value, and an undefined one contributes nothing. |
| AttributeVector.DefinedCount | src/model/attributes/Vector.js:21-42 | At most three of y, z and h are counted. |
| AttributeVector.ComponentsShape | src/model/attributes/Vector.js:16-49 | The packed list has 1 + (number of defined components) entries, between 1 and 4. Its first entry is x, and y comes next when y is defined. |
| AttributeVector.NoGaps | src/model/attributes/Vector.js:23-42 | An undefined component leaves no gap. For example, y undefined and z defined gives [x, z]. |
| AttributeVector.Vector.constructor | src/model/attributes/Vector.js:15-50 | Counts and appends step by step: size = 1 + number defined, and value = x followed by the defined y, z, h in that order. |
| Geometry.NewCircle | src/model/geometry/Circle.js:24-86 | The center is the 2-vector (cx, cy), and radius and color are kept. props = [cx, cy, radius], numDivisions = 128, 512 zero vertices, and every buffer is unset. |
| Geometry.NewSemiCircle | src/model/geometry/SemiCircle.js:25-42 | The tag is `Semi(angle)` and props = [cx, cy, radius, angle]. Every other field is exactly that of the circle with the same arguments. |
| Geometry.ByteLength | src/model/geometry/Circle.js:10 | A float array takes 4 bytes per element. |
| Geometry.PrimitiveSizes | src/model/geometry/Circle.js:63-73 | Props take 12 bytes (circle) or 16 bytes (semicircle), and both round up to 16. The vertices take 2048 bytes, which is 256 vertices of 8 bytes, and 128 divisions make 8 workgroups of 16. |
| FaceModel.Features.List | src/model/Face.js:92-97 | There are always exactly four primitives. |
| FaceModel.FeaturesOf | src/model/Face.js:14-57 | The head is the circle (cx, cy, r). The eyes are circles of radius r/8 at (cx -/+ 3r/8, cy + r/8). The mouth is a semicircle of radius r/4 at (cx, cy) from 180 degrees. The eyes and mouth use the eye/mouth colour. |
| FaceModel.FeaturesInsideHead | src/model/Face.js:32-57 | For r >= 0, each eye and the mouth lies inside the head, and no two features overlap. |
| FaceModel.FaceCircles | src/model/Face.js:92-97 | getCircles yields head, left eye, right eye, mouth, with their kinds, radii and props. Each has 512 vertices. |
| FaceModel.Displacement | src/model/Face.js:115-119 | The translation is velocity times the elapsed milliseconds over 1000. |
| FaceModel.Moved | src/model/Face.js:114-121 | One update keeps a 3x3 transform. |
| FaceModel.Drift | src/model/Face.js:114-121 | Any sequence of updates keeps a 3x3 transform. |
| FaceModel.MovedTranslation | src/model/Face.js:116-119 | One update of a translation is the translation by the sum. |
| FaceModel.DisplacementAdds | src/model/Face.js:115 | Displacements over consecutive intervals add up. |
| FaceModel.DriftIsOneTranslation | src/model/Face.js:114-121 | However the `translate` calls are spaced, a translation by d becomes the translation by d + velocity * (last time - first time) / 1000. |
| FaceModel.IdentityIsZeroTranslation | src/model/Face.js:63-64 | The initial identity transform is the translation by [0, 0]. |
| FaceModel.DriftFromCreation | src/model/Face.js:63-121 | From the identity set at creation, the transform after any `translate` calls is the translation by velocity * (last call time - creation time) / 1000. |
| FaceModel.Face.constructor | src/model/Face.js:10-83 | The features are `FeaturesOf(...)` and the velocity is kept. The transform is a fresh 3x3 identity, the transform buffer is unset, and timeCreated = timeModified = now. |
| FaceModel.Face.Circles | src/model/Face.js:92-97 | Returns the face's own four primitives in drawing order. |
| FaceModel.Face.SetTransformBuffer | src/model/Face.js:104-106 | Sets transformBuffer and changes nothing else. |
| FaceModel.Face.Translate | src/model/Face.js:114-121 | The transform becomes `Moved(old transform, velocity, old timeModified, time)` and timeModified becomes time. Every other field is unchanged. |
| ControllerModel.Tick | src/controller/Controller.js:46-51 | currentTime is always the stamp. startTime takes the stamp only while it is 0, and is otherwise kept. |
| ControllerModel.FirstNonzero | src/controller/Controller.js:47-49 | A nonzero result is one of the stamps. |
| ControllerModel.TicksRecordFirstAndLast | src/controller/Controller.js:46-51 | After any frames, startTime is the first nonzero stamp (or is kept once set), and currentTime is the last stamp. |
| ControllerModel.Resized | src/controller/Controller.js:57-69 | Pauses, counts one canvas resize, clears the pending timer, and schedules a fresh one as the only pending timer. This keeps the debounce invariant. |
| ControllerModel.Expired | src/controller/Controller.js:65-68 | Only a pending timer fires. It then sets resizeTimeout = 0 and unpauses. Any other id changes nothing. This keeps the invariant. |
| ControllerModel.ResizeCountAppend | src/controller/Controller.js:59 | The `resizeCanvas` calls of two consecutive runs of events add up. |
| ControllerModel.RunAppend | src/controller/Controller.js:57-69 | Handling events a and then events b is the same as handling a followed by b. |
| ControllerModel.RunKeepsInv | src/controller/Controller.js:57-69 | Over any sequence of resizes and expiries, at most one timer is pending, the view is paused exactly while one is pending, and the canvas is resized once per resize. |
| ControllerModel.ClearedTimerNeverFires | src/controller/Controller.js:61-65 | A timer cleared by a later resize never fires, and the view stays paused. |
| ControllerModel.LatestTimerUnpauses | src/controller/Controller.js:65-68 | The expiry of the latest timer unpauses the view. |
| ControllerModel.BurstLeavesOneTimer | src/controller/Controller.js:57-69 | After n >= 1 resizes in a row, the view is paused and only the last timer is pending. |
| ControllerModel.Controller.constructor | src/controller/Controller.js:7-38 | startTime = currentTime = resizeTimeout = 0, with no pending timer and not paused. |
| ControllerModel.Controller.UpdateTime | src/controller/Controller.js:46-51 | The clock becomes `Tick(old clock, stamp)`, and the timers are unchanged. |
| ControllerModel.Controller.HandleResize | src/controller/Controller.js:57-69 | The timers become `Resized(old timers)`, and the clock is unchanged. |
| ControllerModel.Controller.Expire | src/controller/Controller.js:65-68 | The timers become `Expired(old timers, id)`, and the clock is unchanged. |

## Left out

- Float32 storage rounding: every float is an exact `real`.
- NaN is not modelled. A NaN alpha passes the alpha check in the source, and a NaN start time counts as unset.
- `parseInt` on a pair that is not two hex digits gives NaN or parses a prefix. The model marks such a channel `Unparsed` and does not reproduce the value.
- Colors.UpperChar: upper-cases ASCII letters only, because `toUpperCase` on other characters is not modelled.
- Colors.NewColor: a string is a sequence of Unicode characters, not of UTF-16 code units as `charAt` and `substring` index it. When a character outside the Basic Multilingual Plane comes before the hex digits, the model takes different pairs than the JavaScript, so its channels differ. An upper-casing that changes the length (such as 'ß' to "SS") shifts the pairs in the same way and is not modelled either.
- `Array.isArray(data)`: data that is not an array is the same as no data (`None`).
- The `instanceof` checks in `dot` and `multiply`: the argument types make them vacuous.
- A circle's center is modelled by its lane list. It is not a separate wgpu-math `Vector` object.
- Circles are mutated outside the core (buffers and bind groups set by the model code). This is not modelled, and the buffer and bind-group handles are opaque numbers.
- `performance.now()` is a parameter.
- The timer callbacks:
  - `window.addEventListener` is not modelled.
  - The 250 ms delay is not modelled: only the order of resize and expiry events matters.
  - Timer ids are the positive integers handed out in order.
- The controller's `context`, `model` and `view` references are not modelled. The view's `isPaused` flag and its `resizeCanvas` calls are fields of the controller.
- `View.frame` never calls `translate` on a face, and nothing reads `isPaused`. Per-frame animation and pause suppression are not part of this model.
- src/model/Model.js, src/view/View.js and the three Context files:
  - they hold WebGPU orchestration (shader modules, buffers, pipelines, render passes, adapter negotiation, window listeners);
  - only the size arithmetic they apply to the core's constants is stated, in `Calc.BufferSizes` and `Geometry.PrimitiveSizes`.
- src/App.jsx, index.js, webpack.config.js and the WGSL shaders are not part of this model.
- src/lib/wgpu-math/__tests__/Matrix.test.js is not modelled as code. Its expected values appear as the example lemmas.
- FaceModel.FeaturesInsideHead: states containment and separation through coordinate differences, which is sufficient for Euclidean containment and separation. Squared distances are not used.
