# dviglo value logic in Dafny

This project models the sequential value logic of the dviglo engine (a
fork of Urho3D) and proves properties of it. The rendering, physics, audio
and network parts of the engine wrap libraries; they stay outside. What
is modelled, one Dafny module per engine file:

- **`PListValue` and the property-list loader** (`PList`). This is the
  seven-way tagged union of `plist_file.cpp`. Its setters retag it and
  replace the payload. Its getters fall back to typed defaults. The loader
  maps `string`/`real`/`integer`/`true`/`false`/`dict`/`array` elements of
  Apple's XML property-list encoding to tags.
- **Splines** (`Splines`). Knot lists keep a single variant type. The
  model covers the parameter clamp of `GetPoint`, the padding of the full
  Catmull-Rom curve and the guards of the three interpolation routines.
- **The sprite batch** (`SpriteBatches`). It has two fixed-capacity vertex
  arrays with counters. It flushes when the primitive kind changes, when
  the texture or shaders change, and when an array is full. It also
  precomputes the quad index buffer.
- **Bitmap font faces** (`FontFaceBitmaps`). This covers the AngelCode
  BMFont XML load with its failure checks, and kerning keys that pack two
  16-bit code points. It also covers the repack of used glyphs onto fresh
  pages and the strided byte blit.
- **Terrain LOD** (`TerrainPatches`). A patch's LOD is limited by its
  neighbours. The model also covers the selection of the LOD level, the
  level-0 geometry choice and the occluder triangle count.
- **Tile gids** (`TileMapDefs`). These are the TMX flag bits in the top
  four bits (31 to 28) of a 32-bit gid: three flips and one reserved bit.
- **Integer vectors** (`IntVectors2`, `IntVectors3`). The model covers the
  component-wise operators, the compound assignments and the wrapping
  32-bit hashes.
- **UI value state machines** (`UiElements`, `RangedValues`, `Sliders`,
  `ProgressBars`, `ScrollBars`). The model covers range and value
  clamping, and events sent only on change. It also covers knob dragging
  and paging, and the scroll bar's layout and stepping.
- **Scene ID space** (`Scenes`). The replicated and local ID ranges, the
  free-ID search, and the ID maps and tag index kept by the scene.
- **Render paths** (`RenderPaths`). The model covers bounded command
  lookup, append, insert and remove, and enabling commands by tag.
- **Smaller pieces**:
  - `Lights`: light ordering and cascade shadow ranges;
  - `Resources`: resource name and type fallbacks;
  - `LogicComponents` and `SmoothedTransforms`: update-event and
    smoothing flags;
  - `VectorBases`: the vector swap;
  - `Applications`: the application's log stripping and exit logic;
  - `Strings`: the `String` container as its test exercises it.
- **Shared helpers**:
  - `Wrappers`: `Option`;
  - `Int32`: 32-bit casts, wrap-around and C++'s truncating division;
  - `TextScan`: the `sscanf` patterns the engine uses;
  - `XmlTrees`: XML elements as an already-parsed tree;
  - `IntRects`: integer rectangles.

Code that changes state step by step is modelled as classes with methods.
Each method is proved against a specification function of the old state.
The properties the engine relies on are then proved about those functions
as lemmas.

## Model

| member | source | states |
|---|---|---|
| Int32.ToU32 | source/dviglo/math/vector2.h:131 | the unsigned 32-bit cast: the result is below 2^32 and congruent to the input modulo 2^32 |
| Int32.ToU32AddMultiple | source/dviglo/math/vector2.h:131 | adding a multiple of 2^32 does not change the unsigned cast |
| Int32.ToU32MulWrap | source/dviglo/math/vector3.h:134 | wrapping before a multiplication gives the same unsigned result as wrapping after it |
| Int32.ToU32AddWrap | source/dviglo/math/vector3.h:134 | wrapping both addends gives the same unsigned result as wrapping the sum |
| Int32.TruncToInt | source/dviglo/math/vector2.h:38-42 | the float-to-int cast truncates toward zero: the magnitude is the integer part and the sign is kept |
| Int32.TruncDiv | source/dviglo/math/vector2.h:71-74 | C++ integer division: the remainder is smaller than the divisor in magnitude and has the dividend's sign (or is zero) |
| Int32.TruncDivInRange | source/dviglo/math/vector2.h:71-74 | dividing two `int` values, other than `INT_MIN / -1`, gives an `int` |
| Int32.Min | source/dviglo/math/vector2.h:416 | the smaller of two integers: at most both, and one of them |
| Int32.Max | source/dviglo/math/vector2.h:419 | the larger of two integers: at least both, and one of them |
| Int32.Clamp | source/dviglo/ui/slider.cpp:113-124 | with lo ≤ hi the result lies in [lo, hi], and a value already inside is kept; a value below lo gives lo, and one not below lo but above hi gives hi (also when lo > hi) |
| TextScan.DigitRun | source/dviglo/resource/plist_file.cpp:198 | the length of the leading digit run: every character in it is a digit and the next one is not |
| TextScan.SpaceRun | source/dviglo/resource/plist_file.cpp:198 | the length of the leading white-space run that `%d` skips: every character before it is white space and the next one is not |
| TextScan.NatDigits | source/dviglo/resource/plist_file.cpp:198 | the decimal text of a natural number is a non-empty run of digits |
| TextScan.FormatInt | source/dviglo/resource/plist_file.cpp:198 | the decimal text of an integer is never empty, starts with '-' exactly for a negative value, and is digits otherwise |
| TextScan.ScanInt | source/dviglo/resource/plist_file.cpp:198 | a `%d` conversion that succeeds consumes at least one and at most all characters |
| TextScan.Scan | source/dviglo/resource/plist_file.cpp:198 | `sscanf` assigns at most one value per conversion |
| TextScan.DigitsValueOfNatDigits | source/dviglo/resource/plist_file.cpp:198 | reading back the decimal digits of n gives n |
| TextScan.DigitRunOfDigits | source/dviglo/resource/plist_file.cpp:198 | the digit run of digits followed by a non-digit is exactly the digits |
| TextScan.ScanFormatted | source/dviglo/resource/plist_file.cpp:198 | `%d` reads back any formatted `int` followed by a non-digit, consuming exactly its text |
| TextScan.ScanNonNegative | source/dviglo/resource/plist_file.cpp:198 | the same read-back for a non-negative value |
| TextScan.ScanNegative | source/dviglo/resource/plist_file.cpp:198 | the same read-back for a negative value |
| TextScan.ScanMinusDigits | source/dviglo/resource/plist_file.cpp:198 | a minus sign followed by digits whose value fits reads as the negated value |
| TextScan.ScanLiteralStep | source/dviglo/resource/plist_file.cpp:198 | a matching literal is consumed and scanning continues |
| TextScan.ScanDecimalStep | source/dviglo/resource/plist_file.cpp:198 | a formatted number is read by a `%d` and scanning continues after it |
| TextScan.RoundTripLiteralCase | source/dviglo/resource/plist_file.cpp:198 | the round trip extends over a leading literal |
| TextScan.RoundTripDecimalCase | source/dviglo/resource/plist_file.cpp:198 | the round trip extends over a leading conversion |
| TextScan.ScanRenderRoundTrip | source/dviglo/resource/plist_file.cpp:198 | scanning the text printed with a format whose conversions are separated by non-digits yields exactly the printed values |
| XmlTrees.FindFrom | source/dviglo/resource/plist_file.cpp:338 | the next child with a given name, from a position on, lies at or after that position and has the name |
| XmlTrees.FindFromIsFirst | source/dviglo/resource/plist_file.cpp:338 | no earlier child from that position has the name, and none is found exactly when no child from there has it |
| XmlTrees.NextSibling | source/dviglo/resource/plist_file.cpp:330 | the next sibling exists exactly when the element is not the last child, and it is the following child |
| Applications.FindFirst | source/dviglo/engine/application.cpp:95 | the position of the first occurrence of a character; none exactly when it does not occur |
| Applications.Substring | source/dviglo/engine/application.cpp:97 | the tail from a position, or the empty string past the end |
| Applications.StripTimestamp | source/dviglo/engine/application.cpp:93-97 | without ']' the message is kept; otherwise the text from two characters after the first ']' (empty past the end) |
| Applications.ErrorDialogText | source/dviglo/engine/application.cpp:80-86 | a non-empty message is shown verbatim; an empty one shows the collected startup errors if any, else the fixed default text; never empty |
| Applications.Application.constructor | source/dviglo/engine/application.cpp:20-30 | the exit code starts at `EXIT_SUCCESS` with no startup errors and no dialog shown |
| Applications.Application.Run | source/dviglo/engine/application.cpp:28-64 | a non-zero exit code after `Setup` or `Start` (`EXIT_FAILURE` after an error exit in them) is returned at once; an initialisation failure makes an error exit whose dialog shows the errors collected before and during `Setup` and `Initialize`; otherwise the code after `Stop` is returned; on every path the collected errors grow by exactly the error-level messages logged so far, and only error exits add dialogs |
| Applications.Application.ErrorExit | source/dviglo/engine/application.cpp:75-87 | the engine is asked to exit, the exit code becomes `EXIT_FAILURE` and the chosen dialog text is shown |
| Applications.Application.HandleLogMessage | source/dviglo/engine/application.cpp:89-101 | only an error-level message changes the collected errors: its stripped text and "\n" are appended to what was there |
| Applications.CollectedErrors | source/dviglo/engine/application.cpp:99 | the collected text has at least one character (the newline) per message, ends with a newline when there is a message, and is the stripped message and a newline for a single message |
| Applications.LogErrors | source/dviglo/engine/application.cpp:89-101 | logging error messages one by one appends exactly their stripped texts, each with a newline, in order |
| VectorBases.VectorBase.constructor | Source/dviglo/container/vector_base.h:27-32 | a new array has size 0, capacity 0 and a null buffer |
| VectorBases.VectorBase.Swap | Source/dviglo/container/vector_base.h:35-40 | the two arrays exchange size, capacity and buffer |
| VectorBases.SwapTwiceRestores | Source/dviglo/container/vector_base.h:35-40 | swapping twice restores both arrays and leaves every other array untouched |
| Resources.AsyncLoadState.Value | source/dviglo/resource/resource.h:21-33 | each loading state's number is below 5 |
| Resources.AsyncLoadStateValues | source/dviglo/resource/resource.h:21-33 | the states are numbered DONE=0, QUEUED=1, LOADING=2, SUCCESS=3, FAIL=4, and no two share a number |
| Resources.GetResourceName | source/dviglo/resource/resource.h:132-135 | the empty string for a null resource, else its name |
| Resources.GetResourceType | source/dviglo/resource/resource.h:137-140 | the default type for a null resource, else its type |
| Resources.GetResourceRef | source/dviglo/resource/resource.h:142-145 | pairs exactly the type and the name given by the two accessors |
| Resources.GetResourceNames | source/dviglo/resource/resource.h:147-154 | a list of the same length whose element i is the name of resource i |
| Resources.GetResourceRefList | source/dviglo/resource/resource.h:156-159 | the static type with the names of all the resources, in order |
| LogicComponents.FlagValues | source/dviglo/scene/logic_component.h:18-37 | `None` is 0, the single events are 1, 2, 4 and 8, and `All` is 15 |
| LogicComponents.SingleEventsPartitionAll | source/dviglo/scene/logic_component.h:24-36 | each single event is a non-empty part of `All`, and two different single events share no bit |
| LogicComponents.EventMask | source/dviglo/scene/logic_component.h:24-36 | a mask built from chosen single events lies within `All`, contains exactly the chosen events, is `All` iff all are chosen and `None` iff none is |
| SmoothedTransforms.FlagBitsDisjoint | source/dviglo/scene/smoothed_transform.h:14-22 | position and rotation smoothing are distinct non-empty bits |
| SmoothedTransforms.SmoothedTransform.IsInProgress | source/dviglo/scene/smoothed_transform.h:61 | smoothing is in progress when either bit is set, and not when the mask is empty |
| SmoothedTransforms.InProgressOverDefinedFlags | source/dviglo/scene/smoothed_transform.h:61 | over masks made of the defined flags, smoothing is in progress iff position or rotation smoothing is on |
| PList.PListValue.Value | source/dviglo/resource/plist_file.cpp:104-170 | the value's tag field always agrees with the tag of the content it holds |
| PList.PListValue.constructor | source/dviglo/resource/plist_file.cpp:63-67 | a new value holds nothing (tag `PLVT_NONE`) |
| PList.PListValue.Reset | source/dviglo/resource/plist_file.cpp:256-277 | afterwards the value holds nothing; when it already held nothing, nothing changes |
| PList.PListValue.SetI32 | source/dviglo/resource/plist_file.cpp:104-113 | the value becomes the integer, and `GetI32` returns it |
| PList.PListValue.SetBool | source/dviglo/resource/plist_file.cpp:115-124 | the value becomes the Boolean, and `GetBool` returns it |
| PList.PListValue.SetFloat | source/dviglo/resource/plist_file.cpp:126-134 | the value becomes the float, and `GetFloat` returns it |
| PList.PListValue.SetString | source/dviglo/resource/plist_file.cpp:136-146 | the value becomes the string, and `GetString` returns it |
| PList.PListValue.SetValueMap | source/dviglo/resource/plist_file.cpp:148-158 | the value becomes the map, and `GetValueMap` returns it |
| PList.PListValue.SetValueVector | source/dviglo/resource/plist_file.cpp:160-170 | the value becomes the vector, and `GetValueVector` returns it |
| PList.PListValue.Assign | source/dviglo/resource/plist_file.cpp:74-102 | assignment copies the right-hand tag and payload exactly; a NONE right-hand side resets |
| PList.PListValue.GetI32 | source/dviglo/resource/plist_file.cpp:172-175 | the integer payload under tag INT, else 0 |
| PList.PListValue.GetBool | source/dviglo/resource/plist_file.cpp:177-180 | the Boolean payload under tag BOOL, else false |
| PList.PListValue.GetFloat | source/dviglo/resource/plist_file.cpp:182-185 | the float payload under tag FLOAT, else 0.0 |
| PList.PListValue.GetString | source/dviglo/resource/plist_file.cpp:187-190 | the string payload under tag STRING, else the empty string |
| PList.PListValue.GetValueMap | source/dviglo/resource/plist_file.cpp:222-225 | the map payload under tag VALUEMAP, else the empty map |
| PList.PListValue.GetValueVector | source/dviglo/resource/plist_file.cpp:227-230 | the vector payload under tag VALUEVECTOR, else the empty vector |
| PList.PListValue.GetIntRect | source/dviglo/resource/plist_file.cpp:192-200 | `IntRect::ZERO` for a non-string value, else the rectangle scanned from the string |
| PList.PListValue.GetIntVector2 | source/dviglo/resource/plist_file.cpp:202-210 | (0,0) for a non-string value, else the vector scanned from the string |
| PList.PListValue.GetIntVector3 | source/dviglo/resource/plist_file.cpp:212-220 | (0,0,0) for a non-string value, else the vector scanned from the string |
| PList.PListValue.ConvertToValueMap | source/dviglo/resource/plist_file.cpp:232-242 | an existing map is kept unchanged; anything else is replaced by an empty map; the returned map is the value's map |
| PList.PListValue.ConvertToValueVector | source/dviglo/resource/plist_file.cpp:244-254 | an existing vector is kept unchanged; anything else is replaced by an empty vector; the returned vector is the value's vector |
| PList.IntRectOfRendered | source/dviglo/resource/plist_file.cpp:197-199 | the text "{{x,y},{w,h}}" reads back as the rectangle (x, y, x+w, y+h) |
| PList.RectFormatSeparated | source/dviglo/resource/plist_file.cpp:198 | the rectangle format has four conversions, each followed by a non-digit literal |
| PList.RectFormatConversions | source/dviglo/resource/plist_file.cpp:198 | the rectangle format has exactly four conversions |
| PList.IntVector2OfRendered | source/dviglo/resource/plist_file.cpp:207-209 | the text "{x,y}" reads back as the vector (x, y) |
| PList.IntVector3OfRendered | source/dviglo/resource/plist_file.cpp:217-219 | the text "{x,y,z}" reads back as the vector (x, y, z) |
| PList.ElementType | source/dviglo/resource/plist_file.cpp:365-391 | every supported element name maps to a real tag, never to NONE |
| PList.LoadValueSpec | source/dviglo/resource/plist_file.cpp:363-394 | an unsupported element name fails and leaves the value as it was; a supported one leaves the matching tag; scalar elements always succeed |
| PList.LoadDictFrom | source/dviglo/resource/plist_file.cpp:325-342 | the dictionary loop only adds keys: every key present before is still present |
| PList.KeySlots | source/dviglo/resource/plist_file.cpp:325-339 | the `key` elements the loop visits all have a value after them and lie at or after the starting key |
| PList.LoadDictSucceedsIff | source/dviglo/resource/plist_file.cpp:325-342 | the dictionary loop succeeds iff the value element of every key it visits loads |
| PList.LoadDictKeys | source/dviglo/resource/plist_file.cpp:325-339 | after a successful loop the keys are exactly the earlier ones plus the texts of the visited `key` elements |
| PList.LoadDictKeepsOthers | source/dviglo/resource/plist_file.cpp:325-339 | a successful loop keeps the earlier value of every key that no visited `key` element names |
| PList.LoadDictLastWins | source/dviglo/resource/plist_file.cpp:331-336 | after a successful loop each key holds the load of the value after its last visited `key` element: a repeated key's last value wins |
| PList.LoadDictVisitsEveryKey | source/dviglo/resource/plist_file.cpp:325-339 | a successful loop visits every `key` element from its start that has a sibling after it |
| PList.LoadArrayFrom | source/dviglo/resource/plist_file.cpp:350-360 | the array loop only appends; on success it appends one value per child, on failure fewer |
| PList.LoadDictStep | source/dviglo/resource/plist_file.cpp:327-339 | one turn of the dictionary loop: a failing value stops it, otherwise the key is stored and the loop goes on from the next `key` element after the value |
| PList.LoadValue | source/dviglo/resource/plist_file.cpp:363-394 | the imperative loader's result and new value are exactly `LoadValueSpec` of the old value |
| PList.LoadDict | source/dviglo/resource/plist_file.cpp:320-343 | a missing element fails; otherwise the result is exactly the dictionary loop from the first `key` child |
| PList.LoadArray | source/dviglo/resource/plist_file.cpp:345-361 | a missing element fails; otherwise the result is exactly the array loop over all children |
| PList.LoadArrayInDocumentOrder | source/dviglo/resource/plist_file.cpp:350-358 | each appended value is the successful load of the child at the same position, in document order |
| PList.LoadArrayStopsAtFailure | source/dviglo/resource/plist_file.cpp:354-355 | when loading fails, the child right after the appended ones is the one whose load failed |
| PList.LoadDictKeysFromKeyElements | source/dviglo/resource/plist_file.cpp:325-339 | every key the loop adds is the text of a `key` element that has a sibling after it |
| IntVectors2.IntVector2.Zero | source/dviglo/math/vector2.h:17-21 | a default-constructed vector is (0, 0) |
| IntVectors2.IntVector2.FromInts | source/dviglo/math/vector2.h:31-35 | construction from an int array takes its first two elements as x and y |
| IntVectors2.IntVector2.FromFloats | source/dviglo/math/vector2.h:38-42 | construction from a float array truncates each element toward zero: the magnitude is the integer part and the sign is kept |
| IntVectors2.IntVector2.DivScalar | source/dviglo/math/vector2.h:71 | each component is the C++ quotient by the scalar: remainder smaller than the divisor and of the dividend's sign |
| IntVectors2.IntVector2.DivVector | source/dviglo/math/vector2.h:74 | each component is the C++ quotient by the matching divisor component |
| IntVectors2.IntVector2.ToHash | source/dviglo/math/vector2.h:131 | the hash is (x·31 + y) mod 2^32 over the unsigned casts |
| IntVectors2.VectorMin | source/dviglo/math/vector2.h:416 | each component is the smaller of the two, and one of them |
| IntVectors2.VectorMax | source/dviglo/math/vector2.h:419 | each component is the larger of the two, and one of them |
| IntVectors2.VectorAbs | source/dviglo/math/vector2.h:422 | each component is the non-negative magnitude of the input component |
| IntVectors2.EqualityOperators | source/dviglo/math/vector2.h:50-53 | `==` holds iff both components are equal, and `!=` is its negation |
| IntVectors2.PlusMinusInverse | source/dviglo/math/vector2.h:56-62 | subtracting what was added gives back the original vector |
| IntVectors2.MinusIsPlusNegate | source/dviglo/math/vector2.h:59-62 | subtraction is addition of the negation, and negation is its own inverse |
| IntVectors2.ScaleCommutes | source/dviglo/math/vector2.h:383 | `s * v` equals `v * s`, which equals the component-wise product with (s, s) |
| IntVectors2.IntVector2Var.constructor | source/dviglo/math/vector2.h:24-28 | a vector variable holds the vector it was built from |
| IntVectors2.IntVector2Var.PlusAssign | source/dviglo/math/vector2.h:77-82 | `+=` leaves the vector equal to the `+` result |
| IntVectors2.IntVector2Var.MinusAssign | source/dviglo/math/vector2.h:85-90 | `-=` leaves the vector equal to the `-` result |
| IntVectors2.IntVector2Var.ScaleAssign | source/dviglo/math/vector2.h:93-98 | `*= int` leaves the vector equal to the scalar `*` result |
| IntVectors2.IntVector2Var.TimesAssign | source/dviglo/math/vector2.h:101-106 | `*= vector` leaves the vector equal to the component-wise `*` result |
| IntVectors2.IntVector2Var.DivScalarAssign | source/dviglo/math/vector2.h:109-114 | `/= int` leaves the vector equal to the scalar `/` result |
| IntVectors2.IntVector2Var.DivVectorAssign | source/dviglo/math/vector2.h:117-122 | `/= vector` leaves the vector equal to the component-wise `/` result |
| IntVectors3.IntVector3.Zero | source/dviglo/math/vector3.h:17-22 | a default-constructed vector is (0, 0, 0) |
| IntVectors3.IntVector3.FromInts | source/dviglo/math/vector3.h:33-38 | construction from an int array takes its first three elements |
| IntVectors3.IntVector3.DivScalar | source/dviglo/math/vector3.h:68 | each component is the C++ quotient by the scalar |
| IntVectors3.IntVector3.DivVector | source/dviglo/math/vector3.h:71 | each component is the C++ quotient by the matching divisor component |
| IntVectors3.IntVector3.ToHash | source/dviglo/math/vector3.h:134 | the hash is (x·961 + y·31 + z) mod 2^32 over the unsigned casts |
| IntVectors3.VectorMin | source/dviglo/math/vector3.h:515 | each component is the smaller of the two, and one of them |
| IntVectors3.VectorMax | source/dviglo/math/vector3.h:518 | each component is the larger of the two, and one of them |
| IntVectors3.VectorAbs | source/dviglo/math/vector3.h:521 | each component is the non-negative magnitude of the input component |
| IntVectors3.EqualityOperators | source/dviglo/math/vector3.h:47-50 | `==` holds iff all three components are equal, and `!=` is its negation |
| IntVectors3.PlusMinusInverse | source/dviglo/math/vector3.h:53-59 | subtracting what was added gives back the original vector |
| IntVectors3.MinusIsPlusNegate | source/dviglo/math/vector3.h:56-59 | subtraction is addition of the negation, and negation is its own inverse |
| IntVectors3.ScaleCommutes | source/dviglo/math/vector3.h:482 | `s * v` equals `v * s`, which equals the component-wise product with (s, s, s) |
| IntVectors3.IntVector3Var.constructor | source/dviglo/math/vector3.h:25-30 | a vector variable holds the vector it was built from |
| IntVectors3.IntVector3Var.PlusAssign | source/dviglo/math/vector3.h:74-80 | `+=` leaves the vector equal to the `+` result |
| IntVectors3.IntVector3Var.MinusAssign | source/dviglo/math/vector3.h:83-89 | `-=` leaves the vector equal to the `-` result |
| IntVectors3.IntVector3Var.ScaleAssign | source/dviglo/math/vector3.h:92-98 | `*= int` leaves the vector equal to the scalar `*` result |
| IntVectors3.IntVector3Var.TimesAssign | source/dviglo/math/vector3.h:101-107 | `*= vector` leaves the vector equal to the component-wise `*` result |
| IntVectors3.IntVector3Var.DivScalarAssign | source/dviglo/math/vector3.h:110-116 | `/= int` leaves the vector equal to the scalar `/` result |
| IntVectors3.IntVector3Var.DivVectorAssign | source/dviglo/math/vector3.h:119-125 | `/= vector` leaves the vector equal to the component-wise `/` result |
| Lights.CascadeParameters.Make | source/dviglo/graphics/light.h:65-73 | split1..split4 are stored at indices 0..3 in order, with the fade start and the bias adjustment (default 1) |
| Lights.CascadeParameters.GetShadowRange | source/dviglo/graphics/light.h:79-86 | the result is ≥ 0 and ≥ every split, and equals one of the splits or 0 |
| Lights.CompareLightsIsKeyOrder | source/dviglo/graphics/light.h:376-383 | the light order is the lexicographic order on (not per-vertex, sort value) |
| Lights.PerVertexFirst | source/dviglo/graphics/light.h:379-380 | a per-vertex light sorts before a light that is not per-vertex, never after |
| Lights.EqualFlagsBySortValue | source/dviglo/graphics/light.h:381-382 | lights with equal per-vertex flags are ordered by ascending sort value |
| Lights.CompareLightsStrictWeakOrder | source/dviglo/graphics/light.h:376-383 | the order is irreflexive, asymmetric and transitive, and its incomparability is transitive |
| RenderPaths.DefaultRenderTargetInfo | source/dviglo/graphics/render_path.h:57-80 | a new render target is enabled, absolute-sized, multisample 1 with auto-resolve, and has every other flag off |
| RenderPaths.DefaultRenderPathCommand | source/dviglo/graphics/render_path.h:121-170 | a new command is enabled, uses the lit base pass, blends by replace, and has no outputs and no other flag set |
| RenderPaths.Toggled | source/dviglo/graphics/render_path.h:194-195 | toggling keeps both list lengths; an entry flips its enabled state exactly when it has the tag, and nothing else in it changes |
| RenderPaths.ToggleTwiceRestores | source/dviglo/graphics/render_path.h:194-195 | toggling the same tag twice restores both lists |
| RenderPaths.RenderPath.constructor | source/dviglo/graphics/render_path.h:177-178 | a new render path has no render targets and no commands |
| RenderPaths.RenderPath.GetNumCommands | source/dviglo/graphics/render_path.h:222-230 | the command count bounds the lookups: every index below it yields its command and the count itself yields null |
| RenderPaths.RenderPath.GetCommand | source/dviglo/graphics/render_path.h:225-230 | for an index ≥ 0: the command at that index when it is in range, else null |
| RenderPaths.RenderPath.IsEnabled | source/dviglo/graphics/render_path.h:190-191 | true iff some render target or command with the tag is enabled |
| RenderPaths.RenderPath.IsAdded | source/dviglo/graphics/render_path.h:192-193 | true iff some render target or command has the tag |
| RenderPaths.RenderPath.SetEnabled | source/dviglo/graphics/render_path.h:188-189 | exactly the tagged render targets and commands get the new enabled state; the rest are unchanged |
| RenderPaths.RenderPath.ToggleEnabled | source/dviglo/graphics/render_path.h:194-195 | exactly the tagged render targets and commands flip their enabled state |
| RenderPaths.RenderPath.AddRenderTarget | source/dviglo/graphics/render_path.h:198-199 | the target is appended, the earlier ones are unchanged, and `GetNumRenderTargets` grows by one |
| RenderPaths.RenderPath.AddCommand | source/dviglo/graphics/render_path.h:208-209 | the command is appended at the end; the earlier ones are unchanged |
| RenderPaths.RenderPath.InsertCommand | source/dviglo/graphics/render_path.h:210-211 | the command is placed at the index; the others keep their order around it; an index past the end appends |
| RenderPaths.RenderPath.RemoveCommand | source/dviglo/graphics/render_path.h:212-213 | exactly the command at the index is removed; the others keep their order; an index past the end changes nothing |
| TileMapDefs.FlipMasks | source/dviglo/urho_2d/tilemap_defs_2d.h:106-110 | the four flip masks are the single bits 31, 30, 29 and 28, and `FLIP_ALL` is their union 0xf0000000 |
| TileMapDefs.GetGid | source/dviglo/urho_2d/tilemap_defs_2d.h:120 | the gid without its flags is below 0x10000000, and together with the flag bits it gives back the whole gid |
| TileMapDefs.GetFlipX | source/dviglo/urho_2d/tilemap_defs_2d.h:122 | true iff bit 31 is set |
| TileMapDefs.GetFlipY | source/dviglo/urho_2d/tilemap_defs_2d.h:124 | true iff bit 30 is set |
| TileMapDefs.GetSwapXY | source/dviglo/urho_2d/tilemap_defs_2d.h:126 | true iff bit 29 is set |
| TileMapDefs.ComposeDecompose | source/dviglo/urho_2d/tilemap_defs_2d.h:106-126 | a gid built from a base gid and four flags decomposes back into that base gid and those flags |
| TileMapDefs.Tile2D.Gid | source/dviglo/urho_2d/tilemap_defs_2d.h:120 | a tile's gid clears the four flag bits |
| TileMapDefs.Tile2D.FlipX | source/dviglo/urho_2d/tilemap_defs_2d.h:122 | a tile is flipped in X iff bit 31 of its gid is set |
| TileMapDefs.Tile2D.FlipY | source/dviglo/urho_2d/tilemap_defs_2d.h:124 | a tile is flipped in Y iff bit 30 of its gid is set |
| TileMapDefs.Tile2D.SwapXY | source/dviglo/urho_2d/tilemap_defs_2d.h:126 | a tile swaps X and Y iff bit 29 of its gid is set |
| TileMapDefs.TileMapObject2D.Default | source/dviglo/urho_2d/tilemap_defs_2d.h:204 | a new tile object has gid 0 and no flag; the object's tile accessors (lines 173-179) read its gid through `Tile2D`'s |
| Scenes.IdRanges | source/dviglo/scene/scene.h:25-28 | the replicated range [0x1, 0xffffff] and the local range [0x01000000, 0xffffffff] are adjacent and disjoint; `IsReplicatedID` is true on the first and false on the second |
| Scenes.Probe | source/dviglo/scene/scene.h:216-219 | each probe of the cyclic search for a free ID stays inside the range |
| Scenes.ProbeCovers | source/dviglo/scene/scene.h:216-219 | a full cyclic search reaches every ID of the range |
| Scenes.NextFreeId | source/dviglo/scene/scene.h:301-308 | the ID found is the first unused one of the cyclic scan from the counter, and the counter moves just past it (wrapping to the first ID); finding none means every ID of the range is in use, and the counter is back where it started |
| Scenes.Scene.constructor | source/dviglo/scene/scene.h:85 | a new scene has empty ID maps and an empty tag index, with the counters in range |
| Scenes.Scene.GetNode | source/dviglo/scene/scene.h:158-159 | null exactly when the ID is not in the map of its range; otherwise the node stored under it |
| Scenes.Scene.GetComponent | source/dviglo/scene/scene.h:160-161 | null exactly when the ID is not in the map of its range; otherwise the component stored under it |
| Scenes.Scene.NodeAdded | source/dviglo/scene/scene.h:228-229 | the node is stored under its ID in the map of its range; the other map is unchanged; `GetNode` then finds it |
| Scenes.Scene.NodeRemoved | source/dviglo/scene/scene.h:230-231 | the node's ID is taken out of the map of its range; the other map is unchanged; `GetNode` then returns null |
| Scenes.Scene.ComponentAdded | source/dviglo/scene/scene.h:232-233 | the component is stored under its ID in the map of its range; the other map is unchanged |
| Scenes.Scene.ComponentRemoved | source/dviglo/scene/scene.h:234-235 | the component's ID is taken out of the map of its range; the other map is unchanged |
| Scenes.Scene.NodeTagAdded | source/dviglo/scene/scene.h:223-224 | a non-empty tag gets the node appended to its list with no duplicate check; an empty tag changes nothing |
| Scenes.Scene.NodeTagRemoved | source/dviglo/scene/scene.h:225-226 | a non-empty cached tag loses the first occurrence of the node; otherwise nothing changes |
| Scenes.Scene.GetNodesWithTag | source/dviglo/scene/scene.h:162-163 | the nodes cached under the tag, and false iff there are none |
| Scenes.Scene.GetFreeNodeID | source/dviglo/scene/scene.h:216-217 | the first ID of the mode's range, scanning cyclically from the mode's counter, that no node uses; the mode's counter moves just past it (wrapping), the other counter is unchanged; none only when the whole range is in use, with both counters unchanged |
| Scenes.Scene.GetFreeComponentID | source/dviglo/scene/scene.h:218-219 | the first ID of the mode's range, scanning cyclically from the mode's counter, that no component uses; the mode's counter moves just past it (wrapping), the other counter is unchanged; none only when the whole range is in use, with both counters unchanged |
| Scenes.RemoveFirst | source/dviglo/scene/scene.h:225-226 | a list without the node is unchanged; otherwise exactly one occurrence is removed |
| Scenes.RemoveFirstAtFirstIndex | source/dviglo/scene/scene.h:225-226 | the occurrence removed is the first one, and the nodes before and after it keep their order |
| TerrainPatches.PassingPrefix | source/dviglo/graphics/terrain_patch.cpp:111-118 | the length of the leading run of levels whose error stays within the threshold: all of those pass and the next one fails |
| TerrainPatches.SelectLodLevel | source/dviglo/graphics/terrain_patch.cpp:111-118 | the loop yields the last passing level before the first failure, and 0 for no levels or a failing first level |
| TerrainPatches.PassingPrefixIsFirstFailure | source/dviglo/graphics/terrain_patch.cpp:111-118 | any index whose prefix passes and which itself fails (or is the end) is the passing-prefix length |
| TerrainPatches.TerrainPatch.constructor | source/dviglo/graphics/terrain_patch.cpp:30-46 | a new patch has LOD level 0, no neighbours, no level errors and no material |
| TerrainPatches.TerrainPatch.NeighbourBound | source/dviglo/graphics/terrain_patch.cpp:267-274 | a neighbour contributes a bound exactly when it is present |
| TerrainPatches.CorrectedIsMinimum | source/dviglo/graphics/terrain_patch.cpp:263-277 | limiting a level by the present neighbour bounds in turn gives their minimum: at most the level and each bound, and equal to one of them |
| TerrainPatches.TerrainPatch.GetCorrectedLodLevel | source/dviglo/graphics/terrain_patch.cpp:263-277 | the result is `Corrected` of the level by the neighbours' bounds: ≤ the level and ≤ each present neighbour's level + 1, and equal to one of those bounds (the level itself when there are no neighbours) |
| TerrainPatches.TerrainPatch.UpdateLod | source/dviglo/graphics/terrain_patch.cpp:100-121 | the stored level equals `Corrected` of the level the error loop selects, by the neighbours' levels before the update; nothing else but the LOD distance changes |
| TerrainPatches.TerrainPatch.GetLodGeometry | source/dviglo/graphics/terrain_patch.cpp:144-153 | level 0 gives the max-LOD geometry and any other level the main geometry |
| TerrainPatches.TerrainPatch.GetNumOccluderTriangles | source/dviglo/graphics/terrain_patch.cpp:155-163 | 0 when a material with occlusion disabled is set, else the occlusion index count divided by 3 |
| TerrainPatches.TerrainPatch.SetNeighbors | source/dviglo/graphics/terrain_patch.cpp:204-210 | exactly the four neighbour links are assigned |
| TerrainPatches.TerrainPatch.ResetLod | source/dviglo/graphics/terrain_patch.cpp:228-231 | the LOD level becomes 0 |
| Splines.Clamp01 | source/dviglo/core/spline.cpp:41-44 | the parameter clamped into [0, 1]; a parameter already inside is kept |
| Splines.Frac | source/dviglo/core/spline.cpp:221 | the fractional part of a non-negative parameter lies in [0, 1) |
| Splines.LerpPair | source/dviglo/core/spline.cpp:226-245 | blending two knots of a type without interpolation gives the empty variant |
| Splines.LinearOrigin | source/dviglo/core/spline.cpp:220 | the segment index of linear interpolation always lies in [0, n-2] |
| Splines.LinearOriginIsSegment | source/dviglo/core/spline.cpp:220-221 | for t in [0, 1) the segment index is the whole part of t·(n-1) |
| Splines.WholePartBelow | source/dviglo/core/spline.cpp:180 | for t in [0, 1) the truncated t·m lies in [0, m-1] and is the whole part of t·m |
| Splines.Linear | source/dviglo/core/spline.cpp:211-224 | fewer than 2 knots give the empty variant, and t ≥ 1 gives the last knot |
| Splines.CatmullRomOrigin | source/dviglo/core/spline.cpp:180 | for t in [0, 1) the four knots from the origin index all exist |
| Splines.CatmullRom | source/dviglo/core/spline.cpp:171-209 | fewer than 4 knots give the empty variant, and t ≥ 1 gives the knot before the last |
| Splines.Blends | source/dviglo/core/spline.cpp:143-159 | one Bezier level has one blend fewer than its knots, and a pair whose left knot has no interpolation blends to the empty variant |
| Splines.Bezier | source/dviglo/core/spline.cpp:123-162 | knots of a type without interpolation give the empty variant |
| Splines.FullKnots | source/dviglo/core/spline.cpp:57-74 | the padded list has n+2 knots with the original ones in the middle; non-cyclic: front and back duplicated; cyclic: knots[n-2] before and knots[1] after |
| Splines.CurveEnds | source/dviglo/core/spline.cpp:46-76 | at t = 1 the linear and full Catmull-Rom paths end at the last knot, and the plain Catmull-Rom path at the knot before it (empty below 4 knots) |
| Splines.BezierOfConstant | source/dviglo/core/spline.cpp:123-162 | a Bezier curve through one repeated knot stays on it, when blending a value with itself gives the value |
| Splines.LinearOfConstant | source/dviglo/core/spline.cpp:211-224 | a linear path through one repeated knot stays on it, under the same condition |
| Splines.BezierInterpolation | source/dviglo/core/spline.cpp:123-162 | the loop that builds each level's blends, with the per-pair type switch, computes exactly the recursive Bezier definition |
| Splines.Spline.constructor | source/dviglo/core/spline.cpp:20-23 | a new spline is a Bezier curve without knots |
| Splines.Spline.WithMode | source/dviglo/core/spline.cpp:25-28 | a new spline has the given mode and no knots |
| Splines.Spline.WithKnots | source/dviglo/core/spline.cpp:30-34 | a new spline has the given mode and knots |
| Splines.Spline.GetKnot | source/dviglo/core/spline.h:65 | the knot returned is the one at the index |
| Splines.Spline.GetPoint | source/dviglo/core/spline.cpp:36-82 | no knots give the empty variant, one knot gives that knot, otherwise the curve of the mode at the parameter clamped into [0, 1]; in all cases the spline's `Point` |
| Splines.Spline.SetInterpolationMode | source/dviglo/core/spline.h:71 | only the mode changes |
| Splines.Spline.SetKnots | source/dviglo/core/spline.h:74 | the list is replaced wholesale, with no type check |
| Splines.Spline.SetKnot | source/dviglo/core/spline.cpp:84-96 | an index in range with the first knot's type replaces exactly that knot; otherwise nothing changes; all knots keep sharing one type |
| Splines.Spline.AddKnot | source/dviglo/core/spline.cpp:98-107 | the knot is appended only to an empty list or when its type equals the first knot's; all knots keep sharing one type |
| Splines.Spline.AddKnotAt | source/dviglo/core/spline.cpp:109-121 | the index is clamped to the size and the knot inserted there, the other knots keeping their order, under the same type rule |
| Splines.Spline.RemoveLastKnot | source/dviglo/core/spline.h:84 | the last knot is dropped (nothing happens on an empty list) |
| Splines.Spline.RemoveKnot | source/dviglo/core/spline.h:87 | exactly the knot at the index is erased (nothing happens out of range) |
| Splines.Spline.Clear | source/dviglo/core/spline.h:90 | no knots remain |
| Splines.AddKnots | source/dviglo/core/spline.cpp:98-107 | adding knots one after another keeps every knot of the first knot's type and never loses a knot |
| SpriteBatches.FlushSpec | source/dviglo/graphics/sprite_batch_base.cpp:180-256 | pending triangles are drawn and cleared first; otherwise pending quads are drawn and cleared; an empty flush changes nothing; the current texture and shaders are kept and earlier draws stay a prefix |
| SpriteBatches.AddTriangleKeepsValid | source/dviglo/graphics/sprite_batch_base.cpp:13-25 | after `add_triangle` no quad is pending, and the counters stay whole triangles below capacity and are never both positive |
| SpriteBatches.AddQuadKeepsValid | source/dviglo/graphics/sprite_batch_base.cpp:39-60 | after `add_quad` no triangle is pending, the counters stay valid, and the quad's texture and shaders are the current ones |
| SpriteBatches.TrianglesSubmittedAppend | source/dviglo/graphics/sprite_batch_base.cpp:19-20 | the triangle vertices handed over so far grow by exactly what is appended to the pending array |
| SpriteBatches.QuadsSubmittedAppend | source/dviglo/graphics/sprite_batch_base.cpp:54-55 | the quad vertices handed over so far grow by exactly what is appended to the pending array |
| SpriteBatches.FlushKeepsSubmitted | source/dviglo/graphics/sprite_batch_base.cpp:180-256 | a flush loses no vertex and adds none: drawn plus pending vertices are unchanged, for both kinds |
| SpriteBatches.SwitchKeepsSubmitted | source/dviglo/graphics/sprite_batch_base.cpp:45-52 | the flush on a texture or shader change loses no vertex of either kind |
| SpriteBatches.AddTriangleSubmits | source/dviglo/graphics/sprite_batch_base.cpp:13-25 | `add_triangle` adds exactly the triangle's three vertices, in order, to the vertices drawn or pending, and leaves the quads' unchanged |
| SpriteBatches.AddQuadSubmits | source/dviglo/graphics/sprite_batch_base.cpp:39-60 | `add_quad` adds exactly the quad's four vertices, in order, and leaves the triangles' unchanged |
| SpriteBatches.QuadCorner | source/dviglo/graphics/sprite_batch_base.cpp:157-164 | each of the six index slots of a quad names one of its four corners |
| SpriteBatches.QuadIndexPattern | source/dviglo/graphics/sprite_batch_base.cpp:154-165 | quad i's indices are 4i, 4i+1, 4i+2, 4i+2, 4i+3, 4i, all inside quad i's vertices and below 2000, so they fit in 16 bits |
| SpriteBatches.QuadDrawIndexCount | source/dviglo/graphics/sprite_batch_base.cpp:250-251 | the quad draw uses (pending quad vertices / 4)·6 indices, never more than the index buffer holds |
| SpriteBatches.GetViewportRect | source/dviglo/graphics/sprite_batch_base.cpp:62-67 | without a virtual screen the viewport is the whole window from (0, 0) |
| SpriteBatches.WriteQuadIndices | source/dviglo/graphics/sprite_batch_base.cpp:156-164 | one turn of the constructor loop writes quad i's six indices and no other slot |
| SpriteBatches.FillQuadIndices | source/dviglo/graphics/sprite_batch_base.cpp:151-166 | the constructor loop fills every slot of the index buffer with the quad pattern |
| SpriteBatches.SpriteBatchBase.constructor | source/dviglo/graphics/sprite_batch_base.cpp:146-178 | arrays of 1800 and 2000 vertices with both counters 0, null texture and shaders, `BLEND_ALPHA`, `CMP_ALWAYS`, no virtual screen, white shapes and the index buffer filled |
| SpriteBatches.SpriteBatchBase.SetShapeColor | source/dviglo/graphics/sprite_batch_base.cpp:27-32 | all three triangle vertices get the colour; nothing else of them changes |
| SpriteBatches.SpriteBatchBase.Flush | source/dviglo/graphics/sprite_batch_base.cpp:180-256 | the batch's new state is exactly `FlushSpec` of the old one |
| SpriteBatches.SpriteBatchBase.AddTriangle | source/dviglo/graphics/sprite_batch_base.cpp:13-25 | the batch's new state is exactly `AddTriangleSpec` of the old one, and stays valid |
| SpriteBatches.SpriteBatchBase.AppendTriangle | source/dviglo/graphics/sprite_batch_base.cpp:19-20 | the copy into the vertex array appends the triangle's three vertices to the pending ones |
| SpriteBatches.SpriteBatchBase.AddQuad | source/dviglo/graphics/sprite_batch_base.cpp:39-60 | the batch's new state is exactly `AddQuadSpec` of the old one, and stays valid |
| SpriteBatches.SpriteBatchBase.AppendQuad | source/dviglo/graphics/sprite_batch_base.cpp:54-55 | the copy into the vertex array appends the quad's four vertices to the pending ones |
| FontFaceBitmaps.ToShort | source/dviglo/ui/font_face_bitmap.cpp:114-120 | the `(short)` cast gives a value in the signed 16-bit range, congruent to the input modulo 2^16, and the input itself when it already fits |
| FontFaceBitmaps.ConvertFormatToNumComponents | source/dviglo/ui/font_face_bitmap.cpp:323-333 | 4 exactly for RGBA, 3 exactly for RGB, 2 exactly for luminance-alpha, 1 for every other format |
| FontFaceBitmaps.KerningKeyRoundTrip | source/dviglo/ui/font_face_bitmap.cpp:135-138 | packing `first << 16 \| second` and unpacking with `>> 16` and `& 0xffff` returns both code points when each is below 65536 |
| FontFaceBitmaps.KerningKeyOfHalves | source/dviglo/ui/font_face_bitmap.cpp:237-238 | every 32-bit key is the packing of its two unpacked halves, each below 65536 |
| FontFaceBitmaps.CopyRun | source/dviglo/ui/font_face_bitmap.cpp:359 | one `memcpy` row: the `len` target bytes become the source bytes; every other byte is kept |
| FontFaceBitmaps.BlitRowsFrame | source/dviglo/ui/font_face_bitmap.cpp:353-363 | the blit leaves every destination byte outside the target rows unchanged |
| FontFaceBitmaps.BlitRowsCopies | source/dviglo/ui/font_face_bitmap.cpp:353-363 | byte j of target row i is byte j of source row i, each image stepping by its own row stride |
| FontFaceBitmaps.RectFits | source/dviglo/ui/font_face_bitmap.cpp:355-361 | a rectangle inside an image gives rows that lie inside the image's bytes |
| FontFaceBitmaps.CopyBytes | source/dviglo/ui/font_face_bitmap.cpp:359 | the byte loop leaves the destination equal to `CopyRun` of its old contents |
| FontFaceBitmaps.CopyRows | source/dviglo/ui/font_face_bitmap.cpp:357-362 | the row loop leaves the destination equal to `BlitRows` of its old contents |
| FontFaceBitmaps.Blit | source/dviglo/ui/font_face_bitmap.cpp:353-363 | the destination bytes become `BlitRows` from the two rectangles' first bytes, with row strides of width·components |
| FontFaceBitmaps.Image.constructor | source/dviglo/ui/font_face_bitmap.cpp:217-218 | an image of the given size and components whose bytes are all zero |
| FontFaceBitmaps.CountFromFound | source/dviglo/ui/font_face_bitmap.cpp:70-102 | counting `page` elements from a position counts from the next matching one |
| FontFaceBitmaps.PagesFrom | source/dviglo/ui/font_face_bitmap.cpp:70-103 | the page loop only appends textures, at most one per declared page, and all of them when it succeeds |
| FontFaceBitmaps.PagesFromNeedsElements | source/dviglo/ui/font_face_bitmap.cpp:71-77 | fewer `page` elements than declared pages fails the loop |
| FontFaceBitmaps.AddGlyph | source/dviglo/ui/font_face_bitmap.cpp:111-124 | storing a `char` element adds exactly its id to the glyph keys |
| FontFaceBitmaps.GlyphsFromStep | source/dviglo/ui/font_face_bitmap.cpp:108-127 | one turn of the `char` loop stores the element and moves to the next `char` |
| FontFaceBitmaps.GlyphsFromKeys | source/dviglo/ui/font_face_bitmap.cpp:108-127 | the `char` loop adds a glyph for exactly the ids of the `char` elements |
| FontFaceBitmaps.LoadXmlNeedsFontAndPages | source/dviglo/ui/font_face_bitmap.cpp:43-55 | without a `font` root or a `pages` element the load fails and the face is unchanged |
| FontFaceBitmaps.LoadXmlNeedsEveryPage | source/dviglo/ui/font_face_bitmap.cpp:71-77 | the load fails when fewer `page` elements exist than `pages` declares |
| FontFaceBitmaps.LoadXmlLoadsEveryGlyph | source/dviglo/ui/font_face_bitmap.cpp:33-148 | a successful load adds every declared page and a glyph for exactly the old ids plus every `char` id |
| FontFaceBitmaps.Placed | source/dviglo/ui/font_face_bitmap.cpp:189-191 | a placed glyph lands on the last page and keeps its size and metrics |
| FontFaceBitmaps.PlaceGlyph | source/dviglo/ui/font_face_bitmap.cpp:179-193 | a glyph that fits stays on the current page; one that does not opens exactly one new page, and fails only when a fresh allocator cannot take it either; the placed glyph is on the last page and no other glyph changes |
| FontFaceBitmaps.PlaceGlyphs | source/dviglo/ui/font_face_bitmap.cpp:169-194 | the page count never goes down |
| FontFaceBitmaps.PlaceGlyphsPlacesUsed | source/dviglo/ui/font_face_bitmap.cpp:173-194 | a successful pass places exactly the used glyphs, each on an existing page with its size kept, and leaves every other glyph as it was |
| FontFaceBitmaps.PlaceGlyphsFailure | source/dviglo/ui/font_face_bitmap.cpp:185-186 | a failed pass means some used glyph does not fit even in a fresh allocator |
| FontFaceBitmaps.KeptKerningsExactly | source/dviglo/ui/font_face_bitmap.cpp:235-241 | a kerning pair ends up in the map exactly when it was there or both its glyphs exist, with the source's amount |
| FontFaceBitmaps.PageTextures | source/dviglo/ui/font_face_bitmap.cpp:204-221 | one page per counted page, full size except the last, which takes the allocator's size |
| FontFaceBitmaps.FontFaceBitmap.constructor | source/dviglo/ui/font_face_bitmap.cpp:24-27 | an empty face |
| FontFaceBitmaps.FontFaceBitmap.LoadXml | source/dviglo/ui/font_face_bitmap.cpp:33-148 | the result and new face are `LoadXmlSpec` of the old face and the document |
| FontFaceBitmaps.FontFaceBitmap.LoadPages | source/dviglo/ui/font_face_bitmap.cpp:70-103 | the page loop's result and textures are `PagesFrom` |
| FontFaceBitmaps.FontFaceBitmap.LoadGlyphs | source/dviglo/ui/font_face_bitmap.cpp:108-127 | the glyph map becomes `GlyphsFrom` the `char` elements |
| FontFaceBitmaps.FontFaceBitmap.LoadKernings | source/dviglo/ui/font_face_bitmap.cpp:129-142 | the kerning map becomes `KerningsFrom` the `kerning` elements |
| FontFaceBitmaps.FontFaceBitmap.Load | source/dviglo/ui/font_face_bitmap.cpp:150-244 | loading from itself succeeds and changes nothing; without `usedGlyphs` the other face is copied verbatim; otherwise the result is `RepackSpec`, which reads the source face's first texture only after the glyphs were placed |
| FontFaceBitmaps.FontFaceBitmap.PlaceUsedGlyphs | source/dviglo/ui/font_face_bitmap.cpp:169-194 | the placement loop's result, glyph map, page count and allocator history are those of `PlaceGlyphs` |
| FontFaceBitmaps.FontFaceBitmap.KeepKernings | source/dviglo/ui/font_face_bitmap.cpp:235-241 | the kerning map becomes `KeptKernings` over the new glyph keys |
| Strings.Scan | source/tools/tests/container/str.cpp:56-61 | no finished piece and no current piece contains the separator |
| Strings.Pieces | source/tools/tests/container/str.cpp:56-61 | splitting gives at least one piece and no piece contains the separator |
| Strings.NonEmpty | source/tools/tests/container/str.cpp:56-61 | dropping empty pieces keeps only non-empty pieces of the input, never more of them |
| Strings.NonEmptyKeepsAll | source/tools/tests/container/str.cpp:56-61 | pieces that are all non-empty are kept as they are |
| Strings.NonEmptyAppend | source/tools/tests/container/str.cpp:56-61 | dropping empty pieces distributes over concatenation |
| Strings.JoinSnoc | source/tools/tests/container/str.cpp:44-45 | joining one more part adds the glue and the part, except for the first part |
| Strings.JoinPiecesRestores | source/tools/tests/container/str.cpp:55-61 | joining the pieces of a split with the separator gives back the original string |
| Strings.SplitPiecesAreClean | source/tools/tests/container/str.cpp:55-61 | no split result contains the separator, and none is empty unless empty strings are kept |
| Strings.ScanSnoc | source/tools/tests/container/str.cpp:55-61 | a separator closes the current piece; any other character extends it |
| Strings.ScanWord | source/tools/tests/container/str.cpp:55-61 | a run without the separator extends the current piece |
| Strings.ScanThreeWords | source/tools/tests/container/str.cpp:55-61 | three separator-free words joined by the separator scan into the first two finished and the third current |
| Strings.SplitThreeWords | source/tools/tests/container/str.cpp:55-61 | three non-empty separator-free words joined by the separator split back into exactly those three words, in order, as `"aa bb CC"` splits into "aa", "bb", "CC" |
| Strings.KeptSnoc | source/tools/tests/container/str.cpp:55-61 | keeping one more piece adds it unless it is empty and empty strings are dropped |
| Strings.SplitStep | source/tools/tests/container/str.cpp:55-61 | one turn of the split loop: a separator closes the piece from `start`, any other character extends it |
| Strings.Split | source/tools/tests/container/str.cpp:55-61 | the split loop returns exactly `SplitResult` |
| Strings.Joined | source/tools/tests/container/str.cpp:44-45 | the joining loop returns exactly `Join` of the parts and glue |
| Strings.LowerChar | source/tools/tests/container/str.cpp:65-68 | an upper-case letter maps to a lower-case one; every other character is unchanged |
| Strings.UpperChar | source/tools/tests/container/str.cpp:65-68 | a lower-case letter maps to an upper-case one; every other character is unchanged |
| Strings.CaseRoundTrip | source/tools/tests/container/str.cpp:65-68 | lowering then raising an upper-case letter gives it back, and the other way round |
| Strings.ToLower | source/tools/tests/container/str.cpp:65-68 | same length, and no upper-case letter is left |
| Strings.ToUpper | source/tools/tests/container/str.cpp:65-68 | same length, and no lower-case letter is left |
| Strings.LowerThenUpperRestores | source/tools/tests/container/str.cpp:65-68 | a string with no lower-case letter survives lowering and raising |
| Strings.UpperThenLowerRestores | source/tools/tests/container/str.cpp:65-68 | a string with no upper-case letter survives raising and lowering |
| Strings.CharRun | source/tools/tests/container/str.cpp:65-66 | a run of consecutive code points of the requested length |
| Strings.CaseMappingExample | source/tools/tests/container/str.cpp:65-68 | the test's Latin and Cyrillic upper-case alphabet lowers to its lower-case one and back, with "@*?4点" unchanged |
| Strings.String.constructor | source/tools/tests/container/str.cpp:17-18 | a new string is empty |
| Strings.String.Resize | source/tools/tests/container/str.cpp:21-35 | the new length is `n`; shrinking keeps the prefix, growing keeps the old content as prefix |
| Strings.String.Assign | source/tools/tests/container/str.cpp:29-30 | the content becomes the assigned string |
| Strings.String.Compact | source/tools/tests/container/str.cpp:37-40 | compaction leaves the content unchanged |
| Strings.TestResizeAndCompact | source/tools/tests/container/str.cpp:16-41 | the lengths the test reads are 0, 9, 1024 and 10, and the string ends as "01234" of length 5 |
| Strings.TestJoinedAndReplace | source/tools/tests/container/str.cpp:43-53 | joining "aa", "bb", "CC" with "!" gives "aa!bb!CC", and replacing 3 characters at 10 of "bool Swap(T[]&)" gives "bool Swap(Array<T>&)" |
| Strings.String.Replace | source/tools/tests/container/str.cpp:50-52 | the span [pos, pos + length) is replaced by the new text; a span outside the string changes nothing |
| MathDefs.MaxReal | source/dviglo/ui/slider.cpp:153 | the float `Max` (also used by light.h's shadow range) is at least both arguments and is one of them, the right one on ties |
| MathDefs.ClampReal | source/dviglo/ui/slider.cpp:163 | `Clamp` stays inside a non-empty interval, keeps a value already inside, and takes the bound a value falls beyond |
| UiElements.BorderImage.constructor | source/dviglo/ui/slider.cpp:33 | a new knob at the origin with zero size and border, neither hovered nor selected, without a fixed size |
| UiElements.BorderImage.SetSize | source/dviglo/ui/slider.cpp:249-250 | the knob takes the requested size unless its size is fixed |
| RangedValues.StoredRange | source/dviglo/ui/slider.cpp:151-159 | the stored range is never negative: the request itself, or 0 for a negative one |
| RangedValues.StoredValue | source/dviglo/ui/slider.cpp:161-176 | the stored value lies in [0, range]: the request itself when inside, 0 below, the range above |
| RangedValues.SetValueIdempotent | source/dviglo/ui/slider.cpp:161-176 | requesting the value just stored changes nothing |
| RangedValues.StoredValueMonotone | source/dviglo/ui/slider.cpp:161-176 | a larger request never stores a smaller value |
| RangedValues.ChangeValueRoundTrip | source/dviglo/ui/slider.cpp:178-181 | changing an in-range value by delta and back by -delta restores it when the intermediate value was in range |
| Sliders.DragValue | source/dviglo/ui/slider.cpp:113-124 | the knob at 0 gives 0, the knob at the end gives the range, and a knob inside the free length gives a value in [0, range] |
| Sliders.ShareOfRange | source/dviglo/ui/slider.cpp:117 | a share of at most one of a non-negative range stays in [0, range] |
| Sliders.DragValueAsWritten | source/dviglo/ui/slider.cpp:107-124 | as written, a zero free length makes the drag value 0/0, NaN; otherwise it is `DragValue` |
| Sliders.KnobFillingTheBarDividesByZero | source/dviglo/ui/slider.cpp:107-117 | a 100x20 slider with a fixed 100x10 knob passes the drag guard, clamps the coordinate to 0 and computes 0/0 |
| Sliders.PageOffset | source/dviglo/ui/slider.cpp:261-262 | the offset is the press's distance from the knob's centre along the orientation: negative before the knob, non-negative after it |
| Sliders.FreeLength | source/dviglo/ui/slider.cpp:115-123 | the free length is the slider's length minus the knob's along the orientation |
| Sliders.Slider.constructor | source/dviglo/ui/slider.cpp:25-37 | horizontal, range 1, value 0, not dragging, repeat rate 0, enabled, a new knob laid out once, no events |
| Sliders.Slider.UpdateSlider | source/dviglo/ui/slider.cpp:206-254 | one layout pass; a zero range gives the knob the slider's size unless fixed, at the origin; a positive range leaves the knob as modelled |
| Sliders.Slider.Update | source/dviglo/ui/slider.cpp:53-61 | dragging turns hovering on; the knob is hovered and selected exactly when the slider is hovered |
| Sliders.Slider.OnDragBegin | source/dviglo/ui/slider.cpp:92-102 | a drag with exactly the left button records the cursor and knob position and drags when it began on the knob; any other buttons change nothing |
| Sliders.Slider.OnDragMove | source/dviglo/ui/slider.cpp:104-127 | no drag, not editable or a knob as large as the slider changes nothing; otherwise the knob coordinate is the clamped cursor offset, and the value becomes the stored drag value with one SliderChanged when it changes; a zero free length leaves the value alone |
| Sliders.Slider.OnDragEnd | source/dviglo/ui/slider.cpp:129-138 | a drag with exactly the left button stops dragging and deselects; any other leaves both |
| Sliders.Slider.SetOrientation | source/dviglo/ui/slider.cpp:145-149 | the orientation is set and the layout refreshed |
| Sliders.Slider.SetSize | source/dviglo/ui/slider.cpp:140-143 | the size is set and a change of size refreshes the layout |
| Sliders.Slider.SetRange | source/dviglo/ui/slider.cpp:151-159 | the range becomes `StoredRange`; the value is kept; only a change refreshes the layout |
| Sliders.Slider.SetValue | source/dviglo/ui/slider.cpp:161-176 | the value becomes `StoredValue`; exactly a change refreshes the layout and sends one SliderChanged with the new value |
| Sliders.Slider.ChangeValue | source/dviglo/ui/slider.cpp:178-181 | the value becomes `StoredValue` of old value plus delta, with one SliderChanged exactly when it changes |
| Sliders.Slider.SetRepeatRate | source/dviglo/ui/slider.cpp:183-186 | the repeat rate is the request, or 0 for a negative one |
| Sliders.Slider.Page | source/dviglo/ui/slider.cpp:256-281 | a non-editable slider sends nothing; an editable one sends one SliderPaged with the knob-centre offset, pressed only when selected, pressed, repeating and the timer is due |
| ProgressBars.ProgressBar.constructor | source/dviglo/ui/progress_bar.cpp:17-34 | horizontal, range 1, value 0, percent text shown and visible, disabled, not editable, unfocused, a new knob laid out once, no events |
| ProgressBars.ProgressBar.UpdateProgressBar | source/dviglo/ui/progress_bar.cpp:119-150 | one layout pass; a zero range gives the knob the bar's size unless fixed, at the origin; a positive range leaves the knob as modelled |
| ProgressBars.ProgressBar.SetOrientation | source/dviglo/ui/progress_bar.cpp:55-59 | the orientation is set and the layout refreshed |
| ProgressBars.ProgressBar.SetRange | source/dviglo/ui/progress_bar.cpp:61-69 | the range becomes `StoredRange`; the value is kept; only a change refreshes the layout |
| ProgressBars.ProgressBar.SetValue | source/dviglo/ui/progress_bar.cpp:71-86 | the value becomes `StoredValue`; exactly a change refreshes the layout and sends one ProgressBarChanged with the new value |
| ProgressBars.ProgressBar.ChangeValue | source/dviglo/ui/progress_bar.cpp:88-91 | the value becomes `StoredValue` of old value plus delta, with one event exactly when it changes |
| ProgressBars.ProgressBar.SetShowPercentText | source/dviglo/ui/progress_bar.cpp:93-97 | the flag is set and the percent text is visible exactly when it is |
| ScrollBars.LayoutShape | source/dviglo/ui/scroll_bar.cpp:92-120 | square buttons as thick as the bar at both ends and the slider, never of negative length, between them; the row spans the bar unless it is shorter than two buttons, when the slider has no length |
| ScrollBars.LayoutTiles | source/dviglo/ui/scroll_bar.cpp:92-120 | when the bar is at least two buttons long the three children tile it end to end and span it exactly |
| ScrollBars.ButtonRects | source/dviglo/ui/scroll_bar.cpp:131-140 | the buttons show the left/right rects when horizontal and the up/down rects when vertical |
| ScrollBars.Button.constructor | source/dviglo/ui/scroll_bar.cpp:32-34 | a button at the origin with zero size and image rect and the given repeat delay and rate |
| ScrollBars.ScrollBar.constructor | source/dviglo/ui/scroll_bar.cpp:22-54 | step 0.1, factor 1, enabled, zero image rects, a horizontal slider with range 1, value 0 and repeat rate 20, buttons repeating after 0.4 s at 20 per second, the bar and every child at the origin with zero size, and no events |
| ScrollBars.ScrollBar.OnResize | source/dviglo/ui/scroll_bar.cpp:92-120 | the children's positions and sizes become `LayoutFor` the slider's orientation and the new size |
| ScrollBars.ScrollBar.SetOrientation | source/dviglo/ui/scroll_bar.cpp:127-143 | the slider takes the orientation, the buttons the matching image rects, and the children are laid out again for the current size |
| ScrollBars.ScrollBar.SetRange | source/dviglo/ui/scroll_bar.cpp:145-148 | the slider's range becomes `StoredRange`; its value is kept |
| ScrollBars.ScrollBar.SetValue | source/dviglo/ui/scroll_bar.cpp:150-153 | the slider's value becomes `StoredValue`; one ScrollBarChanged is forwarded exactly when it changes |
| ScrollBars.ScrollBar.ChangeValue | source/dviglo/ui/scroll_bar.cpp:155-158 | the slider's value becomes `StoredValue` of old value plus delta, forwarding one event exactly when it changes |
| ScrollBars.ScrollBar.HandleSliderChanged | source/dviglo/ui/scroll_bar.cpp:265-272 | one ScrollBarChanged carrying the slider's value is sent |
| ScrollBars.ScrollBar.SetScrollStep | source/dviglo/ui/scroll_bar.cpp:160-163 | the step is the request, or 0 for a negative one |
| ScrollBars.ScrollBar.SetStepFactor | source/dviglo/ui/scroll_bar.cpp:165-168 | the factor is the request, or the epsilon when it is smaller |
| ScrollBars.ScrollBar.EffectiveScrollStep | source/dviglo/ui/scroll_bar.cpp:195-198 | the effective step is non-negative, positive for a positive step, and the step itself at factor 1 |
| ScrollBars.ScrollBar.StepBack | source/dviglo/ui/scroll_bar.cpp:170-173 | the value becomes `StoredValue` of value minus the effective step, so it never grows from an in-range value, with one event exactly when it changes |
| ScrollBars.ScrollBar.StepForward | source/dviglo/ui/scroll_bar.cpp:175-178 | the value becomes `StoredValue` of value plus the effective step, so it never shrinks from an in-range value, with one event exactly when it changes |
| ScrollBars.ScrollBar.HandleBackButtonPressed | source/dviglo/ui/scroll_bar.cpp:253-257 | a non-editable bar keeps its value, events, layout passes and knob; an editable one steps back: the value does not increase (unless it was above the range) and one ScrollBarChanged is forwarded exactly when it changes |
| ScrollBars.ScrollBar.HandleForwardButtonPressed | source/dviglo/ui/scroll_bar.cpp:259-263 | a non-editable bar keeps its value, events, layout passes and knob; an editable one steps forward: the value does not decrease (unless it was above the range) and one ScrollBarChanged is forwarded exactly when it changes |

## Left out

- Floating point is modelled as exact `real` arithmetic. Rounding, infinities and NaN are not modelled, except the one NaN the slider finding needs. The arithmetic inside the Bezier and Catmull-Rom evaluation is a parameter.
- UI positions and sizes are unbounded integers; 32-bit overflow of pixel coordinates is not modelled.
- GPU, window and file-system calls are not modelled. This covers vertex and index buffer locking, draw calls, texture creation, image loading and the error dialog. The sprite batch records its draws as a log of values, and the font face takes its image loader and texture format as parameters.
- XML documents are taken as already parsed. An element has a name, a value, attributes and element children; text nodes, comments and parse errors are not modelled.
- The string-to-number conversions `ToI32`, `ToU32` and `ToFloat` are parameters of the loaders that use them. Their definitions are not part of this model.
- TextScan: `sscanf` text that does not match its pattern gives zeros. A `%d` field that overflows 32 bits counts as no conversion.
- IntRects: rectangles are unbounded integers with no overflow.
- Strings: case mapping covers ASCII and the basic Cyrillic alphabet. Other code points are left unchanged, and there is no Unicode case folding. The `IsShort` checks are about the storage of the `String` class, which is not part of this model.
- Strings: the semantics of `str.h` come from what the container test asserts. The header itself is not part of this model. A `Replace` span outside the string changes nothing.
- RenderPaths.RenderPath.InsertCommand and RenderPaths.RenderPath.RemoveCommand: `render_path.cpp` is not part of this model. Out-of-range positions follow the engine's vector `Insert` (append) and `Erase` (no change).
- RenderPaths.RenderPath.IsEnabled, RenderPaths.RenderPath.IsAdded, RenderPaths.RenderPath.SetEnabled and RenderPaths.RenderPath.ToggleEnabled match tags by exact string equality. The comparison is defined in `render_path.cpp`, which is not part of this model, so case-insensitive tag matching is not modelled.
- Scenes: `scene.cpp` is not part of this model. The contracts come from the doc comments in `scene.h`.
- Scenes.Scene: the tag cache is keyed by the tag string, not by its `StringHash`; hash collisions between tags are not modelled.
- Scenes.NextFreeId: the engine loops forever when a range is full. The model stops after one full cycle and reports `None`.
- The iteration order of the engine's hash maps is a parameter: a sequence listing the keys. It matters for the glyph repack and the kerning filter.
- FontFaceBitmaps.FontFaceBitmap.Load: the area allocator is an oracle. It is a function of the rectangles placed since its last reset, plus its resulting size. `LoadFaceTexture`'s format is a parameter.
- FontFaceBitmaps.FontFaceBitmap.Load: the repack's pixel copy into the new pages is not connected to the page textures. `Blit` is modelled and proved on its own over byte arrays, and `SaveFaceTexture` is not modelled.
- FontFaceBitmaps: the font's memory-use accounting, the debug log and `Save` are not modelled. `font_face.h` is not part of this model.
- SpriteBatches.GetViewportRect: only the branch without a virtual screen is modelled. The virtual-screen branch computes a float letterbox.
- SpriteBatches: the `set_shape_color(Color)` overload, which converts a float colour, is not modelled. The model takes the colour already packed into 32 bits.
- PList: `PListValue`'s typed constructors are not modelled; they are the setters applied to a fresh value.
- Events are recorded as a log of values on the object that sends them. Subscribers, and the variant maps that carry event data, are not modelled.
- Applications: the engine's frame loop and the `bad_alloc` handler in `Run` are not modelled. The setup, start and stop hooks and the engine's initialisation are modelled by what they leave: the messages they log at error level, an optional error exit in `Setup` and `Start`, and their exit codes. An error exit is taken to end its hook.
- Lights: the split limits 4 and 6 are constants only; nothing is proved about them.
- Sliders.Slider.UpdateSlider: for a positive range, the knob's size and position are float computations. This branch only counts a layout pass, and the percent text is not modelled.
- ProgressBars.ProgressBar.UpdateProgressBar: the same holds for a positive range, and the percent text is not modelled.
- UiElements.BorderImage.SetSize: the minimum and maximum sizes of `UIElement::SetSize` are reduced to one `fixedSize` flag. `ui_element.h` and `math_defs.h` are not part of this model.
- Sliders.Slider.OnDragBegin: whether the cursor is on the knob (`IsInside`) is the parameter `onKnob`.
- Sliders.Slider.Page: the repeat timer test is the parameter `timerDue`. The Lerp over the press distance that it compares against is not modelled.
- Sliders: `OnHover`, `OnClickBegin` and `OnClickEnd` are not modelled. They only decide hovering through hit testing and then call `Page`.
- ScrollBars: `HandleSliderPaged` is not modelled. It synthesizes a hover on the back button for a negative page offset and on the forward button otherwise, then a click begin or a click end on the same button depending on whether the slider is pressed; the buttons' hover and click handling is not part of this model. Slider events that come from direct mouse input are not forwarded in the model, because only the scroll bar's own calls go through `SetValue`.
- ScrollBars.ScrollBar.constructor: it states the layout for the initial zero size. It does not run `SetOrientation`'s full layout.
- Sliders, ProgressBars and ScrollBars: `apply_attributes`, `FilterImplicitAttributes` and attribute registration are not modelled. A layout refresh shows only in the `layoutPasses` counter.

## Findings

| source | as written | input that shows it | evidently intended | confidence | as-written member | corrected member |
|---|---|---|---|---|---|---|
| source/dviglo/ui/slider.cpp:104-127 | The drag guard compares the whole sizes of slider and knob. A fixed-size knob exactly as long as the slider, but of another thickness, passes the guard. The knob coordinate is then clamped into [0, 0], and lines 117/123 divide 0 by 0. `Clamp` passes the NaN through to `value_`, and a SliderChanged event is sent. | a horizontal slider of 100x20 with a fixed-size knob of 100x10, dragged | a knob that fills the bar along the orientation leaves the value unchanged | not executed; medium | Sliders.DragValueAsWritten, Sliders.KnobFillingTheBarDividesByZero | Sliders.DragValue, Sliders.Slider.OnDragMove |
