# OpenGL model viewer: a Dafny model of its logic

This project models the discrete, sequential logic of a small OpenGL model
viewer and proves properties of it. The viewer loads a model with Assimp,
caches its textures, draws the meshes with per-type sampler names, drives a
fly-through camera from the keyboard and mouse, and draws a light cube. GL,
GLFW, Assimp, stb_image and the C file API are replaced by abstract state:

- `Gl.Context` (gl.dfy) stands for the GL context. It hands out object names
  from one counter and never reuses them. `live` is the set of names not yet
  deleted, and `trace` lists the calls whose order and arguments drawing
  depends on. Uniform locations and compile and link status are oracle
  functions fixed when the context is made.
- `Shaders.FileSystem` stands for `fopen`/`fread`/`fclose` over a fixed map
  from paths to contents.
- An imported scene is a value (`Models.AiScene`). An image decoder is a
  function from a path to `DecodeFailed` or `Decoded(width, height, channels)`.
- The camera's `updateCameraVectors` (trigonometry and normalisation) is an
  opaque function `basis(yaw, pitch, worldUp)`. Floats are `real`.
- GLFW key polling is the set of keys held during one `processInput` call.
  Cursor and scroll positions arrive as reals. The window calls are recorded
  in an `Input.Window` object.

The modules follow the source files:

| module | file | source |
|---|---|---|
| `Wrappers` | wrappers.dfy | the `Option` result type (`std::optional`) |
| `Text` | text.dfy | `find_last_of`, `substr` and `to_string`, with size_t wrap-around |
| `Geometry` | geometry.dfy | vectors and symbolic matrices |
| `Gl` | gl.dfy | the abstract GL context |
| `Cameras` | camera.dfy | src/Camera.cpp |
| `Shaders` | shader.dfy | src/Shader.cpp |
| `Meshes` | mesh.dfy | src/Mesh.cpp |
| `Models` | model.dfy | src/Model.cpp |
| `Input` | input.dfy | the callbacks, `processInput` and one render-loop frame of src/Main.cpp |

Each imperative entity of the source is a Dafny class: `Camera`, `Shader`,
`Mesh`, `Model`, and the program's globals as `Input.App`. Each method is
proved against a pure specification function of its inputs and old state.
The properties the program promises are then proved about those functions.

## Model

| member | source | states |
|---|---|---|
| Text.FindLastOf | src/Model.cpp:22 | the last index of the character, and npos exactly when it does not occur |
| Text.DirectoryOf | src/Model.cpp:22 | the directory is everything before the last '/', or the whole path when there is none |
| Text.StripAsWritten | src/Model.cpp:128-129 | the strip as written: with a '/', the suffix after the last '/'; with none, the name minus its last character |
| Text.BaseName | src/Model.cpp:128-129 | the intended strip: the suffix after the last '/', or the whole name when there is none |
| Text.StripShortens | src/Model.cpp:129 | the as-written strip always shortens a non-empty name |
| Text.NatToStringDigits | src/Mesh.cpp:138 | `std::to_string` gives decimal digits, a single digit exactly below 10, and ends with n mod 10 |
| Text.NatToStringInjective | src/Mesh.cpp:138-150 | different counters give different decimal strings |
| Cameras.Initial | src/Camera.cpp:4-15 | a new camera has the given position, up, yaw and pitch, speed 3, sensitivity 0.1, zoom 45, and a basis matching its angles |
| Cameras.Camera.constructor | src/Camera.cpp:4-15 | the constructed state is `Initial` of the arguments |
| Cameras.Camera.FromComponents | src/Camera.cpp:17-28 | the component constructor gives the same state as the vector one |
| Cameras.Reoriented | src/Camera.cpp:111-121 | updateCameraVectors changes only front, right and up, to the basis of the angles |
| Cameras.Camera.UpdateCameraVectors | src/Camera.cpp:111-121 | the new state is `Reoriented` of the old one |
| Cameras.Sign | src/Camera.cpp:50-55 | Forward, Right and Up add along their axis; the other three subtract |
| Cameras.Moved | src/Camera.cpp:45-57 | keyboard movement changes only the position |
| Cameras.MovedAlongAxis | src/Camera.cpp:45-57 | the position moves by ± the direction's axis times speed × deltaTime |
| Cameras.ForwardThenBackwardRestores | src/Camera.cpp:50-51 | Forward then Backward with the same deltaTime restores the state exactly |
| Cameras.MovementUndone | src/Camera.cpp:50-55 | every movement is undone by its opposite |
| Cameras.Looked | src/Camera.cpp:59-72 | Left and Right lower and raise yaw by 1, Up and Down lower and raise pitch by 1; there is no clamp and deltaTime is unused; then the camera reorients |
| Cameras.MousePitch | src/Camera.cpp:80-92 | constrained pitch is clamped to [-89, 89]; unconstrained it is old + yoffset × sensitivity |
| Cameras.MouseMoved | src/Camera.cpp:74-95 | yaw gains xoffset × sensitivity, pitch is `MousePitch`, then the camera reorients |
| Cameras.ConstrainedPitchStaysInRange | src/Camera.cpp:82-92 | over any run of constrained mouse moves, pitch stays in [-89, 89] |
| Cameras.ScrollZoom | src/Camera.cpp:97-109 | zoom is old − yoffset clamped to [1, 45] |
| Cameras.Scrolled | src/Camera.cpp:97-109 | scrolling changes only the zoom |
| Cameras.ScrollsKeepZoomInRange | src/Camera.cpp:97-109 | after any non-empty run of scrolls, zoom is in [1, 45] and nothing else has changed |
| Cameras.Camera.ProcessMovement | src/Camera.cpp:45-57 | the new state is `Moved` of the old one, and the basis stays valid |
| Cameras.Camera.ProcessLooking | src/Camera.cpp:59-72 | the new state is `Looked` of the old one |
| Cameras.Camera.ProcessMouseMovement | src/Camera.cpp:74-95 | the new state is `MouseMoved` of the old one |
| Cameras.Camera.ProcessMouseScroll | src/Camera.cpp:97-109 | the new state is `Scrolled` of the old one |
| Shaders.FileSystem.Open | src/Shader.cpp:14-20 | a missing path gives no handle; an existing one gives a fresh open handle on that path |
| Shaders.FileSystem.Read | src/Shader.cpp:22-33 | `fread` of the whole file as one element returns 1, or 0 for an empty file |
| Shaders.FileSystem.Close | src/Shader.cpp:35 | the handle is no longer open |
| Shaders.ReadSource | src/Shader.cpp:14-35 | a source is read iff the file exists and is non-empty; an empty file stays open |
| Shaders.FirstFailureDecides | src/Shader.cpp:14-104 | the outcome is the first failing step in the order open/read vertex, open/read fragment, compile vertex, compile fragment, link; it is Linked iff every step succeeds |
| Shaders.EmptyVertexSourceFailsRead | src/Shader.cpp:23-33 | an empty vertex file fails at the read step |
| Shaders.Create | src/Shader.cpp:12-110 | a program is returned iff every step succeeds; files left open and GL objects left live are exactly the leaks of the step that failed |
| Shaders.CompileAndLink | src/Shader.cpp:61-110 | the GL half: compile failures leave created shaders live; on success they are deleted and the program id is returned |
| Shaders.CheckedUniform | src/Shader.cpp:155-178 | a location of -1 sends nothing |
| Shaders.Shader.FromId | src/Shader.cpp:112 | the shader holds the given id |
| Shaders.Shader.MoveFrom | src/Shader.cpp:119-122 | the move constructor swaps with a default id of 0, so the source ends with 0 |
| Shaders.Shader.MoveAssign | src/Shader.cpp:124-128 | move assignment swaps the ids |
| Shaders.Shader.Destroy | src/Shader.cpp:114-117 | the destructor deletes the program and nothing else |
| Shaders.Shader.Use | src/Shader.cpp:135-138 | one glUseProgram of the id |
| Shaders.Shader.SetBool | src/Shader.cpp:140-143 | the located value is sent unchecked, as 1 or 0 |
| Shaders.Shader.SetInt | src/Shader.cpp:145-148 | the located value is sent unchecked |
| Shaders.Shader.SetFloat | src/Shader.cpp:150-153 | the located value is sent unchecked |
| Shaders.Shader.SetMat4 | src/Shader.cpp:155-166 | nothing is sent when the uniform is not found |
| Shaders.Shader.SetVec3 | src/Shader.cpp:168-179 | nothing is sent when the uniform is not found |
| Meshes.FormatFor | src/Mesh.cpp:32-45 | 1 channel is RED, 4 is RGBA, and every other count is RGB |
| Meshes.LoadedTexture | src/Mesh.cpp:26-30 | loading fails iff decoding fails; a loaded texture carries the new name, the file and the type unchanged |
| Meshes.LoadTexture | src/Mesh.cpp:10-53 | the name is generated first and stays live when decoding fails; the upload uses the decoded size and `FormatFor` |
| Meshes.Mesh.constructor | include/Mesh.hpp:51-59 | a default mesh has no data and handles 0 |
| Meshes.Mesh.Create | src/Mesh.cpp:56-91 | the mesh stores the vertices, indices and textures unchanged, with three fresh handles, and its GL calls are `CreateEvents` of the new mesh |
| Meshes.CreateUploadsIntoOwnBuffers | src/Mesh.cpp:58-79 | each upload goes into the mesh's own buffer for its target, with that target's data, while the mesh's vertex array is bound; both targets are uploaded, and the vertex array is unbound at the end |
| Meshes.Mesh.Destroy | src/Mesh.cpp:93-98 | the destructor deletes the vertex array and both buffers |
| Meshes.Mesh.MoveFrom | src/Mesh.cpp:100-108 | all six fields are swapped with a default mesh, so the source ends empty with handles 0 |
| Meshes.Mesh.MoveAssign | src/Mesh.cpp:110-120 | all six fields are swapped |
| Meshes.NextSamplerName | src/Mesh.cpp:133-151 | the name is the type's stem and its counter, and only that type's counter advances |
| Meshes.CountKindGrows | src/Mesh.cpp:136-150 | a later texture of the same type has a higher rank |
| Meshes.SamplerNamesDistinct | src/Mesh.cpp:136-150 | no two textures of a mesh get the same sampler name |
| Meshes.SlotAt | src/Mesh.cpp:153 | texture i is looked up under its own sampler name |
| Meshes.Mesh.BindUnit | src/Mesh.cpp:129-163 | one loop iteration: unit i is selected, its counter advances, and the texture is bound only when the uniform is found |
| Meshes.Mesh.Draw | src/Mesh.cpp:122-170 | the GL calls are exactly `DrawEvents` of the mesh |
| Meshes.DrawUnits | src/Mesh.cpp:129-169 | texture i uses unit i, and the last unit selected is 0 |
| Meshes.DrawBound | src/Mesh.cpp:153-162 | exactly the textures whose uniform is found are bound, in order |
| Meshes.DrawOnce | src/Mesh.cpp:165-166 | one draw call, whose count is the index count |
| Meshes.DrawEnds | src/Mesh.cpp:165-169 | the draw ends by unbinding the vertex array and selecting unit 0 |
| Models.VerticesAt | src/Model.cpp:56-81 | vertex i is built from scene vertex i |
| Models.VertexDefaults | src/Model.cpp:60-78 | a missing normal or texture-coordinate array gives zero vectors |
| Models.CollectVertices | src/Model.cpp:56-81 | the loop builds one vertex per scene vertex, in order |
| Models.FlattenPrefix | src/Model.cpp:83-91 | the indices of the first k faces are a prefix of those of the first n |
| Models.FaceInPlace | src/Model.cpp:83-91 | each face's indices appear unchanged at its offset |
| Models.CollectIndices | src/Model.cpp:83-91 | the nested loop concatenates every face's indices in face order |
| Models.FindFile | src/Model.cpp:119-120 | the first cache entry with the key, or the end |
| Models.FindFileAppend | src/Model.cpp:119-120 | appending to the cache does not change an earlier hit |
| Models.ResolveRefCases | src/Model.cpp:119-140 | a hit appends the cached texture and changes nothing; a miss consumes a GL name; a load is appended to both lists; a failure is skipped |
| Models.ResolveRefsGrow | src/Model.cpp:114-141 | the cache only grows at its end, with entries of the slot's type, and holds every texture returned |
| Models.SlashReferenceNeverHits | src/Model.cpp:119 | with no '/' in any cached name, a reference holding '/' is never a hit |
| Models.AsWrittenKeysHaveNoSlash | src/Model.cpp:128-139 | as written, no cached name ever holds a '/' |
| Models.StripDropsLastCharacter | src/Model.cpp:129 | as written, "diffuse.png" is loaded as "diffuse.pn" |
| Models.RepeatedReferenceLoadsTwice | src/Model.cpp:119-140 | as written, a reference repeated later in a slot is loaded and cached twice |
| Models.KeyedCacheStaysUnique | src/Model.cpp:119-140 | with the lookup keyed by the stored name, no two cached textures share a name |
| Models.FixedRepeatedReferenceLoadsOnce | src/Model.cpp:119-140 | with the corrected strip and lookup, a repeated reference is loaded once and returned twice |
| Models.MaterialTexturesOrdered | src/Model.cpp:93-105 | a material's new cache entries come in slot order, and every returned texture is cached |
| Models.SlotsOrdered | src/Model.cpp:95-105 | resolving four slots in turn keeps diffuse, specular, normal, height order |
| Models.BuildMeshShape | src/Model.cpp:50-108 | a built mesh has the vertices and indices of its scene mesh |
| Models.BuildOwnShapes | src/Model.cpp:38-42 | a node's own meshes are built in index order |
| Models.BuildNodeFollowsPreOrder | src/Model.cpp:36-48 | the meshes built for a node are those of its pre-order flattening |
| Models.BuildChildrenFollowPreOrder | src/Model.cpp:44-47 | children's subtrees follow in child order |
| Models.MeshTracesAt | src/Model.cpp:30-33 | the i-th mesh's part of the trace is that mesh's draw |
| Models.ConcatDraws | src/Model.cpp:30-33 | concatenated parts with one draw each give one draw per part, in order |
| Models.OneDrawPerMesh | src/Model.cpp:28-34 | drawing a model issues one draw per mesh, in order, with that mesh's index count |
| Models.MeshesDataAt | src/Model.cpp:41 | the stored list of meshes, read at i, is mesh i's data |
| Models.Model.constructor | include/Model.hpp:29 | a new model has no meshes, no directory and an empty cache |
| Models.Model.FindLoaded | src/Model.cpp:119-120 | the linear search finds `FindFile` of the cache |
| Models.Model.LoadReference | src/Model.cpp:116-140 | one reference resolved against the cache, the corrected way (see Findings) |
| Models.Model.LoadMaterialTextures | src/Model.cpp:110-144 | the loop's result, cache and GL state are `ResolveRefs` of the slot's references |
| Models.Model.LoadMaterial | src/Model.cpp:93-105 | the four slots in order: diffuse, specular, HEIGHT as Normal, AMBIENT as Height |
| Models.Model.ProcessMesh | src/Model.cpp:50-108 | the mesh, cache and GL state are `BuildMesh` of the old state |
| Models.Model.ProcessOwn | src/Model.cpp:38-42 | the first loop appends `BuildOwn` of the node's mesh indices |
| Models.Model.ProcessOwnStep | src/Model.cpp:40-41 | one iteration appends the next mesh |
| Models.Model.ProcessChildren | src/Model.cpp:44-47 | the second loop appends `BuildChildren` of the node's children |
| Models.Model.ProcessChildStep | src/Model.cpp:46 | one iteration appends one child's subtree |
| Models.Model.ProcessNode | src/Model.cpp:36-48 | the meshes appended are `BuildNode` of the node, in pre-order |
| Models.Model.Create | src/Model.cpp:9-26 | no model iff the scene is missing, incomplete or rootless, with GL untouched; otherwise the directory is `DirectoryOf(path)` and the meshes are `BuildNode` of the root |
| Models.Model.DrawMesh | src/Model.cpp:32 | one iteration draws mesh idx |
| Models.Model.Draw | src/Model.cpp:28-34 | the trace gains every mesh's draw, in mesh order |
| Input.ToU32 | src/Main.cpp:32-33 | int to uint32_t is reduction modulo 2^32, the identity on [0, 2^32) |
| Input.App.constructor | src/Main.cpp:19-27 | 800 × 600, the camera at (0, 0, 3), lastX/lastY 400/300, firstMouse set, times 0, toggles off |
| Input.App.FrameBufferSize | src/Main.cpp:29-35 | g_width and g_height become the new size as uint32_t, and glViewport is called with it |
| Input.CursorOffsets | src/Main.cpp:46-54 | the first event gives (0, 0); later ones give (xpos − lastX, lastY − ypos), with y inverted |
| Input.CursorMoved | src/Main.cpp:56-57 | after any event lastX and lastY are its position |
| Input.OffsetsTelescope | src/Main.cpp:37-60 | the offsets of a run of events add up to the cursor's total motion, with y inverted |
| Input.App.MouseCallback | src/Main.cpp:37-60 | the cursor moves to the event and the camera gets `MouseMoved` with the offsets and pitch constrained |
| Input.App.ScrollCallback | src/Main.cpp:62-68 | only the y offset reaches the camera |
| Input.DeltasTelescope | src/Main.cpp:414-416 | the frames' deltaTime values add up to the time since lastFrame |
| Input.Flip | src/Main.cpp:77-109 | a toggle flips exactly when its keys are held |
| Input.HeldChordsAlternate | src/Main.cpp:77-109 | there is no edge detection: after n calls with a chord held, its flag is back where it started exactly when n is even, and a flag whose keys are not held never changes |
| Input.WindowEvents | src/Main.cpp:77-109 | one window call for each chord held, and none otherwise |
| Input.WindowFollowsToggles | src/Main.cpp:81-108 | each window call sets the mode the toggle now records: full screen at (0, 0) and 60 Hz, windowed at (100, 100) |
| Input.PolygonEvents | src/Main.cpp:166-180 | F sends one glPolygonMode, LINE when wireframe was off and FILL when it was on |
| Input.App.WindowKeys | src/Main.cpp:72-109 | Escape sets the close flag; the chords flip their toggles and make their window calls |
| Input.App.MoveIfHeld | src/Main.cpp:116-119 | a movement key moves the camera only while held |
| Input.App.MovementKeys | src/Main.cpp:116-144 | E, Q, W, S, A, D map to Up, Down, Forward, Backward, Left, Right, applied in that order |
| Input.App.LookIfHeld | src/Main.cpp:146-149 | an arrow key turns the camera only while held |
| Input.App.LookingKeys | src/Main.cpp:146-164 | the arrows map to Looking Left, Right, Up, Down, in that order |
| Input.App.Steer | src/Main.cpp:111-164 | the camera becomes `Steered` of the old one: reset, then the moves, then the turns |
| Input.OtherKeysKeepCamera | src/Main.cpp:111-164 | keys that do not steer leave the camera unchanged |
| Input.SpaceForgetsCamera | src/Main.cpp:111-114 | with Space held the old camera does not matter: the reset to (0, 0, 3) happens before any move |
| Input.BalancedKeysCancel | src/Main.cpp:116-144 | opposite movement keys held together cancel exactly |
| Input.MovesBeforeLooking | src/Main.cpp:126-164 | W with an arrow moves along the old front and only then turns |
| Input.App.PolygonKey | src/Main.cpp:166-180 | F flips wireframe and sends the matching polygon mode |
| Input.App.ProcessInput | src/Main.cpp:70-181 | the close flag, window calls, toggles, camera and GL calls of one call, in source order |
| Input.App.DrawModel | src/Main.cpp:425-439 | modelShader's view position, projection, view and model uniforms, then the model's draw |
| Input.App.DrawLight | src/Main.cpp:458-469 | lightShader's projection, view and model uniforms, then the light cube's draw |
| Input.App.DrawScene | src/Main.cpp:420-469 | a clear, the model, then the light cube |
| Input.App.RenderFrame | src/Main.cpp:412-469 | deltaTime = current − lastFrame, then lastFrame = current; processInput; then the scene |
| Input.FrameDrawOrder | src/Main.cpp:433-469 | a frame's draw calls are the model's meshes in order and then the light cube |

## Left out

- GL, GLFW, Assimp and stb_image are not modelled. They become the abstract context, key sets, scene values and decoder functions described above. Texture parameters, vertex attribute layout, buffer contents, glClearColor, glEnable and the swap and poll calls are not recorded in the trace.
- Floating point: every float is a `real`, so rounding, NaN and infinities (a zero-height window's aspect ratio, for instance) are not modelled. The double-to-float casts in the callbacks are the identity.
- `updateCameraVectors`, `glm::lookAt` and `glm::perspective` are opaque: the basis is a function parameter, and the view and projection matrices are symbolic `Mat4` values.
- The C strings read through `aiString::C_Str` and compared with `strcmp` are modelled as Dafny strings. Embedded NUL characters are not modelled.
- `Model::m_directory` is a `std::string_view` into the caller's path. The model stores the directory as a string, so the view's lifetime is not modelled.
- main's set-up (window creation, the cube data, shader and model creation, the one-off uniforms) and its error returns are not modelled. Only the per-frame lines of the loop are.
- Logging is left out.
- Input.App.ProcessInput: every key is read from one snapshot of the held keys. A key whose state changes between two `glfwGetKey` calls of the same invocation is not modelled.
- Input.WindowEvents: states how many window calls there are and, with `Input.WindowFollowsToggles`, what each one sets, but not their order (Alt+Enter's call comes first in the definition).
- Input.App.WindowKeys: `glfwSetWindowShouldClose` is recorded as the window's close flag, not as an event, so its order relative to the monitor and cursor calls is not stated.
- Meshes.Mesh.Create: the vertex attribute pointers are not recorded, only the vertex-array and buffer bindings and the two uploads. An upload records its element count, not its byte size.
- Meshes.SamplerNamesDistinct, Meshes.NextSamplerName and Meshes.Mesh.BindUnit: the four per-type counters are `uint32_t` in the source and would wrap after 2^32 textures of one type, repeating a sampler name. The model counts with unbounded naturals, so it assumes fewer than 2^32 textures of each type.
- Meshes.DrawOnce and Meshes.DrawUnits: `glDrawElements` takes the index count as a `GLsizei`, and the texture unit and the `glUniform1i` value narrow the loop index. The model does not narrow them, so it assumes fewer than 2^31 indices and textures per mesh.
- Models.Model.LoadReference, Models.Model.LoadMaterialTextures, Models.Model.LoadMaterial, Models.Model.ProcessMesh, Models.Model.ProcessOwn, Models.Model.ProcessOwnStep, Models.Model.ProcessChildren, Models.Model.ProcessChildStep, Models.Model.ProcessNode and Models.Model.Create use the corrected lookup and strip (`Models.FixedRef`), not the raw-reference lookup and wrapping strip of src/Model.cpp:119-131. The behaviour as written is stated by `Models.AsWrittenRef` and its lemmas; see Findings.
- Models.Model.Create: requires a well-formed scene. Every mesh's normal and texture-coordinate arrays match its vertex count, every material and mesh index is in range, and every texture path is shorter than Assimp's `MAXLEN`. Assimp guarantees these and the source does not check them.
- A vector's reallocation on `emplace_back` moves meshes. Those moves are not modelled, because `Mesh`'s move is proved a field swap on its own.

## Findings

| source | as written | input that shows it | evidently intended | confidence | as-written member | corrected member |
|---|---|---|---|---|---|---|
| src/Model.cpp:129 | `file.substr(file.find_last_of('/') + 1, file.size() - 1)`: with no '/' the position wraps to 0 and the count drops the last character | the reference "diffuse.png" is loaded as "diffuse.pn" | the part after the last '/', or the whole name when there is none | high (not executed) | Models.StripDropsLastCharacter | Text.BaseName |
| src/Model.cpp:119 | the cache is searched for the raw reference, but the entry stored is keyed by the stripped name (src/Model.cpp:131, src/Mesh.cpp:52) | a material listing "diffuse.png" twice loads it twice and caches two entries for it | look up the same name that is stored, so each file is uploaded once | high (not executed) | Models.RepeatedReferenceLoadsTwice | Models.FixedRepeatedReferenceLoadsOnce |
