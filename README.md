# OpenEngine resource registry and integer matrices, in Dafny

This project models two parts of the OpenEngine sources.

The first is the **resource manager** (`src/Resources/ResourceManager.h`,
`src/Resources/ResourceManager.cpp`) together with the language lists of
scripting plugins and modules (`src/Resources/IScriptResource.h`). It works as
follows:

- A search path of directory prefixes can be extended at either end.
- `FindFileInPath` resolves a bare filename to the first existing
  `directory + filename` and memoises the answer in a path cache. A filename
  that is found nowhere gives `""` and is not memoised.
- Textures, models and shaders each have their own ordered list of loader
  plugins and their own cache, keyed by the filename exactly as requested.
  A request:
  - returns the cached handle if there is one;
  - otherwise takes the first plugin that accepts the lower-cased extension;
  - passes that plugin the resolved path, even when it is `""`;
  - caches the new handle.

  When no plugin accepts the extension, the request throws and caches
  nothing.
- Scripts are dispatched to the first plugin that runs the language. They are
  never cached: each request gives a new interpreter.
- `GetScriptModules` returns every module that runs a language, in
  registration order.
- `Shutdown` empties the three caches and the five plugin and module lists.
  It keeps the search path and the path cache.

The second is the fixed-size **matrix** of `src/Math/Matrix.h`, with `int`
elements. It covers:

- the identity, scalar, copy, row-major-array and 2x2/3x3/4x4 element
  constructors;
- bounds-checked element access and assignment;
- `==` and `!=`;
- multiplication and `Trace`;
- the in-place `Transpose`;
- `GetExpanded`, `GetReduced` and `ToArray`.

Layout:

- `wrappers.dfy`, module `Wrappers`: the `Result` type used for thrown
  exceptions.
- `lists.dfy`, module `Lists`: the linear membership scan.
  `IsInPath` and both `RunsLanguage` methods use it.
- `script_resources.dfy`, module `ScriptResources`: the scripting plugin and
  module classes, whose `languages` lists are mutated in place.
- `resources.dfy`, module `Resources`:
  - the reference definitions of path resolution, plugin choice and module
    filtering, with their lemmas;
  - the `ResourceManager` class, whose fields are the registry's state and
    whose methods are proved against those definitions.
- `resource_scenarios.dfy`, module `ResourceScenarios`: properties that span
  several calls, proved from the method contracts alone. They cover
  idempotent caching, priority, the absence of a cache entry after a failure,
  uncached scripts and teardown.
- `matrix_scenarios.dfy`, module `MatrixScenarios`: the same for matrices.
  They cover operations that undo each other (transposing twice, expanding
  then reducing, array round trips), reading back a written element, and
  multiplying by the identity.
- `math_matrix.dfy`, module `Math`:
  - the matrix as a value (`seq<seq<int>>`), with its specification functions
    and lemmas;
  - the `Matrix` class over an `array2<int>`, whose loop methods are proved
    against those functions.

Modelling choices:

- The registry is one `ResourceManager` object rather than process-wide
  static state.
- The filesystem is a parameter `fs: set<string>` holding the paths that
  exist. `fs::exists(p)` becomes `p in fs`.
- The pair `Convert::ToLower(File::Extension(_))` becomes the function field
  `extensionOf`, given when the registry is constructed. The sources of those
  two helpers are not part of this model, so their edge cases are not
  guessed.
- A texture, model or shader plugin is a value: an id and the set of
  extensions it accepts.
- A scripting plugin or module is an object whose language list can still
  grow after registration, as through the C++ pointers.
- A handle is a `Resource` object. It is fresh for every plugin call and
  records the kind, the plugin and the path the plugin was given. Object
  identity stands for shared-pointer identity.

Behaviour of the code worth noting:

- The doc comments of `CreateTexture`, `CreateModel` and `CreateShader`
  (ResourceManager.cpp:168, 202, 236) say they throw when the file does not
  exist. The code does not check: when no search directory holds the file,
  it hands `""` to the plugin (ResourceManager.cpp:186-189, 220-223,
  254-257).
- `Shutdown` empties the plugin lists, the script modules and the three
  resource caches. It leaves the search path and the path cache as they are
  (ResourceManager.cpp:315-327).
- A failed shader request fails with "Unsupported shader format: ", while
  textures and models fail with "Unsupported file format: "
  (ResourceManager.cpp:194, 228, 262).
- `GetExpanded` starts from an identity-pattern matrix of the new shape and
  copies the old elements over it, so the new row and column hold 1 only on
  the diagonal position `(i, i)`. For a square matrix that is the new corner;
  `Math.ExpandedIdentity` and `Math.TraceExpanded` state the square case.

## Model

| member | source | states |
|---|---|---|
| `Lists.Contains` | src/Resources/ResourceManager.cpp:68-76 | the scan returns true exactly when the value occurs in the list |
| `ScriptResources.ScriptResourcePlugin.constructor` | src/Resources/IScriptResource.h:31-38 | a new plugin runs no language |
| `ScriptResources.ScriptResourcePlugin.CreateResource` | src/Resources/IScriptResource.h:38 | every call yields a new interpreter instance tied to this plugin |
| `ScriptResources.ScriptResourcePlugin.AddLanguage` | src/Resources/IScriptResource.h:40-42 | the language is appended (duplicates kept); it is then accepted and every language accepted before still is |
| `ScriptResources.ScriptResourcePlugin.RunsLanguage` | src/Resources/IScriptResource.h:44-51 | true iff the language is in the plugin's list; the list is not changed |
| `ScriptResources.ScriptModule.constructor` | src/Resources/IScriptResource.h:55-63 | a new module runs no language |
| `ScriptResources.ScriptModule.AddLanguage` | src/Resources/IScriptResource.h:65-67 | same as the plugin's: appended, then accepted, nothing lost |
| `ScriptResources.ScriptModule.RunsLanguage` | src/Resources/IScriptResource.h:69-76 | true iff the language is in the module's list |
| `Resources.Resource.constructor` | src/Resources/ResourceManager.cpp:188 | a plugin's CreateResource(path) handle records its kind, its plugin and the exact path passed |
| `Resources.Candidates` | src/Resources/ResourceManager.cpp:92-98 | the `possibles` list: at most one entry per directory, each an existing path |
| `Resources.FirstIndex` | src/Resources/ResourceManager.cpp:179-183 | the first position whose element satisfies the test, or the length; no earlier element satisfies it |
| `Resources.FirstHit` | src/Resources/ResourceManager.cpp:92-111 | the first directory, in search order, under which the file exists; none before it has the file |
| `Resources.CandidatesHead` | src/Resources/ResourceManager.cpp:100-111 | the list of existing candidates is non-empty iff some directory has the file, and its head is the candidate under the first such directory |
| `Resources.ResolveFirst` | src/Resources/ResourceManager.cpp:100-111 | on a miss, the first directory holding the file wins however many others hold it, and that path is memoised under the filename |
| `Resources.ResolveStable` | src/Resources/ResourceManager.cpp:87-89 | once memoised, a filename resolves to the same path whatever the search path or filesystem later become |
| `Resources.MemoiseSound` | src/Resources/ResourceManager.cpp:101-109 | memoising keeps every cached path equal to a search directory followed by its filename |
| `Resources.PathCacheSoundGrow` | src/Resources/ResourceManager.cpp:48-59 | growing the search path keeps every cached path explained by a search directory |
| `Resources.FirstAccepting` | src/Resources/ResourceManager.cpp:179-183 | the lowest-index plugin accepting the extension; none before it accepts |
| `Resources.FirstAcceptingAppend` | src/Resources/ResourceManager.h:38-44 | registration order is priority: appending a plugin never changes an existing choice and is chosen only when no earlier plugin accepts |
| `Resources.SelectPlugin` | src/Resources/ResourceManager.cpp:179-183 | the first-match scan with break stops at the lowest-index accepting plugin, or at the end |
| `Resources.FirstRunning` | src/Resources/ResourceManager.cpp:275-280 | the lowest-index script plugin running the language; none before it does |
| `Resources.RunningModules` | src/Resources/ResourceManager.cpp:298-305 | the modules running the language: each one listed runs it, and every registered module running it is listed |
| `Resources.RunningModulesConcat` | src/Resources/ResourceManager.cpp:298-305 | filtering keeps registration order: the filter of a concatenation is the concatenation of the filters |
| `Resources.ResourceManager.constructor` | src/Resources/ResourceManager.cpp:27-41 | the registry starts with every list and map empty |
| `Resources.ResourceManager.AppendPath` | src/Resources/ResourceManager.cpp:48-50 | paths becomes old paths + [dir]; no other field changes |
| `Resources.ResourceManager.PrependPath` | src/Resources/ResourceManager.cpp:57-59 | paths becomes [dir] + old paths; no other field changes |
| `Resources.ResourceManager.IsInPath` | src/Resources/ResourceManager.cpp:68-76 | true iff the directory is in the search path; nothing changes |
| `Resources.ResourceManager.FindFileInPath` | src/Resources/ResourceManager.cpp:85-113 | a cache hit returns the cached path with nothing changed; a miss returns the first existing directory + file and memoises it; no candidate returns "" and memoises nothing; only the path cache may change; the ghost `ambiguous` is true exactly when the ambiguity warning is logged: an uncached name found in more than one directory |
| `Resources.ResourceManager.AddTexturePlugin` | src/Resources/ResourceManager.cpp:120-122 | the plugin is appended to the texture plugins; nothing else changes |
| `Resources.ResourceManager.AddModelPlugin` | src/Resources/ResourceManager.cpp:129-131 | the plugin is appended to the model plugins; nothing else changes |
| `Resources.ResourceManager.AddShaderPlugin` | src/Resources/ResourceManager.cpp:138-140 | the plugin is appended to the shader plugins; nothing else changes |
| `Resources.ResourceManager.AddScriptPlugin` | src/Resources/ResourceManager.cpp:148-150 | the plugin is appended to the script plugins; nothing else changes |
| `Resources.ResourceManager.AddScriptModule` | src/Resources/ResourceManager.cpp:158-160 | the module is appended to the script modules; nothing else changes |
| `Resources.ResourceManager.CreateTexture` | src/Resources/ResourceManager.cpp:170-195 | a cached name returns the same handle and changes nothing; otherwise the first accepting plugin is given the resolved path (even ""), and its new handle is cached under the name as requested; with no accepting plugin it fails with "Unsupported file format: " + name and neither cache changes |
| `Resources.ResourceManager.CreateModel` | src/Resources/ResourceManager.cpp:204-229 | as CreateTexture, over the model plugins and the model cache |
| `Resources.ResourceManager.CreateShader` | src/Resources/ResourceManager.cpp:238-263 | as CreateTexture, over the shader plugins and shader cache, failing with "Unsupported shader format: " + name |
| `Resources.ResourceManager.CreateScript` | src/Resources/ResourceManager.cpp:272-293 | a new instance from the lowest-index plugin running the language, with no state change; with none it fails with "Unsupported scripting language: " + language |
| `Resources.ResourceManager.GetScriptModules` | src/Resources/ResourceManager.cpp:296-308 | exactly the registered modules running the language, in registration order, possibly none |
| `Resources.ResourceManager.Shutdown` | src/Resources/ResourceManager.cpp:315-327 | the three caches and five plugin/module lists become empty; the search path and path cache are kept |
| `ResourceScenarios.TextureRequestedTwice` | src/Resources/ResourceManager.cpp:170-174 | two requests for one texture give identical results, even if the filesystem changed in between |
| `ResourceScenarios.KindsAreSeparate` | src/Resources/ResourceManager.h:39-45 | loading a model under a name leaves the texture and shader caches untouched |
| `ResourceScenarios.FirstDirectoryWins` | src/Resources/ResourceManager.cpp:103-111 | with paths [a, b] both holding the file, the path under a is returned and memoised, and a second lookup returns the same path without logging the warning again |
| `ResourceScenarios.AddedPathIsInPath` | src/Resources/ResourceManager.cpp:48-76 | directories added by AppendPath and PrependPath are reported by IsInPath, at the two ends of the search path |
| `ResourceScenarios.FirstPluginWins` | src/Resources/ResourceManager.cpp:179-183 | of two registered plugins accepting an extension, the first registered loads |
| `ResourceScenarios.UnsupportedThenRegistered` | src/Resources/ResourceManager.cpp:220-228 | a failed request caches nothing, so after an accepting plugin is registered the same request loads |
| `ResourceScenarios.ScriptsAreNotShared` | src/Resources/ResourceManager.cpp:283-286 | two script requests for one language give two distinct instances |
| `ResourceScenarios.LanguageAddedIsRun` | src/Resources/IScriptResource.h:40-51 | after AddLanguage the plugin runs the new language and every earlier one, and once registered it creates scripts in that language |
| `ResourceScenarios.ShutdownForgetsTextures` | src/Resources/ResourceManager.cpp:315-327 | after Shutdown any texture request fails as unsupported, and the search path and path cache are as before |
| `Math.RowMajorAt` | src/Math/Matrix.h:282-286 | element (i, j) is at position i * N + j of the row-major layout |
| `Math.FromRowMajorAt` | src/Math/Matrix.h:78-82 | the matrix read from an array has a[i * N + j] at (i, j) |
| `Math.RowMajorOfFromRowMajor` | src/Math/Matrix.h:282-286 | reading an array into a matrix and writing it back gives the array |
| `Math.FromRowMajorOfRowMajor` | src/Math/Matrix.h:78-82 | writing a matrix to an array and reading it back gives the matrix |
| `Math.DotCommutes` | src/Math/Matrix.h:171-173 | the inner sum of the product is symmetric in its two vectors |
| `Math.DotUnit` | src/Math/Matrix.h:171-173 | the inner sum against a unit vector picks out one element |
| `Math.ProductIdentityRight` | src/Math/Matrix.h:167-177 | a square matrix times the identity is itself |
| `Math.ProductIdentityLeft` | src/Math/Matrix.h:167-177 | the identity times a square matrix is that matrix |
| `Math.ProductExample` | src/Math/Matrix.h:161-166 | [(1, 2), (3, 4)] squared is [(7, 10), (15, 22)] |
| `Math.ExpandedExample` | src/Math/Matrix.h:246-249 | [(1, 2), (3, 4)] expands to [(1, 2, 0), (3, 4, 0), (0, 0, 1)] |
| `Math.ReducedExample` | src/Math/Matrix.h:263-266 | [(1, 2, 3), (4, 5, 6), (7, 8, 9)] reduces to [(1, 2), (4, 5)] |
| `Math.TraceIdentity` | src/Math/Matrix.h:219-225 | the trace of the n x n identity is n |
| `Math.TraceScalar` | src/Math/Matrix.h:219-225 | the trace of the n x n scalar matrix of s is n * s |
| `Math.TraceTransposed` | src/Math/Matrix.h:231-240 | transposing keeps the trace |
| `Math.TraceExpanded` | src/Math/Matrix.h:253-259 | expanding a square matrix adds one to its trace |
| `Math.TransposedInvolution` | src/Math/Matrix.h:231-240 | transposing twice restores the matrix, and the diagonal is fixed |
| `Math.ReducedExpanded` | src/Math/Matrix.h:253-276 | reducing an expanded matrix gives back the original |
| `Math.ExpandedIdentity` | src/Math/Matrix.h:241-259 | an expanded n x n identity is the (n + 1) x (n + 1) identity: zero new row and column with 1 at the corner |
| `Math.Matrix.Identity` | src/Math/Matrix.h:45-49 | element (i, j) is 1 when i == j and 0 otherwise, for any shape |
| `Math.Matrix.Scalar` | src/Math/Matrix.h:58-62 | every element is s |
| `Math.Matrix.Copy` | src/Math/Matrix.h:68-72 | same shape and elements, in new storage |
| `Math.Matrix.FromArray` | src/Math/Matrix.h:78-82 | the elements are the array read row-major |
| `Math.Matrix.Of2x2` | src/Math/Matrix.h:95-99 | the 2 x 2 matrix with the given elements, row by row |
| `Math.Matrix.Of3x3` | src/Math/Matrix.h:103-110 | the 3 x 3 matrix with the given elements, row by row |
| `Math.Matrix.Of4x4` | src/Math/Matrix.h:114-123 | the 4 x 4 matrix with the given elements, row by row |
| `Math.Matrix.At` | src/Math/Matrix.h:135-141 | fails with IndexOutOfBounds(i, 0, M) when i is out of range, else with IndexOutOfBounds(j, 0, N) when j is; otherwise yields element (i, j) |
| `Math.Matrix.Assign` | src/Math/Matrix.h:135-141 | the same checks; on success only element (i, j) changes, to the new value; on failure nothing changes |
| `Math.Matrix.Equals` | src/Math/Matrix.h:146-152 | true iff all elements are pairwise equal |
| `Math.Matrix.NotEquals` | src/Math/Matrix.h:157-159 | true iff some element differs: the negation of Equals |
| `Math.Matrix.RowTimesColumn` | src/Math/Matrix.h:171-173 | the accumulated sum is row i times column j |
| `Math.Matrix.Mul` | src/Math/Matrix.h:167-177 | a new M x M matrix whose (i, j) is the sum over t of elm[i][t] * m[t][j] |
| `Math.Matrix.Trace` | src/Math/Matrix.h:219-225 | the sum of the main diagonal |
| `Math.Matrix.Transpose` | src/Math/Matrix.h:231-240 | in place, element (i, j) becomes the old element (j, i) |
| `Math.Matrix.GetExpanded` | src/Math/Matrix.h:253-259 | a new (M + 1) x (N + 1) matrix: the old elements, and the identity pattern in the new row and column |
| `Math.Matrix.GetReduced` | src/Math/Matrix.h:270-276 | a new (M - 1) x (N - 1) matrix holding the leading block |
| `Math.Matrix.ToArray` | src/Math/Matrix.h:282-286 | the array becomes the row-major layout of the elements |
| `MatrixScenarios.TransposeTwiceRestores` | src/Math/Matrix.h:219-240 | transposing in place twice restores the elements, and one transposition keeps the trace |
| `MatrixScenarios.ExpandThenReduce` | src/Math/Matrix.h:253-276 | reducing the expansion of a matrix gives a new matrix of the same shape and elements |
| `MatrixScenarios.AssignThenRead` | src/Math/Matrix.h:135-141 | a value stored by a successful Assign is what At reads back; a refused Assign changes nothing and At fails with the same error |
| `MatrixScenarios.TimesIdentityIsEqual` | src/Math/Matrix.h:45-177 | a square matrix times the identity of its size compares equal to it |
| `MatrixScenarios.ArrayRoundTrip` | src/Math/Matrix.h:78-82 | building a matrix from a row-major array and flattening it reproduces the array |

## Left out

- Logging: the text of the log messages is not modelled. The ambiguity warning
  (ResourceManager.cpp:105-107) is only recorded, as the ghost result
  `ambiguous` of `FindFileInPath`. The warnings for a missing plugin or
  language (ResourceManager.cpp:192, 226, 260, 289) coincide with the `Err`
  results and are not recorded separately.
- Filesystem access: `fs::exists` is modelled as membership in the set `fs`.
  The set is passed to each call; there is no real I/O.
- `File::Extension` and `Convert::ToLower`: their sources are not part of this
  model. Their composition is the opaque function `extensionOf`.
- The bodies of the plugins' `CreateResource`: these are foreign virtual
  calls. They are modelled as yielding a new handle every time and never
  failing. A plugin that throws is not modelled.
- `IScriptModule::Init`: a foreign virtual call, not modelled.
- `boost::shared_ptr` ownership and lifetimes: only handle identity is
  modelled.
- Process-wide static state without synchronisation: one single-threaded
  registry object is modelled, not concurrent callers.
- `Math.Matrix`: elements are unbounded integers, so overflow of the C++
  element type is not modelled.
- `Math.Matrix.Trace`, `Math.Matrix.Transpose`, `Math.Matrix.GetReduced`
  and `Math.Matrix.Mul`: the C++ template enforces their dimension
  conditions at compile time (`BOOST_STATIC_ASSERT`, template arguments).
  Here they are preconditions (`M == N`, `M >= 1 && N >= 1`, matching
  shapes).
- `Math.Matrix.Of2x2`, `Math.Matrix.Of3x3` and `Math.Matrix.Of4x4`: the C++
  constructors assert the template size at compile time. Here they have no
  precondition; each sets `M` and `N` to its own size.
- `Math.Matrix.FromArray` and `Math.Matrix.ToArray`: the C++ parameter
  `T a[M*N]` decays to a pointer, so the code never checks the array's
  length and leaves it to the caller. Here that duty is the precondition
  `a.Length == M * N`.
- Matrix `ToString` and `operator<<`: they depend on stream number formatting.
- The Vector-based matrix constructor, `operator[]`, `GetRow` and
  `GetColumn`: they depend on `Vector.h`, which is not part of this model.
- Floating-point instantiations of `Matrix`.
- `src/Renderers/IRenderer.h` and `src/Scene/TransformationNode.h`:
  declarations over floating-point vectors with no implementation to model.
