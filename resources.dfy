/** The resource registry: a search path with a memoising file resolver,
    ordered loader plugins per resource kind, name-keyed caches for
    textures, models and shaders, and uncached script dispatch. */
module Resources {
  import opened Wrappers
  import opened ScriptResources
  import Lists

  datatype Kind = Texture | Model | Shader

  /** What the registry throws; the message is built as ResourceManager.cpp builds it. */
  datatype ResourceException = ResourceException(message: string)

  /** A texture, model or shader loader: an identity and the (lower-case)
      extensions its AcceptsExtension query answers yes to. */
  datatype LoaderPlugin = LoaderPlugin(id: nat, extensions: set<string>) {
    predicate AcceptsExtension(ext: string) {
      ext in extensions
    }
  }

  /** A handle produced by a loader plugin's CreateResource(path). Object
      identity stands for the identity of the shared pointer. */
  class Resource {
    const kind: Kind
    const loader: LoaderPlugin
    /** The full path the plugin was given (possibly ""). */
    const path: string

    constructor (kind: Kind, loader: LoaderPlugin, path: string)
      ensures this.kind == kind && this.loader == loader && this.path == path
    {
      this.kind, this.loader, this.path := kind, loader, path;
    }
  }

  // ---------------------------------------------------------------------
  // Path resolution

  /** The existing candidates `d + file`, in search-path order. */
  function Candidates(dirs: seq<string>, file: string, fs: set<string>): (c: seq<string>)
    ensures |c| <= |dirs|
    ensures forall p :: p in c ==> p in fs
  {
    if dirs == [] then []
    else
      var last := dirs[|dirs| - 1] + file;
      Candidates(dirs[..|dirs| - 1], file, fs) + (if last in fs then [last] else [])
  }

  /** The index of the first element of `s` satisfying `p`, or |s|: the
      first-match scan the registry runs over directories and plugins. */
  function FirstIndex<T>(s: seq<T>, p: T -> bool): (k: nat)
    ensures k <= |s|
    ensures k < |s| ==> p(s[k])
    ensures forall j :: 0 <= j < k ==> !p(s[j])
  {
    if s == [] then 0
    else if p(s[0]) then 0
    else 1 + FirstIndex(s[1..], p)
  }

  /** The index of the first directory under which `file` exists, or |dirs|. */
  function FirstHit(dirs: seq<string>, file: string, fs: set<string>): (k: nat)
    ensures k <= |dirs|
    ensures k < |dirs| ==> dirs[k] + file in fs
    ensures forall j :: 0 <= j < k ==> dirs[j] + file !in fs
  {
    FirstIndex(dirs, d => d + file in fs)
  }

  /** The first candidate is the one under the first directory that has the file. */
  lemma {:induction false} CandidatesHead(dirs: seq<string>, file: string, fs: set<string>)
    ensures |Candidates(dirs, file, fs)| > 0 <==> FirstHit(dirs, file, fs) < |dirs|
    ensures FirstHit(dirs, file, fs) < |dirs| ==>
              Candidates(dirs, file, fs)[0] == dirs[FirstHit(dirs, file, fs)] + file
  {
    if dirs != [] {
      var init := dirs[..|dirs| - 1];
      CandidatesHead(init, file, fs);
      var k, k' := FirstHit(dirs, file, fs), FirstHit(init, file, fs);
      if k' < |init| {
        assert init[k'] == dirs[k'];
        assert k == k';
      } else {
        assert forall j :: 0 <= j < |init| ==> dirs[j] == init[j];
        assert k >= |init|;
      }
    }
  }

  /** What FindFileInPath returns for `file`, given the path cache before the call. */
  function Resolve(cache: map<string, string>, dirs: seq<string>, file: string, fs: set<string>): string
  {
    if file in cache then cache[file]
    else
      var k := FirstHit(dirs, file, fs);
      if k < |dirs| then dirs[k] + file else ""
  }

  /** The path cache after FindFileInPath(file). */
  function Memoise(cache: map<string, string>, dirs: seq<string>, file: string, fs: set<string>): map<string, string>
  {
    if file in cache then cache
    else
      var k := FirstHit(dirs, file, fs);
      if k < |dirs| then cache[file := dirs[k] + file] else cache
  }

  /** `p` is some search directory followed by `file`. */
  predicate ResolvedFrom(dirs: seq<string>, file: string, p: string) {
    |file| <= |p| && p[|p| - |file|..] == file && p[..|p| - |file|] in dirs
  }

  /** Every memoised path is a search directory followed by its filename. */
  predicate PathCacheSound(dirs: seq<string>, cache: map<string, string>) {
    forall f :: f in cache ==> ResolvedFrom(dirs, f, cache[f])
  }

  /** On a miss the first directory holding the file wins, however many others do,
      and that choice is memoised. */
  lemma ResolveFirst(cache: map<string, string>, dirs: seq<string>, file: string, fs: set<string>, k: nat)
    requires file !in cache
    requires k < |dirs| && dirs[k] + file in fs
    requires forall j :: 0 <= j < k ==> dirs[j] + file !in fs
    ensures Resolve(cache, dirs, file, fs) == dirs[k] + file
    ensures Memoise(cache, dirs, file, fs) == cache[file := dirs[k] + file]
  {
  }

  /** Once memoised, a filename keeps resolving to the same path even if the
      search path or the filesystem has changed since. */
  lemma ResolveStable(cache: map<string, string>, dirs: seq<string>, file: string, fs: set<string>,
                      dirs': seq<string>, fs': set<string>)
    requires file in Memoise(cache, dirs, file, fs)
    ensures var after := Memoise(cache, dirs, file, fs);
            Resolve(after, dirs', file, fs') == Resolve(cache, dirs, file, fs) &&
            Memoise(after, dirs', file, fs') == after
  {
  }

  lemma MemoiseSound(cache: map<string, string>, dirs: seq<string>, file: string, fs: set<string>)
    requires PathCacheSound(dirs, cache)
    ensures PathCacheSound(dirs, Memoise(cache, dirs, file, fs))
  {
  }

  /** Growing the search path keeps every memoised path explained. */
  lemma PathCacheSoundGrow(dirs: seq<string>, dirs': seq<string>, cache: map<string, string>)
    requires PathCacheSound(dirs, cache)
    requires forall d :: d in dirs ==> d in dirs'
    ensures PathCacheSound(dirs', cache)
  {
  }

  // ---------------------------------------------------------------------
  // Plugin selection

  /** The index of the first plugin accepting `ext`, or |plugins|. */
  function FirstAccepting(plugins: seq<LoaderPlugin>, ext: string): (k: nat)
    ensures k <= |plugins|
    ensures k < |plugins| ==> plugins[k].AcceptsExtension(ext)
    ensures forall j :: 0 <= j < k ==> !plugins[j].AcceptsExtension(ext)
  {
    FirstIndex(plugins, (p: LoaderPlugin) => p.AcceptsExtension(ext))
  }

  /** Registration order is priority order: appending a plugin never changes
      the choice for an extension some earlier plugin already accepts. */
  lemma {:induction false} FirstAcceptingAppend(plugins: seq<LoaderPlugin>, p: LoaderPlugin, ext: string)
    ensures FirstAccepting(plugins, ext) < |plugins| ==>
              FirstAccepting(plugins + [p], ext) == FirstAccepting(plugins, ext)
    ensures FirstAccepting(plugins, ext) == |plugins| ==>
              FirstAccepting(plugins + [p], ext) == if p.AcceptsExtension(ext) then |plugins| else |plugins| + 1
  {
    var k, k' := FirstAccepting(plugins, ext), FirstAccepting(plugins + [p], ext);
    assert forall j :: 0 <= j < |plugins| ==> (plugins + [p])[j] == plugins[j];
    if k < |plugins| {
      assert k' <= k by { assert (plugins + [p])[k] == plugins[k]; }
      assert k' == k;
    } else {
      assert k' >= |plugins|;
      if p.AcceptsExtension(ext) { assert (plugins + [p])[|plugins|] == p; }
    }
  }

  /** The first-match scan over a plugin list, stopping at the first acceptor. */
  method SelectPlugin(plugins: seq<LoaderPlugin>, ext: string) returns (i: nat)
    ensures i <= |plugins|
    ensures i < |plugins| ==> plugins[i].AcceptsExtension(ext)
    ensures forall j :: 0 <= j < i ==> !plugins[j].AcceptsExtension(ext)
    ensures i == FirstAccepting(plugins, ext)
  {
    i := 0;
    while i < |plugins|
      invariant i <= |plugins|
      invariant forall j :: 0 <= j < i ==> !plugins[j].AcceptsExtension(ext)
    {
      if plugins[i].AcceptsExtension(ext) {
        break;
      }
      i := i + 1;
    }
    var k := FirstAccepting(plugins, ext);
    assert i == k;
  }

  /** The index of the first script plugin running `lang`, or |plugins|. */
  ghost function FirstRunning(plugins: seq<ScriptResourcePlugin>, lang: string): (k: nat)
    reads set p | p in plugins
    ensures k <= |plugins|
    ensures k < |plugins| ==> lang in plugins[k].languages
    ensures forall j :: 0 <= j < k ==> lang !in plugins[j].languages
  {
    if plugins == [] then 0
    else if lang in plugins[0].languages then 0
    else 1 + FirstRunning(plugins[1..], lang)
  }

  /** The modules running `lang`, in registration order. */
  ghost function RunningModules(modules: seq<ScriptModule>, lang: string): (r: seq<ScriptModule>)
    reads set m | m in modules
    ensures |r| <= |modules|
    ensures forall i :: 0 <= i < |r| ==> r[i] in modules && lang in r[i].languages
    ensures forall i :: 0 <= i < |modules| && lang in modules[i].languages ==> modules[i] in r
  {
    if modules == [] then []
    else
      var last := modules[|modules| - 1];
      RunningModules(modules[..|modules| - 1], lang) + (if lang in last.languages then [last] else [])
  }

  /** Filtering is done in order: the matches of a concatenation are the
      matches of its parts, concatenated. */
  lemma {:induction false} RunningModulesConcat(a: seq<ScriptModule>, b: seq<ScriptModule>, lang: string)
    ensures RunningModules(a + b, lang) == RunningModules(a, lang) + RunningModules(b, lang)
    decreases |b|
  {
    if b != [] {
      var init := b[..|b| - 1];
      assert (a + b)[..|a + b| - 1] == a + init;
      RunningModulesConcat(a, init, lang);
    } else {
      assert a + b == a;
    }
  }

  // ---------------------------------------------------------------------
  // The registry

  class ResourceManager {
    var paths: seq<string>
    var pathcache: map<string, string>

    var texturePlugins: seq<LoaderPlugin>
    var textures: map<string, Resource>

    var modelPlugins: seq<LoaderPlugin>
    var models: map<string, Resource>

    var shaderPlugins: seq<LoaderPlugin>
    var shaders: map<string, Resource>

    var scriptPlugins: seq<ScriptResourcePlugin>
    var scriptModules: seq<ScriptModule>

    /** The lower-cased extension of a filename (ToLower of File::Extension). */
    const extensionOf: string -> string

    ghost predicate Valid()
      reads this
    {
      && PathCacheSound(paths, pathcache)
      && (forall f :: f in textures ==> textures[f].kind == Texture)
      && (forall f :: f in models ==> models[f].kind == Model)
      && (forall f :: f in shaders ==> shaders[f].kind == Shader)
    }

    /** The registry as the program starts: every list and map empty. */
    constructor (extensionOf: string -> string)
      ensures Valid()
      ensures this.extensionOf == extensionOf
      ensures paths == [] && pathcache == map[]
      ensures texturePlugins == [] && textures == map[]
      ensures modelPlugins == [] && models == map[]
      ensures shaderPlugins == [] && shaders == map[]
      ensures scriptPlugins == [] && scriptModules == []
    {
      this.extensionOf := extensionOf;
      paths, pathcache := [], map[];
      texturePlugins, textures := [], map[];
      modelPlugins, models := [], map[];
      shaderPlugins, shaders := [], map[];
      scriptPlugins, scriptModules := [], [];
    }

    /** Adds `dir` as the lowest-priority search directory. */
    method AppendPath(dir: string)
      requires Valid()
      modifies this`paths
      ensures Valid()
      ensures paths == old(paths) + [dir]
    {
      paths := paths + [dir];
      PathCacheSoundGrow(old(paths), paths, pathcache);
    }

    /** Adds `dir` as the highest-priority search directory. */
    method PrependPath(dir: string)
      requires Valid()
      modifies this`paths
      ensures Valid()
      ensures paths == [dir] + old(paths)
    {
      paths := [dir] + paths;
      PathCacheSoundGrow(old(paths), paths, pathcache);
    }

    method IsInPath(dir: string) returns (found: bool)
      ensures found <==> dir in paths
    {
      found := Lists.Contains(paths, dir);
    }

    /** Resolves a bare filename against the search path, memoising hits.
        `ambiguous` records whether the ambiguity warning is logged. */
    method FindFileInPath(file: string, fs: set<string>) returns (r: string, ghost ambiguous: bool)
      requires Valid()
      modifies this`pathcache
      ensures Valid()
      ensures r == Resolve(old(pathcache), paths, file, fs)
      ensures pathcache == Memoise(old(pathcache), paths, file, fs)
      ensures file in old(pathcache) ==> r == old(pathcache)[file] && pathcache == old(pathcache)
      ensures file !in old(pathcache) && FirstHit(paths, file, fs) < |paths| ==>
                r == paths[FirstHit(paths, file, fs)] + file && pathcache == old(pathcache)[file := r]
      ensures file !in old(pathcache) && FirstHit(paths, file, fs) == |paths| ==>
                r == "" && pathcache == old(pathcache) && file !in pathcache
      ensures ambiguous <==> file !in old(pathcache) && |Candidates(paths, file, fs)| > 1
    {
      ambiguous := false;
      if file in pathcache {
        return pathcache[file], false;
      }
      var possibles: seq<string> := [];
      var i := 0;
      while i < |paths|
        invariant 0 <= i <= |paths|
        invariant possibles == Candidates(paths[..i], file, fs)
      {
        var p := paths[i] + file;
        assert paths[..i + 1][..i] == paths[..i];
        if p in fs {
          possibles := possibles + [p];
        }
        i := i + 1;
      }
      assert paths[..i] == paths;
      CandidatesHead(paths, file, fs);
      MemoiseSound(pathcache, paths, file, fs);
      if |possibles| == 1 {
        pathcache := pathcache[file := possibles[0]];
        r := possibles[0];
      } else if |possibles| > 1 {
        var s := possibles[0];
        ambiguous := true;
        pathcache := pathcache[file := s];
        r := s;
      } else {
        r := "";
      }
    }

    method AddTexturePlugin(plugin: LoaderPlugin)
      requires Valid()
      modifies this`texturePlugins
      ensures Valid()
      ensures texturePlugins == old(texturePlugins) + [plugin]
    {
      texturePlugins := texturePlugins + [plugin];
    }

    method AddModelPlugin(plugin: LoaderPlugin)
      requires Valid()
      modifies this`modelPlugins
      ensures Valid()
      ensures modelPlugins == old(modelPlugins) + [plugin]
    {
      modelPlugins := modelPlugins + [plugin];
    }

    method AddShaderPlugin(plugin: LoaderPlugin)
      requires Valid()
      modifies this`shaderPlugins
      ensures Valid()
      ensures shaderPlugins == old(shaderPlugins) + [plugin]
    {
      shaderPlugins := shaderPlugins + [plugin];
    }

    method AddScriptPlugin(plugin: ScriptResourcePlugin)
      requires Valid()
      modifies this`scriptPlugins
      ensures Valid()
      ensures scriptPlugins == old(scriptPlugins) + [plugin]
    {
      scriptPlugins := scriptPlugins + [plugin];
    }

    method AddScriptModule(scriptModule: ScriptModule)
      requires Valid()
      modifies this`scriptModules
      ensures Valid()
      ensures scriptModules == old(scriptModules) + [scriptModule]
    {
      scriptModules := scriptModules + [scriptModule];
    }

    /** Returns the cached texture for `filename`, or loads it with the first
        plugin accepting its extension and caches it under `filename`. */
    method CreateTexture(filename: string, fs: set<string>) returns (res: Result<Resource, ResourceException>)
      requires Valid()
      modifies this`textures, this`pathcache
      ensures Valid()
      ensures filename in old(textures) ==>
                res == Ok(old(textures)[filename]) &&
                textures == old(textures) && pathcache == old(pathcache)
      ensures filename !in old(textures) ==>
                var k := FirstAccepting(texturePlugins, extensionOf(filename));
                if k < |texturePlugins| then
                  && res.Ok? && fresh(res.value)
                  && res.value.kind == Texture && res.value.loader == texturePlugins[k]
                  && res.value.path == Resolve(old(pathcache), paths, filename, fs)
                  && pathcache == Memoise(old(pathcache), paths, filename, fs)
                  && textures == old(textures)[filename := res.value]
                else
                  && res == Err(ResourceException("Unsupported file format: " + filename))
                  && textures == old(textures) && pathcache == old(pathcache)
    {
      if filename in textures {
        return Ok(textures[filename]);
      }
      var ext := extensionOf(filename);
      var i := SelectPlugin(texturePlugins, ext);
      if i < |texturePlugins| {
        var fullname, _ := FindFileInPath(filename, fs);
        var texture := new Resource(Texture, texturePlugins[i], fullname);
        textures := textures[filename := texture];
        return Ok(texture);
      }
      return Err(ResourceException("Unsupported file format: " + filename));
    }

    /** As CreateTexture, over the model plugins and the model cache. */
    method CreateModel(filename: string, fs: set<string>) returns (res: Result<Resource, ResourceException>)
      requires Valid()
      modifies this`models, this`pathcache
      ensures Valid()
      ensures filename in old(models) ==>
                res == Ok(old(models)[filename]) &&
                models == old(models) && pathcache == old(pathcache)
      ensures filename !in old(models) ==>
                var k := FirstAccepting(modelPlugins, extensionOf(filename));
                if k < |modelPlugins| then
                  && res.Ok? && fresh(res.value)
                  && res.value.kind == Model && res.value.loader == modelPlugins[k]
                  && res.value.path == Resolve(old(pathcache), paths, filename, fs)
                  && pathcache == Memoise(old(pathcache), paths, filename, fs)
                  && models == old(models)[filename := res.value]
                else
                  && res == Err(ResourceException("Unsupported file format: " + filename))
                  && models == old(models) && pathcache == old(pathcache)
    {
      if filename in models {
        return Ok(models[filename]);
      }
      var ext := extensionOf(filename);
      var i := SelectPlugin(modelPlugins, ext);
      if i < |modelPlugins| {
        var fullname, _ := FindFileInPath(filename, fs);
        var model := new Resource(Model, modelPlugins[i], fullname);
        models := models[filename := model];
        return Ok(model);
      }
      return Err(ResourceException("Unsupported file format: " + filename));
    }

    /** As CreateTexture, over the shader plugins and the shader cache. */
    method CreateShader(filename: string, fs: set<string>) returns (res: Result<Resource, ResourceException>)
      requires Valid()
      modifies this`shaders, this`pathcache
      ensures Valid()
      ensures filename in old(shaders) ==>
                res == Ok(old(shaders)[filename]) &&
                shaders == old(shaders) && pathcache == old(pathcache)
      ensures filename !in old(shaders) ==>
                var k := FirstAccepting(shaderPlugins, extensionOf(filename));
                if k < |shaderPlugins| then
                  && res.Ok? && fresh(res.value)
                  && res.value.kind == Shader && res.value.loader == shaderPlugins[k]
                  && res.value.path == Resolve(old(pathcache), paths, filename, fs)
                  && pathcache == Memoise(old(pathcache), paths, filename, fs)
                  && shaders == old(shaders)[filename := res.value]
                else
                  && res == Err(ResourceException("Unsupported shader format: " + filename))
                  && shaders == old(shaders) && pathcache == old(pathcache)
    {
      if filename in shaders {
        return Ok(shaders[filename]);
      }
      var ext := extensionOf(filename);
      var i := SelectPlugin(shaderPlugins, ext);
      if i < |shaderPlugins| {
        var fullname, _ := FindFileInPath(filename, fs);
        var shader := new Resource(Shader, shaderPlugins[i], fullname);
        shaders := shaders[filename := shader];
        return Ok(shader);
      }
      return Err(ResourceException("Unsupported shader format: " + filename));
    }

    /** A new interpreter from the first plugin running `language`; nothing is cached. */
    method CreateScript(language: string) returns (res: Result<ScriptResource, ResourceException>)
      ensures var k := FirstRunning(scriptPlugins, language);
              if k < |scriptPlugins| then
                res.Ok? && fresh(res.value) && res.value.creator == scriptPlugins[k]
              else
                res == Err(ResourceException("Unsupported scripting language: " + language))
    {
      var i := 0;
      while i < |scriptPlugins|
        invariant i <= |scriptPlugins|
        invariant forall j :: 0 <= j < i ==> language !in scriptPlugins[j].languages
      {
        var runs := scriptPlugins[i].RunsLanguage(language);
        if runs {
          break;
        }
        i := i + 1;
      }
      var k := FirstRunning(scriptPlugins, language);
      assert i == k;
      if i < |scriptPlugins| {
        var script := scriptPlugins[i].CreateResource();
        return Ok(script);
      }
      return Err(ResourceException("Unsupported scripting language: " + language));
    }

    /** Every registered module running `language`, in registration order. */
    method GetScriptModules(language: string) returns (modules: seq<ScriptModule>)
      ensures modules == RunningModules(scriptModules, language)
      ensures forall m :: m in modules <==> m in scriptModules && language in m.languages
    {
      modules := [];
      var i := 0;
      while i < |scriptModules|
        invariant i <= |scriptModules|
        invariant modules == RunningModules(scriptModules[..i], language)
      {
        assert scriptModules[..i + 1][..i] == scriptModules[..i];
        var runs := scriptModules[i].RunsLanguage(language);
        if runs {
          modules := modules + [scriptModules[i]];
        }
        i := i + 1;
      }
      assert scriptModules[..i] == scriptModules;
    }

    /** Empties the three caches and the five plugin and module lists; the
        search path and the path cache are kept. */
    method Shutdown()
      requires Valid()
      modifies this`textures, this`texturePlugins, this`models, this`modelPlugins,
               this`shaders, this`shaderPlugins, this`scriptPlugins, this`scriptModules
      ensures Valid()
      ensures textures == map[] && texturePlugins == []
      ensures models == map[] && modelPlugins == []
      ensures shaders == map[] && shaderPlugins == []
      ensures scriptPlugins == [] && scriptModules == []
      ensures paths == old(paths) && pathcache == old(pathcache)
    {
      textures := map[];
      texturePlugins := [];
      models := map[];
      modelPlugins := [];
      shaders := map[];
      shaderPlugins := [];
      scriptPlugins := [];
      scriptModules := [];
    }
  }
}
