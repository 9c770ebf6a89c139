/** Client-level consequences of the registry's contracts: what a caller
    can rely on across several calls. */
module ResourceScenarios {
  import opened Wrappers
  import opened ScriptResources
  import opened Resources

  /** Idempotent caching: asking twice for the same texture gives the same
      answer, and the second request changes nothing, even if the filesystem
      has changed in between. */
  method TextureRequestedTwice(rm: ResourceManager, f: string, fs: set<string>, fs': set<string>)
    returns (first: Result<Resource, ResourceException>, second: Result<Resource, ResourceException>)
    requires rm.Valid()
    modifies rm`textures, rm`pathcache
    ensures second == first
    ensures first.Ok? ==> f in rm.textures && rm.textures[f] == first.value
  {
    first := rm.CreateTexture(f, fs);
    ghost var textures, pathcache := rm.textures, rm.pathcache;
    second := rm.CreateTexture(f, fs');
    assert rm.textures == textures && rm.pathcache == pathcache;
  }

  /** The path cache and the three resource caches are independent: loading a
      model under a name leaves the texture and shader caches as they were. */
  method KindsAreSeparate(rm: ResourceManager, f: string, fs: set<string>)
    returns (model: Result<Resource, ResourceException>)
    requires rm.Valid()
    modifies rm`models, rm`pathcache
    ensures rm.textures == old(rm.textures) && rm.shaders == old(rm.shaders)
    ensures model.Ok? ==> model.value.kind == Model
  {
    model := rm.CreateModel(f, fs);
  }

  /** Ambiguity: with two search directories both holding the file, the
      first directory wins and the choice is memoised, so the ambiguity
      warning is logged on the first lookup only. */
  method FirstDirectoryWins(rm: ResourceManager, a: string, b: string, f: string, fs: set<string>)
    returns (r: string, r': string)
    requires rm.Valid() && rm.paths == [a, b] && f !in rm.pathcache
    requires a + f in fs && b + f in fs
    modifies rm`pathcache
    ensures r == a + f && r' == r
    ensures rm.pathcache == old(rm.pathcache)[f := a + f]
  {
    ghost var warned, warnedAgain;
    r, warned := rm.FindFileInPath(f, fs);
    ResolveFirst(old(rm.pathcache), rm.paths, f, fs, 0);
    assert Candidates([b], f, fs) == [b + f];
    assert warned;
    r', warnedAgain := rm.FindFileInPath(f, fs);
    assert !warnedAgain;
  }

  /** A directory added at either end of the search path is reported as
      being in it. */
  method AddedPathIsInPath(rm: ResourceManager, front: string, back: string)
    returns (hasFront: bool, hasBack: bool)
    requires rm.Valid()
    modifies rm`paths
    ensures hasFront && hasBack
    ensures rm.paths == [front] + old(rm.paths) + [back]
  {
    rm.AppendPath(back);
    rm.PrependPath(front);
    hasFront := rm.IsInPath(front);
    hasBack := rm.IsInPath(back);
  }

  /** Plugin priority: of two registered texture plugins that both accept an
      extension, the one registered first loads the texture. */
  method FirstPluginWins(rm: ResourceManager, p1: LoaderPlugin, p2: LoaderPlugin, f: string, fs: set<string>)
    returns (r: Result<Resource, ResourceException>)
    requires rm.Valid() && rm.texturePlugins == [] && f !in rm.textures
    requires p1.AcceptsExtension(rm.extensionOf(f)) && p2.AcceptsExtension(rm.extensionOf(f))
    modifies rm`texturePlugins, rm`textures, rm`pathcache
    ensures r.Ok? && r.value.loader == p1
  {
    rm.AddTexturePlugin(p1);
    rm.AddTexturePlugin(p2);
    r := rm.CreateTexture(f, fs);
  }

  /** A failed load leaves no cache entry: once an accepting plugin is
      registered, the same request loads. */
  method UnsupportedThenRegistered(rm: ResourceManager, p: LoaderPlugin, f: string, fs: set<string>)
    returns (before: Result<Resource, ResourceException>, after: Result<Resource, ResourceException>)
    requires rm.Valid() && rm.modelPlugins == [] && f !in rm.models
    requires p.AcceptsExtension(rm.extensionOf(f))
    modifies rm`modelPlugins, rm`models, rm`pathcache
    ensures before == Err(ResourceException("Unsupported file format: " + f))
    ensures after.Ok? && after.value.loader == p && rm.models == old(rm.models)[f := after.value]
  {
    before := rm.CreateModel(f, fs);
    rm.AddModelPlugin(p);
    after := rm.CreateModel(f, fs);
  }

  /** Scripts are not cached: two requests for the same language give two
      distinct instances. */
  method ScriptsAreNotShared(rm: ResourceManager, lang: string)
    returns (a: Result<ScriptResource, ResourceException>, b: Result<ScriptResource, ResourceException>)
    requires rm.Valid()
    requires exists i :: 0 <= i < |rm.scriptPlugins| && lang in rm.scriptPlugins[i].languages
    ensures a.Ok? && b.Ok? && a.value != b.value
  {
    a := rm.CreateScript(lang);
    b := rm.CreateScript(lang);
  }

  /** A plugin that has been taught a language creates scripts for it, and
      still runs every language it ran before. */
  method LanguageAddedIsRun(rm: ResourceManager, p: ScriptResourcePlugin, lang: string, earlier: string)
    returns (runs: bool, still: bool, script: Result<ScriptResource, ResourceException>)
    requires rm.Valid() && rm.scriptPlugins == [] && earlier in p.languages
    modifies p`languages, rm`scriptPlugins
    ensures runs && still
    ensures script.Ok? && script.value.creator == p
  {
    p.AddLanguage(lang);
    runs := p.RunsLanguage(lang);
    still := p.RunsLanguage(earlier);
    rm.AddScriptPlugin(p);
    script := rm.CreateScript(lang);
  }

  /** After Shutdown every cache and registry is empty, so even a texture that
      was resident fails to load until a plugin is registered again. */
  method ShutdownForgetsTextures(rm: ResourceManager, f: string, fs: set<string>)
    returns (r: Result<Resource, ResourceException>)
    requires rm.Valid()
    modifies rm`textures, rm`texturePlugins, rm`models, rm`modelPlugins,
             rm`shaders, rm`shaderPlugins, rm`scriptPlugins, rm`scriptModules, rm`pathcache
    ensures r == Err(ResourceException("Unsupported file format: " + f))
    ensures rm.paths == old(rm.paths) && rm.pathcache == old(rm.pathcache)
  {
    rm.Shutdown();
    r := rm.CreateTexture(f, fs);
  }
}
