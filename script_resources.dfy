/** Scripting plugins and script modules, each carrying the list of
    languages it runs. */
module ScriptResources {
  import Lists

  /** An interpreter instance produced by a scripting plugin. */
  class ScriptResource {
    /** The plugin whose CreateResource produced this instance. */
    const creator: ScriptResourcePlugin

    constructor (creator: ScriptResourcePlugin)
      ensures this.creator == creator
    {
      this.creator := creator;
    }
  }

  /** A plugin that creates interpreter instances for the languages it lists. */
  class ScriptResourcePlugin {
    var languages: seq<string>

    constructor ()
      ensures languages == []
    {
      languages := [];
    }

    /** The plugin's own construction operation: a new instance on every call. */
    method CreateResource() returns (r: ScriptResource)
      ensures fresh(r) && r.creator == this
    {
      r := new ScriptResource(this);
    }

    /** Appends `lang`; duplicates are kept and nothing is removed. */
    method AddLanguage(lang: string)
      modifies this`languages
      ensures languages == old(languages) + [lang]
      ensures lang in languages
      ensures forall l :: l in old(languages) ==> l in languages
    {
      languages := languages + [lang];
    }

    method RunsLanguage(lang: string) returns (runs: bool)
      ensures runs <==> lang in languages
    {
      runs := Lists.Contains(languages, lang);
    }
  }

  /** An interpreter extension; it is queried by language like a plugin. */
  class ScriptModule {
    var languages: seq<string>

    constructor ()
      ensures languages == []
    {
      languages := [];
    }

    /** Appends `lang`; duplicates are kept and nothing is removed. */
    method AddLanguage(lang: string)
      modifies this`languages
      ensures languages == old(languages) + [lang]
      ensures lang in languages
      ensures forall l :: l in old(languages) ==> l in languages
    {
      languages := languages + [lang];
    }

    method RunsLanguage(lang: string) returns (runs: bool)
      ensures runs <==> lang in languages
    {
      runs := Lists.Contains(languages, lang);
    }
  }
}
