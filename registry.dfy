/** The plugin registry (package `plugins`): the plugin values, the
    package-level list of custom plugins that `AddCustom` appends to, and
    `Initialize`, which puts the two default plugins in front of it. */
module Registry {
  import opened Values

  /** The browser handle and the file store a plugin is built over; both
      are opaque references. */
  type BrowserRef = nat
  type StoreRef = nat

  /** A plugin: the two default ones, bound to the browser (and the file
      store for screenshots), or a custom one known by its name. `id`
      tells apart custom plugins that share a name. */
  datatype Plugin =
    | GoogleSearchPlugin(browser: BrowserRef)
    | ScreenshotPlugin(browser: BrowserRef, fileStore: StoreRef)
    | CustomPlugin(customName: string, id: nat)
  {
    /** `Plugin.Name()`. */
    function Name(): string
    {
      match this
      case GoogleSearchPlugin(_) => "googlesearch"
      case ScreenshotPlugin(_, _) => "screenshot"
      case CustomPlugin(n, _) => n
    }
  }

  /** The names of a plugin list, one per plugin, in order. */
  function Names(plugins: seq<Plugin>): (r: seq<string>)
    ensures |r| == |plugins|
    ensures forall i :: 0 <= i < |plugins| ==> r[i] == plugins[i].Name()
  {
    seq(|plugins|, i requires 0 <= i < |plugins| => plugins[i].Name())
  }

  /** The package state of `plugins`. */
  class Registry {
    /** `customPlugins`. */
    var customPlugins: seq<Plugin>

    /** The package's initial state: no custom plugins. */
    constructor ()
      ensures customPlugins == []
    {
      customPlugins := [];
    }

    /** `AddCustom`: a `nil` plugin is ignored; any other is appended, with
        no check that its name is new. */
    method AddCustom(plugin: Option<Plugin>)
      modifies this
      ensures plugin.None? ==> customPlugins == old(customPlugins)
      ensures plugin.Some? ==> customPlugins == old(customPlugins) + [plugin.value]
    {
      if plugin.None? {
        return;
      }
      customPlugins := customPlugins + [plugin.value];
    }

    /** `Initialize`: googlesearch, then screenshot, then the custom
        plugins in insertion order. Being a function, it cannot change the
        custom list. */
    function Initialize(browser: BrowserRef, fileStore: StoreRef): (r: seq<Plugin>)
      reads this
      ensures |r| == 2 + |customPlugins|
      ensures r[0] == GoogleSearchPlugin(browser) && r[1] == ScreenshotPlugin(browser, fileStore)
      ensures r[2..] == customPlugins
      ensures Names(r)[..2] == ["googlesearch", "screenshot"]
    {
      [GoogleSearchPlugin(browser), ScreenshotPlugin(browser, fileStore)] + customPlugins
    }
  }

  /** The registry's own tests, and a name added twice showing up twice. */
  method RegistryScenario(browser: BrowserRef, fileStore: StoreRef)
    returns (before: seq<Plugin>, after: seq<Plugin>)
    ensures |before| == 2 && |after| == 4
    ensures Names(after)[2..] == ["test", "test"]
  {
    var registry := new Registry();
    before := registry.Initialize(browser, fileStore);
    registry.AddCustom(Some(CustomPlugin("test", 0)));
    registry.AddCustom(None);
    assert |registry.customPlugins| == 1;
    registry.AddCustom(Some(CustomPlugin("test", 1)));
    after := registry.Initialize(browser, fileStore);
  }
}
