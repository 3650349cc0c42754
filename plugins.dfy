/**
 * The plugin record the registry operates on. Its hooks are code of the
 * plugin's author; the registry only records when it invokes them (see the
 * Resolution module), and the default hooks do nothing else.
 */
module Plugins {
  import opened Wrappers

  /**
   * A plugin's initialisation promise. Each promise the registry creates
   * carries a fresh serial number, which stands for the promise object's identity.
   */
  datatype Promise = Promise(serial: nat)

  /** The name a plugin has unless its author gives it another. */
  const DefaultPluginName: string := "plugin"

  class Plugin {
    /** Options handed to the constructor, stored as given. */
    const pluginOptions: map<string, string>
    /** The key under which the registry files the plugin. */
    const pluginName: string
    /** Names of the plugins that must be initialised first (`requires`). */
    const required: seq<string>
    /** Initialisation state: None until the registry starts initialising the plugin. */
    var state: Option<Promise>

    /** `new Plugin(options)`: a plugin with the default name and no dependencies. */
    constructor (pluginOptions: map<string, string> := map[])
      ensures this.pluginOptions == pluginOptions
      ensures pluginName == DefaultPluginName && required == [] && state == None
    {
      this.pluginOptions := pluginOptions;
      pluginName := DefaultPluginName;
      required := [];
      state := None;
    }

    /**
     * A plugin whose author overrides `pluginName` and `requires`, as a
     * subclass of `Plugin` does with its field initialisers.
     */
    constructor Declared(pluginName: string, required: seq<string>, pluginOptions: map<string, string> := map[])
      ensures this.pluginOptions == pluginOptions
      ensures this.pluginName == pluginName && this.required == required && state == None
    {
      this.pluginOptions := pluginOptions;
      this.pluginName := pluginName;
      this.required := required;
      state := None;
    }
  }
}
