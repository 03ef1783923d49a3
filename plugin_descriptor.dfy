/** Plugin descriptors as the plugin manager and the Carla wrapper see
    them.  The descriptor module itself (plugin_descriptor.c) is not part
    of this model: its `is_instrument` test is a field here and its
    `is_same_plugin` test is passed to the operations that use it. */
module PluginDescriptors {
  import opened Wrappers

  /** The plugin standards a descriptor can come from (`PROT_*`). */
  datatype Protocol = Dummy | Lv2 | Dssi | Ladspa | Vst | Vst3 | Au | Sfz | Sf2 | Clap | Jsfx

  /** A scanned plugin.  `name`, `categoryStr` and `author` are pointers
      that can be NULL in the source. */
  datatype Descriptor = Descriptor(
    name: Option<string>,
    uri: string,
    protocol: Protocol,
    categoryStr: Option<string>,
    author: Option<string>,
    instrument: bool)
}
