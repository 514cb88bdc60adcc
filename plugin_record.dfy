/** The plugin record that travels between the web page and the server: the
    page's `ComfyUIPlugin` (a `KatzukiPlugin` plus `files` and `install_type`),
    posted as the JSON payload of the install and remove requests and stored
    in the installed-plugins cache. A field that is `undefined` on the page (or
    absent from the JSON object) is `None`. */
module Plugins {
  import opened Wrappers

  datatype Plugin = Plugin(
    name: string,
    author: string,
    isSingleFile: Option<bool>,
    path: Option<string>,
    url: Option<string>,
    branch: Option<string>,
    currentCommit: Option<string>,
    upstreamCommit: Option<string>,
    stargazersCount: Option<int>,
    updatedAt: Option<string>,
    description: Option<string>,
    nodeTypes: Option<seq<string>>,
    commitsHash: Option<seq<string>>,
    commitsMessage: Option<seq<string>>,
    files: seq<string>,
    installType: string)

  /** JavaScript truthiness of an optional string: present and not empty. */
  predicate Truthy(s: Option<string>) {
    s.Some? && s.value != ""
  }

  /** `item.path` is truthy: the page treats the plugin as installed. */
  predicate HasPath(p: Plugin) {
    Truthy(p.path)
  }
}
