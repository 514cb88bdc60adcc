/** The three web handlers of `main.py` behind the plugin panel: listing the
    installed plugins, installing one and removing one. Each handler refuses
    with a 500 when the node loader is missing; install and remove run the
    transport named by the payload's `install_type` and then rewrite the
    installed-plugins cache, a JSON file mapping plugin names to the payloads
    that installed them. */
module Registry {
  import opened Wrappers
  import opened Platform
  import opened Transports
  import opened Plugins
  import PluginList

  type Cache = map<string, Plugin>

  datatype Body = Listing(plugins: Cache) | ErrorBody(error: string) | EmptyBody

  /** A JSON response, or the exception the handler raises. */
  datatype Reply = Reply(status: int, body: Body) | Raised(error: string)

  const LoadFailure := "Server failed to load nodes."
  const UnzipRemoval := "Since ComfyUIManager in ComfyUI doesn't support uninstall anything that was installed using unzip method, please remove the files manually."

  function InvalidType(installType: string): string {
    "Invalid install type " + installType
  }

  function InstalledLabel(cfg: Config): string {
    "installed somewhere in " + cfg.customNodes
  }

  /** The cache as read from disk: empty when the file does not exist (`None`). */
  function Loaded(cache: Option<Cache>): Cache {
    if cache.Some? then cache.value else map[]
  }

  /** Every entry with its `path` set to the mark. */
  function Annotate(c: Cache, mark: string): Cache {
    map k | k in c :: c[k].(path := Some(mark))
  }

  /** The transport the install handler runs (`copy_install(files)` leaves
      `js_path_name` at `None`). */
  function InstallTransport(installType: string): Option<Transport> {
    if installType == "git-clone" then Some(GitIn)
    else if installType == "copy" then Some(CopyIn(None))
    else if installType == "unzip" then Some(UnzipIn)
    else None
  }

  /** The transport the remove handler runs (`copy_uninstall(files)` leaves
      `js_path_name` at `'.'`); `unzip` has none. */
  function RemoveTransport(installType: string): Option<Transport> {
    if installType == "git-clone" then Some(GitOut)
    else if installType == "copy" then Some(CopyOut("."))
    else None
  }

  /** What the handlers read and change: the host, the cache file (`None`
      while it does not exist) and how many times the node loader has been
      re-initialised. */
  datatype ServerState = ServerState(os: Os, cache: Option<Cache>, reloads: nat)

  function ListSpec(ready: bool, cfg: Config, st: ServerState): Reply {
    if !ready then Reply(500, ErrorBody(LoadFailure))
    else Reply(200, Listing(Annotate(Loaded(st.cache), InstalledLabel(cfg))))
  }

  function InstallSpec(ready: bool, cfg: Config, w: World, st: ServerState, p: Plugin): (ServerState, Reply) {
    if !ready then (st, Reply(500, ErrorBody(LoadFailure)))
    else match InstallTransport(p.installType)
      case None => (st, Raised(InvalidType(p.installType)))
      case Some(t) =>
        var os := Batch(cfg, w, st.os, t, p.files).0;
        (ServerState(os, Some(Loaded(st.cache)[p.name := p]), st.reloads + 1), Reply(200, EmptyBody))
  }

  /** The cache after `del plugins[name]` when the file exists; no file stays no file. */
  function Dropped(cache: Option<Cache>, name: string): Option<Cache> {
    if cache.Some? then Some(cache.value - {name}) else None
  }

  function RemoveSpec(ready: bool, cfg: Config, w: World, st: ServerState, p: Plugin): (ServerState, Reply) {
    if !ready then (st, Reply(500, ErrorBody(LoadFailure)))
    else if p.installType == "unzip" then (st, Reply(500, ErrorBody(UnzipRemoval)))
    else match RemoveTransport(p.installType)
      case None => (st, Raised(InvalidType(p.installType)))
      case Some(t) =>
        var os := Batch(cfg, w, st.os, t, p.files).0;
        (ServerState(os, Dropped(st.cache, p.name), st.reloads + 1), Reply(200, EmptyBody))
  }

  // ---------------------------------------------------------------- properties

  /** The listing holds every cached plugin and nothing else, each marked as
      installed under the custom nodes directory; no cache file lists nothing. */
  lemma ListingMarksEveryPlugin(cfg: Config, st: ServerState)
    ensures ListSpec(true, cfg, st).body.Listing?
    ensures var l := ListSpec(true, cfg, st).body.plugins;
      l.Keys == Loaded(st.cache).Keys &&
      (forall k :: k in l ==> l[k] == Loaded(st.cache)[k].(path := Some(InstalledLabel(cfg))) && HasPath(l[k])) &&
      (st.cache.None? ==> l == map[])
    ensures ListSpec(false, cfg, st) == Reply(500, ErrorBody(LoadFailure))
  {
    var l := ListSpec(true, cfg, st).body.plugins;
    assert |"installed somewhere in "| > 0;
    forall k | k in l ensures HasPath(l[k]) {
      assert l[k].path.value[0] == 'i';
    }
  }

  /** Installing with a known type stores the payload under its name, keeps
      every other entry, creates the cache when missing, runs the transport
      and reloads the nodes once; the reply is the same whatever the
      transport reported. */
  lemma InstallStoresPayload(cfg: Config, w: World, st: ServerState, p: Plugin)
    requires InstallTransport(p.installType).Some?
    ensures var (st', reply) := InstallSpec(true, cfg, w, st, p);
      reply == Reply(200, EmptyBody) &&
      st'.cache.Some? && p.name in st'.cache.value && st'.cache.value[p.name] == p &&
      (forall k :: k != p.name ==>
         (k in st'.cache.value <==> k in Loaded(st.cache)) &&
         (k in Loaded(st.cache) ==> st'.cache.value[k] == Loaded(st.cache)[k])) &&
      st'.os == Batch(cfg, w, st.os, InstallTransport(p.installType).value, p.files).0 &&
      st'.reloads == st.reloads + 1
  {
  }

  /** The cache after an install does not depend on the transport's outcome. */
  lemma InstallIgnoresTransportResult(cfg: Config, w1: World, w2: World, st: ServerState, p: Plugin)
    ensures InstallSpec(true, cfg, w1, st, p).0.cache == InstallSpec(true, cfg, w2, st, p).0.cache
    ensures InstallSpec(true, cfg, w1, st, p).1 == InstallSpec(true, cfg, w2, st, p).1
  {
  }

  /** A request the handlers refuse changes nothing: no node loader, an
      unknown install type (raised before the cache is read), or the removal
      of an `unzip` plugin. */
  lemma RefusedRequestsChangeNothing(cfg: Config, w: World, st: ServerState, p: Plugin, ready: bool)
    requires !ready || InstallTransport(p.installType).None?
    ensures InstallSpec(ready, cfg, w, st, p).0 == st
    ensures RemoveSpec(ready, cfg, w, st, p).0 == st
    ensures !ready ==> InstallSpec(ready, cfg, w, st, p).1 == RemoveSpec(ready, cfg, w, st, p).1 == Reply(500, ErrorBody(LoadFailure))
    ensures ready ==> InstallSpec(ready, cfg, w, st, p).1 == RemoveSpec(ready, cfg, w, st, p).1 == Raised(InvalidType(p.installType))
  {
  }

  lemma UnzipRemovalRefused(cfg: Config, w: World, st: ServerState, p: Plugin)
    requires p.installType == "unzip"
    ensures RemoveSpec(true, cfg, w, st, p) == (st, Reply(500, ErrorBody(UnzipRemoval)))
  {
  }

  /** A removal with a known type: the transport runs, the entry is dropped
      and the nodes are reloaded. */
  lemma RemoveSpecRuns(cfg: Config, w: World, st: ServerState, p: Plugin)
    requires p.installType == "git-clone" || p.installType == "copy"
    ensures RemoveSpec(true, cfg, w, st, p).0.os == Batch(cfg, w, st.os, RemoveTransport(p.installType).value, p.files).0
    ensures RemoveSpec(true, cfg, w, st, p).0.cache == Dropped(st.cache, p.name)
    ensures RemoveSpec(true, cfg, w, st, p).0.reloads == st.reloads + 1
    ensures RemoveSpec(true, cfg, w, st, p).1 == Reply(200, EmptyBody)
  {
    if p.installType == "git-clone" {
      assert RemoveTransport(p.installType) == Some(GitOut);
    } else {
      assert RemoveTransport(p.installType) == Some(CopyOut("."));
    }
  }

  /** Removing drops the name from an existing cache (a missing name is not an
      error) and keeps every other entry; with no cache file nothing is
      written. */
  lemma RemoveDropsEntry(cfg: Config, w: World, st: ServerState, p: Plugin)
    requires p.installType == "git-clone" || p.installType == "copy"
    ensures RemoveSpec(true, cfg, w, st, p).1 == Reply(200, EmptyBody)
    ensures st.cache.None? ==> RemoveSpec(true, cfg, w, st, p).0.cache.None?
    ensures st.cache.Some? ==> RemoveSpec(true, cfg, w, st, p).0.cache.Some?
    ensures var c := Loaded(RemoveSpec(true, cfg, w, st, p).0.cache);
      p.name !in c &&
      forall k :: k != p.name ==>
        (k in c <==> k in Loaded(st.cache)) &&
        (k in c ==> c[k] == Loaded(st.cache)[k])
    ensures st.cache.Some? && p.name !in st.cache.value ==> RemoveSpec(true, cfg, w, st, p).0.cache == st.cache
    ensures RemoveSpec(true, cfg, w, st, p).0.os == Batch(cfg, w, st.os, RemoveTransport(p.installType).value, p.files).0
    ensures RemoveSpec(true, cfg, w, st, p).0.reloads == st.reloads + 1
  {
    RemoveSpecRuns(cfg, w, st, p);
    if st.cache.Some? && p.name !in st.cache.value {
      assert st.cache.value - {p.name} == st.cache.value;
    }
  }

  /** Install followed by remove of the same plugin leaves the cache as it
      was, less any older entry under that name. */
  lemma InstallThenRemove(cfg: Config, w: World, st: ServerState, p: Plugin)
    requires p.installType == "git-clone" || p.installType == "copy"
    ensures var mid := InstallSpec(true, cfg, w, st, p).0;
      RemoveSpec(true, cfg, w, mid, p).0.cache == Some(Loaded(st.cache) - {p.name})
  {
    var mid := InstallSpec(true, cfg, w, st, p).0;
    assert mid.cache.value - {p.name} == Loaded(st.cache) - {p.name};
  }

  /** After an install the listing shows the plugin as installed, so the
      panel offers to remove it and hides it from the remote list. */
  lemma InstalledPluginListedForRemoval(cfg: Config, w: World, st: ServerState, p: Plugin, search: string)
    requires InstallTransport(p.installType).Some?
    ensures var l := ListSpec(true, cfg, InstallSpec(true, cfg, w, st, p).0).body.plugins;
      p.name in l && l[p.name] == p.(path := Some(InstalledLabel(cfg))) &&
      PluginList.PrimaryAction(l[p.name]) == PluginList.RemoveAction &&
      !PluginList.Shown(l[p.name], search)
  {
    ListingMarksEveryPlugin(cfg, InstallSpec(true, cfg, w, st, p).0);
  }

  // ---------------------------------------------------------------- the handlers

  /** Runs the batch operation a transport names. */
  method RunTransport(h: Host, t: Transport, files: seq<string>) returns (ok: bool)
    modifies h
    ensures h.State() == Batch(h.cfg, h.world, old(h.State()), t, files).0
    ensures ok == Batch(h.cfg, h.world, old(h.State()), t, files).1
  {
    match t
    case CopyIn(jsDir) => ok := CopyInstall(h, files, jsDir);
    case CopyOut(jsName) => ok := CopyUninstall(h, files, jsName);
    case UnzipIn => ok := UnzipInstall(h, files);
    case GitIn => ok := GitcloneInstall(h, files);
    case GitOut => ok := GitcloneUninstall(h, files);
  }

  class Server {
    const host: Host
    const loaderReady: bool
    var cache: Option<Cache>
    var reloads: nat

    function State(): ServerState
      reads this, host
    {
      ServerState(host.State(), cache, reloads)
    }

    constructor (host: Host, loaderReady: bool, cache: Option<Cache>)
      ensures this.host == host && this.loaderReady == loaderReady
      ensures this.cache == cache && reloads == 0
    {
      this.host := host;
      this.loaderReady := loaderReady;
      this.cache := cache;
      this.reloads := 0;
    }

    /** `GET /ComfyUIManager/plugins`. */
    method ListPlugins() returns (reply: Reply)
      ensures reply == ListSpec(loaderReady, host.cfg, State())
    {
      if !loaderReady {
        return Reply(500, ErrorBody(LoadFailure));
      }
      var installed: Cache := if cache.Some? then cache.value else map[];
      var mark := InstalledLabel(host.cfg);
      var listed := installed;
      var pending := installed.Keys;
      while pending != {}
        invariant pending <= installed.Keys && listed.Keys == installed.Keys
        invariant forall k :: k in installed ==>
          listed[k] == if k in pending then installed[k] else installed[k].(path := Some(mark))
        decreases pending
      {
        var name :| name in pending;
        listed := listed[name := listed[name].(path := Some(mark))];
        pending := pending - {name};
      }
      assert listed == Annotate(installed, mark);
      return Reply(200, Listing(listed));
    }

    /** `POST /ComfyUIManager/plugins/install`. */
    method InstallPlugin(payload: Plugin) returns (reply: Reply)
      modifies this, host
      ensures host.State() == InstallSpec(loaderReady, host.cfg, host.world, old(State()), payload).0.os
      ensures cache == InstallSpec(loaderReady, host.cfg, host.world, old(State()), payload).0.cache
      ensures reloads == InstallSpec(loaderReady, host.cfg, host.world, old(State()), payload).0.reloads
      ensures reply == InstallSpec(loaderReady, host.cfg, host.world, old(State()), payload).1
    {
      if !loaderReady {
        return Reply(500, ErrorBody(LoadFailure));
      }
      var transport := InstallTransport(payload.installType);
      if transport.None? {
        return Raised(InvalidType(payload.installType));
      }
      var _ := RunTransport(host, transport.value, payload.files);
      var installed: Cache := if cache.Some? then cache.value else map[];
      installed := installed[payload.name := payload];
      cache := Some(installed);
      reloads := reloads + 1;
      return Reply(200, EmptyBody);
    }

    /** `POST /ComfyUIManager/plugins/remove`. */
    method RemovePlugin(payload: Plugin) returns (reply: Reply)
      modifies this, host
      ensures host.State() == RemoveSpec(loaderReady, host.cfg, host.world, old(State()), payload).0.os
      ensures cache == RemoveSpec(loaderReady, host.cfg, host.world, old(State()), payload).0.cache
      ensures reloads == RemoveSpec(loaderReady, host.cfg, host.world, old(State()), payload).0.reloads
      ensures reply == RemoveSpec(loaderReady, host.cfg, host.world, old(State()), payload).1
    {
      if !loaderReady {
        return Reply(500, ErrorBody(LoadFailure));
      }
      if payload.installType == "unzip" {
        return Reply(500, ErrorBody(UnzipRemoval));
      }
      var transport := RemoveTransport(payload.installType);
      if transport.None? {
        return Raised(InvalidType(payload.installType));
      }
      assert payload.installType == "git-clone" || payload.installType == "copy";
      ghost var st := State();
      RemoveSpecRuns(host.cfg, host.world, st, payload);
      var _ := RunTransport(host, transport.value, payload.files);
      if cache.Some? {
        var installed := cache.value;
        installed := installed - {payload.name};
        cache := Some(installed);
      }
      reloads := reloads + 1;
      reply := Reply(200, EmptyBody);
    }
  }
}
