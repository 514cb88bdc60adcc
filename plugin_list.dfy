/** The data shaping behind the plugin manager panel (`comfyui_manager.tsx`):
    the case-insensitive search, the conversion of the remote catalogue's
    descriptors, the "Plugins Repo" list (remote and installed entries merged,
    installed ones winning, then filtered to the uninstalled ones that match
    the search), the sort by name that every list goes through, and the
    per-plugin commit rows, action buttons and usage count. */
module PluginList {
  import opened Wrappers
  import opened Strings
  import opened Dicts
  import opened Plugins

  // ---------------------------------------------------------------- search

  /** `searchTarget.toLowerCase().includes(searchWord.toLowerCase())`. */
  predicate IsSearchWordInExactTarget(searchWord: string, searchTarget: string) {
    Contains(Lower(searchTarget), Lower(searchWord))
  }

  lemma EmptyWordMatches(target: string)
    ensures IsSearchWordInExactTarget("", target)
  {
    assert Lower("") == "";
    assert StartsWith(Lower(target), "");
  }

  lemma LowerConcat(a: string, b: string)
    ensures Lower(a + b) == Lower(a) + Lower(b)
  {
  }

  /** Lower-casing keeps every occurrence. */
  lemma {:induction false} ContainsLower(s: string, sub: string)
    requires Contains(s, sub)
    ensures Contains(Lower(s), Lower(sub))
    decreases |s|
  {
    if StartsWith(s, sub) {
      assert Lower(s)[..|sub|] == Lower(s[..|sub|]);
    } else {
      ContainsLower(s[1..], sub);
      assert Lower(s)[1..] == Lower(s[1..]);
    }
  }

  /** A word that occurs in the target, in any letter case, is found. */
  lemma SubstringMatches(word: string, target: string)
    requires Contains(target, word)
    ensures IsSearchWordInExactTarget(word, target)
  {
    ContainsLower(target, word);
  }

  lemma LowerIdempotent(s: string)
    ensures Lower(Lower(s)) == Lower(s)
  {
  }

  /** The test ignores the letter case of both sides. */
  lemma SearchIgnoresCase(word: string, target: string)
    ensures IsSearchWordInExactTarget(word, target) == IsSearchWordInExactTarget(Lower(word), Lower(target))
  {
    LowerIdempotent(word);
    LowerIdempotent(target);
  }

  // ---------------------------------------------------------------- remote catalogue

  /** One entry of the remote `custom-node-list.json`. */
  datatype RemotePlugin = RemotePlugin(
    author: string,
    title: string,
    reference: string,
    files: seq<string>,
    installType: string,
    description: string)

  /** `convertRemoteComfyUIPluginToKatzukiPlugin`. */
  function ConvertRemote(r: RemotePlugin): (p: Plugin)
    ensures p.name == r.title && p.author == r.author && p.url == Some(r.reference)
    ensures p.description == Some(r.description) && p.files == r.files && p.installType == r.installType
    ensures p.isSingleFile == Some(r.installType == "copy")
    ensures p.path.None? && p.branch.None? && p.currentCommit.None? && p.upstreamCommit.None?
    ensures p.stargazersCount.None? && p.updatedAt.None? && p.nodeTypes.None?
    ensures p.commitsHash.None? && p.commitsMessage.None?
  {
    Plugin(r.title, r.author, Some(r.installType == "copy"), None, Some(r.reference), None, None, None,
           None, None, Some(r.description), None, None, None, r.files, r.installType)
  }

  function Titles(catalogue: seq<RemotePlugin>): (r: seq<string>)
    ensures |r| == |catalogue| && forall i :: 0 <= i < |r| ==> r[i] == catalogue[i].title
  {
    seq(|catalogue|, i requires 0 <= i < |catalogue| => catalogue[i].title)
  }

  function Converted(catalogue: seq<RemotePlugin>): (r: seq<Plugin>)
    ensures |r| == |catalogue| && forall i :: 0 <= i < |r| ==> r[i] == ConvertRemote(catalogue[i])
  {
    seq(|catalogue|, i requires 0 <= i < |catalogue| => ConvertRemote(catalogue[i]))
  }

  /** `pluginInfo[plugin.title] = convert(plugin)` for each catalogue entry, in order. */
  function RemoteIndex(catalogue: seq<RemotePlugin>): Dict<Plugin> {
    ZipDict(Titles(catalogue), Converted(catalogue))
  }

  /** Every plugin of the remote index is the conversion of a catalogue entry
      whose title is its key; a title listed twice keeps its last entry. */
  lemma RemoteIndexEntries(catalogue: seq<RemotePlugin>, k: string)
    ensures Get(RemoteIndex(catalogue), k).Some? <==> exists i :: 0 <= i < |catalogue| && catalogue[i].title == k
    ensures forall i :: 0 <= i < |catalogue| && catalogue[i].title == k
                        && (forall j :: i < j < |catalogue| ==> catalogue[j].title != k) ==>
      Get(RemoteIndex(catalogue), k) == Some(ConvertRemote(catalogue[i]))
  {
    var ks, vs := Titles(catalogue), Converted(catalogue);
    PutAllGet([], ks, vs, k);
    assert ks[..Min(|ks|, |vs|)] == ks;
    var g := Get(RemoteIndex(catalogue), k);
    if g.Some? {
      var i :| 0 <= i < |ks| && ks[i] == k && vs[i] == g.value;
      assert catalogue[i].title == k;
    }
    if exists i :: 0 <= i < |catalogue| && catalogue[i].title == k {
      var i :| 0 <= i < |catalogue| && catalogue[i].title == k;
      assert ks[i] == k;
    }
    forall i | 0 <= i < |catalogue| && catalogue[i].title == k
                && (forall j :: i < j < |catalogue| ==> catalogue[j].title != k)
      ensures Get(RemoteIndex(catalogue), k) == Some(ConvertRemote(catalogue[i]))
    {
      RemoteIndexLast(catalogue, k, i);
    }
  }

  lemma RemoteIndexLast(catalogue: seq<RemotePlugin>, k: string, i: nat)
    requires i < |catalogue| && catalogue[i].title == k
    requires forall j :: i < j < |catalogue| ==> catalogue[j].title != k
    ensures Get(RemoteIndex(catalogue), k) == Some(ConvertRemote(catalogue[i]))
  {
    var ks, vs := Titles(catalogue), Converted(catalogue);
    PutAllGet([], ks, vs, k);
    LastValueIsLast(ks, vs, k, i);
  }

  // ---------------------------------------------------------------- the "Plugins Repo" filter

  /** Whether a merged entry stays in the "Plugins Repo" list: not installed,
      and either no search or a match in name, author, description or the
      comma-joined node types. */
  predicate Shown(v: Plugin, search: string) {
    !HasPath(v) &&
    (search == "" ||
     IsSearchWordInExactTarget(search, v.name) ||
     IsSearchWordInExactTarget(search, v.author) ||
     (Truthy(v.description) && IsSearchWordInExactTarget(search, v.description.value)) ||
     (v.nodeTypes.Some? && IsSearchWordInExactTarget(search, JoinWith(v.nodeTypes.value, ","))))
  }

  /** An empty search shows exactly the plugins that are not installed. */
  lemma EmptySearchShowsUninstalled(v: Plugin)
    ensures Shown(v, "") <==> !HasPath(v)
  {
  }

  /** A search for (part of) one of the plugin's node types finds it. */
  lemma SearchFindsNodeType(v: Plugin, search: string, t: string)
    requires !HasPath(v) && v.nodeTypes.Some? && t in v.nodeTypes.value && Contains(t, search)
    ensures Shown(v, search)
  {
    var joined := JoinWith(v.nodeTypes.value, ",");
    JoinWithContains(v.nodeTypes.value, ",", t);
    ContainsIffOccurs(t, search);
    var i :| OccursAt(t, search, i);
    ContainsIffOccurs(joined, t);
    var j :| OccursAt(joined, t, j);
    OccursWithin(joined, t, search, j, i);
    ContainsIffOccurs(joined, search);
    SubstringMatches(search, joined);
  }

  /** `Object.fromEntries(Object.entries(d).filter(([k, v]) => shown(v)))`. */
  function FilterShown(d: Dict<Plugin>, search: string): (r: Dict<Plugin>)
    ensures forall e :: e in r <==> e in d && Shown(e.value, search)
    ensures |r| <= |d|
  {
    if |d| == 0 then []
    else (if Shown(d[0].value, search) then [d[0]] else []) + FilterShown(d[1..], search)
  }

  /** The filter keeps the order of the entries: filtering two lists one
      after the other is filtering their concatenation. */
  lemma {:induction false} FilterShownAppend(a: Dict<Plugin>, b: Dict<Plugin>, search: string)
    ensures FilterShown(a + b, search) == FilterShown(a, search) + FilterShown(b, search)
    decreases |a|
  {
    if |a| > 0 {
      assert (a + b)[0] == a[0];
      assert (a + b)[1..] == a[1..] + b;
      FilterShownAppend(a[1..], b, search);
    } else {
      assert a + b == b;
    }
  }

  lemma {:induction false} FilterShownKeys(d: Dict<Plugin>, search: string)
    requires UniqueKeys(d)
    ensures UniqueKeys(FilterShown(d, search))
    decreases |d|
  {
    if |d| > 0 {
      var t := FilterShown(d[1..], search);
      KeysCons(d);
      assert Keys(d[1..]) == Keys(d)[1..];
      FilterShownKeys(d[1..], search);
      forall i | 0 <= i < |t| ensures t[i].key != d[0].key {
        assert t[i] in d[1..];
        var j :| 0 <= j < |d[1..]| && d[1..][j] == t[i];
        assert Keys(d)[j + 1] == t[i].key;
        assert Keys(d)[0] != Keys(d)[j + 1];
      }
      if Shown(d[0].value, search) {
        ConsUnique(d[0], t);
      } else {
        assert FilterShown(d, search) == [] + t == t;
      }
    }
  }

  lemma ConsUnique(e: Entry<Plugin>, t: Dict<Plugin>)
    requires UniqueKeys(t) && forall i :: 0 <= i < |t| ==> t[i].key != e.key
    ensures UniqueKeys([e] + t)
  {
    var r := [e] + t;
    forall i, j | 0 <= i < j < |r| ensures Keys(r)[i] != Keys(r)[j] {
      assert r[j] == t[j - 1];
      if i > 0 {
        assert r[i] == t[i - 1];
        assert Keys(t)[i - 1] != Keys(t)[j - 1];
      }
    }
  }

  /** The merged view the filter runs over: `{ ...pluginInfo, ...installedPluginInfo }`. */
  function Merged(pluginInfo: Dict<Plugin>, installed: Dict<Plugin>, k: string): Option<Plugin> {
    if Get(installed, k).Some? then Get(installed, k) else Get(pluginInfo, k)
  }

  /** The entries behind the "Plugins Repo" list. */
  function RemoteEntries(pluginInfo: Dict<Plugin>, installed: Dict<Plugin>, search: string): Dict<Plugin> {
    FilterShown(Spread(pluginInfo, installed), search)
  }

  /** A key is listed with the installed plugin when there is one, otherwise
      with the remote one, and only while that plugin is shown; in particular
      a key whose installed entry has a path is never listed. */
  lemma RemoteEntriesGet(pluginInfo: Dict<Plugin>, installed: Dict<Plugin>, search: string, k: string)
    requires UniqueKeys(pluginInfo) && UniqueKeys(installed)
    ensures UniqueKeys(RemoteEntries(pluginInfo, installed, search))
    ensures Get(RemoteEntries(pluginInfo, installed, search), k) ==
      if Merged(pluginInfo, installed, k).Some? && Shown(Merged(pluginInfo, installed, k).value, search)
      then Merged(pluginInfo, installed, k) else None
  {
    var m := Spread(pluginInfo, installed);
    SpreadGet(pluginInfo, installed, k);
    FilterShownKeys(m, search);
    var r := FilterShown(m, search);
    var g := Get(r, k);
    if g.Some? {
      GetEntry(r, k);
      var i :| 0 <= i < |m| && m[i] == Entry(k, g.value);
      EntryGet(m, i);
    } else if Get(m, k).Some? && Shown(Get(m, k).value, search) {
      GetEntry(m, k);
      var i :| 0 <= i < |r| && r[i] == Entry(k, Get(m, k).value);
      EntryGet(r, i);
    }
  }

  // ---------------------------------------------------------------- sort by name

  /** `a.localeCompare(b) <= 0`, taken as the code-unit lexicographic order. */
  predicate LexLe(a: string, b: string)
    decreases |a|
  {
    |a| == 0 || (|b| > 0 && (a[0] < b[0] || (a[0] == b[0] && LexLe(a[1..], b[1..]))))
  }

  lemma {:induction false} LexLeTotal(a: string, b: string)
    ensures LexLe(a, b) || LexLe(b, a)
    decreases |a|
  {
    if |a| > 0 && |b| > 0 && a[0] == b[0] {
      LexLeTotal(a[1..], b[1..]);
    }
  }

  lemma {:induction false} LexLeTrans(a: string, b: string, c: string)
    requires LexLe(a, b) && LexLe(b, c)
    ensures LexLe(a, c)
    decreases |a|
  {
    if |a| > 0 && a[0] == b[0] && b[0] == c[0] {
      LexLeTrans(a[1..], b[1..], c[1..]);
    }
  }

  predicate SortedByName(s: seq<Plugin>) {
    forall i, j :: 0 <= i < j < |s| ==> LexLe(s[i].name, s[j].name)
  }

  lemma SortedCons(x: Plugin, s: seq<Plugin>)
    requires SortedByName(s) && forall y :: y in s ==> LexLe(x.name, y.name)
    ensures SortedByName([x] + s)
  {
    var r := [x] + s;
    forall i, j | 0 <= i < j < |r| ensures LexLe(r[i].name, r[j].name) {
      if i == 0 {
        assert r[j] == s[j - 1] && r[j] in s;
      } else {
        assert r[i] == s[i - 1] && r[j] == s[j - 1];
      }
    }
  }

  /** Places `x` after every plugin whose name does not follow it. */
  function Insert(x: Plugin, s: seq<Plugin>): (r: seq<Plugin>)
    ensures multiset(r) == multiset(s) + multiset{x}
  {
    if |s| == 0 then [x]
    else if !LexLe(s[0].name, x.name) then [x] + s
    else
      assert s == [s[0]] + s[1..];
      [s[0]] + Insert(x, s[1..])
  }

  lemma SortedTail(s: seq<Plugin>)
    requires |s| > 0 && SortedByName(s)
    ensures SortedByName(s[1..])
  {
    forall i, j | 0 <= i < j < |s[1..]| ensures LexLe(s[1..][i].name, s[1..][j].name) {
      assert s[1..][i] == s[i + 1] && s[1..][j] == s[j + 1];
    }
  }

  lemma SortedHeadLeast(s: seq<Plugin>, y: Plugin)
    requires |s| > 0 && SortedByName(s) && y in s
    ensures LexLe(s[0].name, y.name)
  {
    var j :| 0 <= j < |s| && s[j] == y;
    if j == 0 {
      LexLeTotal(y.name, y.name);
    }
  }

  lemma {:induction false} InsertSorted(x: Plugin, s: seq<Plugin>)
    requires SortedByName(s)
    ensures SortedByName(Insert(x, s))
    decreases |s|
  {
    if |s| == 0 {
    } else if !LexLe(s[0].name, x.name) {
      LexLeTotal(s[0].name, x.name);
      forall y | y in s ensures LexLe(x.name, y.name) {
        SortedHeadLeast(s, y);
        LexLeTrans(x.name, s[0].name, y.name);
      }
      SortedCons(x, s);
    } else {
      var t := Insert(x, s[1..]);
      SortedTail(s);
      InsertSorted(x, s[1..]);
      forall y | y in t ensures LexLe(s[0].name, y.name) {
        assert y in multiset(t);
        if y != x {
          assert y in multiset(s[1..]);
          SortedHeadLeast(s, y);
        }
      }
      SortedCons(s[0], t);
    }
  }

  /** `values.sort((a, b) => a.name.localeCompare(b.name))`, as an insertion
      sort that keeps plugins with equal names in their original order. */
  function SortByName(s: seq<Plugin>): (r: seq<Plugin>)
    ensures SortedByName(r)
    ensures multiset(r) == multiset(s)
  {
    if |s| == 0 then []
    else
      assert s == s[..|s| - 1] + [s[|s| - 1]];
      InsertSorted(s[|s| - 1], SortByName(s[..|s| - 1]));
      Insert(s[|s| - 1], SortByName(s[..|s| - 1]))
  }

  /** The "Installed Plugins" list. */
  function InstalledRows(installed: Dict<Plugin>): seq<Plugin> {
    SortByName(Values(installed))
  }

  /** The "Plugins Repo" list. */
  function RemoteRows(pluginInfo: Dict<Plugin>, installed: Dict<Plugin>, search: string): seq<Plugin> {
    SortByName(Values(RemoteEntries(pluginInfo, installed, search)))
  }

  lemma ValuesMember(d: Dict<Plugin>, v: Plugin)
    ensures v in Values(d) <==> exists i :: 0 <= i < |d| && d[i].value == v
  {
    if v in Values(d) {
      var i :| 0 <= i < |d| && Values(d)[i] == v;
    }
    if exists i :: 0 <= i < |d| && d[i].value == v {
      var i :| 0 <= i < |d| && d[i].value == v;
      assert Values(d)[i] == v;
    }
  }

  /** The "Plugins Repo" list is sorted by name and holds exactly the shown
      plugins of the merged view, none of them installed. */
  lemma RemoteRowsContents(pluginInfo: Dict<Plugin>, installed: Dict<Plugin>, search: string, v: Plugin)
    requires UniqueKeys(pluginInfo) && UniqueKeys(installed)
    ensures SortedByName(RemoteRows(pluginInfo, installed, search))
    ensures v in RemoteRows(pluginInfo, installed, search) <==>
      exists k :: Merged(pluginInfo, installed, k) == Some(v) && Shown(v, search)
    ensures v in RemoteRows(pluginInfo, installed, search) ==> !HasPath(v)
  {
    var r := RemoteEntries(pluginInfo, installed, search);
    var rows := RemoteRows(pluginInfo, installed, search);
    assert v in rows <==> v in multiset(Values(r));
    ValuesMember(r, v);
    if v in rows {
      var i :| 0 <= i < |r| && r[i].value == v;
      RemoteEntriesGet(pluginInfo, installed, search, r[i].key);
      EntryGet(r, i);
    }
    if exists k :: Merged(pluginInfo, installed, k) == Some(v) && Shown(v, search) {
      var k :| Merged(pluginInfo, installed, k) == Some(v) && Shown(v, search);
      RemoteEntriesGet(pluginInfo, installed, search, k);
      GetEntry(r, k);
      var i :| 0 <= i < |r| && r[i] == Entry(k, v);
    }
  }

  // ---------------------------------------------------------------- one list item

  datatype CommitRow = CommitRow(hash: string, message: Option<string>)

  /** `hash.substring(0, 7)`. */
  function ShortHash(h: string): (r: string)
    ensures StartsWith(h, r) && |r| == Min(7, |h|)
  {
    if |h| <= 7 then h else h[..7]
  }

  /** The revert list of one plugin: one row per commit hash, in order, with
      the message at the same index, `''` when there are no messages at all,
      and `undefined` (`None`) past the end of a shorter message list. */
  function CommitRows(p: Plugin): (rows: seq<CommitRow>)
    ensures p.commitsHash.None? ==> rows == []
    ensures p.commitsHash.Some? ==> |rows| == |p.commitsHash.value|
    ensures forall i :: 0 <= i < |rows| ==>
      StartsWith(p.commitsHash.value[i], rows[i].hash) && |rows[i].hash| == Min(7, |p.commitsHash.value[i]|)
    ensures p.commitsMessage.None? ==> forall i :: 0 <= i < |rows| ==> rows[i].message == Some("")
    ensures p.commitsMessage.Some? ==> forall i :: 0 <= i < |rows| ==>
      rows[i].message == if i < |p.commitsMessage.value| then Some(p.commitsMessage.value[i]) else None
  {
    match p.commitsHash
    case None => []
    case Some(hs) =>
      seq(|hs|, i requires 0 <= i < |hs| =>
        CommitRow(ShortHash(hs[i]),
                  match p.commitsMessage
                  case None => Some("")
                  case Some(ms) => if i < |ms| then Some(ms[i]) else None))
  }

  datatype Action = InstallAction | RemoveAction

  /** The first button: remove an installed plugin, install any other. */
  function PrimaryAction(p: Plugin): (a: Action)
    ensures a == RemoveAction <==> HasPath(p)
  {
    if HasPath(p) then RemoveAction else InstallAction
  }

  /** The Update button is disabled for a plugin that is not installed or
      whose current commit is the upstream one (both unknown counts as equal). */
  predicate UpdateDisabled(p: Plugin) {
    !HasPath(p) || p.currentCommit == p.upstreamCommit
  }

  /** `item.node_types.includes(type)` for one graph node. */
  predicate Uses(p: Plugin, nodeType: string) {
    p.nodeTypes.Some? && nodeType in p.nodeTypes.value
  }

  /** The count shown after the plugin's name: how many nodes of the graph
      have one of the plugin's node types. */
  function UsageCount(p: Plugin, graphNodeTypes: seq<string>): (r: nat)
    ensures r <= |graphNodeTypes|
    ensures r == 0 <==> forall i :: 0 <= i < |graphNodeTypes| ==> !Uses(p, graphNodeTypes[i])
    ensures r == |graphNodeTypes| <==> forall i :: 0 <= i < |graphNodeTypes| ==> Uses(p, graphNodeTypes[i])
    decreases |graphNodeTypes|
  {
    if |graphNodeTypes| == 0 then 0
    else
      var rest := UsageCount(p, graphNodeTypes[1..]);
      assert forall i :: 1 <= i < |graphNodeTypes| ==> graphNodeTypes[1..][i - 1] == graphNodeTypes[i];
      (if Uses(p, graphNodeTypes[0]) then 1 else 0) + rest
  }

  /** The sum does not depend on how the graph's nodes are grouped. */
  lemma {:induction false} UsageCountAppend(p: Plugin, a: seq<string>, b: seq<string>)
    ensures UsageCount(p, a + b) == UsageCount(p, a) + UsageCount(p, b)
    decreases |a|
  {
    if |a| > 0 {
      assert (a + b)[0] == a[0];
      assert (a + b)[1..] == a[1..] + b;
      UsageCountAppend(p, a[1..], b);
    } else {
      assert a + b == b;
    }
  }

  /** A plugin fresh from the remote catalogue is listed under an empty
      search, offers Install, has Update disabled, no revert rows and a zero
      usage count. */
  lemma ConvertedPluginIsUninstalled(r: RemotePlugin, graphNodeTypes: seq<string>)
    ensures Shown(ConvertRemote(r), "")
    ensures PrimaryAction(ConvertRemote(r)) == InstallAction && UpdateDisabled(ConvertRemote(r))
    ensures CommitRows(ConvertRemote(r)) == [] && UsageCount(ConvertRemote(r), graphNodeTypes) == 0
  {
  }

  /** Every plugin of the installed list that carries a path offers Remove. */
  lemma InstalledRowsOfferRemove(installed: Dict<Plugin>, v: Plugin)
    requires forall i :: 0 <= i < |installed| ==> HasPath(installed[i].value)
    requires v in InstalledRows(installed)
    ensures PrimaryAction(v) == RemoveAction
  {
    assert v in multiset(Values(installed));
    ValuesMember(installed, v);
  }
}
