/** The plugin registry: the `priority` list of descriptors and the
    operations that build and edit it (`loadPlugin`, `collectTask`, the
    priority sort of `load`, `changePlugin`, the unlink handler), the
    selection rule of `getPlugins`, and the `watcher` map of `watch` and
    `watchDir`. */
module Registry {
  import opened Js
  import opened Dispatch

  /** Identifies a plugin class (a constructor value). */
  type ClassRef = nat

  /** An entry of `priority`: `{class, key, name, priority}`. */
  datatype Descriptor = Descriptor(cls: ClassRef, key: string, name: Value, priority: int)

  /** A value a plugin module exports: something without a `prototype`, or a class. */
  datatype Export = NotClass | Class(cls: ClassRef)

  /** The outcome of importing a plugin file. */
  datatype Module = ImportFailed | Imported(exports: seq<Export>)

  // ---------------------------------------------------------------------
  // The priority sort (lodash `orderBy(list, ["priority"], ["asc"])`)
  // ---------------------------------------------------------------------

  predicate Sorted(l: seq<Descriptor>) {
    forall i, j :: 0 <= i < j < |l| ==> l[i].priority <= l[j].priority
  }

  /** `x` placed before the first entry whose priority is not lower. */
  function Insert(x: Descriptor, s: seq<Descriptor>): (r: seq<Descriptor>)
    ensures |r| == |s| + 1
    ensures multiset(r) == multiset(s) + multiset{x}
  {
    if s == [] || x.priority <= s[0].priority then [x] + s
    else
      assert s == [s[0]] + s[1..];
      [s[0]] + Insert(x, s[1..])
  }

  /** A stable sort by ascending priority. */
  function Sort(l: seq<Descriptor>): (r: seq<Descriptor>)
    ensures |r| == |l|
    ensures multiset(r) == multiset(l)
  {
    if l == [] then []
    else
      assert l == [l[0]] + l[1..];
      Insert(l[0], Sort(l[1..]))
  }

  /** The entries of priority `p`, in order. */
  function WithPriority(l: seq<Descriptor>, p: int): seq<Descriptor> {
    if l == [] then []
    else (if l[0].priority == p then [l[0]] else []) + WithPriority(l[1..], p)
  }

  lemma {:induction false} InsertSorted(x: Descriptor, s: seq<Descriptor>)
    requires Sorted(s)
    ensures Sorted(Insert(x, s))
  {
    if s != [] && x.priority > s[0].priority {
      InsertSorted(x, s[1..]);
      var r := Insert(x, s);
      var t := Insert(x, s[1..]);
      assert multiset(t) == multiset(s[1..]) + multiset{x};
      forall k | 0 <= k < |t| ensures s[0].priority <= t[k].priority {
        assert t[k] in multiset(t);
        if t[k] != x {
          assert t[k] in multiset(s[1..]);
          var m :| 0 <= m < |s[1..]| && s[1..][m] == t[k];
          assert s[1..][m] == s[m + 1];
        }
      }
    }
  }

  lemma {:induction false} InsertStable(x: Descriptor, s: seq<Descriptor>, p: int)
    ensures WithPriority(Insert(x, s), p) ==
              if x.priority == p then [x] + WithPriority(s, p) else WithPriority(s, p)
  {
    if s == [] || x.priority <= s[0].priority {
      assert ([x] + s)[1..] == s;
    } else {
      var t := [s[0]] + Insert(x, s[1..]);
      assert t[1..] == Insert(x, s[1..]);
      InsertStable(x, s[1..], p);
      if x.priority == p {
        assert s[0].priority != p;
      }
    }
  }

  /** After the sort the list is ordered by priority, holds the same
      entries, and entries of equal priority keep their relative order. */
  lemma {:induction false} SortSpec(l: seq<Descriptor>)
    ensures Sorted(Sort(l))
    ensures multiset(Sort(l)) == multiset(l)
    ensures forall p :: WithPriority(Sort(l), p) == WithPriority(l, p)
  {
    if l != [] {
      SortSpec(l[1..]);
      InsertSorted(l[0], Sort(l[1..]));
      forall p ensures WithPriority(Sort(l), p) == WithPriority(l, p) {
        InsertStable(l[0], Sort(l[1..]), p);
      }
    }
  }

  /** Sorting a sorted list changes nothing, so a second sort is a no-op. */
  lemma {:induction false} SortOfSorted(l: seq<Descriptor>)
    requires Sorted(l)
    ensures Sort(l) == l
  {
    if l != [] {
      assert Sorted(l[1..]) by {
        forall i, j | 0 <= i < j < |l[1..]| ensures l[1..][i].priority <= l[1..][j].priority {
          assert l[1..][i] == l[i + 1] && l[1..][j] == l[j + 1];
        }
      }
      SortOfSorted(l[1..]);
      if |l| > 1 {
        assert l[0].priority <= l[1].priority;
      }
    }
  }

  // ---------------------------------------------------------------------
  // collectTask
  // ---------------------------------------------------------------------

  /** A task is kept when it has both a `cron` and a `name`. */
  predicate IsTask(t: Value) {
    Truthy(Get(t, "cron")) && Truthy(Get(t, "name"))
  }

  /** `Array.isArray(task) ? task : [task]` */
  function TaskItems(task: Value): seq<Value> {
    if task.List? then task.items else [task]
  }

  /** The tasks `collectTask` appends, and whether it finished: reading
      `cron` of undefined or null raises, after the earlier tasks were
      appended. */
  function CollectTasks(items: seq<Value>): (r: (seq<Value>, bool))
    ensures |r.0| <= |items|
  {
    if items == [] then ([], true)
    else if Nullish(items[0]) then ([], false)
    else
      var rest := CollectTasks(items[1..]);
      (if IsTask(items[0]) then [items[0]] + rest.0 else rest.0, rest.1)
  }

  /** `collectTask` finishes iff no item is undefined or null; it keeps only
      tasks with both `cron` and `name`, and when it finishes it keeps all of
      them. */
  lemma {:induction false} CollectTasksSpec(items: seq<Value>)
    ensures CollectTasks(items).1 <==> forall i :: 0 <= i < |items| ==> !Nullish(items[i])
    ensures forall t :: t in CollectTasks(items).0 ==> t in items && IsTask(t)
    ensures CollectTasks(items).1 ==> forall t :: t in items && IsTask(t) ==> t in CollectTasks(items).0
  {
    if items != [] && !Nullish(items[0]) {
      CollectTasksSpec(items[1..]);
      assert forall t :: t in items ==> t == items[0] || t in items[1..];
      assert forall i :: 0 < i < |items| ==> items[i] == items[1..][i - 1];
    }
  }

  // ---------------------------------------------------------------------
  // loadPlugin
  // ---------------------------------------------------------------------

  /** The registry's fields: `priority`, `task` and `pluginCount`. */
  datatype Reg = Reg(priority: seq<Descriptor>, task: seq<Value>, pluginCount: nat)

  /** `init()` answered "return": the plugin asks not to be loaded. */
  predicate SkipsLoading(i: Init) {
    i.InitReturns? && LooseEq(i.v, Str("return"))
  }

  /** `loadPlugin(file, p)`: the new registry and whether it settled
      without raising. */
  function LoadPluginStep(reg: Reg, file: string, p: Export, classes: ClassRef -> ClassDef): (Reg, bool) {
    match p
    case NotClass => (reg, true)
    case Class(c) =>
      var counted := reg.(pluginCount := reg.pluginCount + 1);
      match classes(c)
      case ConstructorThrows => (counted, false)
      case Builds(inst) =>
        if inst.init.InitThrows? then (counted, false)
        else if SkipsLoading(inst.init) then (counted, true)
        else
          var (tasks, ok) := CollectTasks(TaskItems(inst.task));
          var collected := counted.(task := reg.task + tasks);
          if !ok then (collected, false)
          else (collected.(priority := reg.priority + [Descriptor(c, file, inst.name, inst.priority)]), true)
  }

  /** What `loadPlugin` promises: exports without a prototype change
      nothing; a plugin whose `init()` answers "return" is counted but
      registers nothing and collects no task; otherwise exactly one
      descriptor is appended, together with the tasks that have both
      `cron` and `name`. */
  lemma LoadPluginSpec(reg: Reg, file: string, c: ClassRef, classes: ClassRef -> ClassDef)
    ensures LoadPluginStep(reg, file, NotClass, classes) == (reg, true)
    ensures LoadPluginStep(reg, file, Class(c), classes).0.pluginCount == reg.pluginCount + 1
    ensures classes(c).Builds? && SkipsLoading(classes(c).inst.init) ==>
              LoadPluginStep(reg, file, Class(c), classes) == (reg.(pluginCount := reg.pluginCount + 1), true)
    ensures var r := LoadPluginStep(reg, file, Class(c), classes);
      classes(c).Builds? && !classes(c).inst.init.InitThrows? && !SkipsLoading(classes(c).inst.init)
      && (forall t :: t in TaskItems(classes(c).inst.task) ==> !Nullish(t)) ==>
        && r.1
        && r.0.priority == reg.priority + [Descriptor(c, file, classes(c).inst.name, classes(c).inst.priority)]
        && r.0.task[..|reg.task|] == reg.task
        && (forall t :: t in r.0.task[|reg.task|..] <==> t in TaskItems(classes(c).inst.task) && IsTask(t))
    ensures var r := LoadPluginStep(reg, file, Class(c), classes);
      !r.1 ==> r.0.priority == reg.priority
  {
    var r := LoadPluginStep(reg, file, Class(c), classes);
    if classes(c).Builds? && !classes(c).inst.init.InitThrows? && !SkipsLoading(classes(c).inst.init) {
      var (tasks, ok) := CollectTasks(TaskItems(classes(c).inst.task));
      CollectTasksSpec(TaskItems(classes(c).inst.task));
      assert r.0.task == reg.task + tasks;
      assert r.0.task[|reg.task|..] == tasks;
    }
  }

  /** `importPlugin`: every export is loaded; a failing export does not
      stop the others. */
  function ImportStep(reg: Reg, file: string, m: Module, classes: ClassRef -> ClassDef): Reg {
    match m
    case ImportFailed => reg
    case Imported(exports) => LoadAll(reg, file, exports, classes)
  }

  function LoadAll(reg: Reg, file: string, exports: seq<Export>, classes: ClassRef -> ClassDef): Reg
    decreases |exports|
  {
    if exports == [] then reg
    else LoadAll(LoadPluginStep(reg, file, exports[0], classes).0, file, exports[1..], classes)
  }

  /** Loading only ever appends to `priority` and `task`. */
  lemma {:induction false} LoadAllAppends(reg: Reg, file: string, exports: seq<Export>, classes: ClassRef -> ClassDef)
    ensures var r := LoadAll(reg, file, exports, classes);
      && |reg.priority| <= |r.priority| && r.priority[..|reg.priority|] == reg.priority
      && |reg.task| <= |r.task| && r.task[..|reg.task|] == reg.task
      && (forall d :: d in r.priority[|reg.priority|..] ==> d.key == file)
    decreases |exports|
  {
    if exports != [] {
      var r1 := LoadPluginStep(reg, file, exports[0], classes).0;
      assert |reg.priority| <= |r1.priority| && r1.priority[..|reg.priority|] == reg.priority;
      assert |reg.task| <= |r1.task| && r1.task[..|reg.task|] == reg.task;
      assert forall d :: d in r1.priority[|reg.priority|..] ==> d.key == file;
      LoadAllAppends(r1, file, exports[1..], classes);
      var r := LoadAll(r1, file, exports[1..], classes);
      assert r.priority[..|reg.priority|] == r.priority[..|r1.priority|][..|reg.priority|];
      assert r.task[..|reg.task|] == r.task[..|r1.task|][..|reg.task|];
      forall d | d in r.priority[|reg.priority|..] ensures d.key == file {
        var k :| |reg.priority| <= k < |r.priority| && r.priority[k] == d;
        if k < |r1.priority| {
          assert d == r1.priority[k] && d in r1.priority[|reg.priority|..];
        } else {
          assert d in r.priority[|r1.priority|..];
        }
      }
    }
  }

  // ---------------------------------------------------------------------
  // load
  // ---------------------------------------------------------------------

  /** A plugin file found by `getPlugins`. */
  datatype PluginFile = PluginFile(name: string, path: string)

  function ImportFiles(reg: Reg, files: seq<PluginFile>, modules: string -> Module, classes: ClassRef -> ClassDef): Reg
    decreases |files|
  {
    if files == [] then reg
    else ImportFiles(ImportStep(reg, files[0].name, modules(files[0].path), classes), files[1..], modules, classes)
  }

  /** `load(isRefresh)`: a refresh empties `priority`; a registry that is
      still filled is left alone; otherwise every file is imported with
      `pluginCount` restarted, and the list is sorted by priority. */
  function LoadStep(reg: Reg, isRefresh: bool, files: seq<PluginFile>, modules: string -> Module,
                    classes: ClassRef -> ClassDef): Reg
  {
    var r0 := if isRefresh then reg.(priority := []) else reg;
    if |r0.priority| > 0 then r0
    else
      var r1 := ImportFiles(r0.(pluginCount := 0), files, modules, classes);
      r1.(priority := Sort(r1.priority))
  }

  /** After `load` the list is sorted, and a second `load` without refresh
      changes nothing once a plugin is registered. */
  lemma LoadSorts(reg: Reg, isRefresh: bool, files: seq<PluginFile>, modules: string -> Module,
                  classes: ClassRef -> ClassDef)
    requires isRefresh || reg.priority == [] || Sorted(reg.priority)
    ensures Sorted(LoadStep(reg, isRefresh, files, modules, classes).priority)
    ensures var r := LoadStep(reg, isRefresh, files, modules, classes);
      r.priority != [] ==> LoadStep(r, false, files, modules, classes) == r
  {
    var r := LoadStep(reg, isRefresh, files, modules, classes);
    var r0 := if isRefresh then reg.(priority := []) else reg;
    if |r0.priority| == 0 {
      var r1 := ImportFiles(r0.(pluginCount := 0), files, modules, classes);
      SortSpec(r1.priority);
    }
  }

  /** A refresh empties `priority` but not `task`: the tasks collected by
      the previous load stay, and the reloaded plugins' tasks are appended
      after them. */
  lemma {:induction false} RefreshKeepsOldTasks(reg: Reg, files: seq<PluginFile>, modules: string -> Module,
                                                classes: ClassRef -> ClassDef)
    ensures var r := LoadStep(reg, true, files, modules, classes);
      |reg.task| <= |r.task| && r.task[..|reg.task|] == reg.task
  {
    ImportFilesAppendsTasks(reg.(priority := [], pluginCount := 0), files, modules, classes);
  }

  lemma {:induction false} ImportFilesAppendsTasks(reg: Reg, files: seq<PluginFile>, modules: string -> Module,
                                                   classes: ClassRef -> ClassDef)
    ensures var r := ImportFiles(reg, files, modules, classes);
      |reg.task| <= |r.task| && r.task[..|reg.task|] == reg.task
    decreases |files|
  {
    if files != [] {
      var r1 := ImportStep(reg, files[0].name, modules(files[0].path), classes);
      if modules(files[0].path).Imported? {
        LoadAllAppends(reg, files[0].name, modules(files[0].path).exports, classes);
      }
      ImportFilesAppendsTasks(r1, files[1..], modules, classes);
      var r := ImportFiles(r1, files[1..], modules, classes);
      assert r.task[..|reg.task|] == r.task[..|r1.task|][..|reg.task|];
    }
  }

  // ---------------------------------------------------------------------
  // changePlugin and the unlink handler
  // ---------------------------------------------------------------------

  /** The entries of file `key` named like the new instance take its class
      and priority. */
  function Retarget(l: seq<Descriptor>, key: string, c: ClassRef, inst: Instance): (r: seq<Descriptor>)
    ensures |r| == |l|
    ensures forall i :: 0 <= i < |l| ==> r[i].key == l[i].key && r[i].name == l[i].name
    ensures forall i :: 0 <= i < |l| ==>
              r[i] == if l[i].key == key && LooseEq(l[i].name, inst.name)
                      then l[i].(cls := c, priority := inst.priority) else l[i]
  {
    seq(|l|, i requires 0 <= i < |l| =>
      if l[i].key == key && LooseEq(l[i].name, inst.name) then l[i].(cls := c, priority := inst.priority) else l[i])
  }

  /** The `lodash.forEach` of `changePlugin`: false when `new p` raised, which
      abandons the remaining exports and the sort. */
  function RetargetAll(l: seq<Descriptor>, key: string, exports: seq<Export>, classes: ClassRef -> ClassDef)
    : (r: (seq<Descriptor>, bool))
    ensures |r.0| == |l|
    ensures forall i :: 0 <= i < |l| ==> r.0[i].key == l[i].key && r.0[i].name == l[i].name
    decreases |exports|
  {
    if exports == [] then (l, true)
    else match exports[0]
      case NotClass => (l, false)
      case Class(c) =>
        match classes(c)
        case ConstructorThrows => (l, false)
        case Builds(inst) => RetargetAll(Retarget(l, key, c, inst), key, exports[1..], classes)
  }

  /** `changePlugin(key)` */
  function ChangeStep(l: seq<Descriptor>, key: string, m: Module, classes: ClassRef -> ClassDef): seq<Descriptor> {
    match m
    case ImportFailed => l
    case Imported(exports) =>
      var (l1, ok) := RetargetAll(l, key, exports, classes);
      if ok then Sort(l1) else l1
  }

  /** The (key, name) pairs of a list, with multiplicity. */
  function KeyNames(l: seq<Descriptor>): multiset<(string, Value)> {
    if l == [] then multiset{} else multiset{(l[0].key, l[0].name)} + KeyNames(l[1..])
  }

  lemma {:induction false} KeyNamesInsert(x: Descriptor, s: seq<Descriptor>)
    ensures KeyNames(Insert(x, s)) == KeyNames(s) + multiset{(x.key, x.name)}
  {
    if s != [] && x.priority > s[0].priority {
      var t := [s[0]] + Insert(x, s[1..]);
      assert t[1..] == Insert(x, s[1..]);
      KeyNamesInsert(x, s[1..]);
    } else {
      assert ([x] + s)[1..] == s;
    }
  }

  lemma {:induction false} KeyNamesSort(l: seq<Descriptor>)
    ensures KeyNames(Sort(l)) == KeyNames(l)
  {
    if l != [] {
      KeyNamesSort(l[1..]);
      KeyNamesInsert(l[0], Sort(l[1..]));
    }
  }

  lemma {:induction false} KeyNamesPointwise(a: seq<Descriptor>, b: seq<Descriptor>)
    requires |a| == |b|
    requires forall i :: 0 <= i < |a| ==> a[i].key == b[i].key && a[i].name == b[i].name
    ensures KeyNames(a) == KeyNames(b)
  {
    if a != [] {
      KeyNamesPointwise(a[1..], b[1..]);
    }
  }

  /** `changePlugin` never adds or removes entries: the length and the
      (key, name) pairs are kept, only classes and priorities change, and a
      completed update leaves the list sorted. */
  lemma ChangeKeepsEntries(l: seq<Descriptor>, key: string, m: Module, classes: ClassRef -> ClassDef)
    ensures |ChangeStep(l, key, m, classes)| == |l|
    ensures KeyNames(ChangeStep(l, key, m, classes)) == KeyNames(l)
    ensures m.Imported? && RetargetAll(l, key, m.exports, classes).1 ==> Sorted(ChangeStep(l, key, m, classes))
  {
    if m.Imported? {
      var (l1, ok) := RetargetAll(l, key, m.exports, classes);
      KeyNamesPointwise(l1, l);
      if ok {
        KeyNamesSort(l1);
        SortSpec(l1);
      }
    }
  }

  /** Entries of other files are not touched by `changePlugin` (before the sort). */
  lemma {:induction false} RetargetOnlyKey(l: seq<Descriptor>, key: string, exports: seq<Export>,
                                           classes: ClassRef -> ClassDef, i: nat)
    requires i < |l| && l[i].key != key
    ensures RetargetAll(l, key, exports, classes).0[i] == l[i]
    decreases |exports|
  {
    if exports != [] && exports[0].Class? && classes(exports[0].cls).Builds? {
      var c := exports[0].cls;
      RetargetOnlyKey(Retarget(l, key, c, classes(c).inst), key, exports[1..], classes, i);
    }
  }

  /** The unlink handler's `priority.filter(i => i.key != key)`. */
  function Remove(l: seq<Descriptor>, key: string): (r: seq<Descriptor>)
    ensures |r| <= |l|
    ensures forall d :: d in r <==> d in l && d.key != key
  {
    if l == [] then []
    else
      assert forall d :: d in l <==> d == l[0] || d in l[1..];
      (if l[0].key != key then [l[0]] else []) + Remove(l[1..], key)
  }

  /** Removal keeps the order of the remaining entries: it distributes over
      concatenation. */
  lemma {:induction false} RemoveConcat(a: seq<Descriptor>, b: seq<Descriptor>, key: string)
    ensures Remove(a + b, key) == Remove(a, key) + Remove(b, key)
  {
    if a == [] {
      assert a + b == b;
    } else {
      var h := if a[0].key != key then [a[0]] else [];
      assert (a + b)[0] == a[0] && (a + b)[1..] == a[1..] + b;
      RemoveConcat(a[1..], b, key);
      assert Remove(a + b, key) == h + Remove(a[1..] + b, key);
      assert Remove(a + b, key) == h + (Remove(a[1..], key) + Remove(b, key));
      assert h + (Remove(a[1..], key) + Remove(b, key)) == (h + Remove(a[1..], key)) + Remove(b, key);
    }
  }

  /** A list without entries of the key is left as it is. */
  lemma {:induction false} RemoveAbsent(a: seq<Descriptor>, key: string)
    requires forall i :: 0 <= i < |a| ==> a[i].key != key
    ensures Remove(a, key) == a
  {
    if a != [] {
      RemoveAbsent(a[1..], key);
      assert [a[0]] + a[1..] == a;
    }
  }

  /** Removal keeps a sorted list sorted. */
  lemma {:induction false} RemoveKeepsSorted(l: seq<Descriptor>, key: string)
    requires Sorted(l)
    ensures Sorted(Remove(l, key))
  {
    if l != [] {
      assert Sorted(l[1..]) by {
        forall i, j | 0 <= i < j < |l[1..]| ensures l[1..][i].priority <= l[1..][j].priority {
          assert l[1..][i] == l[i + 1] && l[1..][j] == l[j + 1];
        }
      }
      RemoveKeepsSorted(l[1..], key);
      var r := Remove(l, key);
      var rest := Remove(l[1..], key);
      forall d | d in rest ensures l[0].priority <= d.priority {
        var k :| 0 <= k < |l[1..]| && l[1..][k] == d;
        assert l[1..][k] == l[k + 1];
      }
    }
  }

  // ---------------------------------------------------------------------
  // getPlugins
  // ---------------------------------------------------------------------

  datatype AppEntry = AppEntry(name: string, isFile: bool)

  /** An entry of the plugins directory; `hasIndex` says whether it holds an
      `index.js`, `apps` lists its contents. */
  datatype DirEntry = DirEntry(name: string, isFile: bool, hasIndex: bool, apps: seq<AppEntry>)

  const PluginDir: string := "plugins"

  predicate EndsWith(s: string, suffix: string) {
    |suffix| <= |s| && s[|s| - |suffix|..] == suffix
  }

  predicate IsApp(a: AppEntry) {
    a.isFile && EndsWith(a.name, ".js")
  }

  /** The files and the (directory, app) watches of one directory. */
  function AppsOf(dir: string, apps: seq<AppEntry>): (r: (seq<PluginFile>, seq<(string, string)>))
  {
    if apps == [] then ([], [])
    else
      var rest := AppsOf(dir, apps[1..]);
      if IsApp(apps[0]) then
        var a := apps[0].name;
        ([PluginFile(dir + "/" + a, "../../" + PluginDir + "/" + dir + "/" + a)] + rest.0, [(dir, a)] + rest.1)
      else rest
  }

  /** A directory contributes one file per `.js` app, named and located
      after the app, and watches exactly those apps. */
  lemma {:induction false} AppsOfSpec(dir: string, apps: seq<AppEntry>)
    ensures var r := AppsOf(dir, apps);
      && |r.0| == |r.1|
      && (forall i :: 0 <= i < |r.1| ==>
            r.0[i] == PluginFile(dir + "/" + r.1[i].1, "../../" + PluginDir + "/" + dir + "/" + r.1[i].1))
      && (forall w :: w in r.1 <==> w.0 == dir && exists a :: a in apps && IsApp(a) && a.name == w.1)
  {
    if apps != [] {
      AppsOfSpec(dir, apps[1..]);
      assert forall a :: a in apps <==> a == apps[0] || a in apps[1..];
    }
  }

  /** The selection rule of `getPlugins`: files at the top level are
      skipped; a directory with an `index.js` is one plugin; any other
      directory contributes each of its `.js` files, each watched. */
  function SelectPlugins(listing: seq<DirEntry>): (r: (seq<PluginFile>, seq<(string, string)>))
  {
    if listing == [] then ([], [])
    else
      var d := listing[0];
      var rest := SelectPlugins(listing[1..]);
      if d.isFile then rest
      else if d.hasIndex then
        ([PluginFile(d.name, "../../" + PluginDir + "/" + d.name + "/index.js")] + rest.0, rest.1)
      else
        var own := AppsOf(d.name, d.apps);
        (own.0 + rest.0, own.1 + rest.1)
  }

  /** A file is selected exactly when it is the `index.js` of an indexed
      directory or a `.js` file of a directory without one. */
  lemma {:induction false} SelectPluginsSpec(listing: seq<DirEntry>, f: PluginFile)
    ensures f in SelectPlugins(listing).0 <==>
      exists d :: d in listing && !d.isFile &&
        (if d.hasIndex then f == PluginFile(d.name, "../../" + PluginDir + "/" + d.name + "/index.js")
         else f in AppsOf(d.name, d.apps).0)
  {
    if listing != [] {
      SelectPluginsSpec(listing[1..], f);
      assert forall d :: d in listing <==> d == listing[0] || d in listing[1..];
    }
  }

  /** Every watched app is a `.js` file of a directory without `index.js`. */
  lemma {:induction false} SelectPluginsWatches(listing: seq<DirEntry>, w: (string, string))
    requires w in SelectPlugins(listing).1
    ensures exists d :: d in listing && !d.isFile && !d.hasIndex && d.name == w.0 &&
              exists a :: a in d.apps && IsApp(a) && a.name == w.1
  {
    var d := listing[0];
    var rest := SelectPlugins(listing[1..]);
    if w in rest.1 {
      SelectPluginsWatches(listing[1..], w);
      var d' :| d' in listing[1..] && !d'.isFile && !d'.hasIndex && d'.name == w.0 &&
                 exists a :: a in d'.apps && IsApp(a) && a.name == w.1;
      assert d' in listing;
    } else {
      AppsOfSpec(d.name, d.apps);
      assert d in listing;
    }
  }

  // ---------------------------------------------------------------------
  // The watcher map
  // ---------------------------------------------------------------------

  /** An entry of `watcher`: a directory watcher, which handles new files
      once the bot has come online, or a file watcher, whose change
      listener the unlink handler removes. */
  datatype Watcher = DirWatcher(online: bool) | FileWatcher(dir: string, app: string, onChange: bool)

  function FileKey(dir: string, app: string): string {
    dir + "." + app
  }

  /** `watchDir(dir)` */
  function WatchDirStep(w: map<string, Watcher>, dir: string): (r: map<string, Watcher>)
    ensures dir in r && r.Keys == w.Keys + {dir}
    ensures dir in w ==> r == w
  {
    if dir in w then w else w[dir := DirWatcher(false)]
  }

  /** `watch(dir, app)` */
  function WatchStep(w: map<string, Watcher>, dir: string, app: string): (r: map<string, Watcher>)
    ensures dir in r && FileKey(dir, app) in r
    ensures r.Keys == w.Keys + {dir, FileKey(dir, app)}
    ensures forall k :: k in w ==> r[k] == w[k]
  {
    var w1 := WatchDirStep(w, dir);
    if FileKey(dir, app) in w1 then w1 else w1[FileKey(dir, app) := FileWatcher(dir, app, true)]
  }

  /** Watching is idempotent, and watching two files in either order gives
      the same map. */
  lemma WatchIdempotent(w: map<string, Watcher>, dir: string, app: string)
    ensures WatchStep(WatchStep(w, dir, app), dir, app) == WatchStep(w, dir, app)
    ensures WatchDirStep(WatchDirStep(w, dir), dir) == WatchDirStep(w, dir)
  {
  }

  /** The first watch of a file installs its change listener. */
  lemma FirstWatchListens(w: map<string, Watcher>, dir: string, app: string)
    requires FileKey(dir, app) !in w
    ensures WatchStep(w, dir, app)[FileKey(dir, app)] == FileWatcher(dir, app, true)
  {
  }

  /** Directory keys and file keys share one map: a directory named
      "d.a" stops the file "a" of directory "d" from ever being watched. */
  lemma FileKeyCollision(w: map<string, Watcher>, dir: string, app: string)
    requires FileKey(dir, app) in w && w[FileKey(dir, app)].DirWatcher?
    ensures WatchStep(w, dir, app)[FileKey(dir, app)] == w[FileKey(dir, app)]
  {
  }

  /** The `online` event: the directory watchers registered before it start
      handling new files. */
  function OnlineStep(w: map<string, Watcher>): (r: map<string, Watcher>)
    ensures r.Keys == w.Keys
    ensures forall k :: k in w ==> r[k] == if w[k].DirWatcher? then DirWatcher(true) else w[k]
  {
    map k | k in w :: if w[k].DirWatcher? then DirWatcher(true) else w[k]
  }

  /** The unlink handler's `removeAllListeners("change")`. */
  function UnlinkWatcherStep(w: map<string, Watcher>, dir: string, app: string): (r: map<string, Watcher>)
    ensures r.Keys == w.Keys
  {
    var k := FileKey(dir, app);
    if k in w && w[k].FileWatcher? then w[k := w[k].(onChange := false)] else w
  }

  /** A file removed and added again is still watched, but its change
      listener stays removed: later edits are not reloaded. */
  lemma ReaddedFileNotReloaded(w: map<string, Watcher>, dir: string, app: string)
    requires FileKey(dir, app) in w && w[FileKey(dir, app)].FileWatcher?
    ensures var w' := WatchStep(UnlinkWatcherStep(w, dir, app), dir, app);
      w'[FileKey(dir, app)].FileWatcher? && !w'[FileKey(dir, app)].onChange
  {
  }

  /** `watch` applied to each (directory, app) pair in turn. */
  function WatchAll(w: map<string, Watcher>, ws: seq<(string, string)>): map<string, Watcher>
    decreases |ws|
  {
    if ws == [] then w else WatchAll(WatchStep(w, ws[0].0, ws[0].1), ws[1..])
  }

  lemma {:induction false} WatchAllConcat(w: map<string, Watcher>, a: seq<(string, string)>, b: seq<(string, string)>)
    ensures WatchAll(w, a + b) == WatchAll(WatchAll(w, a), b)
    decreases |a|
  {
    if a != [] {
      assert (a + b)[1..] == a[1..] + b;
      WatchAllConcat(WatchStep(w, a[0].0, a[0].1), a[1..], b);
    } else {
      assert a + b == b;
    }
  }

  /** Watching never replaces an existing watcher, and afterwards every
      listed directory and file has one. */
  lemma {:induction false} WatchAllWatches(w: map<string, Watcher>, ws: seq<(string, string)>)
    ensures forall k :: k in w ==> k in WatchAll(w, ws) && WatchAll(w, ws)[k] == w[k]
    ensures forall p :: p in ws ==> p.0 in WatchAll(w, ws) && FileKey(p.0, p.1) in WatchAll(w, ws)
    ensures forall k :: k in WatchAll(w, ws) ==> k in w || exists p :: p in ws && (k == p.0 || k == FileKey(p.0, p.1))
    decreases |ws|
  {
    if ws != [] {
      var w1 := WatchStep(w, ws[0].0, ws[0].1);
      WatchAllWatches(w1, ws[1..]);
      assert forall p :: p in ws ==> p == ws[0] || p in ws[1..];
      forall k | k in WatchAll(w, ws)
        ensures k in w || exists p :: p in ws && (k == p.0 || k == FileKey(p.0, p.1))
      {
        if k !in w1 {
          var p :| p in ws[1..] && (k == p.0 || k == FileKey(p.0, p.1));
          assert p in ws;
        } else if k !in w {
          assert ws[0] in ws;
        }
      }
    }
  }

  // ---------------------------------------------------------------------
  // The add handler of a directory watcher
  // ---------------------------------------------------------------------

  /** A directory watcher's `add` handler, which exists only when the
      watcher was registered before the bot came online: a new `.js` file
      is imported, the list re-sorted, and the file watched. */
  function AddStep(reg: Reg, w: map<string, Watcher>, dir: string, app: string, m: Module,
                   classes: ClassRef -> ClassDef): (Reg, map<string, Watcher>)
  {
    if !(dir in w && w[dir] == DirWatcher(true)) || !EndsWith(app, ".js") then (reg, w)
    else
      var r := ImportStep(reg, dir + "/" + app, m, classes);
      (r.(priority := Sort(r.priority)), WatchStep(w, dir, app))
  }

  /** Files added to a directory watched only after the bot came online, or
      before it did, are never loaded; a handled `.js` file leaves the list
      sorted, keeps every entry, and is watched from then on. */
  lemma AddSpec(reg: Reg, w: map<string, Watcher>, dir: string, app: string, m: Module, classes: ClassRef -> ClassDef)
    ensures dir in w && w[dir] == DirWatcher(false) ==> AddStep(reg, w, dir, app, m, classes) == (reg, w)
    ensures !EndsWith(app, ".js") ==> AddStep(reg, w, dir, app, m, classes) == (reg, w)
    ensures var (r, w') := AddStep(reg, w, dir, app, m, classes);
      dir in w && w[dir] == DirWatcher(true) && EndsWith(app, ".js") ==>
        && Sorted(r.priority)
        && (forall d :: d in reg.priority ==> d in r.priority)
        && (forall d :: d in r.priority && d !in reg.priority ==> d.key == dir + "/" + app)
        && FileKey(dir, app) in w'
  {
    if dir in w && w[dir] == DirWatcher(true) && EndsWith(app, ".js") {
      var r := ImportStep(reg, dir + "/" + app, m, classes);
      if m.Imported? {
        LoadAllAppends(reg, dir + "/" + app, m.exports, classes);
        forall d | d in r.priority && d !in reg.priority ensures d.key == dir + "/" + app {
          var k :| 0 <= k < |r.priority| && r.priority[k] == d;
          if k >= |reg.priority| {
            assert d in r.priority[|reg.priority|..];
          }
        }
        forall d | d in reg.priority ensures d in r.priority {
          assert d in r.priority[..|reg.priority|];
        }
      }
      SortSpec(r.priority);
      assert forall d :: d in Sort(r.priority) <==> d in r.priority by {
        forall d ensures d in Sort(r.priority) <==> d in r.priority {
          assert d in Sort(r.priority) <==> d in multiset(Sort(r.priority));
          assert d in r.priority <==> d in multiset(r.priority);
        }
      }
    }
  }
}
