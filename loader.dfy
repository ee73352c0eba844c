/** The plugin loader object: its registry (`priority`, `task`,
    `pluginCount`), cooldown tables, watcher map and the counter store, and
    the methods that change them. Every method is proved against the step
    function of the module that states what the operation means. */
module Loader {
  import opened Js
  import Config
  import opened Normalizer
  import opened Gates
  import opened Limits
  import opened Dispatch
  import opened Registry
  import opened Sending

  /** How one `deal(e)` ended. `ps` is the list of admitted plugin
      instances, in registry order. */
  datatype DealEnd =
    | Blacklisted
    | OnCooldown
    | DealEventRaised
    | ConstructorRaised
    | ContextStop(ps: seq<Instance>, stage: Stage)
    | NotAddressed(ps: seq<Instance>)
    | AcceptStop(ps: seq<Instance>, stage: Stage)
    | RulesRan(ps: seq<Instance>, result: RuleResult)

  /** The received message as `count` sees it: one element per segment,
      carrying the segment's type; undefined when there is no message. */
  function MessageValue(message: Option<seq<Segment>>): (v: Value)
    ensures message.Some? ==> v.List? && |v.items| == |message.value|
    ensures message.Some? ==> forall i :: 0 <= i < |v.items| ==>
              TypeName(v.items[i]) == (if SegType(message.value[i]) == "" then "text" else SegType(message.value[i]))
    ensures message.None? ==> v == Undef
  {
    match message
    case None => Undef
    case Some(segs) => List(seq(|segs|, i requires 0 <= i < |segs| => Obj(map["type" := Str(SegType(segs[i]))])))
  }

  /** `srReg.test(e.msg)`, with an undefined message read as "undefined". */
  predicate SrHit(msg: Option<string>) {
    msg.Some? && SrMatch(msg.value).Some?
  }

  class PluginsLoader {
    var priority: seq<Descriptor>
    var task: seq<Value>
    var pluginCount: nat
    var limits: LimitState
    var watcher: map<string, Watcher>
    /** The counter store (redis). */
    const counters: Counters

    /** The registry part of the state, as the step functions see it. */
    function Registered(): Reg
      reads this
    {
      Reg(priority, task, pluginCount)
    }

    /** The cooldown tables always have a timer for every key. */
    predicate Valid()
      reads this
    {
      Limits.Valid(limits)
    }

    constructor (counters: Counters)
      ensures priority == [] && task == [] && pluginCount == 0 && watcher == map[]
      ensures limits == LimitState({}, {}, {}, []) && this.counters == counters
      ensures Valid()
    {
      priority, task, pluginCount := [], [], 0;
      limits, watcher := LimitState({}, {}, {}, []), map[];
      this.counters := counters;
      ValidInitial();
    }

    // -------------------------------------------------------------------
    // Loading
    // -------------------------------------------------------------------

    /** `collectTask(task)`: appends the items with both `cron` and `name`;
        false when reading an item raised. */
    method CollectTask(t: Value) returns (ok: bool)
      modifies this
      ensures task == old(task) + CollectTasks(TaskItems(t)).0 && ok == CollectTasks(TaskItems(t)).1
      ensures priority == old(priority) && pluginCount == old(pluginCount)
      ensures limits == old(limits) && watcher == old(watcher)
    {
      var items := TaskItems(t);
      ghost var kept: seq<Value> := [];
      assert items[0..] == items;
      for k := 0 to |items|
        invariant CollectTasks(items).0 == kept + CollectTasks(items[k..]).0
        invariant CollectTasks(items).1 == CollectTasks(items[k..]).1
        invariant task == old(task) + kept
        invariant priority == old(priority) && pluginCount == old(pluginCount)
        invariant limits == old(limits) && watcher == old(watcher)
      {
        ghost var rest := CollectTasks(items[k + 1..]);
        assert items[k..][1..] == items[k + 1..];
        if Nullish(items[k]) {
          return false;
        }
        assert CollectTasks(items[k..]).1 == rest.1;
        if IsTask(items[k]) {
          assert CollectTasks(items[k..]).0 == [items[k]] + rest.0;
          assert kept + ([items[k]] + rest.0) == (kept + [items[k]]) + rest.0;
          task := task + [items[k]];
          kept := kept + [items[k]];
        } else {
          assert CollectTasks(items[k..]).0 == rest.0;
        }
      }
      assert items[|items|..] == [];
      ok := true;
    }

    /** `loadPlugin(file, p)`; false when it raised. */
    method LoadPlugin(file: string, p: Export, classes: ClassRef -> ClassDef) returns (ok: bool)
      modifies this
      ensures (Registered(), ok) == LoadPluginStep(old(Registered()), file, p, classes)
      ensures limits == old(limits) && watcher == old(watcher)
    {
      match p {
        case NotClass =>
          return true;
        case Class(c) =>
          pluginCount := pluginCount + 1;
          match classes(c) {
            case ConstructorThrows =>
              return false;
            case Builds(inst) =>
              if inst.init.InitThrows? {
                return false;
              }
              if SkipsLoading(inst.init) {
                return true;
              }
              ok := CollectTask(inst.task);
              if !ok {
                return;
              }
              priority := priority + [Descriptor(c, file, inst.name, inst.priority)];
          }
      }
    }

    /** `importPlugin(file)`: every export of the module is loaded; one that
        raises does not stop the others, and a failed import loads nothing. */
    method ImportPlugin(file: PluginFile, m: Module, classes: ClassRef -> ClassDef)
      modifies this
      ensures Registered() == ImportStep(old(Registered()), file.name, m, classes)
      ensures limits == old(limits) && watcher == old(watcher)
    {
      if m.ImportFailed? {
        return;
      }
      var exports := m.exports;
      for k := 0 to |exports|
        invariant LoadAll(old(Registered()), file.name, exports, classes) == LoadAll(Registered(), file.name, exports[k..], classes)
        invariant limits == old(limits) && watcher == old(watcher)
      {
        assert exports[k..][1..] == exports[k + 1..];
        var _ := LoadPlugin(file.name, exports[k], classes);
      }
      assert exports[|exports|..] == [];
    }

    /** `watchDir(dir)` */
    method WatchDir(dir: string)
      modifies this
      ensures watcher == WatchDirStep(old(watcher), dir)
      ensures Registered() == old(Registered()) && limits == old(limits)
    {
      if dir in watcher {
        return;
      }
      watcher := watcher[dir := DirWatcher(false)];
    }

    /** `watch(dir, app)` */
    method Watch(dir: string, app: string)
      modifies this
      ensures watcher == WatchStep(old(watcher), dir, app)
      ensures Registered() == old(Registered()) && limits == old(limits)
    {
      WatchDir(dir);
      if FileKey(dir, app) in watcher {
        return;
      }
      watcher := watcher[FileKey(dir, app) := FileWatcher(dir, app, true)];
    }

    /** `getPlugins()`: the plugin files of the directory listing, watching
        every app file of a directory without `index.js`. */
    method GetPlugins(listing: seq<DirEntry>) returns (files: seq<PluginFile>)
      modifies this
      ensures files == SelectPlugins(listing).0
      ensures watcher == WatchAll(old(watcher), SelectPlugins(listing).1)
      ensures Registered() == old(Registered()) && limits == old(limits)
    {
      files := [];
      assert listing[0..] == listing;
      for k := 0 to |listing|
        invariant SelectPlugins(listing).0 == files + SelectPlugins(listing[k..]).0
        invariant WatchAll(old(watcher), SelectPlugins(listing).1) == WatchAll(watcher, SelectPlugins(listing[k..]).1)
        invariant Registered() == old(Registered()) && limits == old(limits)
      {
        assert listing[k..][1..] == listing[k + 1..];
        var d := listing[k];
        ghost var rest := SelectPlugins(listing[k + 1..]);
        if d.isFile {
          assert SelectPlugins(listing[k..]) == rest;
          continue;
        }
        if d.hasIndex {
          var f := PluginFile(d.name, "../../" + PluginDir + "/" + d.name + "/index.js");
          assert SelectPlugins(listing[k..]) == ([f] + rest.0, rest.1);
          assert files + ([f] + rest.0) == (files + [f]) + rest.0;
          files := files + [f];
          continue;
        }
        ghost var w0 := watcher;
        ghost var apps := AppsOf(d.name, d.apps);
        assert SelectPlugins(listing[k..]) == (apps.0 + rest.0, apps.1 + rest.1);
        var own := WatchApps(d.name, d.apps);
        WatchAllConcat(w0, apps.1, rest.1);
        assert files + (apps.0 + rest.0) == (files + own) + rest.0;
        files := files + own;
      }
      assert listing[|listing|..] == [];
    }

    /** The app loop of `getPlugins` for one directory: each `.js` file is
        listed and watched. */
    method WatchApps(dir: string, apps: seq<AppEntry>) returns (files: seq<PluginFile>)
      modifies this
      ensures files == AppsOf(dir, apps).0
      ensures watcher == WatchAll(old(watcher), AppsOf(dir, apps).1)
      ensures Registered() == old(Registered()) && limits == old(limits)
    {
      files := [];
      assert apps[0..] == apps;
      for j := 0 to |apps|
        invariant AppsOf(dir, apps).0 == files + AppsOf(dir, apps[j..]).0
        invariant WatchAll(old(watcher), AppsOf(dir, apps).1) == WatchAll(watcher, AppsOf(dir, apps[j..]).1)
        invariant Registered() == old(Registered()) && limits == old(limits)
      {
        assert apps[j..][1..] == apps[j + 1..];
        var a := apps[j];
        ghost var rest := AppsOf(dir, apps[j + 1..]);
        if IsApp(a) {
          var f := PluginFile(dir + "/" + a.name, "../../" + PluginDir + "/" + dir + "/" + a.name);
          assert AppsOf(dir, apps[j..]) == ([f] + rest.0, [(dir, a.name)] + rest.1);
          assert ([(dir, a.name)] + rest.1)[1..] == rest.1;
          assert files + ([f] + rest.0) == (files + [f]) + rest.0;
          files := files + [f];
          Watch(dir, a.name);
        } else {
          assert AppsOf(dir, apps[j..]) == rest;
        }
      }
      assert apps[|apps|..] == [];
    }

    /** `load(isRefresh)`: a refresh empties `priority`; a filled registry is
        left alone; otherwise the plugins are listed, `pluginCount` restarts,
        every file is imported, and the list is sorted by priority. */
    method Load(isRefresh: bool, listing: seq<DirEntry>, modules: string -> Module, classes: ClassRef -> ClassDef)
      modifies this
      ensures Registered() == LoadStep(old(Registered()), isRefresh, SelectPlugins(listing).0, modules, classes)
      ensures watcher == if isRefresh || old(priority) == [] then WatchAll(old(watcher), SelectPlugins(listing).1)
                         else old(watcher)
      ensures limits == old(limits)
    {
      if isRefresh {
        priority := [];
      }
      if |priority| > 0 {
        return;
      }
      var files := GetPlugins(listing);
      pluginCount := 0;
      ghost var start := Registered();
      for k := 0 to |files|
        invariant ImportFiles(start, files, modules, classes) == ImportFiles(Registered(), files[k..], modules, classes)
        invariant watcher == WatchAll(old(watcher), SelectPlugins(listing).1) && limits == old(limits)
      {
        assert files[k..][1..] == files[k + 1..];
        ImportPlugin(files[k], modules(files[k].path), classes);
      }
      assert files[|files|..] == [];
      priority := Sort(priority);
    }

    // -------------------------------------------------------------------
    // Hot reloading
    // -------------------------------------------------------------------

    /** `changePlugin(key)`: the entries of the file take the new classes
        and priorities, then the list is sorted again; an export that cannot
        be constructed abandons the rest and the sort. */
    method ChangePlugin(key: string, m: Module, classes: ClassRef -> ClassDef)
      modifies this
      ensures priority == ChangeStep(old(priority), key, m, classes)
      ensures task == old(task) && pluginCount == old(pluginCount)
      ensures limits == old(limits) && watcher == old(watcher)
    {
      if m.ImportFailed? {
        return;
      }
      var exports := m.exports;
      for k := 0 to |exports|
        invariant RetargetAll(old(priority), key, exports, classes) == RetargetAll(priority, key, exports[k..], classes)
        invariant task == old(task) && pluginCount == old(pluginCount)
        invariant limits == old(limits) && watcher == old(watcher)
      {
        assert exports[k..][1..] == exports[k + 1..];
        match exports[k] {
          case NotClass =>
            return;
          case Class(c) =>
            match classes(c) {
              case ConstructorThrows =>
                return;
              case Builds(inst) =>
                RetargetEntries(key, c, inst);
            }
        }
      }
      assert exports[|exports|..] == [];
      priority := Sort(priority);
    }

    /** The inner loop of `changePlugin`: the file's entries named like the
        instance take its class and priority, in place. */
    method RetargetEntries(key: string, c: ClassRef, inst: Instance)
      modifies this
      ensures priority == Retarget(old(priority), key, c, inst)
      ensures task == old(task) && pluginCount == old(pluginCount)
      ensures limits == old(limits) && watcher == old(watcher)
    {
      ghost var start := priority;
      for i := 0 to |priority|
        invariant |priority| == |start|
        invariant forall n :: 0 <= n < i ==> priority[n] == Retarget(start, key, c, inst)[n]
        invariant forall n :: i <= n < |start| ==> priority[n] == start[n]
        invariant task == old(task) && pluginCount == old(pluginCount)
        invariant limits == old(limits) && watcher == old(watcher)
      {
        if priority[i].key == key && LooseEq(priority[i].name, inst.name) {
          priority := priority[i := priority[i].(cls := c, priority := inst.priority)];
        }
      }
    }

    /** A file watcher's `unlink` handler: the change listener is removed and
        the file's entries leave the list. */
    method OnUnlink(dir: string, app: string)
      modifies this
      ensures watcher == UnlinkWatcherStep(old(watcher), dir, app)
      ensures priority == Remove(old(priority), dir + "/" + app)
      ensures task == old(task) && pluginCount == old(pluginCount) && limits == old(limits)
    {
      watcher := UnlinkWatcherStep(watcher, dir, app);
      priority := Remove(priority, dir + "/" + app);
    }

    /** A directory watcher's `add` handler for a new file `app`. */
    method OnAdd(dir: string, app: string, m: Module, classes: ClassRef -> ClassDef)
      modifies this
      ensures (Registered(), watcher) == AddStep(old(Registered()), old(watcher), dir, app, m, classes)
      ensures limits == old(limits)
    {
      if !(dir in watcher && watcher[dir] == DirWatcher(true)) || !EndsWith(app, ".js") {
        return;
      }
      ImportPlugin(PluginFile(dir + "/" + app, "../../" + PluginDir + "/" + dir + "/" + app), m, classes);
      priority := Sort(priority);
      Watch(dir, app);
    }

    /** The bot's `online` event. */
    method OnOnline()
      modifies this
      ensures watcher == OnlineStep(old(watcher))
      ensures Registered() == old(Registered()) && limits == old(limits)
    {
      watcher := OnlineStep(watcher);
    }

    // -------------------------------------------------------------------
    // Cooldowns
    // -------------------------------------------------------------------

    /** `checkLimit(e)` */
    method CheckLimit(e: Event, groupCfg: map<string, Value>, now: int) returns (ok: bool)
      requires Valid()
      modifies this
      ensures (limits, ok) == CheckLimitStep(e, groupCfg, old(limits), now)
      ensures Valid()
      ensures Registered() == old(Registered()) && watcher == old(watcher)
    {
      CheckLimitKeepsValid(e, groupCfg, limits, now);
      var (st, pass) := CheckLimitStep(e, groupCfg, limits, now);
      limits, ok := st, pass;
    }

    /** `setLimit(e)` */
    method SetLimit(e: Event, groupCfg: map<string, Value>, now: int)
      requires Valid()
      modifies this
      ensures limits == SetLimitStep(e, groupCfg, old(limits), now)
      ensures Valid()
      ensures Registered() == old(Registered()) && watcher == old(watcher)
    {
      SetLimitKeepsValid(e, groupCfg, limits, now);
      limits := SetLimitStep(e, groupCfg, limits, now);
    }

    /** The event loop reaching `now`: due timers delete their keys. */
    method Tick(now: int)
      requires Valid()
      modifies this
      ensures limits == Limits.Tick(old(limits), now)
      ensures Valid()
      ensures Registered() == old(Registered()) && watcher == old(watcher)
    {
      TickKeepsValid(limits, now);
      limits := Limits.Tick(limits, now);
    }

    // -------------------------------------------------------------------
    // deal
    // -------------------------------------------------------------------

    /** `deal(e)`: counts the message, then runs the gates and stages in
        order; the first that says no ends the event. */
    method Deal(e: Event, s: Config.Settings, now: int, dates: Dates, classes: ClassRef -> ClassDef,
                matches: Matcher) returns (r: DealEnd)
      requires Valid()
      modifies this, e, counters
      ensures Valid()
      ensures Registered() == old(Registered()) && watcher == old(watcher)
      ensures counters.count == SaveAll(old(counters.count),
                CountTypes("receive", MessageValue(e.message), Truthy(Get(Obj(s.bot), "msg_type_count"))),
                e.self_id, e.user_id, e.group_id, dates)
      ensures DealSpec(e, s, now, classes, matches, old(e.Snapshot()), old(e.game), old(priority), old(limits),
                       old(CheckLimitStep(e, Config.GroupCfg(s, e.self_id, e.group_id), limits, now)), limits, r)
    {
      var byType := Truthy(Get(Obj(s.bot), "msg_type_count"));
      Count(counters, "receive", MessageValue(e.message), byType, e.self_id, e.user_id, e.group_id, dates);
      r := Gatekeep(e, s, now, classes, matches);
    }

    /** `deal(e)` after the count: the black list, the cooldowns, the stages,
        and the cooldowns set once a rule has handled the event. */
    method Gatekeep(e: Event, s: Config.Settings, now: int, classes: ClassRef -> ClassDef,
                    matches: Matcher) returns (r: DealEnd)
      requires Valid()
      modifies this, e
      ensures Valid()
      ensures Registered() == old(Registered()) && watcher == old(watcher)
      ensures DealSpec(e, s, now, classes, matches, old(e.Snapshot()), old(e.game), old(priority), old(limits),
                       old(CheckLimitStep(e, Config.GroupCfg(s, e.self_id, e.group_id), limits, now)), limits, r)
    {
      if !CheckBlack(e.user_id, e.group_id, s.other) {
        return Blacklisted;
      }
      var groupCfg := Config.GroupCfg(s, e.self_id, e.group_id);
      var pass := CheckLimit(e, groupCfg, now);
      if !pass {
        return OnCooldown;
      }
      r := Stages(e, s, Defs(priority, classes), matches);
      if r.RulesRan? && r.result.Handled? {
        SetLimit(e, groupCfg, now);
      }
    }
  }

  /** What `deal` establishes after the count, given the event's state, the
      plugin list and the cooldown state before it, and the outcome `check` of
      `checkLimit` in that state: the event is dropped iff black-listed, then
      iff on cooldown; the cooldowns are set iff a rule handled it; otherwise
      the stages ran as `StagesSpec` says. */
  predicate DealSpec(e: Event, s: Config.Settings, now: int, classes: ClassRef -> ClassDef,
                     matches: Matcher, before: Enrichment, gameBefore: Value,
                     priorityBefore: seq<Descriptor>, limitsBefore: LimitState, check: (LimitState, bool),
                     limitsAfter: LimitState, r: DealEnd)
    reads e
  {
    var groupCfg := Config.GroupCfg(s, e.self_id, e.group_id);
    && (r == Blacklisted <==> !CheckBlack(e.user_id, e.group_id, s.other))
    && (r == Blacklisted ==> limitsAfter == limitsBefore)
    && (r == Blacklisted || r == OnCooldown ==> e.Snapshot() == before && e.game == gameBefore)
    && (r != Blacklisted ==> (r == OnCooldown <==> !check.1))
    && (r != Blacklisted && !(r.RulesRan? && r.result.Handled?) ==> limitsAfter == check.0)
    && (r.RulesRan? && r.result.Handled? ==> limitsAfter == SetLimitStep(e, groupCfg, check.0, now))
    && (r == DealEventRaised || r == ConstructorRaised || r.ContextStop? || r.NotAddressed? || r.AcceptStop? || r.RulesRan? ==>
          StagesSpec(e, before, gameBefore, groupCfg, s, Defs(priorityBefore, classes), matches, r))
  }

  /** What the stages of `deal` after the cooldown check establish, given
      the event's state before them: once `dealEvent` has succeeded, the
      event keeps what `Normalise` derived, all but `msg`, which only the
      srReg rewrite may change afterwards. */
  predicate StagesSpec(e: Event, before: Enrichment, gameBefore: Value, groupCfg: map<string, Value>,
                       s: Config.Settings, defs: seq<ClassDef>, matches: Matcher, r: DealEnd)
    reads e
  {
    var (n, ok) := Normalise(e, before, s);
    && (r == DealEventRaised <==> !ok)
    && (r != DealEventRaised ==>
          && e.Snapshot() == n.(parts := n.parts.(msg := e.msg))
          && AdmitSpec(e, n.parts.msg, gameBefore, groupCfg, defs, matches, r))
  }

  /** What plugin construction and the stages after it establish, given the
      message and game before them: construction raises iff some plugin
      constructor raises, leaving both unchanged; otherwise the admitted
      plugins go through the stages as `AfterContextSpec` says. */
  predicate AdmitSpec(e: Event, msgBefore: Option<string>, gameBefore: Value, groupCfg: map<string, Value>,
                      defs: seq<ClassDef>, matches: Matcher, r: DealEnd)
    reads e
  {
    && (r == ConstructorRaised || r.ContextStop? || r.NotAddressed? || r.AcceptStop? || r.RulesRan?)
    && (r == ConstructorRaised <==> Admitted(e, groupCfg, defs).None?)
    && (r == ConstructorRaised ==> e.msg == msgBefore && e.game == gameBefore)
    && (r != ConstructorRaised ==>
          && Admitted(e, groupCfg, defs) == Some(r.ps)
          && AfterContextSpec(e, msgBefore, gameBefore, groupCfg, matches, r))
  }

  /** What the stages after the context hooks establish, given the message
      and game before them. */
  predicate AfterContextSpec(e: Event, msgBefore: Option<string>, gameBefore: Value, groupCfg: map<string, Value>,
                             matches: Matcher, r: DealEnd)
    reads e
    requires r.ContextStop? || r.NotAddressed? || r.AcceptStop? || r.RulesRan?
  {
    && (r.ContextStop? <==> ContextStage(r.ps) != Proceed)
    && (r.ContextStop? ==> r.stage == ContextStage(r.ps) && e.msg == msgBefore && e.game == gameBefore)
    && (r.NotAddressed? ==> !OnlyReplyAt(e, groupCfg) && e.msg == msgBefore && e.game == gameBefore)
    && (r.AcceptStop? || r.RulesRan? ==>
          && OnlyReplyAt(e, groupCfg)
          && (if SrHit(msgBefore) then e.msg == Some(SrRewrite(msgBefore.value)) && e.game == Str("sr")
              else e.msg == msgBefore && e.game == gameBefore))
    && (r.AcceptStop? ==> r.stage == AcceptStage(r.ps) && r.stage != Proceed)
    && (r.RulesRan? ==> AcceptStage(r.ps) == Proceed && r.result == ScanRules(e, r.ps, 0, 0, matches))
  }

  /** The stages of `deal` after the cooldown check: `dealEvent`, the
      pre-filter, the context hooks, and the rest. */
  method Stages(e: Event, s: Config.Settings, defs: seq<ClassDef>, matches: Matcher) returns (r: DealEnd)
    modifies e
    ensures r == DealEventRaised || r == ConstructorRaised || r.ContextStop? || r.NotAddressed? || r.AcceptStop? || r.RulesRan?
    ensures StagesSpec(e, old(e.Snapshot()), old(e.game), Config.GroupCfg(s, e.self_id, e.group_id), s, defs, matches, r)
  {
    var ok := DealEvent(e, s);
    if !ok {
      return DealEventRaised;
    }
    r := Admit(e, s, defs, matches);
  }

  /** The plugin construction loop of `deal`, then the stages after it. */
  method Admit(e: Event, s: Config.Settings, defs: seq<ClassDef>, matches: Matcher) returns (r: DealEnd)
    modifies e`msg, e`game
    ensures e.Snapshot() == old(e.Snapshot()).(parts := old(e.Snapshot()).parts.(msg := e.msg))
    ensures AdmitSpec(e, old(e.msg), old(e.game), Config.GroupCfg(s, e.self_id, e.group_id), defs, matches, r)
  {
    var groupCfg := Config.GroupCfg(s, e.self_id, e.group_id);
    var admitted := Instantiate(e, groupCfg, defs);
    if admitted.None? {
      return ConstructorRaised;
    }
    r := AfterContext(e, groupCfg, admitted.value, matches);
  }

  /** The context hooks, `onlyReplyAt`, the srReg rewrite, the accept hooks
      and the rule loop. */
  method AfterContext(e: Event, groupCfg: map<string, Value>, ps: seq<Instance>, matches: Matcher)
    returns (r: DealEnd)
    modifies e`msg, e`game
    ensures r.ContextStop? || r.NotAddressed? || r.AcceptStop? || r.RulesRan?
    ensures r.ps == ps
    ensures AfterContextSpec(e, old(e.msg), old(e.game), groupCfg, matches, r)
  {
    var context := ContextHooks(ps);
    if context != Proceed {
      return ContextStop(ps, context);
    }
    if !OnlyReplyAt(e, groupCfg) {
      return NotAddressed(ps);
    }
    if SrHit(e.msg) {
      e.game := Str("sr");
      e.msg := Some(SrRewrite(e.msg.value));
    }
    var accept := AcceptHooks(ps);
    if accept != Proceed {
      return AcceptStop(ps, accept);
    }
    var result := MatchRules(e, ps, matches);
    r := RulesRan(ps, result);
  }

  /** `new i.class(e)` for each registered entry, in order. */
  function Defs(l: seq<Descriptor>, classes: ClassRef -> ClassDef): (r: seq<ClassDef>)
    ensures |r| == |l| && forall i :: 0 <= i < |l| ==> r[i] == classes(l[i].cls)
  {
    seq(|l|, i requires 0 <= i < |l| => classes(l[i].cls))
  }
}
