/** The configuration store (`Cfg`): layered group settings, user settings
    over defaults, the bot-to-master table, and the read-through cache of
    parsed YAML files that a file-change notification invalidates.

    Reading a file and parsing YAML are inputs: a file system snapshot
    `fs` (path to contents; a missing path is a failed read) and a parser
    `parse` (text to value, or a parse error). */
module Config {
  import opened Js

  // ---------------------------------------------------------------------
  // getGroup: four layers merged right-biased
  // ---------------------------------------------------------------------

  /** A defaulted parameter: `undefined` becomes "", anything else is stringified
      when it is used as a key. */
  function ParamStr(v: Value): string {
    if v.Undef? then "" else ToStr(v)
  }

  /** `config.default` */
  function DefaultLayer(group: map<string, Value>): map<string, Value> {
    Spread(Get(Obj(group), "default"))
  }

  /** `config[`${bot_id}:default`]` */
  function BotDefaultLayer(group: map<string, Value>, botId: Value): map<string, Value> {
    Spread(Get(Obj(group), ParamStr(botId) + ":default"))
  }

  /** `config[group_id]` */
  function GroupLayer(group: map<string, Value>, groupId: Value): map<string, Value> {
    Spread(Get(Obj(group), ParamStr(groupId)))
  }

  /** `config[`${bot_id}:${group_id}`]` */
  function BotGroupLayer(group: map<string, Value>, botId: Value, groupId: Value): map<string, Value> {
    Spread(Get(Obj(group), ParamStr(botId) + ":" + ParamStr(groupId)))
  }

  /** `getGroup(bot_id, group_id)` over the merged `group` configuration:
      every key comes from the highest-precedence layer that defines it,
      in the order bot:group, group, bot:default, default. */
  function GetGroup(group: map<string, Value>, botId: Value, groupId: Value): (r: map<string, Value>)
    ensures r.Keys == DefaultLayer(group).Keys + BotDefaultLayer(group, botId).Keys
                      + GroupLayer(group, groupId).Keys + BotGroupLayer(group, botId, groupId).Keys
    ensures forall k :: k in BotGroupLayer(group, botId, groupId) ==>
              r[k] == BotGroupLayer(group, botId, groupId)[k]
    ensures forall k :: k in GroupLayer(group, groupId) && k !in BotGroupLayer(group, botId, groupId) ==>
              r[k] == GroupLayer(group, groupId)[k]
    ensures forall k :: k in BotDefaultLayer(group, botId) && k !in GroupLayer(group, groupId)
                        && k !in BotGroupLayer(group, botId, groupId) ==>
              r[k] == BotDefaultLayer(group, botId)[k]
    ensures forall k :: k in DefaultLayer(group) && k !in BotDefaultLayer(group, botId)
                        && k !in GroupLayer(group, groupId) && k !in BotGroupLayer(group, botId, groupId) ==>
              r[k] == DefaultLayer(group)[k]
  {
    DefaultLayer(group) + BotDefaultLayer(group, botId) + GroupLayer(group, groupId)
      + BotGroupLayer(group, botId, groupId)
  }

  /** `{...defaults, ...user}`: user keys win, all other keys keep the default. */
  function MergeCfg(defaults: Value, user: Value): (r: map<string, Value>)
    ensures r.Keys == Spread(defaults).Keys + Spread(user).Keys
    ensures forall k :: k in Spread(user) ==> r[k] == Spread(user)[k]
    ensures forall k :: k in Spread(defaults) && k !in Spread(user) ==> r[k] == Spread(defaults)[k]
  {
    Spread(defaults) + Spread(user)
  }

  /** What the loader reads from the store: the merged `bot`, `other` and
      `group` configurations (each `getAllCfg(name)`). */
  datatype Settings = Settings(bot: map<string, Value>, other: map<string, Value>, group: map<string, Value>)

  /** `cfg.getGroup(bot_id, group_id)` as the loader sees it. */
  function GroupCfg(s: Settings, botId: Value, groupId: Value): map<string, Value> {
    GetGroup(s.group, botId, groupId)
  }

  // ---------------------------------------------------------------------
  // master / uin / masterQQ
  // ---------------------------------------------------------------------

  /** `v || []`, then a non-array is wrapped as a one-element list. */
  function AsList(v: Value): seq<Value> {
    var w := Or(v, List([]));
    if w.List? then w.items else [w]
  }

  /** One `"bot:user"` entry: `split(":")`, the first piece is the bot id and
      the remaining pieces rejoined with ":" are the user id. */
  function SplitEntry(s: string): (string, string) {
    var parts := Split(s, ':');
    (parts[0], Join(parts[1..], ':'))
  }

  /** An entry splits at its first colon; without a colon the user id is "". */
  lemma SplitEntryAtFirstColon(s: string)
    ensures ':' !in SplitEntry(s).0
    ensures ':' in s ==> s == SplitEntry(s).0 + ":" + SplitEntry(s).1
    ensures ':' !in s ==> SplitEntry(s) == (s, "")
  {
    var parts := Split(s, ':');
    JoinSplit(s, ':');
    if |parts| > 1 {
      assert s == parts[0] + [':'] + Join(parts[1..], ':');
    } else {
      assert s == parts[0];
    }
  }

  /** With a colon-free bot id, an entry yields `(bot, user)` exactly when it
      reads "bot:user", or is the bare bot id and `user` is "". */
  lemma SplitEntryIff(s: string, bot: string, user: string)
    requires ':' !in bot
    ensures SplitEntry(s) == (bot, user) <==> (s == bot + ":" + user || (s == bot && user == ""))
  {
    SplitEntryAtFirstColon(s);
    if s == bot + ":" + user {
      SplitAtFirst(bot, user, ':');
      JoinSplit(user, ':');
    }
  }

  /** `masters[bot].push(user)` or `masters[bot] = [user]` */
  function AddMaster(masters: map<string, seq<string>>, bot: string, user: string): map<string, seq<string>> {
    if bot in masters then masters[bot := masters[bot] + [user]] else masters[bot := [user]]
  }

  /** The loop of the `master` getter from an accumulated table; None when an
      entry is not a string (its `split` raises a TypeError). */
  function MasterFold(masters: map<string, seq<string>>, entries: seq<Value>): Option<map<string, seq<string>>>
    decreases |entries|
  {
    if entries == [] then Some(masters)
    else if !entries[0].Str? then None
    else
      var (bot, user) := SplitEntry(entries[0].s);
      MasterFold(AddMaster(masters, bot, user), entries[1..])
  }

  /** The `master` getter over the merged `other` configuration. */
  function MasterOf(other: map<string, Value>): Option<map<string, seq<string>>> {
    MasterFold(map[], AsList(Get(Obj(other), "master")))
  }

  /** Bot id of a string entry. */
  function BotOf(entry: Value): string
    requires entry.Str?
  {
    SplitEntry(entry.s).0
  }

  predicate AllStrings(entries: seq<Value>) {
    forall i :: 0 <= i < |entries| ==> entries[i].Str?
  }

  /** The user ids of the entries naming `bot`, in input order. */
  function UsersFor(entries: seq<Value>, bot: string): seq<string>
    requires AllStrings(entries)
  {
    if entries == [] then []
    else (if BotOf(entries[0]) == bot then [SplitEntry(entries[0].s).1] else []) + UsersFor(entries[1..], bot)
  }

  /** A user id is listed under a colon-free bot id exactly when an entry
      reads "bot:user" (or, for the empty user id, is the bare bot id). */
  lemma {:induction false} UsersForNamesEntry(entries: seq<Value>, bot: string, user: string)
    requires AllStrings(entries)
    requires ':' !in bot
    ensures user in UsersFor(entries, bot) <==>
              (Str(bot + ":" + user) in entries || (user == "" && Str(bot) in entries))
    ensures UsersFor(entries, bot) != [] ==> bot in Bots(entries)
  {
    if entries != [] {
      var rest := entries[1..];
      assert AllStrings(rest);
      UsersForNamesEntry(rest, bot, user);
      var s0 := entries[0].s;
      var (b, u) := SplitEntry(s0);
      assert UsersFor(entries, bot) == (if b == bot then [u] else []) + UsersFor(rest, bot);
      assert user in UsersFor(entries, bot) <==> (b == bot && u == user) || user in UsersFor(rest, bot);
      SplitEntryIff(s0, bot, user);
      assert entries == [Str(s0)] + rest;
      assert Str(bot + ":" + user) in entries <==> s0 == bot + ":" + user || Str(bot + ":" + user) in rest;
      assert Str(bot) in entries <==> s0 == bot || Str(bot) in rest;
      assert Bots(entries) == {b} + Bots(rest);
    }
  }

  /** The `master` getter, a loop that pushes into a local table. */
  method Master(other: map<string, Value>) returns (r: Option<map<string, seq<string>>>)
    ensures r == MasterOf(other)
  {
    var list := AsList(Get(Obj(other), "master"));
    var masters: map<string, seq<string>> := map[];
    for k := 0 to |list|
      invariant MasterFold(masters, list[k..]) == MasterFold(map[], list)
    {
      var i := list[k];
      assert list[k..] == [i] + list[k + 1..];
      if !i.Str? {
        return None;
      }
      var (bot, user) := SplitEntry(i.s);
      if bot in masters {
        masters := masters[bot := masters[bot] + [user]];
      } else {
        masters := masters[bot := [user]];
      }
    }
    assert list[|list|..] == [];
    r := Some(masters);
  }

  /** The set of bot ids named by string entries. */
  function Bots(entries: seq<Value>): set<string>
    requires AllStrings(entries)
  {
    if entries == [] then {} else {BotOf(entries[0])} + Bots(entries[1..])
  }

  /** The `master` loop fails exactly when some entry is not a string. */
  lemma {:induction false} MasterFoldFails(masters: map<string, seq<string>>, entries: seq<Value>)
    ensures MasterFold(masters, entries).Some? <==> AllStrings(entries)
    decreases |entries|
  {
    if entries != [] {
      if entries[0].Str? {
        var (bot, user) := SplitEntry(entries[0].s);
        MasterFoldFails(AddMaster(masters, bot, user), entries[1..]);
        assert AllStrings(entries) <==> AllStrings(entries[1..]) by {
          if AllStrings(entries[1..]) {
            forall i | 0 <= i < |entries| ensures entries[i].Str? {
              if i > 0 { assert entries[i] == entries[1..][i - 1]; }
            }
          }
        }
      }
    }
  }

  /** From an accumulated table, the `master` loop adds every bot id that
      occurs and appends each bot's user ids in input order. */
  lemma {:induction false} MasterFoldSpec(masters: map<string, seq<string>>, entries: seq<Value>)
    requires AllStrings(entries)
    ensures MasterFold(masters, entries).Some?
    ensures MasterFold(masters, entries).value.Keys == masters.Keys + Bots(entries)
    ensures forall b :: b in MasterFold(masters, entries).value ==>
              MasterFold(masters, entries).value[b]
              == (if b in masters then masters[b] else []) + UsersFor(entries, b)
    decreases |entries|
  {
    if entries != [] {
      var rest := entries[1..];
      assert AllStrings(rest);
      var (bot, user) := SplitEntry(entries[0].s);
      var next := AddMaster(masters, bot, user);
      MasterFoldSpec(next, rest);
      var m := MasterFold(masters, entries).value;
      assert m == MasterFold(next, rest).value;
      assert Bots(entries) == {bot} + Bots(rest);
      assert next.Keys == masters.Keys + {bot};
      forall b | b in m
        ensures m[b] == (if b in masters then masters[b] else []) + UsersFor(entries, b)
      {
        var head := if bot == b then [user] else [];
        assert UsersFor(entries, b) == head + UsersFor(rest, b);
        AddMasterBucket(masters, bot, user, b);
        AppendAssoc(if b in masters then masters[b] else [], head, UsersFor(rest, b));
      }
    }
  }

  /** `AddMaster` appends `user` to the bucket of `bot` and leaves the others. */
  lemma AddMasterBucket(masters: map<string, seq<string>>, bot: string, user: string, b: string)
    ensures var next := AddMaster(masters, bot, user);
      (if b in next then next[b] else [])
      == (if b in masters then masters[b] else []) + (if bot == b then [user] else [])
  {
  }

  lemma AppendAssoc<T>(a: seq<T>, b: seq<T>, c: seq<T>)
    ensures (a + b) + c == a + (b + c)
  {
  }

  /** `master`: it fails exactly when an entry is not a string; otherwise the
      table holds the bot ids that occur, each with its user ids in input order. */
  lemma MasterGroupsByBot(other: map<string, Value>)
    ensures var entries := AsList(Get(Obj(other), "master"));
      && (MasterOf(other).Some? <==> AllStrings(entries))
      && (AllStrings(entries) ==>
            && MasterOf(other).value.Keys == Bots(entries)
            && forall b :: b in MasterOf(other).value ==> MasterOf(other).value[b] == UsersFor(entries, b))
  {
    var entries := AsList(Get(Obj(other), "master"));
    MasterFoldFails(map[], entries);
    if AllStrings(entries) {
      MasterFoldSpec(map[], entries);
    }
  }

  /** `uin`: the bot ids of the `master` table (JavaScript key order is not modelled). */
  function Uin(other: map<string, Value>): (r: Option<set<string>>)
    ensures r.Some? <==> AllStrings(AsList(Get(Obj(other), "master")))
    ensures r.Some? ==> r.value == Bots(AsList(Get(Obj(other), "master")))
  {
    MasterGroupsByBot(other);
    match MasterOf(other)
    case Some(m) => Some(m.Keys)
    case None => None
  }

  /** `Number(i) || i` */
  function NumberOrSelf(v: Value): (r: Value)
    ensures r == v || (r.Num? && r.n != 0 && ToNumber(v) == Some(r.n))
    ensures (ToNumber(v).Some? && ToNumber(v).value != 0) ==> r == Num(ToNumber(v).value)
  {
    match ToNumber(v)
    case Some(n) => if n != 0 then Num(n) else v
    case None => v
  }

  /** The `masterQQ` getter: a loop that pushes each normalised entry. */
  method MasterQQ(other: map<string, Value>) returns (masters: seq<Value>)
    ensures var list := AsList(Get(Obj(other), "masterQQ"));
      && |masters| == |list|
      && forall k :: 0 <= k < |list| ==> masters[k] == NumberOrSelf(list[k])
  {
    var list := AsList(Get(Obj(other), "masterQQ"));
    masters := [];
    for k := 0 to |list|
      invariant |masters| == k
      invariant forall j :: 0 <= j < k ==> masters[j] == NumberOrSelf(list[j])
    {
      masters := masters + [NumberOrSelf(list[k])];
    }
  }

  /** For string entries `masterQQ` normalises as the black/white lists do. */
  lemma MasterQQMatchesIdNormalisation(v: Value)
    requires v.Str?
    ensures NumberOrSelf(v) == NumberOrString(v)
  {
  }

  // ---------------------------------------------------------------------
  // getYaml cache and watch invalidation
  // ---------------------------------------------------------------------

  datatype Parse = Parsed(value: Value) | ParseError

  /** What a call produced: a value, or an exception that propagated. */
  datatype Read = Returned(value: Value) | Raised

  /** An entry of the `watcher` object: the two placeholders the constructor
      puts there, or a file watcher whose change listener clears one cache key. */
  datatype Watch = Placeholder | FileWatch(file: string)

  datatype CacheState = CacheState(config: map<string, Value>, watcher: map<string, Watch>)

  function CacheKey(kind: string, name: string): string {
    kind + "." + name
  }

  function YamlPath(kind: string, name: string): string {
    "config/" + kind + "/" + name + ".yaml"
  }

  /** `watch(file, name, type)`: registers a watcher unless the key already has one. */
  function WatchStep(st: CacheState, file: string, name: string, kind: string): (st': CacheState)
    ensures st'.config == st.config
    ensures CacheKey(kind, name) in st'.watcher
    ensures CacheKey(kind, name) in st.watcher ==> st' == st
    ensures CacheKey(kind, name) !in st.watcher ==> st'.watcher == st.watcher[CacheKey(kind, name) := FileWatch(file)]
  {
    var key := CacheKey(kind, name);
    if key in st.watcher then st else st.(watcher := st.watcher[key := FileWatch(file)])
  }

  /** `getYaml(type, name)` as a state transition. */
  function GetYamlStep(st: CacheState, kind: string, name: string, fs: map<string, string>,
                       parse: string -> Parse): (CacheState, Read)
  {
    var key := CacheKey(kind, name);
    var file := YamlPath(kind, name);
    if key in st.config then (st, Returned(st.config[key]))
    else if file !in fs then (st.(config := st.config[key := Undef]), Returned(Undef))
    else match parse(fs[file])
      case Parsed(v) => (WatchStep(st.(config := st.config[key := v]), file, name, kind), Returned(v))
      case ParseError => (st.(config := st.config[key := Str(fs[file])]), Raised)
  }

  /** The change listener of a registered file watcher deletes that one key. */
  function ChangeStep(st: CacheState, key: string): (st': CacheState)
    ensures st'.watcher == st.watcher
    ensures key in st.watcher && st.watcher[key].FileWatch? ==> key !in st'.config
    ensures forall k :: k in st.config && k != key ==> k in st'.config && st'.config[k] == st.config[k]
    ensures st'.config.Keys <= st.config.Keys
  {
    if key in st.watcher && st.watcher[key].FileWatch? then st.(config := st.config - {key}) else st
  }

  /** A cached key, including a cached `undefined`, is answered without reading. */
  lemma CachedIsReturnedWithoutRead(st: CacheState, kind: string, name: string,
                                    fs: map<string, string>, parse: string -> Parse)
    requires CacheKey(kind, name) in st.config
    ensures GetYamlStep(st, kind, name, fs, parse) == (st, Returned(st.config[CacheKey(kind, name)]))
  {
  }

  /** After any first call the key is cached, and a second call returns the
      cached value whatever the file system now holds; a successful parse also
      leaves a watcher registered, a failed read or parse does not. */
  lemma SecondReadIsCached(st: CacheState, kind: string, name: string,
                           fs: map<string, string>, parse: string -> Parse,
                           fs2: map<string, string>, parse2: string -> Parse)
    ensures var (st1, r1) := GetYamlStep(st, kind, name, fs, parse);
      && CacheKey(kind, name) in st1.config
      && GetYamlStep(st1, kind, name, fs2, parse2) == (st1, Returned(st1.config[CacheKey(kind, name)]))
      && (r1.Returned? ==> st1.config[CacheKey(kind, name)] == r1.value)
      && ((CacheKey(kind, name) !in st.config && YamlPath(kind, name) in fs
           && parse(fs[YamlPath(kind, name)]).Parsed?) ==> CacheKey(kind, name) in st1.watcher)
      && ((CacheKey(kind, name) !in st.config && (YamlPath(kind, name) !in fs
           || parse(fs[YamlPath(kind, name)]).ParseError?)) ==> st1.watcher == st.watcher)
  {
  }

  /** A parse error raises once and leaves the raw file text cached, which
      every later call returns as the configuration value. */
  lemma ParseErrorCachesRawText(st: CacheState, kind: string, name: string,
                                fs: map<string, string>, parse: string -> Parse)
    requires CacheKey(kind, name) !in st.config
    requires YamlPath(kind, name) in fs && parse(fs[YamlPath(kind, name)]).ParseError?
    ensures GetYamlStep(st, kind, name, fs, parse).1 == Raised
    ensures GetYamlStep(GetYamlStep(st, kind, name, fs, parse).0, kind, name, fs, parse).1
            == Returned(Str(fs[YamlPath(kind, name)]))
  {
  }

  /** A change notification forces the next call to read the file again. */
  lemma ChangeForcesReread(st: CacheState, kind: string, name: string,
                           fs: map<string, string>, parse: string -> Parse)
    requires CacheKey(kind, name) in st.watcher && st.watcher[CacheKey(kind, name)].FileWatch?
    requires YamlPath(kind, name) in fs && parse(fs[YamlPath(kind, name)]).Parsed?
    ensures GetYamlStep(ChangeStep(st, CacheKey(kind, name)), kind, name, fs, parse).1
            == Returned(parse(fs[YamlPath(kind, name)]).value)
  {
  }

  /** Watching is idempotent. */
  lemma WatchIdempotent(st: CacheState, file: string, file2: string, name: string, kind: string)
    ensures WatchStep(WatchStep(st, file, name, kind), file2, name, kind) == WatchStep(st, file, name, kind)
  {
  }

  /** The configuration store. */
  class Cfg {
    var config: map<string, Value>
    var watcher: map<string, Watch>

    function State(): CacheState
      reads this
    {
      CacheState(config, watcher)
    }

    constructor ()
      ensures config == map[]
      ensures watcher == map["config" := Placeholder, "defSet" := Placeholder]
    {
      config := map[];
      watcher := map["config" := Placeholder, "defSet" := Placeholder];
    }

    /** `getYaml(type, name)` */
    method GetYaml(kind: string, name: string, fs: map<string, string>, parse: string -> Parse)
      returns (r: Read)
      modifies this
      ensures (State(), r) == GetYamlStep(old(State()), kind, name, fs, parse)
    {
      var key := CacheKey(kind, name);
      if key in config {
        return Returned(config[key]);
      }
      var file := YamlPath(kind, name);
      if file !in fs {
        config := config[key := Undef];
        return Returned(Undef);
      }
      config := config[key := Str(fs[file])];
      match parse(fs[file]) {
        case ParseError =>
          return Raised;
        case Parsed(v) =>
          config := config[key := v];
          assert config == old(config)[key := v];
          Watch(file, name, kind);
          return Returned(v);
      }
    }

    /** `watch(file, name, type)` */
    method Watch(file: string, name: string, kind: string)
      modifies this
      ensures State() == WatchStep(old(State()), file, name, kind)
    {
      var key := CacheKey(kind, name);
      if key in watcher {
        return;
      }
      watcher := watcher[key := FileWatch(file)];
    }

    /** The `change` listener of the watcher registered under `key`. */
    method OnChange(key: string)
      modifies this
      ensures State() == ChangeStep(old(State()), key)
    {
      if key in watcher && watcher[key].FileWatch? {
        config := config - {key};
      }
    }

    /** `getAllCfg(name)`: user configuration over the defaults. */
    method GetAllCfg(name: string, fs: map<string, string>, parse: string -> Parse)
      returns (r: Option<map<string, Value>>)
      modifies this
      ensures var (st1, d) := GetYamlStep(old(State()), "default_config", name, fs, parse);
        var (st2, u) := GetYamlStep(st1, "config", name, fs, parse);
        && (d.Raised? ==> r == None && State() == st1)
        && (d.Returned? && u.Raised? ==> r == None && State() == st2)
        && (d.Returned? && u.Returned? ==> r == Some(MergeCfg(d.value, u.value)) && State() == st2)
    {
      var d := GetYaml("default_config", name, fs, parse);
      if d.Raised? {
        return None;
      }
      var u := GetYaml("config", name, fs, parse);
      if u.Raised? {
        return None;
      }
      r := Some(MergeCfg(d.value, u.value));
    }
  }
}
