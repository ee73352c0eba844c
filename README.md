# Yunzai plugin loader and configuration store in Dafny

This project models the message-handling core of the Yunzai chat-bot host and proves properties of the model.
It covers two JavaScript files:

- `lib/plugins/loader.js`: the `PluginsLoader` singleton. It discovers and imports plugin files and keeps the
  plugin list ordered by priority. It hot-reloads changed files. For every incoming chat event it runs the
  same pipeline:
  1. count the message;
  2. apply the black/white lists;
  3. apply the cooldowns;
  4. normalise the event (`dealEvent`) and install `e.reply`;
  5. filter the plugins (enable/disable lists and event selectors);
  6. run the context hooks, the "only reply when addressed" gate and the Star Rail command rewrite;
  7. run the `accept` hooks;
  8. try the rules in order until one handles the event, checking each rule's permission.
- `lib/config/config.js`: the `Cfg` store. It layers the group configuration, parses the `master` and
  `masterQQ` lists, and caches YAML files with a file-watch invalidation.

The modules follow the source:

| module | file | what it holds |
|---|---|---|
| `Js` | js.dfy | the JavaScript value semantics the source relies on: truthiness, `||`, `Number()`, `String()`, loose `==`, `trim`, `split`/`join`, `lodash.trimStart` |
| `Config` | config.dfy | `getGroup`, `getAllCfg`, `master`, `masterQQ`, `uin`, and the YAML cache as class `Cfg` |
| `Normalizer` | normalizer.dfy | `dealText`, and `dealEvent` over a mutable `Event` class |
| `Gates` | gates.dfy | `checkBlack`, `checkDisable`, `onlyReplyAt`, `filtEvent`, `filtPermission` |
| `Limits` | limits.dfy | `checkLimit`, `setLimit` and their `setTimeout` expiries, as pure transitions over an explicit timer list |
| `Dispatch` | dispatch.dfy | plugin instantiation and filtering, the context and accept hooks, the Star Rail rewrite, the rule scan |
| `Registry` | registry.dfy | the priority list: `loadPlugin`, `collectTask`, `load`, `changePlugin`, unlink, the watcher map |
| `Sending` | sending.dfy | `e.reply` (prefix, route, recall plan), `count`, and `saveCount` over a counter store |
| `Loader` | loader.dfy | class `PluginsLoader`, whose methods update its fields and whose `Deal` runs the whole pipeline |

Each stateful operation is a method of a class (`Loader.PluginsLoader`, `Config.Cfg`, `Normalizer.Event`,
`Sending.Counters`, `Sending.MsgArray`). The method is proved equal to a pure step function of the old state.
The properties are proved about those step functions as lemmas.

Inputs that come from outside the process are parameters:

- the directory listing, the imported modules and the plugin classes;
- the YAML files, the YAML parser, the rule regular-expression test;
- the clock (`now`, the dates) and the outcome of a send.

## Model

| member | source | states |
|---|---|---|
| Js.Or | lib/config/config.js:45 | `a \|\| b` yields `a` exactly when `a` is truthy, else `b` |
| Js.Trim | lib/plugins/loader.js:321 | the result has no JavaScript white space at either end and is no longer than the input |
| Js.TrimOfTrimmed | lib/plugins/loader.js:321 | trimming an already trimmed string changes nothing |
| Js.NumberOrString | lib/plugins/loader.js:614 | `Number(x) \|\| String(x)` is a non-zero number equal to `Number(x)`, or else the string of `x` when `Number(x)` is 0 or NaN |
| Js.NumberOrStringOfDecimal | lib/plugins/loader.js:614-626 | an id written as the decimal string of `n` normalises to the same `Num(n)` as the number itself |
| Js.StringToNumberOfInt | lib/config/config.js:39 | `Number()` reads back every integer's decimal string |
| Js.Split | lib/config/config.js:52 | `split` yields at least one piece and no piece contains the separator |
| Js.JoinSplit | lib/config/config.js:52-53 | joining the pieces of a split with the separator gives back the string |
| Js.SplitJoin | lib/config/config.js:52-53 | splitting a join of separator-free pieces gives back the pieces |
| Js.JoinInjective | lib/config/config.js:52-53 | joins of separator-free piece lists are equal iff the lists are equal |
| Js.DropWhileIn | lib/plugins/loader.js:423 | `lodash.trimStart(s, chars)` drops exactly the longest prefix made of characters of `chars` |
| Js.DropWhileInCoversPrefix | lib/plugins/loader.js:423 | a prefix made only of `chars` is always removed entirely |
| Js.Spread | lib/config/config.js:82-87 | `{...v}` copies a plain object's fields, an array's items and a string's one-character strings, the last two under their decimal indices, and nothing from other primitives |
| Js.IndexedIsIndexMap | lib/config/config.js:109-112 | the index map of a list holds exactly the numerals `"0"` to `"n-1"`, each mapped to the item at that index |
| Js.LooseEqStr | lib/plugins/loader.js:207 | for strings, `undefined` and `null`, `==` against a string literal is plain equality |
| Config.GetGroup | lib/config/config.js:80-88 | the group configuration is the union of the four layers, with `bot:group` over `group` over `bot:default` over `default`, key by key |
| Config.MergeCfg | lib/config/config.js:108-113 | user keys override default keys and no other key appears |
| Config.SplitEntryAtFirstColon | lib/config/config.js:52-53 | a master entry splits at its first colon: the bot part has no colon and the parts rejoin to the entry |
| Config.SplitEntryIff | lib/config/config.js:52-53 | an entry yields `(bot, user)` iff it is `bot:user`, or just `bot` with an empty user |
| Config.UsersForNamesEntry | lib/config/config.js:50-58 | a user is a master of a bot iff an entry `bot:user` is listed |
| Config.Master | lib/config/config.js:44-61 | the loop computes the master map, failing on a non-string entry |
| Config.MasterFold | lib/config/config.js:44-61 | the `master` getter's loop, from an accumulated table; specified by Config.MasterFoldFails and Config.MasterFoldSpec |
| Config.MasterFoldFails | lib/config/config.js:50-58 | building the master map succeeds iff every entry is a string |
| Config.MasterFoldSpec | lib/config/config.js:44-61 | the master map's bots are exactly the listed bots, each mapped to its users in list order, after the entries already present |
| Config.MasterGroupsByBot | lib/config/config.js:44-61 | `master` groups the configured users by bot and fails iff an entry is not a string |
| Config.Uin | lib/config/config.js:64-66 | `uin` holds exactly the bots named in the master list |
| Config.NumberOrSelf | lib/config/config.js:39 | `Number(i) \|\| i` is the number when it is a non-zero number, and the entry itself otherwise |
| Config.MasterQQ | lib/config/config.js:31-40 | the result holds each `masterQQ` entry normalised, in order |
| Config.MasterQQMatchesIdNormalisation | lib/config/config.js:39 | for string entries this normalisation is the same as the id normalisation that `checkBlack` applies |
| Config.WatchStep | lib/config/config.js:138-152 | the first watch of a key registers a file watcher and leaves the cache alone; later watches of the key change nothing |
| Config.ChangeStep | lib/config/config.js:143-149 | a change of a watched file drops its cached value, keeps every other cached value and keeps the watchers |
| Config.GetYamlStep | lib/config/config.js:120-136 | `getYaml` as a transition of the cache and the watchers; specified by the cache lemmas below |
| Config.CachedIsReturnedWithoutRead | lib/config/config.js:121-122 | a cached key is returned without reading the file system |
| Config.SecondReadIsCached | lib/config/config.js:120-135 | after one read the key is cached and a second read returns it whatever the files then hold; a file watcher is added only when the parse succeeds |
| Config.ParseErrorCachesRawText | lib/config/config.js:125-132 | a YAML parse error raises, and the raw text stays cached and is returned by the next read |
| Config.ChangeForcesReread | lib/config/config.js:143-149 | after a change event, the next read returns the freshly parsed file |
| Config.WatchIdempotent | lib/config/config.js:139 | watching a key twice is the same as watching it once |
| Config.Cfg.constructor | lib/config/config.js:7-15 | the cache starts empty with the two placeholder watchers |
| Config.Cfg.GetYaml | lib/config/config.js:120-135 | the cache is updated as the read step says |
| Config.Cfg.Watch | lib/config/config.js:138-152 | the watchers are updated as the watch step says |
| Config.Cfg.OnChange | lib/config/config.js:143-149 | the cache is updated as the change step says |
| Config.Cfg.GetAllCfg | lib/config/config.js:108-113 | reads the defaults and then the user file; fails if either read raises, and otherwise returns the user values over the defaults |
| Normalizer.Event.constructor | lib/plugins/loader.js:337-429 | the event starts with the transport's fields and no derived flags |
| Normalizer.DealText | lib/plugins/loader.js:315-322 | the normalised command text is trimmed |
| Normalizer.CanonOfHeaded | lib/plugins/loader.js:316-320 | text headed by a non-space, non-marker character is left unchanged |
| Normalizer.CanonFires | lib/plugins/loader.js:316-320 | text whose first non-space character is a marker starts with the canonical marker afterwards |
| Normalizer.CanonSkips | lib/plugins/loader.js:316-320 | without a leading marker the text is unchanged |
| Normalizer.TrimOfHeaded | lib/plugins/loader.js:321 | trimming keeps a non-space first character |
| Normalizer.Marked | lib/plugins/loader.js:316-320 | the three anchored prefix rewrites of `dealText`, before the trim; specified case by case by the Marked* lemmas |
| Normalizer.MarkedSlash | lib/plugins/loader.js:316-317 | with slash conversion on, a leading `/` becomes `#` |
| Normalizer.MarkedHash | lib/plugins/loader.js:319 | a leading full-width `＃` or `井`, with the white space around it, becomes `#` |
| Normalizer.MarkedStar | lib/plugins/loader.js:320 | a leading full-width `＊` or `※`, with the white space around it, becomes `*` |
| Normalizer.MarkedPlain | lib/plugins/loader.js:316-320 | without a leading marker only the trim applies |
| Normalizer.DealTextPrefix | lib/plugins/loader.js:315-322 | the command prefix of the result is `#`, `*` or absent exactly as the text's first non-space character says; otherwise the text is just trimmed |
| Normalizer.DealTextOfUnmarked | lib/plugins/loader.js:315-322 | trimmed, unmarked text is a fixed point |
| Normalizer.DealTextUnmarked | lib/plugins/loader.js:315-322 | the normalised text never starts with `＃`, `井`, `＊` or `※`, nor with a slash under "/→#" |
| Normalizer.DealTextIdempotent | lib/plugins/loader.js:315-322 | normalising twice is the same as normalising once |
| Normalizer.HasTextSnoc | lib/plugins/loader.js:338-368 | the message has text iff the prefix has text or the last segment is text, XML or JSON |
| Normalizer.MentionsBotSnoc | lib/plugins/loader.js:349-354 | the message mentions the bot iff the prefix does or the last segment is an `at` of the bot |
| Normalizer.HasImageSnoc | lib/plugins/loader.js:343-348 | the message has an image iff the prefix has one or the last segment is one |
| Normalizer.FoldText | lib/plugins/loader.js:338-368 | `e.msg` is the concatenation of the normalised texts of the text, XML and JSON segments, and is set iff there is one |
| Normalizer.FoldImages | lib/plugins/loader.js:343-348 | `e.img` lists the image URLs in order, and is set iff there is an image |
| Normalizer.FoldAts | lib/plugins/loader.js:349-354 | `e.atBot` is set iff some segment mentions the bot; `e.at` is the last other user mentioned |
| Normalizer.FoldReplyAndFile | lib/plugins/loader.js:355-364 | `e.reply_id` and `e.file` come from the last reply and file segments; `getReply` is installed iff there is a reply segment and a fetcher |
| Normalizer.PrivateSender | lib/plugins/loader.js:374-387 | in a private chat the sender's card is its nickname and its id is the event's or the given sender's |
| Normalizer.GroupSender | lib/plugins/loader.js:388-400 | in a group the sender's card falls back to the nickname; a sender that already has a card is kept as is |
| Normalizer.ScopeStep | lib/plugins/loader.js:374-406 | `isPrivate`/`isGroup` and the group name are set exactly by the event's scope; nothing else changes |
| Normalizer.MasterStep | lib/plugins/loader.js:410-412 | the master lookup, failing when the `master` getter raises; specified by Normalizer.MasterStepRecognises |
| Normalizer.MasterStepRecognises | lib/plugins/loader.js:410-412 | the sender is master iff `bot:user` is in the master list; nothing else changes |
| Normalizer.FirstAlias | lib/plugins/loader.js:417-427 | the alias picked is the first one in list order that prefixes the message, and none is picked only when none does |
| Normalizer.AliasStep | lib/plugins/loader.js:415-428 | `hasAlias` becomes set iff the group message starts with a configured alias; the new message is the message with the first such alias's characters trimmed from its start (lodash `trimStart`) and then trimmed; only the message and that flag change |
| Normalizer.AliasStripRemovesAlias | lib/plugins/loader.js:423 | stripping removes at least the alias, and only characters that occur in the alias, then trims |
| Normalizer.MissingAliasMatchesUndefined | lib/plugins/loader.js:415-426 | with no `botAlias` configured, a group message starting with `undefined` counts as addressed |
| Normalizer.AbsorbOne | lib/plugins/loader.js:338-370 | one segment updates the event's fields as the fold step says |
| Normalizer.AbsorbSegments | lib/plugins/loader.js:338-370 | the segment loop leaves the event as the fold of all segments |
| Normalizer.DeriveScope | lib/plugins/loader.js:374-406 | the scope fields are updated as the scope step says |
| Normalizer.FindMaster | lib/plugins/loader.js:410-412 | the master flag is updated as the master step says, and nothing changes when the master list is malformed |
| Normalizer.StripLeadingAlias | lib/plugins/loader.js:415-428 | the alias fields are updated as the alias step says |
| Normalizer.Normalise | lib/plugins/loader.js:337-429 | `dealEvent` as a transition: fold, scope, master, alias; each step has its own specification above, and Normalizer.DealEvent is proved against it |
| Normalizer.DealEvent | lib/plugins/loader.js:337-429 | the event is left as the whole normalisation says; the game field is untouched |
| Gates.BlackListWins | lib/plugins/loader.js:610-630 | a black-listed user, or a black-listed group, is always refused |
| Gates.CheckBlack | lib/plugins/loader.js:610-630 | the model of `checkBlack`; specified by Gates.CheckBlackIff and the lemmas after it |
| Gates.CheckBlackIff | lib/plugins/loader.js:610-630 | an event passes iff the user is not black-listed, is white-listed or there is no white list, and the same holds for its group when it has one |
| Gates.IdSpellingIrrelevant | lib/plugins/loader.js:614-626 | the decision is the same whether an id arrives as a number or as its decimal string |
| Gates.QuotedEntryNeverMatches | lib/plugins/loader.js:614 | a black-list entry written as the quoted string of a number never matches, since ids are normalised to numbers |
| Gates.NoListsAdmitAll | lib/plugins/loader.js:610-630 | with no lists configured every event passes |
| Gates.CheckDisable | lib/plugins/loader.js:633-640 | the model of `checkDisable`; specified by Gates.CheckDisableIff |
| Gates.CheckDisableIff | lib/plugins/loader.js:633-640 | a disabled plugin is refused; with only an enable list, a plugin passes iff it is listed; with neither list every plugin passes |
| Gates.OnlyReplyAt | lib/plugins/loader.js:589-607 | the model of `onlyReplyAt`; specified by Gates.OnlyReplyAtGate and Gates.OnlyReplyAtModes |
| Gates.OnlyReplyAtGate | lib/plugins/loader.js:589-607 | events without a message, private events, events that mention the bot and events with an alias always pass; in the strict modes a group message passes iff it mentions the bot or has an alias |
| Gates.OnlyReplyAtModes | lib/plugins/loader.js:589-607 | for an unaddressed group message: mode 0 passes, mode 1 and an unset mode refuse, and mode 2 passes iff the sender is master |
| Gates.EventMap | lib/plugins/loader.js:270-282 | the event-kind field names have length 0 or 3 |
| Gates.Resolve | lib/plugins/loader.js:273-280 | each selector piece is kept as `*` or is replaced by the event's value of the field at its position |
| Gates.FiltEvent | lib/plugins/loader.js:270-282 | the model of `filtEvent`; specified by Gates.FiltEventIff, Gates.WildcardsMatchAll and Gates.NoSelectorNoMatch |
| Gates.FiltEventIff | lib/plugins/loader.js:270-282 | a selector matches iff every one of its pieces matches the event field at its position |
| Gates.WildcardsMatchAll | lib/plugins/loader.js:270-282 | a selector of wildcards only matches every event |
| Gates.NoSelectorNoMatch | lib/plugins/loader.js:270-271 | a missing or empty selector never matches |
| Gates.FiltPermission | lib/plugins/loader.js:285-312 | the model of `filtPermission`, with the refusal text; specified by Gates.MasterPermission, Gates.OutsideGroupsOnlyMasterRefuses, Gates.GroupRolePermission and Gates.UnknownLevelAdmits |
| Gates.MasterPermission | lib/plugins/loader.js:288-295 | `master` permission is granted iff the sender is master, and a refusal carries the master-only reply |
| Gates.OutsideGroupsOnlyMasterRefuses | lib/plugins/loader.js:285-313 | outside groups only the `master` level can refuse, and it refuses exactly non-masters |
| Gates.GroupRolePermission | lib/plugins/loader.js:297-310 | in a group, `owner` and `admin` are granted iff the member has that role, and a refusal carries the role's reply |
| Gates.UnknownLevelAdmits | lib/plugins/loader.js:285-313 | an unknown permission level admits everyone |
| Limits.CheckLimitStep | lib/plugins/loader.js:550-570 | the model of `checkLimit`; specified by Limits.CheckLimitShortCircuits, Limits.CheckLimitOnlyThrottles, Limits.ThrottleWindow and Limits.CheckLimitKeepsValid |
| Limits.SetLimitStep | lib/plugins/loader.js:573-586 | the model of `setLimit`; specified by the cooldown window and lift lemmas, Limits.CooldownsOffOnlyThrottle and Limits.SetLimitKeepsValid |
| Limits.Tick | lib/plugins/loader.js:567-584 | the event loop reaching a time, where every due `setTimeout` deletes its key; specified by Limits.Pending and Limits.TickKeepsValid |
| Limits.Delay | lib/plugins/loader.js:567-584 | the timer delay Node uses is within [1, 2^31-1] and equals the requested one when that is in range |
| Limits.Pending | lib/plugins/loader.js:567-584 | exactly the timers not yet due remain pending |
| Limits.ValidInitial | lib/plugins/loader.js:22-44 | the empty cooldown state is consistent |
| Limits.CheckLimitKeepsValid | lib/plugins/loader.js:550-570 | `checkLimit` keeps every cooldown key backed by a pending timer, with one throttle timer per key |
| Limits.SetLimitKeepsValid | lib/plugins/loader.js:573-586 | `setLimit` keeps the cooldown state consistent |
| Limits.TickKeepsValid | lib/plugins/loader.js:567-584 | firing due timers keeps the cooldown state consistent |
| Limits.CheckLimitShortCircuits | lib/plugins/loader.js:550-553 | a muted group member is always refused without change, and unlimited events always pass without change |
| Limits.CheckLimitOnlyThrottles | lib/plugins/loader.js:550-570 | `checkLimit` never touches the cooldown tables, changes nothing when it refuses, and starts the throttle of a passing limited event |
| Limits.ThrottleWindow | lib/plugins/loader.js:563-568 | a second limited message within the throttle window is refused, and the throttle is lifted once the window has passed |
| Limits.GroupCooldownWindow | lib/plugins/loader.js:577-580 | after a handled message, and with no older timer for the same key pending, the group cooldown holds and refuses events until its configured delay has passed |
| Limits.SingleCooldownWindow | lib/plugins/loader.js:581-585 | the same for the per-user cooldown |
| Limits.GroupCooldownLifts | lib/plugins/loader.js:577-580 | once its configured delay has passed, the group cooldown armed by `setLimit` is gone, whatever other timers are pending |
| Limits.SingleCooldownLifts | lib/plugins/loader.js:581-585 | the same for the member cooldown |
| Limits.CooldownsOffOnlyThrottle | lib/plugins/loader.js:550-586 | with both cooldowns off, an event passes iff it is not throttled, and `setLimit` changes nothing |
| Limits.EarlierTimerEndsRearmedCooldown | lib/plugins/loader.js:577-580 | re-arming a running cooldown does not cancel the earlier timer, which lifts the cooldown early |
| Dispatch.Admitted | lib/plugins/loader.js:187-194 | the admitted plugins are the constructed ones that pass `checkDisable` and `filtEvent`; construction fails iff some class constructor raises |
| Dispatch.PluginWithoutEventDropped | lib/plugins/loader.js:192 | a plugin with no event selector is never admitted |
| Dispatch.Instantiate | lib/plugins/loader.js:187-194 | the loop builds exactly the admitted plugins, in order |
| Dispatch.HookRet | lib/plugins/loader.js:204-206 | `ret \|\|= await plugin[fnc](...)` over one plugin's context hooks; specified by Dispatch.HookRetIsFirstTruthy |
| Dispatch.HookRetIsFirstTruthy | lib/plugins/loader.js:204-206 | `ret \|\|= hook()` yields the first truthy hook result, raises if a hook raises before one, or yields the last result |
| Dispatch.HookRetFrom | lib/plugins/loader.js:204-206 | the context hooks are called one by one until one returns a truthy result |
| Dispatch.ContextStage | lib/plugins/loader.js:196-210 | the context stage over the admitted plugins; specified by Dispatch.NoContextProceeds and Dispatch.ContextDecides |
| Dispatch.NoContextProceeds | lib/plugins/loader.js:196-210 | with no context hooks the pipeline goes on |
| Dispatch.ContextDecides | lib/plugins/loader.js:203-209 | the first plugin with context hooks decides: `continue` goes on to the next plugin, anything else ends the event |
| Dispatch.AcceptStage | lib/plugins/loader.js:230-236 | the `accept` stage; specified by Dispatch.AcceptSettledByFirstTruthy |
| Dispatch.AcceptSettledByFirstTruthy | lib/plugins/loader.js:231-236 | the first truthy `accept` result settles the stage: `return` ends the event, anything else goes on to the rules; a falsy result tries the next plugin |
| Dispatch.ContextHooks | lib/plugins/loader.js:196-210 | the loop computes the context stage's outcome |
| Dispatch.AcceptHooks | lib/plugins/loader.js:231-236 | the loop computes the accept stage's outcome |
| Dispatch.FirstWord | lib/plugins/loader.js:43 | the alternative picked is a non-empty listed word that prefixes the text, and none is picked only if none does |
| Dispatch.SrRunStops | lib/plugins/loader.js:43 | the greedy run of Star Rail words stops where no further word matches |
| Dispatch.SrMatch | lib/plugins/loader.js:43 | a match of the Star Rail pattern covers a non-empty prefix of the message |
| Dispatch.SrRewrite | lib/plugins/loader.js:225-228 | `msg.replace(srReg, "#星铁")`; specified by Dispatch.SrRewriteIdempotent and Dispatch.SrRewriteLeavesOthers |
| Dispatch.SrRewriteIdempotent | lib/plugins/loader.js:225-228 | a rewritten command starts with `#星铁`, still matches, and rewriting it again changes nothing |
| Dispatch.SrRewriteLeavesOthers | lib/plugins/loader.js:225-228 | a message that starts neither with `#` nor with a Star Rail word is left alone |
| Dispatch.RuleStep | lib/plugins/loader.js:240-265 | a rule that stops the scan reports its own plugin and rule position; a pattern that is not a valid regular expression stops the scan with a pattern fault, as the uncaught `new RegExp` throw ends `deal` |
| Dispatch.ScanRules | lib/plugins/loader.js:238-266 | the labelled rule loop from a position; specified by Dispatch.ScanRulesFirstStop and Dispatch.ScanRulesFindsFirst |
| Dispatch.ScanRulesFirstStop | lib/plugins/loader.js:238-266 | the scan's result is the first rule, in plugin and rule order, that stops it; if there is none, every rule was skipped |
| Dispatch.ScanRulesFindsFirst | lib/plugins/loader.js:238-266 | conversely, the first stopping rule is the scan's result |
| Dispatch.FalseResumesWithNextRule | lib/plugins/loader.js:255-260 | a handler returning `false` lets the scan go on with the next rule, or the next plugin after a plugin's last rule |
| Dispatch.MatchedRuleOutcome | lib/plugins/loader.js:252-264 | a permitted matching rule ends the scan as handled, unless its handler exists and returns `false`; a missing handler also ends it |
| Dispatch.PatternFaultEndsScan | lib/plugins/loader.js:244 | a rule that passes its event filter but whose pattern is not a valid regular expression ends the whole scan (and `deal`) with a pattern fault at that rule |
| Dispatch.DenialEndsScan | lib/plugins/loader.js:250 | a matching rule whose permission is refused ends the whole scan |
| Dispatch.MatchRules | lib/plugins/loader.js:238-266 | the nested loop computes the rule scan |
| Registry.Insert | lib/plugins/loader.js:103 | inserting adds exactly one element |
| Registry.Sort | lib/plugins/loader.js:103 | sorting is a permutation |
| Registry.InsertSorted | lib/plugins/loader.js:103 | inserting into a sorted list keeps it sorted |
| Registry.InsertStable | lib/plugins/loader.js:103 | insertion keeps the relative order of equal priorities |
| Registry.SortSpec | lib/plugins/loader.js:103 | `orderBy` on priority is sorted, a permutation, and stable: plugins of equal priority keep their load order |
| Registry.SortOfSorted | lib/plugins/loader.js:103 | sorting a sorted list changes nothing |
| Registry.CollectTasksSpec | lib/plugins/loader.js:527-531 | only tasks with both `cron` and `name` are collected; collection stops at the first null entry, and otherwise every such task is collected |
| Registry.LoadPluginStep | lib/plugins/loader.js:128-154 | the model of `loadPlugin`; specified by Registry.LoadPluginSpec |
| Registry.CollectTasks | lib/plugins/loader.js:527-531 | the model of `collectTask`, whose result is never longer than its input; specified by Registry.CollectTasksSpec |
| Registry.LoadPluginSpec | lib/plugins/loader.js:128-154 | a non-class export is skipped; each class is counted; an `init` returning `return` registers nothing; a loaded plugin is appended with its file key, name and priority, after its tasks; a failed load registers no plugin |
| Registry.LoadAllAppends | lib/plugins/loader.js:106-126 | importing a file only appends, to the plugin list and the task list, and every new entry carries the file's key |
| Registry.LoadStep | lib/plugins/loader.js:81-104 | the model of `load`; specified by Registry.LoadSorts, Registry.RefreshKeepsOldTasks and Registry.LoadAllAppends |
| Registry.LoadSorts | lib/plugins/loader.js:81-104 | after `load` the list is sorted, and once it holds a plugin a second `load` that is not a refresh does nothing (the early return on a non-empty list) |
| Registry.RefreshKeepsOldTasks | lib/plugins/loader.js:82-97 | a refresh resets the plugin list but keeps the tasks collected before |
| Registry.ImportFilesAppendsTasks | lib/plugins/loader.js:92-94 | importing files never loses a collected task |
| Registry.Retarget | lib/plugins/loader.js:648-652 | a reloaded class replaces the class and priority of the entries with the same file and name, and nothing else |
| Registry.RetargetAll | lib/plugins/loader.js:645-653 | the reload keeps the list's length and every entry's file and name |
| Registry.KeyNamesInsert | lib/plugins/loader.js:103 | insertion adds exactly one (file, name) pair |
| Registry.KeyNamesSort | lib/plugins/loader.js:654 | sorting keeps the (file, name) pairs |
| Registry.KeyNamesPointwise | lib/plugins/loader.js:648-652 | retargeting keeps the (file, name) pairs |
| Registry.ChangeStep | lib/plugins/loader.js:642-658 | the model of `changePlugin`; specified by Registry.ChangeKeepsEntries and Registry.RetargetOnlyKey |
| Registry.ChangeKeepsEntries | lib/plugins/loader.js:642-658 | `changePlugin` keeps the same plugins by file and name, and re-sorts after a complete reload |
| Registry.RetargetOnlyKey | lib/plugins/loader.js:649 | entries of other files are left alone |
| Registry.Remove | lib/plugins/loader.js:680 | unlinking removes exactly the entries of that file |
| Registry.RemoveConcat | lib/plugins/loader.js:680 | removal distributes over concatenation |
| Registry.RemoveAbsent | lib/plugins/loader.js:680 | removing a file with no entries changes nothing |
| Registry.RemoveKeepsSorted | lib/plugins/loader.js:680 | removal keeps the list sorted |
| Registry.AppsOfSpec | lib/plugins/loader.js:62-72 | every `.js` file of a plugin directory becomes a plugin file named `dir/app` and is watched |
| Registry.SelectPlugins | lib/plugins/loader.js:46-75 | the file selection of `getPlugins`; specified by Registry.SelectPluginsSpec and Registry.SelectPluginsWatches |
| Registry.SelectPluginsSpec | lib/plugins/loader.js:46-75 | a plugin file comes from a directory of the listing: its `index.js` when there is one, otherwise its `.js` apps |
| Registry.SelectPluginsWatches | lib/plugins/loader.js:62-72 | only the apps of directories without `index.js` are watched |
| Registry.WatchDirStep | lib/plugins/loader.js:686-707 | a directory gets one watcher; an existing one is kept |
| Registry.WatchStep | lib/plugins/loader.js:661-683 | watching a file registers its directory and its file key and keeps every existing watcher |
| Registry.WatchIdempotent | lib/plugins/loader.js:661-683 | watching twice is the same as watching once |
| Registry.FirstWatchListens | lib/plugins/loader.js:669-673 | a newly watched file listens for changes |
| Registry.FileKeyCollision | lib/plugins/loader.js:662-663 | a directory named `dir.app` shadows the file watcher of `app` in `dir`, which is never created |
| Registry.OnlineStep | lib/plugins/loader.js:690-705 | coming online arms the `add` handler of every directory watcher |
| Registry.UnlinkWatcherStep | lib/plugins/loader.js:676-681 | unlinking keeps the watcher keys |
| Registry.ReaddedFileNotReloaded | lib/plugins/loader.js:661-682 | a file unlinked and added again is not hot-reloaded any more |
| Registry.WatchAllConcat | lib/plugins/loader.js:62-72 | watching two lists in turn is watching their concatenation |
| Registry.WatchAllWatches | lib/plugins/loader.js:62-72 | watching a list keeps every existing watcher, registers each listed directory and file, and adds no other key |
| Registry.AddStep | lib/plugins/loader.js:690-705 | the `add` listener of `watchDir`; specified by Registry.AddSpec |
| Registry.AddSpec | lib/plugins/loader.js:690-705 | an added file is ignored before the watcher is online and when it is not `.js`; otherwise it is imported, the list stays sorted and keeps every old entry, and new entries come from that file |
| Sending.MsgArray.constructor | lib/plugins/loader.js:453-472 | the array holds the given items |
| Sending.Prefix | lib/plugins/loader.js:458-472 | the prefix has one quote segment when quoting a message with an id, and an `at` plus a newline when mentioning in a group |
| Sending.Payload | lib/plugins/loader.js:458-472 | the message `reply` sends after the prefix is put in front; Sending.AddPrefix is proved against it |
| Sending.PrefixSpec | lib/plugins/loader.js:458-472 | the quote comes before the mention; `at: true` mentions the sender; quoting without a message id is ignored; private chats are never mentioned |
| Sending.SendRoute | lib/plugins/loader.js:433-446 | the transport's own `e.reply` exactly when there is one; otherwise a group handle exactly in groups, the event's own handle only when it can send |
| Sending.SendValue | lib/plugins/loader.js:474-480 | a failed send yields `{ error: [err] }`, and a successful one its result |
| Sending.RecallPlan | lib/plugins/loader.js:482-495 | a recall is planned only for a positive delay and a sent message id; it recalls that message and, when there is one, the triggering message, after a valid timer delay |
| Sending.RecallDelay | lib/plugins/loader.js:482-488 | a group recall of `n` seconds fires after `n * 1000` ms |
| Sending.FailedSendNotRecalled | lib/plugins/loader.js:474-495 | a failed send is never recalled |
| Sending.CountTypes | lib/plugins/loader.js:502-507 | the `msg` total is always counted last, alone unless counting by type; when counting by type it is preceded by one `<type>:<segment type or "text">` entry per element, in order |
| Sending.Reply | lib/plugins/loader.js:453-499 | a falsy message returns `false`; otherwise the prefixed payload is sent, the array message gains the prefix in place, and the route, recall plan and counts follow from the payload and the send result |
| Sending.AddPrefix | lib/plugins/loader.js:458-472 | the payload is the prefix followed by the message, and an array message gains the prefix in place |
| Sending.Unshift | lib/plugins/loader.js:458-471 | the array becomes the quote, then the mention, then its old items |
| Sending.PeriodKeysSpec | lib/plugins/loader.js:509-524 | each period has its `total:` key and a `bot:`, `user:` or `group:` key for each id present |
| Sending.CountKeysSpec | lib/plugins/loader.js:509-524 | `saveCount` writes four keys per scope (day, month, year, total), all under `Yz:count:<type>:`: always the `total:` keys, and the `bot:`, `user:` and `group:` keys for each id present |
| Sending.AllPeriodKeysSpec | lib/plugins/loader.js:515-520 | each period gets a `total:` key and a `bot:`, `user:` and `group:` key for each id present |
| Sending.Counters.constructor | lib/plugins/loader.js:509-524 | the counter store starts empty |
| Sending.IncrAllCounts | lib/plugins/loader.js:509-524 | incrementing a list of keys raises each counter by the number of times its key occurs |
| Sending.SaveCount | lib/plugins/loader.js:509-524 | `saveCount` increments every count key once |
| Sending.IncrAllSnoc | lib/plugins/loader.js:509-524 | incrementing one more key is one more increment |
| Sending.SaveAllSnoc | lib/plugins/loader.js:502-507 | counting one more type is one more `saveCount` |
| Sending.SaveAllCounts | lib/plugins/loader.js:502-524 | after `count`, each counter has grown by the number of times the counted types name its key |
| Sending.Count | lib/plugins/loader.js:502-507 | `count` saves the counts of every type of the message, the total last |
| Loader.MessageValue | lib/plugins/loader.js:175 | the received message as `count` reads it: one element per segment whose type is the segment's type, read as `text` when empty; with no message it is `undefined`, which `count` still counts as one `text` element |
| Loader.Defs | lib/plugins/loader.js:188-189 | the classes are instantiated in list order |
| Loader.PluginsLoader.constructor | lib/plugins/loader.js:22-44 | the loader starts with no plugins, tasks, watchers or cooldowns, in a consistent state |
| Loader.PluginsLoader.CollectTask | lib/plugins/loader.js:527-531 | the collected tasks are appended, and nothing else changes |
| Loader.PluginsLoader.LoadPlugin | lib/plugins/loader.js:128-154 | the registry is updated as the load step says |
| Loader.PluginsLoader.ImportPlugin | lib/plugins/loader.js:106-126 | the registry is updated as the import step says; a failed import changes nothing |
| Loader.PluginsLoader.WatchDir | lib/plugins/loader.js:686-707 | the directory watcher is registered |
| Loader.PluginsLoader.Watch | lib/plugins/loader.js:661-683 | the file watcher is registered |
| Loader.PluginsLoader.GetPlugins | lib/plugins/loader.js:46-75 | returns the selected plugin files and watches every app it selected |
| Loader.PluginsLoader.WatchApps | lib/plugins/loader.js:62-72 | returns the apps of a directory and watches each of them |
| Loader.PluginsLoader.Load | lib/plugins/loader.js:81-104 | the registry is updated as the load step says; files are watched only when loading actually happens |
| Loader.PluginsLoader.ChangePlugin | lib/plugins/loader.js:642-658 | the plugin list is updated as the change step says; tasks, counters and watchers are untouched |
| Loader.PluginsLoader.RetargetEntries | lib/plugins/loader.js:648-652 | the loop retargets the matching entries in place |
| Loader.PluginsLoader.OnUnlink | lib/plugins/loader.js:676-681 | the change listener is dropped and the file's entries are removed |
| Loader.PluginsLoader.OnAdd | lib/plugins/loader.js:690-705 | the registry and watchers are updated as the add step says |
| Loader.PluginsLoader.OnOnline | lib/plugins/loader.js:690-691 | every directory watcher is armed |
| Loader.PluginsLoader.CheckLimit | lib/plugins/loader.js:550-570 | the cooldown state is updated as the check step says and stays consistent |
| Loader.PluginsLoader.SetLimit | lib/plugins/loader.js:573-586 | the cooldown state is updated as the set step says and stays consistent |
| Loader.PluginsLoader.Tick | lib/plugins/loader.js:567-584 | due timers fire, and the cooldown state stays consistent |
| Loader.PluginsLoader.Deal | lib/plugins/loader.js:174-267 | every message is counted on receipt; it is dropped iff black-listed, then iff on cooldown, and either way the event is left untouched; cooldowns are set iff a rule handled it; otherwise the stages run as Loader.Stages states |
| Loader.PluginsLoader.Gatekeep | lib/plugins/loader.js:177-266 | after counting: the event is dropped iff black-listed, then iff on cooldown, and either way the event is left untouched; a black-listed event leaves the cooldowns alone; cooldowns are set iff a rule handled it; otherwise the stages run as Loader.Stages states |
| Loader.Stages | lib/plugins/loader.js:181-266 | `dealEvent` raises iff `Normalise` reports a raise; once it succeeds, every field it assigns keeps the value `Normalise` gives it, apart from `msg`, which only the Star Rail rewrite may change later; a raising plugin constructor leaves `msg` and `game` as `dealEvent` left them; otherwise the stages run as Loader.AfterContext states |
| Loader.Admit | lib/plugins/loader.js:187-266 | construction raises iff some plugin constructor raises, and then leaves `msg` and `game` unchanged; otherwise the admitted plugins are those of `Admitted`, and the later stages run as Loader.AfterContext states; no field but `msg` and `game` changes |
| Loader.AfterContext | lib/plugins/loader.js:212-266 | the addressed gate, the Star Rail rewrite (setting the game to `sr`), the accept hooks and the rule scan, in order |

## Left out

- Dynamic `import()`, the shape of a plugin module (`apps` unwrapping) and `packageTips`: a module is given as a list of exports, or as a failed import.
- `createTask` and node-schedule: tasks are collected, but not scheduled or run.
- File-system and chokidar I/O: the directory listing, the modules and the file events are parameters and method calls.
- `initCfg`, which copies the default YAML files on start-up, and `getOther`/`getConfig`/`getdefSet`, which are thin wrappers around `getAllCfg`: the loader receives the merged settings as a value.
- `Runtime.init` and `Handler.add`: code outside these files.
- Logging, `logText`, `logFnc` and timing.
- The `Proxy` fallback of `Cfg` and `change_bot`.
- Redis and moment: the counter store is a map and the dates are a parameter.
- `count` is async and unawaited in `deal`, so its writes interleave with later stages. The model performs them in sequence.
- The actual send and the recall: the send outcome is a parameter, and recall is a planned value.
- Rule regular expressions: an abstract `Matcher`, which reports a pattern that `new RegExp` rejects as `None`. The Star Rail pattern is modelled concretely.
- JSON.stringify and YAML parsing: parameters.
- Numbers are integers. Fractions, exponents, hexadecimal and `Infinity` in `Number()` are treated as NaN.
- Objects are compared structurally, not by identity.
- Side effects of plugin handlers on the event: handlers are modelled by their outcome (returned false, other, raised, missing).
- The context-hook object merge: the context of a plugin is its list of hook calls.
- The segment object shape: segments are a datatype with the fields the loader reads.
- Loader.PluginsLoader.Deal: the refusal reply of `filtPermission` is reported in the `Denied` result and not sent.
- Sending.Reply: there is no `data` argument, only its `recallMsg` and `at` fields. With a `null` data and a non-empty message the destructuring at lib/plugins/loader.js:456 throws, and that throw is not modelled.
- Sending.Reply, Sending.AddPrefix: an array message must be given as `Many` (`ArraysInPlace`). A list value wrapped in `Single` would be nested in a new array, where the source unshifts into it.
- Concurrent imports: `load` and `importPlugin` run their imports with `Promise.allSettled` and push to `priority` as each settles. The model imports files and exports in listing order, so the "load order" kept by Registry.SortSpec for equal priorities is the listing order, not the settling order.
- Constructor arguments: `new i.class(e)` in `deal` receives the event, but the model has one class definition per plugin, used both at load time and in every `deal`. A constructor whose outcome depends on the event is not captured.
- Loader.PluginsLoader.constructor: `pluginCount` starts at 0 where the source leaves it undefined until the first `load`.
- Loader.PluginsLoader: `e.reply` is installed by `deal`; the model states it separately as Sending.Reply.
- Loader.PluginsLoader.Deal: a call runs to its end at one instant `now`. In the source, `setLimit` runs only after the awaited `Runtime.init`, the hooks, the accept stage and the handler. So the cooldowns arm only when the handler finishes, and events that arrive in the meantime still pass `checkLimit`. The model does not capture that window.
- Config.Uin: the order of `Object.keys` (integer-like bot ids ascending, then the other keys in insertion order) is not modelled; the result is a set.
- The `isSr` and `isGs` accessors that `deal` defines over `e.game`: they have no effect while handlers are modelled by their outcome. The model states `game` itself.
- Non-string rule `event` selectors, which would throw in `split`.
- Non-numeric plugin priorities.
