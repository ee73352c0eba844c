/** The stages of `deal` after normalisation: one plugin instance per
    registered class with the per-plugin pre-filter, the context-hook stage,
    the `srReg` rewrite of Star Rail commands, the `accept` stage and the
    labelled rule-matching loop `a:` with its permission gate. */
module Dispatch {
  import opened Js
  import opened Normalizer
  import opened Gates

  // ---------------------------------------------------------------------
  // Plugin instances
  // ---------------------------------------------------------------------

  /** How a call to a context hook ends. */
  datatype HookCall = HookReturns(v: Value) | HookThrows

  /** How a rule's handler ends: `false`, any other value, or an exception. */
  datatype Outcome = ReturnedFalse | ReturnedOther | Threw

  /** What `plugin.init()` does; NoInit when the plugin has none. */
  datatype Init = NoInit | InitReturns(v: Value) | InitThrows

  /** A rule: its pattern, handler name, optional selector and permission. */
  datatype Rule = Rule(reg: string, fnc: string, event: Option<string>, permission: Value)

  /** A plugin instance: what `new p` yields. `context` lists the hook calls
      of the merged `getContext()` results (None when the plugin has no
      `getContext`), `accept` the result of `accept(e)`, and `methods` the
      outcome of each handler the plugin defines. */
  datatype Instance = Instance(name: Value, priority: int, event: Option<string>, task: Value, init: Init,
                               context: Option<seq<HookCall>>, accept: Option<HookCall>,
                               rule: seq<Rule>, methods: map<string, Outcome>)

  /** A plugin class: `new p` either raises or builds an instance. */
  datatype ClassDef = ConstructorThrows | Builds(inst: Instance)

  // ---------------------------------------------------------------------
  // Pre-filter
  // ---------------------------------------------------------------------

  /** `checkDisable(p) && filtEvent(e, p)` */
  predicate Keep(e: Event, groupCfg: map<string, Value>, p: Instance)
  {
    CheckDisable(p.name, groupCfg) && FiltEvent(e, p.event)
  }

  /** The instances `deal` keeps, in registry order; None when a
      constructor raises. */
  function Admitted(e: Event, groupCfg: map<string, Value>, defs: seq<ClassDef>): (r: Option<seq<Instance>>)
    ensures r.None? <==> ConstructorThrows in defs
    ensures r.Some? ==> forall p :: p in r.value <==> Builds(p) in defs && Keep(e, groupCfg, p)
    ensures r.Some? ==> |r.value| <= |defs|
  {
    if defs == [] then Some([])
    else
      var init := defs[..|defs| - 1];
      var last := defs[|defs| - 1];
      assert defs == init + [last];
      match Admitted(e, groupCfg, init)
      case None => None
      case Some(ps) =>
        match last
        case ConstructorThrows => None
        case Builds(p) => Some(if Keep(e, groupCfg, p) then ps + [p] else ps)
  }

  /** A plugin without an event selector never reaches the later stages. */
  lemma PluginWithoutEventDropped(e: Event, groupCfg: map<string, Value>, defs: seq<ClassDef>, p: Instance)
    requires p.event.None?
    requires Admitted(e, groupCfg, defs).Some?
    ensures p !in Admitted(e, groupCfg, defs).value
  {
  }

  /** The pre-filter loop of `deal`. */
  method Instantiate(e: Event, groupCfg: map<string, Value>, defs: seq<ClassDef>) returns (r: Option<seq<Instance>>)
    ensures r == Admitted(e, groupCfg, defs)
  {
    var kept: seq<Instance> := [];
    for k := 0 to |defs|
      invariant Admitted(e, groupCfg, defs[..k]) == Some(kept)
    {
      assert defs[..k + 1][..k] == defs[..k];
      match defs[k] {
        case ConstructorThrows =>
          return None;
        case Builds(p) =>
          if CheckDisable(p.name, groupCfg) && FiltEvent(e, p.event) {
            kept := kept + [p];
          }
      }
    }
    assert defs[..|defs|] == defs;
    r := Some(kept);
  }

  // ---------------------------------------------------------------------
  // Context and accept stages
  // ---------------------------------------------------------------------

  /** Whether a stage lets `deal` go on, ends it quietly, or raised. */
  datatype Stage = Proceed | Ended | Raised

  /** `for (fnc in context) ret ||= await plugin[fnc](...)`: once a hook has
      returned a truthy value the later hooks are not called. None when a
      called hook raised. */
  function HookRet(hooks: seq<HookCall>, ret: Value): Option<Value> {
    if hooks == [] || Truthy(ret) then Some(ret)
    else match hooks[0]
      case HookThrows => None
      case HookReturns(v) => HookRet(hooks[1..], v)
  }

  /** The hooks `||=` actually calls: up to and including the first truthy return. */
  predicate CalledBeforeTruthy(hooks: seq<HookCall>, k: nat)
    requires k <= |hooks|
  {
    forall i :: 0 <= i < k ==> hooks[i].HookReturns? && !Truthy(hooks[i].v)
  }

  /** The hook result is the first truthy return when no earlier hook raised,
      and the last return when none is truthy. */
  lemma {:induction false} HookRetIsFirstTruthy(hooks: seq<HookCall>, k: nat)
    requires k < |hooks| && CalledBeforeTruthy(hooks, k)
    ensures hooks[k].HookReturns? && Truthy(hooks[k].v) ==> HookRet(hooks, Undef) == Some(hooks[k].v)
    ensures hooks[k].HookThrows? ==> HookRet(hooks, Undef).None?
    ensures k == |hooks| - 1 && hooks[k].HookReturns? ==> HookRet(hooks, Undef) == Some(hooks[k].v)
  {
    HookRetFrom(hooks, Undef, k);
  }

  lemma {:induction false} HookRetFrom(hooks: seq<HookCall>, ret: Value, k: nat)
    requires k < |hooks| && CalledBeforeTruthy(hooks, k) && !Truthy(ret)
    ensures HookRet(hooks, ret) == HookRet(hooks[k..], if k == 0 then ret else hooks[k - 1].v)
    ensures HookRet(hooks[k..], if k == 0 then ret else hooks[k - 1].v) ==
              match hooks[k]
              case HookThrows => None
              case HookReturns(v) => HookRet(hooks[k + 1..], v)
    decreases k
  {
    if k > 0 {
      assert hooks[1..][k - 1..] == hooks[k..];
      assert CalledBeforeTruthy(hooks[1..], k - 1) by {
        forall i | 0 <= i < k - 1 ensures hooks[1..][i].HookReturns? && !Truthy(hooks[1..][i].v) {
          assert hooks[1..][i] == hooks[i + 1];
        }
      }
      HookRetFrom(hooks[1..], hooks[0].v, k - 1);
      assert hooks[1..][k - 1] == hooks[k];
      assert hooks[1..][k - 1 + 1..] == hooks[k + 1..];
    }
  }

  /** The context-hook stage: the first plugin with a non-empty context
      decides, unless its hooks answer "continue". */
  function ContextStage(ps: seq<Instance>): Stage {
    if ps == [] then Proceed
    else if ps[0].context.None? || ps[0].context.value == [] then ContextStage(ps[1..])
    else match HookRet(ps[0].context.value, Undef)
      case None => Raised
      case Some(r) => if LooseEq(r, Str("continue")) then ContextStage(ps[1..]) else Ended
  }

  /** Without pending contexts the stage always lets the event through. */
  lemma {:induction false} NoContextProceeds(ps: seq<Instance>)
    requires forall i :: 0 <= i < |ps| ==> ps[i].context.None? || ps[i].context.value == []
    ensures ContextStage(ps) == Proceed
  {
    if ps != [] {
      assert forall i :: 0 <= i < |ps[1..]| ==> ps[1..][i] == ps[i + 1];
      NoContextProceeds(ps[1..]);
    }
  }

  /** A plugin whose hooks answer anything but "continue" ends `deal`, and
      the later plugins' hooks are not consulted. */
  lemma ContextDecides(rest: seq<Instance>, p: Instance)
    requires p.context.Some? && p.context.value != []
    requires HookRet(p.context.value, Undef).Some?
    ensures LooseEq(HookRet(p.context.value, Undef).value, Str("continue")) ==>
              ContextStage([p] + rest) == ContextStage(rest)
    ensures !LooseEq(HookRet(p.context.value, Undef).value, Str("continue")) ==>
              ContextStage([p] + rest) == Ended
  {
    assert ([p] + rest)[1..] == rest;
  }

  /** The accept stage: "return" ends `deal`, another truthy answer stops
      the stage, and a falsy one asks the next plugin. */
  function AcceptStage(ps: seq<Instance>): Stage {
    if ps == [] then Proceed
    else match ps[0].accept
      case None => AcceptStage(ps[1..])
      case Some(HookThrows) => Raised
      case Some(HookReturns(v)) =>
        if LooseEq(v, Str("return")) then Ended
        else if Truthy(v) then Proceed
        else AcceptStage(ps[1..])
  }

  /** `accept` answers are consulted in order: the first plugin that answers
      truthily settles the stage. */
  lemma AcceptSettledByFirstTruthy(p: Instance, rest: seq<Instance>, v: Value)
    requires p.accept == Some(HookReturns(v))
    ensures Truthy(v) ==> AcceptStage([p] + rest) == if LooseEq(v, Str("return")) then Ended else Proceed
    ensures !Truthy(v) && !LooseEq(v, Str("return")) ==> AcceptStage([p] + rest) == AcceptStage(rest)
  {
    assert ([p] + rest)[1..] == rest;
  }

  /** The context loop of `deal`. */
  method ContextHooks(ps: seq<Instance>) returns (r: Stage)
    ensures r == ContextStage(ps)
  {
    for k := 0 to |ps|
      invariant ContextStage(ps) == ContextStage(ps[k..])
    {
      assert ps[k..][1..] == ps[k + 1..];
      var p := ps[k];
      if p.context.Some? && p.context.value != [] {
        var hooks := p.context.value;
        var ret: Value := Undef;
        var i := 0;
        while i < |hooks|
          invariant 0 <= i <= |hooks|
          invariant HookRet(hooks, Undef) == HookRet(hooks[i..], ret)
        {
          assert hooks[i..][1..] == hooks[i + 1..];
          if !Truthy(ret) {
            match hooks[i] {
              case HookThrows => return Raised;
              case HookReturns(v) => ret := v;
            }
          }
          i := i + 1;
        }
        if !LooseEq(ret, Str("continue")) {
          return Ended;
        }
      }
    }
    r := Proceed;
  }

  /** The accept loop of `deal`. */
  method AcceptHooks(ps: seq<Instance>) returns (r: Stage)
    ensures r == AcceptStage(ps)
  {
    for k := 0 to |ps|
      invariant AcceptStage(ps) == AcceptStage(ps[k..])
    {
      assert ps[k..][1..] == ps[k + 1..];
      match ps[k].accept {
        case None =>
        case Some(HookThrows) => return Raised;
        case Some(HookReturns(v)) =>
          if LooseEq(v, Str("return")) {
            return Ended;
          }
          if Truthy(v) {
            return Proceed;
          }
      }
    }
    r := Proceed;
  }

  // ---------------------------------------------------------------------
  // The srReg rewrite
  // ---------------------------------------------------------------------

  /** The alternatives of `srReg`, in the order the pattern lists them. */
  const SrWords: seq<string> := ["*", "星铁", "星轨", "穹轨", "星穹", "崩铁", "星穹铁道", "崩坏星穹铁道", "铁道"]

  /** The first alternative, in pattern order, that starts `s`. */
  function FirstWord(s: string, words: seq<string>): (r: Option<string>)
    ensures r.Some? ==> r.value in words && StartsWith(s, r.value) && r.value != []
    ensures r.None? ==> forall w :: w in words && w != [] ==> !StartsWith(s, w)
  {
    if words == [] then None
    else if words[0] != [] && StartsWith(s, words[0]) then Some(words[0])
    else FirstWord(s, words[1..])
  }

  /** The length the greedy group `(...)+` consumes at the start of `s`. */
  function SrRun(s: string): (n: nat)
    ensures n <= |s|
    decreases |s|
  {
    match FirstWord(s, SrWords)
    case None => 0
    case Some(w) => |w| + SrRun(s[|w|..])
  }

  /** Where the run stops, no alternative starts. */
  lemma {:induction false} SrRunStops(s: string)
    ensures FirstWord(s[SrRun(s)..], SrWords).None?
    decreases |s|
  {
    match FirstWord(s, SrWords) {
      case None =>
      case Some(w) =>
        SrRunStops(s[|w|..]);
        assert s[|w|..][SrRun(s[|w|..])..] == s[SrRun(s)..];
    }
  }

  /** The length of the prefix `srReg` matches, None when it does not. */
  function SrMatch(msg: string): (r: Option<nat>)
    ensures r.Some? ==> 0 < r.value <= |msg|
  {
    var h := if msg != [] && msg[0] == '#' then 1 else 0;
    var n := SrRun(msg[h..]);
    if n == 0 then None else Some(h + n)
  }

  /** `msg.replace(srReg, "#星铁")` */
  function SrRewrite(msg: string): string {
    match SrMatch(msg)
    case None => msg
    case Some(k) => "#星铁" + msg[k..]
  }

  /** A Star Rail command is rewritten to start with "#星铁" followed by
      what follows the whole run of prefixes, and a second rewrite changes
      nothing. */
  lemma {:induction false} SrRewriteIdempotent(msg: string)
    requires SrMatch(msg).Some?
    ensures StartsWith(SrRewrite(msg), "#星铁")
    ensures SrMatch(SrRewrite(msg)).Some?
    ensures SrRewrite(SrRewrite(msg)) == SrRewrite(msg)
  {
    var rest := SrRewriteStops(msg);
    var r := "#星铁" + rest;
    MarkedRewrite(rest);
    assert r[3..] == rest;
  }

  /** After a rewrite, no alternative starts what follows "#星铁". */
  lemma SrRewriteStops(msg: string) returns (rest: string)
    requires SrMatch(msg).Some?
    ensures SrRewrite(msg) == "#星铁" + rest
    ensures FirstWord(rest, SrWords).None?
  {
    var h := if msg != [] && msg[0] == '#' then 1 else 0;
    rest := msg[SrMatch(msg).value..];
    SrRunStops(msg[h..]);
    assert msg[h..][SrRun(msg[h..])..] == rest;
  }

  /** "#星铁" followed by a text no alternative starts matches in full. */
  lemma MarkedRewrite(rest: string)
    requires FirstWord(rest, SrWords).None?
    ensures SrMatch("#星铁" + rest) == Some(3)
  {
    var r := "#星铁" + rest;
    assert r[1..] == "星铁" + rest;
    var x := "星铁" + rest;
    assert x[0] == '星' && x[..2] == "星铁";
    assert !StartsWith(x, SrWords[0]);
    assert SrWords[1..][0] == "星铁";
    assert FirstWord(x, SrWords) == FirstWord(x, SrWords[1..]) == Some("星铁");
    assert x[2..] == rest;
    assert SrRun(rest) == 0;
    assert SrRun(x) == 2;
  }

  /** Messages without a leading "#", "*" or Star Rail word are left alone. */
  lemma SrRewriteLeavesOthers(msg: string)
    requires msg == [] || (msg[0] != '#' && FirstWord(msg, SrWords).None?)
    ensures SrMatch(msg).None? && SrRewrite(msg) == msg
  {
    assert msg[0..] == msg;
  }

  // ---------------------------------------------------------------------
  // The rule stage
  // ---------------------------------------------------------------------

  /** How the rule loop ends: no rule consumed the event, a rule's pattern
      was not a valid regular expression (so `new RegExp` raised), a
      permission was refused (with the reply sent), the permission check
      raised, a handler consumed the event, or a handler raised. Positions
      are (plugin, rule). */
  datatype RuleResult =
    | NoMatch
    | PatternFault(plugin: nat, rule: nat)
    | Denied(plugin: nat, rule: nat, reply: string)
    | PermissionFault(plugin: nat, rule: nat)
    | Handled(plugin: nat, rule: nat)
    | HandlerThrew(plugin: nat, rule: nat)

  /** One rule: skipped, or the end of the loop. */
  datatype Step = Skip | Stop(result: RuleResult)

  /** `new RegExp(reg).test(text)`: None when `reg` is not a valid
      pattern and the constructor raises, else whether `text` matches. */
  type Matcher = (string, string) -> Option<bool>

  /** The text `new RegExp(v.reg).test(e.msg)` is applied to. */
  function MsgText(e: Event): string
    reads e`msg
  {
    if e.msg.Some? then e.msg.value else "undefined"
  }

  /** One iteration of the inner loop of `a:`. */
  function RuleStep(e: Event, ps: seq<Instance>, i: nat, j: nat, matches: Matcher): (s: Step)
    reads e`msg, e`isMaster, e`isGroup
    requires i < |ps| && j < |ps[i].rule|
    ensures s.Stop? ==> s.result != NoMatch && s.result.plugin == i && s.result.rule == j
  {
    var v := ps[i].rule[j];
    if v.event.Some? && v.event.value != "" && !FiltEvent(e, v.event) then Skip
    else match matches(v.reg, MsgText(e))
      case None => Stop(PatternFault(i, j))
      case Some(hit) =>
        if !hit then Skip
        else match FiltPermission(e, v.permission)
          case Deny(m) => Stop(Denied(i, j, m))
          case Fault => Stop(PermissionFault(i, j))
          case Permit =>
            if v.fnc !in ps[i].methods then Stop(Handled(i, j))
            else match ps[i].methods[v.fnc]
              case ReturnedFalse => Skip
              case ReturnedOther => Stop(Handled(i, j))
              case Threw => Stop(HandlerThrew(i, j))
  }

  predicate IsRule(ps: seq<Instance>, i: nat, j: nat) {
    i < |ps| && j < |ps[i].rule|
  }

  /** Position (i, j) comes at or after (i0, j0) in scan order. */
  predicate AtOrAfter(i0: nat, j0: nat, i: nat, j: nat) {
    i > i0 || (i == i0 && j >= j0)
  }

  /** Position (i, j) comes strictly before (i1, j1) in scan order. */
  predicate Before(i: nat, j: nat, i1: nat, j1: nat) {
    i < i1 || (i == i1 && j < j1)
  }

  /** The loop `a:` from rule j of plugin i on. */
  function ScanRules(e: Event, ps: seq<Instance>, i: nat, j: nat, matches: Matcher): RuleResult
    reads e`msg, e`isMaster, e`isGroup
    requires i <= |ps|
    decreases |ps| - i, if i < |ps| then |ps[i].rule| - j else 0
  {
    if i == |ps| then NoMatch
    else if j >= |ps[i].rule| then ScanRules(e, ps, i + 1, 0, matches)
    else match RuleStep(e, ps, i, j, matches)
      case Skip => ScanRules(e, ps, i, j + 1, matches)
      case Stop(r) => r
  }

  /** Every rule from (i0, j0) up to, not including, (i1, j1) skips. */
  ghost predicate AllSkip(e: Event, ps: seq<Instance>, i0: nat, j0: nat, i1: nat, j1: nat, matches: Matcher)
    reads e`msg, e`isMaster, e`isGroup
  {
    forall i, j :: IsRule(ps, i, j) && AtOrAfter(i0, j0, i, j) && Before(i, j, i1, j1) ==>
      RuleStep(e, ps, i, j, matches) == Skip
  }

  /** A skipping rule extends a skipping range backwards by one rule. */
  lemma AllSkipStep(e: Event, ps: seq<Instance>, i0: nat, j0: nat, i1: nat, j1: nat, matches: Matcher)
    requires IsRule(ps, i0, j0) && RuleStep(e, ps, i0, j0, matches) == Skip
    requires AllSkip(e, ps, i0, j0 + 1, i1, j1, matches)
    ensures AllSkip(e, ps, i0, j0, i1, j1, matches)
  {
    forall i, j | IsRule(ps, i, j) && AtOrAfter(i0, j0, i, j) && Before(i, j, i1, j1)
      ensures RuleStep(e, ps, i, j, matches) == Skip
    {
      if i != i0 || j != j0 {
        assert AtOrAfter(i0, j0 + 1, i, j);
      }
    }
  }

  /** Past a plugin's last rule the range goes on with the next plugin. */
  lemma AllSkipNext(e: Event, ps: seq<Instance>, i0: nat, j0: nat, i1: nat, j1: nat, matches: Matcher)
    requires i0 < |ps| && j0 >= |ps[i0].rule|
    requires AllSkip(e, ps, i0 + 1, 0, i1, j1, matches)
    ensures AllSkip(e, ps, i0, j0, i1, j1, matches)
  {
    forall i, j | IsRule(ps, i, j) && AtOrAfter(i0, j0, i, j) && Before(i, j, i1, j1)
      ensures RuleStep(e, ps, i, j, matches) == Skip
    {
      assert AtOrAfter(i0 + 1, 0, i, j);
    }
  }

  /** The loop from (i0, j0) ends at the first rule, in plugin order and
      then rule order, that does not skip; NoMatch when every rule skips. */
  ghost predicate FirstStop(e: Event, ps: seq<Instance>, i0: nat, j0: nat, matches: Matcher)
    reads e`msg, e`isMaster, e`isGroup
    requires i0 <= |ps|
  {
    var r := ScanRules(e, ps, i0, j0, matches);
    && (r != NoMatch ==>
          && IsRule(ps, r.plugin, r.rule) && AtOrAfter(i0, j0, r.plugin, r.rule)
          && RuleStep(e, ps, r.plugin, r.rule, matches) == Stop(r)
          && AllSkip(e, ps, i0, j0, r.plugin, r.rule, matches))
    && (r == NoMatch ==> AllSkip(e, ps, i0, j0, |ps|, 0, matches))
  }

  /** The loop ends at the first rule, in plugin order and then rule order,
      that does not skip; NoMatch when every rule skips. */
  lemma {:induction false} ScanRulesFirstStop(e: Event, ps: seq<Instance>, i0: nat, j0: nat,
                                              matches: Matcher)
    requires i0 <= |ps|
    ensures var r := ScanRules(e, ps, i0, j0, matches);
      r != NoMatch ==>
        && IsRule(ps, r.plugin, r.rule) && AtOrAfter(i0, j0, r.plugin, r.rule)
        && RuleStep(e, ps, r.plugin, r.rule, matches) == Stop(r)
        && AllSkip(e, ps, i0, j0, r.plugin, r.rule, matches)
    ensures ScanRules(e, ps, i0, j0, matches) == NoMatch ==> AllSkip(e, ps, i0, j0, |ps|, 0, matches)
    decreases |ps| - i0, if i0 < |ps| then |ps[i0].rule| - j0 else 0
  {
    if i0 == |ps| {
      assert FirstStop(e, ps, i0, j0, matches);
    } else if j0 >= |ps[i0].rule| {
      ScanRulesFirstStop(e, ps, i0 + 1, 0, matches);
      FirstStopNext(e, ps, i0, j0, matches);
    } else if RuleStep(e, ps, i0, j0, matches) == Skip {
      ScanRulesFirstStop(e, ps, i0, j0 + 1, matches);
      FirstStopSkip(e, ps, i0, j0, matches);
    } else {
      FirstStopHere(e, ps, i0, j0, matches);
    }
  }

  /** Past a plugin's last rule, the first stop is the next plugin's. */
  lemma FirstStopNext(e: Event, ps: seq<Instance>, i0: nat, j0: nat, matches: Matcher)
    requires i0 < |ps| && j0 >= |ps[i0].rule|
    requires FirstStop(e, ps, i0 + 1, 0, matches)
    ensures FirstStop(e, ps, i0, j0, matches)
  {
    var r := ScanRules(e, ps, i0, j0, matches);
    if r != NoMatch {
      AllSkipNext(e, ps, i0, j0, r.plugin, r.rule, matches);
    } else {
      AllSkipNext(e, ps, i0, j0, |ps|, 0, matches);
    }
  }

  /** A skipping rule leaves the first stop to the rules after it. */
  lemma FirstStopSkip(e: Event, ps: seq<Instance>, i0: nat, j0: nat, matches: Matcher)
    requires IsRule(ps, i0, j0) && RuleStep(e, ps, i0, j0, matches) == Skip
    requires FirstStop(e, ps, i0, j0 + 1, matches)
    ensures FirstStop(e, ps, i0, j0, matches)
  {
    var r := ScanRules(e, ps, i0, j0, matches);
    assert r == ScanRules(e, ps, i0, j0 + 1, matches);
    if r != NoMatch {
      AllSkipStep(e, ps, i0, j0, r.plugin, r.rule, matches);
    } else {
      AllSkipStep(e, ps, i0, j0, |ps|, 0, matches);
    }
  }

  /** A rule that does not skip is the first stop from itself. */
  lemma FirstStopHere(e: Event, ps: seq<Instance>, i0: nat, j0: nat, matches: Matcher)
    requires IsRule(ps, i0, j0) && RuleStep(e, ps, i0, j0, matches).Stop?
    ensures FirstStop(e, ps, i0, j0, matches)
  {
    assert ScanRules(e, ps, i0, j0, matches) == RuleStep(e, ps, i0, j0, matches).result;
  }

  /** Conversely, a rule that does not skip, with every earlier rule
      skipping, is where the loop ends. */
  lemma ScanRulesFindsFirst(e: Event, ps: seq<Instance>, i: nat, j: nat, matches: Matcher)
    requires IsRule(ps, i, j) && RuleStep(e, ps, i, j, matches).Stop?
    requires forall i', j' :: IsRule(ps, i', j') && Before(i', j', i, j) ==> RuleStep(e, ps, i', j', matches) == Skip
    ensures ScanRules(e, ps, 0, 0, matches) == RuleStep(e, ps, i, j, matches).result
  {
    ScanRulesFirstStop(e, ps, 0, 0, matches);
    var r := ScanRules(e, ps, 0, 0, matches);
    assert r != NoMatch;
    if Before(r.plugin, r.rule, i, j) {
    } else if Before(i, j, r.plugin, r.rule) {
    } else {
      assert r.plugin == i && r.rule == j;
    }
  }

  /** A handler returning `false` passes the event on to the same plugin's
      next rule, and past the plugin's last rule to the next plugin. */
  lemma FalseResumesWithNextRule(e: Event, ps: seq<Instance>, i: nat, j: nat, matches: Matcher)
    requires IsRule(ps, i, j)
    requires RuleStep(e, ps, i, j, matches) == Skip
    ensures ScanRules(e, ps, i, j, matches) == ScanRules(e, ps, i, j + 1, matches)
    ensures j + 1 == |ps[i].rule| ==> ScanRules(e, ps, i, j, matches) == ScanRules(e, ps, i + 1, 0, matches)
  {
  }

  /** When a matching, permitted rule's handler is missing, the event counts
      as handled; a `false` from the handler is the only way to skip it. */
  lemma MatchedRuleOutcome(e: Event, ps: seq<Instance>, i: nat, j: nat, matches: Matcher)
    requires IsRule(ps, i, j)
    requires var v := ps[i].rule[j];
      (v.event.None? || v.event.value == "" || FiltEvent(e, v.event)) && matches(v.reg, MsgText(e)) == Some(true)
    requires FiltPermission(e, ps[i].rule[j].permission) == Permit
    ensures ps[i].rule[j].fnc !in ps[i].methods ==> RuleStep(e, ps, i, j, matches) == Stop(Handled(i, j))
    ensures RuleStep(e, ps, i, j, matches) == Skip <==>
              ps[i].rule[j].fnc in ps[i].methods && ps[i].methods[ps[i].rule[j].fnc] == ReturnedFalse
  {
  }

  /** A refused permission ends the loop with the refusal reply, whatever
      the later rules and plugins would do. */
  lemma DenialEndsScan(e: Event, ps: seq<Instance>, i: nat, j: nat, matches: Matcher)
    requires IsRule(ps, i, j)
    requires var v := ps[i].rule[j];
      (v.event.None? || v.event.value == "" || FiltEvent(e, v.event)) && matches(v.reg, MsgText(e)) == Some(true)
    requires FiltPermission(e, ps[i].rule[j].permission).Deny?
    ensures ScanRules(e, ps, i, j, matches) == Denied(i, j, FiltPermission(e, ps[i].rule[j].permission).reply)
  {
  }

  /** A rule whose pattern is not a valid regular expression ends the loop
      (and `deal`) as soon as the loop reaches it with its event filter
      passed, whatever the later rules and plugins would do. */
  lemma PatternFaultEndsScan(e: Event, ps: seq<Instance>, i: nat, j: nat, matches: Matcher)
    requires IsRule(ps, i, j)
    requires var v := ps[i].rule[j];
      (v.event.None? || v.event.value == "" || FiltEvent(e, v.event)) && matches(v.reg, MsgText(e)).None?
    ensures ScanRules(e, ps, i, j, matches) == PatternFault(i, j)
  {
  }

  /** The labelled loop `a:` of `deal`. */
  method MatchRules(e: Event, ps: seq<Instance>, matches: Matcher) returns (r: RuleResult)
    ensures r == ScanRules(e, ps, 0, 0, matches)
  {
    var i := 0;
    r := NoMatch;
    label a: while i < |ps|
      invariant 0 <= i <= |ps|
      invariant ScanRules(e, ps, 0, 0, matches) == ScanRules(e, ps, i, 0, matches)
    {
      var j := 0;
      while j < |ps[i].rule|
        invariant 0 <= j <= |ps[i].rule|
        invariant ScanRules(e, ps, 0, 0, matches) == ScanRules(e, ps, i, j, matches)
      {
        var step := RuleStep(e, ps, i, j, matches);
        if step.Stop? {
          r := step.result;
          break a;
        }
        j := j + 1;
      }
      i := i + 1;
    }
  }
}
