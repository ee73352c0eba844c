/** The loader's yes/no gates: the black and white lists (`checkBlack`), the
    per-group plugin switches (`checkDisable`), the "only answer when
    addressed" gate (`onlyReplyAt`), the event selectors of plugins and rules
    (`filtEvent`) and the permission levels of rules (`filtPermission`). */
module Gates {
  import opened Js
  import opened Config
  import opened Normalizer

  // ---------------------------------------------------------------------
  // checkBlack
  // ---------------------------------------------------------------------

  /** `list?.length && list.includes(id)` */
  predicate Listed(list: Value, id: Value) {
    ListHas(list, id)
  }

  /** `list?.length && !list.includes(id)`: a non-empty white list that lacks the id. */
  predicate Unlisted(list: Value, id: Value) {
    HasLength(list) && !Includes(list, id)
  }

  /** `checkBlack`: false when the sender or the group is black-listed, or a
      non-empty white list leaves them out. Ids are compared after
      `Number(id) || String(id)`; the group lists are consulted only for
      events with a (truthy) group id. */
  predicate CheckBlack(userId: Value, groupId: Value, other: map<string, Value>) {
    var o := Obj(other);
    var user := NumberOrString(userId);
    var group := NumberOrString(groupId);
    if Listed(Get(o, "blackUser"), user) then false
    else if Unlisted(Get(o, "whiteUser"), user) then false
    else if Truthy(groupId) then
      if Listed(Get(o, "blackGroup"), group) then false
      else !Unlisted(Get(o, "whiteGroup"), group)
    else true
  }

  /** The black list wins: a black-listed sender is rejected whatever the
      white lists say, and so is a black-listed group. */
  lemma BlackListWins(userId: Value, groupId: Value, other: map<string, Value>)
    ensures Listed(Get(Obj(other), "blackUser"), NumberOrString(userId)) ==> !CheckBlack(userId, groupId, other)
    ensures (Truthy(groupId) && Listed(Get(Obj(other), "blackGroup"), NumberOrString(groupId)))
      ==> !CheckBlack(userId, groupId, other)
  {
  }

  /** An event passes exactly when neither list of the sender objects and,
      for group events, neither list of the group objects. */
  lemma CheckBlackIff(userId: Value, groupId: Value, other: map<string, Value>)
    ensures var o := Obj(other);
      var user, group := NumberOrString(userId), NumberOrString(groupId);
      CheckBlack(userId, groupId, other) <==>
        && !Listed(Get(o, "blackUser"), user)
        && (!HasLength(Get(o, "whiteUser")) || Includes(Get(o, "whiteUser"), user))
        && (Truthy(groupId) ==>
              && !Listed(Get(o, "blackGroup"), group)
              && (!HasLength(Get(o, "whiteGroup")) || Includes(Get(o, "whiteGroup"), group)))
  {
  }

  /** A numeric id and its decimal spelling are treated alike. */
  lemma IdSpellingIrrelevant(n: int, groupId: Value, other: map<string, Value>)
    requires n != 0
    ensures CheckBlack(Str(IntToString(n)), groupId, other) == CheckBlack(Num(n), groupId, other)
    ensures CheckBlack(groupId, Str(IntToString(n)), other) == CheckBlack(groupId, Num(n), other)
  {
    NumberOrStringOfDecimal(n);
  }

  /** A list entry written as a quoted number never matches a numeric id:
      ids are normalised to numbers and `includes` does not coerce. */
  lemma QuotedEntryNeverMatches(n: int, groupId: Value, other: map<string, Value>)
    requires n != 0
    requires Get(Obj(other), "blackUser") == List([Str(IntToString(n))])
    requires !Truthy(groupId) && !HasLength(Get(Obj(other), "whiteUser"))
    ensures CheckBlack(Num(n), groupId, other)
    ensures CheckBlack(Str(IntToString(n)), groupId, other)
  {
    NumberOrStringOfDecimal(n);
    assert Num(n) !in [Str(IntToString(n))];
  }

  /** Without any list every event passes. */
  lemma NoListsAdmitAll(userId: Value, groupId: Value)
    ensures CheckBlack(userId, groupId, map[])
  {
  }

  // ---------------------------------------------------------------------
  // checkDisable
  // ---------------------------------------------------------------------

  /** `checkDisable`: a plugin whose name the group's `disable` list holds
      is off; with a non-empty `enable` list only the plugins it names are on. */
  predicate CheckDisable(name: Value, groupCfg: map<string, Value>) {
    var g := Obj(groupCfg);
    if Listed(Get(g, "disable"), name) then false
    else !Unlisted(Get(g, "enable"), name)
  }

  /** `disable` wins over `enable`; with an empty `disable` list a non-empty
      `enable` list decides alone; with both empty every plugin is on. */
  lemma CheckDisableIff(name: Value, groupCfg: map<string, Value>)
    ensures var g := Obj(groupCfg);
      Listed(Get(g, "disable"), name) ==> !CheckDisable(name, groupCfg)
    ensures var g := Obj(groupCfg);
      !HasLength(Get(g, "disable")) && HasLength(Get(g, "enable")) ==>
        (CheckDisable(name, groupCfg) <==> Includes(Get(g, "enable"), name))
    ensures var g := Obj(groupCfg);
      !HasLength(Get(g, "disable")) && !HasLength(Get(g, "enable")) ==> CheckDisable(name, groupCfg)
  {
  }

  // ---------------------------------------------------------------------
  // onlyReplyAt
  // ---------------------------------------------------------------------

  /** `onlyReplyAt`: in a group with bot aliases and a mode other than 0,
      only messages that mention the bot or start with an alias are
      answered; mode 2 exempts masters. */
  predicate OnlyReplyAt(e: Event, groupCfg: map<string, Value>)
    reads e`isPrivate, e`isMaster, e`atBot, e`hasAlias
  {
    var g := Obj(groupCfg);
    if e.message.None? || e.isPrivate then true
    else if LooseEq(Get(g, "onlyReplyAt"), Num(0)) || !Truthy(Get(g, "botAlias")) then true
    else if LooseEq(Get(g, "onlyReplyAt"), Num(2)) && e.isMaster then true
    else e.atBot || e.hasAlias
  }

  /** The gate only ever holds back group-or-other message events, and when it
      is armed it lets through exactly the addressed messages. */
  lemma OnlyReplyAtGate(e: Event, groupCfg: map<string, Value>)
    ensures e.message.None? || e.isPrivate ==> OnlyReplyAt(e, groupCfg)
    ensures e.atBot || e.hasAlias ==> OnlyReplyAt(e, groupCfg)
    ensures var g := Obj(groupCfg);
      e.message.Some? && !e.isPrivate && Truthy(Get(g, "botAlias"))
      && !LooseEq(Get(g, "onlyReplyAt"), Num(0))
      && !(LooseEq(Get(g, "onlyReplyAt"), Num(2)) && e.isMaster)
      ==> (OnlyReplyAt(e, groupCfg) <==> e.atBot || e.hasAlias)
  {
  }

  /** An unset mode is not mode 0: with aliases configured and no
      `onlyReplyAt` key, unaddressed group messages are ignored. Mode 2
      lets a master through unaddressed, mode 1 does not. */
  lemma OnlyReplyAtModes(e: Event, groupCfg: map<string, Value>)
    requires e.message.Some? && !e.isPrivate && !e.atBot && !e.hasAlias
    requires Truthy(Get(Obj(groupCfg), "botAlias"))
    ensures "onlyReplyAt" !in groupCfg ==> !OnlyReplyAt(e, groupCfg)
    ensures Get(Obj(groupCfg), "onlyReplyAt") == Num(1) ==> !OnlyReplyAt(e, groupCfg)
    ensures Get(Obj(groupCfg), "onlyReplyAt") == Num(2) ==> (OnlyReplyAt(e, groupCfg) <==> e.isMaster)
    ensures Get(Obj(groupCfg), "onlyReplyAt") == Num(0) ==> OnlyReplyAt(e, groupCfg)
  {
  }

  // ---------------------------------------------------------------------
  // filtEvent
  // ---------------------------------------------------------------------

  /** `eventMap[e.post_type]`: the event fields a selector's pieces name. */
  function EventMap(postType: Value): (names: seq<string>)
    ensures |names| == 0 || |names| == 3
  {
    match ToStr(postType)
    case "message" => ["post_type", "message_type", "sub_type"]
    case "notice" => ["post_type", "notice_type", "sub_type"]
    case "request" => ["post_type", "request_type", "sub_type"]
    case _ => []
  }

  /** `e[name]` for the fields a selector can name. */
  function Field(e: Event, name: string): Value
  {
    match name
    case "post_type" => e.post_type
    case "message_type" => e.message_type
    case "notice_type" => e.notice_type
    case "request_type" => e.request_type
    case "sub_type" => e.sub_type
    case _ => Undef
  }

  /** How `join` writes an element: undefined and null as "". */
  function JoinText(v: Value): string {
    if Nullish(v) then "" else ToStr(v)
  }

  /** The text the `i`-th piece of a selector is compared with. */
  function FieldText(e: Event, i: nat): string
  {
    var names := EventMap(e.post_type);
    JoinText(if i < |names| then Field(e, names[i]) else Undef)
  }

  /** The selector rebuilt from the event: wildcards kept, other pieces
      replaced by the field they stand for. */
  function Resolve(e: Event, parts: seq<string>): (r: seq<string>)
    ensures |r| == |parts|
    ensures forall i :: 0 <= i < |r| ==> r[i] == if parts[i] == "*" then "*" else FieldText(e, i)
  {
    seq(|parts|, i requires 0 <= i < |parts| => if parts[i] == "*" then "*" else FieldText(e, i))
  }

  /** `filtEvent(e, v)` for a selector `v.event` (None when absent). */
  predicate FiltEvent(e: Event, selector: Option<string>)
  {
    selector.Some? && selector.value != ""
    && Join(Resolve(e, Split(selector.value, '.')), '.') == selector.value
  }

  /** A piece of a selector matches when it is "*" or the event's field text. */
  predicate PieceMatches(e: Event, parts: seq<string>, i: nat)
    requires i < |parts|
  {
    parts[i] == "*" || parts[i] == FieldText(e, i)
  }

  /** A selector matches exactly when every piece matches, provided the
      event's field texts contain no '.'; pieces past the event's three
      fields match only when empty. */
  lemma {:induction false} FiltEventIff(e: Event, sel: string)
    requires sel != ""
    requires forall i :: 0 <= i < |Split(sel, '.')| ==> '.' !in FieldText(e, i)
    ensures var parts := Split(sel, '.');
      FiltEvent(e, Some(sel)) <==> forall i :: 0 <= i < |parts| ==> PieceMatches(e, parts, i)
  {
    var parts := Split(sel, '.');
    var r := Resolve(e, parts);
    JoinSplit(sel, '.');
    assert forall k :: 0 <= k < |r| ==> '.' !in r[k];
    JoinInjective(r, parts, '.');
    if forall i :: 0 <= i < |parts| ==> PieceMatches(e, parts, i) {
      forall i | 0 <= i < |parts| ensures r[i] == parts[i] {
        assert PieceMatches(e, parts, i);
      }
      assert r == parts;
    }
    if FiltEvent(e, Some(sel)) {
      assert r == parts;
      forall i | 0 <= i < |parts| ensures PieceMatches(e, parts, i) {
        assert r[i] == parts[i];
      }
    }
  }

  /** A selector made only of wildcards matches every event. */
  lemma {:induction false} WildcardsMatchAll(e: Event, sel: string)
    requires sel != ""
    requires forall i :: 0 <= i < |Split(sel, '.')| ==> Split(sel, '.')[i] == "*"
    ensures FiltEvent(e, Some(sel))
  {
    var parts := Split(sel, '.');
    assert Resolve(e, parts) == parts;
    JoinSplit(sel, '.');
  }

  /** A plugin or rule without a selector never matches `filtEvent`. */
  lemma NoSelectorNoMatch(e: Event)
    ensures !FiltEvent(e, None) && !FiltEvent(e, Some(""))
  {
  }

  // ---------------------------------------------------------------------
  // filtPermission
  // ---------------------------------------------------------------------

  /** The verdict of `filtPermission`: pass, refuse with the reply sent to
      the sender, or raise (a group event without a member handle). */
  datatype Permission = Permit | Deny(reply: string) | Fault

  const MasterOnly: string := "暂无权限，只有主人才能操作"
  const OwnerOnly: string := "暂无权限，只有群主才能操作"
  const AdminOnly: string := "暂无权限，只有管理员才能操作"

  /** `filtPermission(e, v)` for a rule's `permission`. */
  function FiltPermission(e: Event, permission: Value): Permission
    reads e`isMaster, e`isGroup
  {
    if LooseEq(permission, Str("all")) || !Truthy(permission) then Permit
    else if LooseEq(permission, Str("master")) then
      if e.isMaster then Permit else Deny(MasterOnly)
    else if e.isGroup && LooseEq(permission, Str("owner")) then
      if e.member.None? then Fault
      else if !Truthy(e.member.value.is_owner) then Deny(OwnerOnly) else Permit
    else if e.isGroup && LooseEq(permission, Str("admin")) then
      if e.member.None? then Fault
      else if !Truthy(e.member.value.is_admin) then Deny(AdminOnly) else Permit
    else Permit
  }

  /** "master" admits exactly the masters, in any chat. */
  lemma MasterPermission(e: Event)
    ensures FiltPermission(e, Str("master")) == Permit <==> e.isMaster
    ensures FiltPermission(e, Str("master")) != Permit ==> FiltPermission(e, Str("master")) == Deny(MasterOnly)
  {
  }

  /** Outside groups only the "master" level can refuse. */
  lemma OutsideGroupsOnlyMasterRefuses(e: Event, permission: Value)
    requires !e.isGroup
    ensures FiltPermission(e, permission) != Permit <==> LooseEq(permission, Str("master")) && !e.isMaster
  {
    MasterLevelExclusive(permission);
  }

  /** A level equal to "master" is truthy and not equal to "all". */
  lemma MasterLevelExclusive(level: Value)
    ensures LooseEq(level, Str("master")) ==> Truthy(level) && !LooseEq(level, Str("all"))
  {
    if level.Bool? || level.Num? {
      NumberIsNotMaster(level);
    } else if level.List? || level.Obj? {
      assert Primitive(level) == Str(ToStr(level));
    }
  }

  /** A number or boolean never equals "master": the word is not a numeral. */
  lemma NumberIsNotMaster(level: Value)
    requires level.Bool? || level.Num?
    ensures !LooseEq(level, Str("master"))
  {
    LevelsAreNaN();
    NumberIsNotWord(level, "master");
  }

  /** A number or boolean never equals a string that is not a numeral. */
  lemma NumberIsNotWord(level: Value, w: string)
    requires level.Bool? || level.Num?
    requires StringToNumber(w) == None
    ensures !LooseEq(level, Str(w))
  {
    assert Primitive(level).Num?;
  }

  /** The level names are not numerals, so `==` never confuses a number with
      one of them. */
  lemma LevelsAreNaN()
    ensures StringToNumber("all") == None && StringToNumber("master") == None
  {
    WordIsNaN("all");
    WordIsNaN("master");
  }

  /** A word of lower-case letters is not a numeral. */
  lemma WordIsNaN(w: string)
    requires w != [] && 'a' <= w[0] <= 'z' && 'a' <= w[|w| - 1] <= 'z'
    ensures StringToNumber(w) == None
  {
    TrimOfTrimmed(w);
  }

  /** In a group, "owner" and "admin" admit exactly the members with that
      role; being a master does not exempt from them. */
  lemma GroupRolePermission(e: Event)
    requires e.isGroup && e.member.Some?
    ensures FiltPermission(e, Str("owner")) == Permit <==> Truthy(e.member.value.is_owner)
    ensures FiltPermission(e, Str("admin")) == Permit <==> Truthy(e.member.value.is_admin)
    ensures FiltPermission(e, Str("owner")) != Permit ==> FiltPermission(e, Str("owner")) == Deny(OwnerOnly)
    ensures FiltPermission(e, Str("admin")) != Permit ==> FiltPermission(e, Str("admin")) == Deny(AdminOnly)
  {
  }

  /** An unknown level admits everyone. */
  lemma UnknownLevelAdmits(e: Event, level: string)
    requires level !in {"all", "master", "owner", "admin"}
    ensures FiltPermission(e, Str(level)) == Permit
  {
  }
}
