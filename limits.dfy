/** Cooldowns and the duplicate-message throttle of the loader (`checkLimit`,
    `setLimit`) as transitions of the three key tables. Each table is a set
    of keys (a JavaScript object whose values are all `true`); every entry is
    deleted by a timer, and the pending timers are kept as an explicit list
    that `Tick(now)` fires. */
module Limits {
  import opened Js
  import opened Normalizer

  datatype Table = GroupCD | SingleCD | Throttle

  /** A pending `setTimeout(() => delete table[key], ...)` due at `due` ms. */
  datatype Timer = Timer(table: Table, key: string, due: int)

  datatype LimitState = LimitState(groupCD: set<string>, singleCD: set<string>,
                                   msgThrottle: set<string>, timers: seq<Timer>)

  /** The largest delay Node's `setTimeout` accepts (2^31 - 1 ms). */
  const TimeoutMax: int := 2147483647

  /** How long the throttle holds a message key, in ms. */
  const ThrottleMs: int := 1000

  /** The delay `setTimeout` uses for a configured value: `Number(v)`, and 1
      when that is not in 1 .. 2^31-1. */
  function Delay(v: Value): (d: int)
    ensures 1 <= d <= TimeoutMax
    ensures ToNumber(v).Some? && 1 <= ToNumber(v).value <= TimeoutMax ==> d == ToNumber(v).value
  {
    match ToNumber(v)
    case Some(n) => if 1 <= n <= TimeoutMax then n else 1
    case None => 1
  }

  /** `e.group?.mute_left > 0` */
  predicate Muted(e: Event)
  {
    e.group.Some? && ToNumber(e.group.value.mute_left).Some? && ToNumber(e.group.value.mute_left).value > 0
  }

  /** The key of the group cooldown: the group id as a property name. */
  function GroupKey(e: Event): string
  {
    ToStr(e.group_id)
  }

  /** The key of the per-member cooldown, "group.user". */
  function SingleKey(e: Event): string
  {
    ToStr(e.group_id) + "." + ToStr(e.user_id)
  }

  /** The throttle key, "bot:user:raw message". */
  function ThrottleKey(e: Event): string
  {
    ToStr(e.self_id) + ":" + ToStr(e.user_id) + ":" + ToStr(e.raw_message)
  }

  /** The events the cooldowns and the throttle apply to. */
  predicate Limited(e: Event)
    reads e`isPrivate
  {
    e.message.Some? && !e.isPrivate
  }

  /** `checkLimit(e)`: the verdict and the new tables. A muted group rejects;
      events without a message and private chats pass; otherwise an active
      group or member cooldown, or the same message from the same sender
      within the last second, rejects, and a pass throttles the message. */
  function CheckLimitStep(e: Event, groupCfg: map<string, Value>, st: LimitState, now: int): (LimitState, bool)
    reads e`isGroup, e`isPrivate
  {
    var g := Obj(groupCfg);
    if e.isGroup && Muted(e) then (st, false)
    else if !Limited(e) then (st, true)
    else if Truthy(Get(g, "groupCD")) && GroupKey(e) in st.groupCD then (st, false)
    else if Truthy(Get(g, "singleCD")) && SingleKey(e) in st.singleCD then (st, false)
    else if ThrottleKey(e) in st.msgThrottle then (st, false)
    else
      var k := ThrottleKey(e);
      (st.(msgThrottle := st.msgThrottle + {k}, timers := st.timers + [Timer(Throttle, k, now + ThrottleMs)]), true)
  }

  /** `setLimit(e)`: arms the configured group and member cooldowns. */
  function SetLimitStep(e: Event, groupCfg: map<string, Value>, st: LimitState, now: int): LimitState
    reads e`isPrivate
  {
    var g := Obj(groupCfg);
    if !Limited(e) then st
    else
      var st1 := if Truthy(Get(g, "groupCD"))
        then st.(groupCD := st.groupCD + {GroupKey(e)},
                 timers := st.timers + [Timer(GroupCD, GroupKey(e), now + Delay(Get(g, "groupCD")))])
        else st;
      if Truthy(Get(g, "singleCD"))
        then st1.(singleCD := st1.singleCD + {SingleKey(e)},
                  timers := st1.timers + [Timer(SingleCD, SingleKey(e), now + Delay(Get(g, "singleCD")))])
        else st1
  }

  /** The timers still pending at `now`, in order. */
  function Pending(timers: seq<Timer>, now: int): (r: seq<Timer>)
    ensures forall t :: t in r <==> t in timers && t.due > now
    ensures |r| <= |timers|
  {
    if timers == [] then []
    else
      var rest := Pending(timers[1..], now);
      assert forall t :: t in timers <==> t == timers[0] || t in timers[1..];
      if timers[0].due > now then [timers[0]] + rest else rest
  }

  /** The keys of `table` whose timers are due at `now`. */
  function Expired(timers: seq<Timer>, table: Table, now: int): set<string> {
    set t | t in timers && t.table == table && t.due <= now :: t.key
  }

  /** The event loop reaching `now`: every due timer deletes its key. */
  function Tick(st: LimitState, now: int): LimitState {
    LimitState(st.groupCD - Expired(st.timers, GroupCD, now),
               st.singleCD - Expired(st.timers, SingleCD, now),
               st.msgThrottle - Expired(st.timers, Throttle, now),
               Pending(st.timers, now))
  }

  function Keys(st: LimitState, table: Table): set<string> {
    match table
    case GroupCD => st.groupCD
    case SingleCD => st.singleCD
    case Throttle => st.msgThrottle
  }

  /** Every key in a table has a timer that will delete it; every throttle
      timer belongs to a throttled key, and a throttled key has one timer. */
  predicate Valid(st: LimitState) {
    && (forall table, k :: k in Keys(st, table) ==>
          exists t :: t in st.timers && t.table == table && t.key == k)
    && (forall t :: t in st.timers && t.table == Throttle ==> t.key in st.msgThrottle)
    && (forall t, u :: (t in st.timers && u in st.timers && t.table == Throttle && u.table == Throttle
                        && t.key == u.key) ==> t == u)
  }

  lemma ValidInitial()
    ensures Valid(LimitState({}, {}, {}, []))
  {
  }

  lemma CheckLimitKeepsValid(e: Event, groupCfg: map<string, Value>, st: LimitState, now: int)
    requires Valid(st)
    ensures Valid(CheckLimitStep(e, groupCfg, st, now).0)
  {
    var st' := CheckLimitStep(e, groupCfg, st, now).0;
    if st' != st {
      var k := ThrottleKey(e);
      var nt := Timer(Throttle, k, now + ThrottleMs);
      assert st'.timers == st.timers + [nt];
      forall table, x | x in Keys(st', table)
        ensures exists t :: t in st'.timers && t.table == table && t.key == x
      {
        if table == Throttle && x == k {
          assert nt in st'.timers;
        } else {
          assert x in Keys(st, table);
          var t :| t in st.timers && t.table == table && t.key == x;
          assert t in st'.timers;
        }
      }
    }
  }

  lemma SetLimitKeepsValid(e: Event, groupCfg: map<string, Value>, st: LimitState, now: int)
    requires Valid(st)
    ensures Valid(SetLimitStep(e, groupCfg, st, now))
  {
    var st' := SetLimitStep(e, groupCfg, st, now);
    assert forall t :: t in st.timers ==> t in st'.timers;
    assert forall t :: t in st'.timers && t !in st.timers ==> t.table != Throttle;
    assert st'.msgThrottle == st.msgThrottle;
    forall table, x | x in Keys(st', table)
      ensures exists t :: t in st'.timers && t.table == table && t.key == x
    {
      if x in Keys(st, table) {
        var t :| t in st.timers && t.table == table && t.key == x;
        assert t in st'.timers;
      } else if table == GroupCD {
        var g := Obj(groupCfg);
        assert Timer(GroupCD, GroupKey(e), now + Delay(Get(g, "groupCD"))) in st'.timers;
      } else {
        var g := Obj(groupCfg);
        assert table == SingleCD;
        assert Timer(SingleCD, SingleKey(e), now + Delay(Get(g, "singleCD"))) in st'.timers;
      }
    }
  }

  lemma TickKeepsValid(st: LimitState, now: int)
    requires Valid(st)
    ensures Valid(Tick(st, now))
  {
    var st' := Tick(st, now);
    forall table, x | x in Keys(st', table)
      ensures exists t :: t in st'.timers && t.table == table && t.key == x
    {
      assert x in Keys(st, table) && x !in Expired(st.timers, table, now);
      var t :| t in st.timers && t.table == table && t.key == x;
      assert t.due > now;
      assert t in st'.timers;
    }
    forall t | t in st'.timers && t.table == Throttle
      ensures t.key in st'.msgThrottle
    {
      assert t in st.timers && t.due > now;
    }
  }

  // ---------------------------------------------------------------------
  // What the gates promise
  // ---------------------------------------------------------------------

  /** A muted group rejects without touching the tables; outside the limited
      events (no message, or a private chat) an unmuted event always passes. */
  lemma CheckLimitShortCircuits(e: Event, groupCfg: map<string, Value>, st: LimitState, now: int)
    ensures e.isGroup && Muted(e) ==> CheckLimitStep(e, groupCfg, st, now) == (st, false)
    ensures !(e.isGroup && Muted(e)) && !Limited(e) ==> CheckLimitStep(e, groupCfg, st, now) == (st, true)
  {
  }

  /** A rejection never changes the tables; a pass changes only the throttle. */
  lemma CheckLimitOnlyThrottles(e: Event, groupCfg: map<string, Value>, st: LimitState, now: int)
    ensures var (st', ok) := CheckLimitStep(e, groupCfg, st, now);
      && (!ok ==> st' == st)
      && st'.groupCD == st.groupCD && st'.singleCD == st.singleCD
      && (ok && !(e.isGroup && Muted(e)) && Limited(e) ==>
            ThrottleKey(e) !in st.msgThrottle && st'.msgThrottle == st.msgThrottle + {ThrottleKey(e)})
  {
  }

  /** The same message from the same sender is rejected for one second
      after it passed, and its throttle entry is gone afterwards. */
  lemma {:induction false} ThrottleWindow(e: Event, groupCfg: map<string, Value>, st: LimitState, now: int, later: int)
    requires Valid(st)
    requires Limited(e) && CheckLimitStep(e, groupCfg, st, now).1
    ensures later < now + ThrottleMs ==> !CheckLimitStep(e, groupCfg, Tick(CheckLimitStep(e, groupCfg, st, now).0, later), later).1
    ensures later >= now + ThrottleMs ==> ThrottleKey(e) !in Tick(CheckLimitStep(e, groupCfg, st, now).0, later).msgThrottle
  {
    var st1 := CheckLimitStep(e, groupCfg, st, now).0;
    var k := ThrottleKey(e);
    var nt := Timer(Throttle, k, now + ThrottleMs);
    assert k !in st.msgThrottle;
    assert st1.timers == st.timers + [nt] && k in st1.msgThrottle;
    if later < now + ThrottleMs {
      assert k in Tick(st1, later).msgThrottle;
    } else {
      assert nt in st1.timers;
      assert k in Expired(st1.timers, Throttle, later);
    }
  }

  /** A cooldown armed by `setLimit` rejects the group (or member) until its
      delay has passed, provided no older timer for the same key is pending. */
  lemma {:induction false} GroupCooldownWindow(e: Event, groupCfg: map<string, Value>, st: LimitState, now: int, later: int)
    requires Limited(e) && Truthy(Get(Obj(groupCfg), "groupCD"))
    requires forall t :: t in st.timers && t.table == GroupCD ==> t.key != GroupKey(e)
    requires later < now + Delay(Get(Obj(groupCfg), "groupCD"))
    ensures GroupKey(e) in Tick(SetLimitStep(e, groupCfg, st, now), later).groupCD
    ensures !(e.isGroup && Muted(e)) ==> !CheckLimitStep(e, groupCfg, Tick(SetLimitStep(e, groupCfg, st, now), later), later).1
  {
    var st1 := SetLimitStep(e, groupCfg, st, now);
    var k := GroupKey(e);
    assert k in st1.groupCD;
  }

  lemma {:induction false} SingleCooldownWindow(e: Event, groupCfg: map<string, Value>, st: LimitState, now: int, later: int)
    requires Limited(e) && Truthy(Get(Obj(groupCfg), "singleCD"))
    requires forall t :: t in st.timers && t.table == SingleCD ==> t.key != SingleKey(e)
    requires later < now + Delay(Get(Obj(groupCfg), "singleCD"))
    ensures SingleKey(e) in Tick(SetLimitStep(e, groupCfg, st, now), later).singleCD
    ensures !(e.isGroup && Muted(e)) ==> !CheckLimitStep(e, groupCfg, Tick(SetLimitStep(e, groupCfg, st, now), later), later).1
  {
    var st1 := SetLimitStep(e, groupCfg, st, now);
    var k := SingleKey(e);
    assert k in st1.singleCD;
  }

  /** Once its delay has passed, the group cooldown armed by `setLimit` is
      gone, whatever other timers are pending. */
  lemma {:induction false} GroupCooldownLifts(e: Event, groupCfg: map<string, Value>, st: LimitState, now: int, later: int)
    requires Limited(e) && Truthy(Get(Obj(groupCfg), "groupCD"))
    requires later >= now + Delay(Get(Obj(groupCfg), "groupCD"))
    ensures GroupKey(e) !in Tick(SetLimitStep(e, groupCfg, st, now), later).groupCD
  {
    var st1 := SetLimitStep(e, groupCfg, st, now);
    var t := Timer(GroupCD, GroupKey(e), now + Delay(Get(Obj(groupCfg), "groupCD")));
    assert t in st1.timers;
    assert GroupKey(e) in Expired(st1.timers, GroupCD, later);
  }

  /** Once its delay has passed, the member cooldown armed by `setLimit` is
      gone, whatever other timers are pending. */
  lemma {:induction false} SingleCooldownLifts(e: Event, groupCfg: map<string, Value>, st: LimitState, now: int, later: int)
    requires Limited(e) && Truthy(Get(Obj(groupCfg), "singleCD"))
    requires later >= now + Delay(Get(Obj(groupCfg), "singleCD"))
    ensures SingleKey(e) !in Tick(SetLimitStep(e, groupCfg, st, now), later).singleCD
  {
    var st1 := SetLimitStep(e, groupCfg, st, now);
    var t := Timer(SingleCD, SingleKey(e), now + Delay(Get(Obj(groupCfg), "singleCD")));
    assert t in st1.timers;
    assert SingleKey(e) in Expired(st1.timers, SingleCD, later);
  }

  /** A cooldown is checked only while it is configured: with `groupCD` and
      `singleCD` off, only the throttle can reject an unmuted message. */
  lemma CooldownsOffOnlyThrottle(e: Event, groupCfg: map<string, Value>, st: LimitState, now: int)
    requires !Truthy(Get(Obj(groupCfg), "groupCD")) && !Truthy(Get(Obj(groupCfg), "singleCD"))
    requires !(e.isGroup && Muted(e))
    ensures CheckLimitStep(e, groupCfg, st, now).1 <==> !Limited(e) || ThrottleKey(e) !in st.msgThrottle
    ensures SetLimitStep(e, groupCfg, st, now) == st
  {
  }

  /** A re-armed cooldown is cut short: the older timer for the same key
      deletes the entry although the newer cooldown has not run out. */
  lemma {:induction false} EarlierTimerEndsRearmedCooldown(e: Event, groupCfg: map<string, Value>, st: LimitState,
                                                          now: int, old_due: int)
    requires Limited(e) && Truthy(Get(Obj(groupCfg), "groupCD"))
    requires Timer(GroupCD, GroupKey(e), old_due) in st.timers
    requires now <= old_due
    ensures GroupKey(e) !in Tick(SetLimitStep(e, groupCfg, st, now), old_due).groupCD
    ensures now + Delay(Get(Obj(groupCfg), "groupCD")) > old_due ==>
              Timer(GroupCD, GroupKey(e), now + Delay(Get(Obj(groupCfg), "groupCD")))
                in Tick(SetLimitStep(e, groupCfg, st, now), old_due).timers
  {
    var st1 := SetLimitStep(e, groupCfg, st, now);
    var k := GroupKey(e);
    assert Timer(GroupCD, k, old_due) in st1.timers;
    assert k in Expired(st1.timers, GroupCD, old_due);
    assert Timer(GroupCD, k, now + Delay(Get(Obj(groupCfg), "groupCD"))) in st1.timers;
  }
}
