/** The reply function the loader installs on every event (`e.reply`), and
    the usage counters of `count` and `saveCount`. The transport's send and
    recall calls and the counter store are outside: a send is a function
    from the payload to its outcome, a recall is returned as a plan, and the
    store is the `Counters` object whose map `saveCount` increments. */
module Sending {
  import opened Js
  import opened Normalizer
  import opened Limits

  // ---------------------------------------------------------------------
  // The payload
  // ---------------------------------------------------------------------

  /** A message array: the caller keeps a reference to it, and `unshift`
      changes it in place. */
  class MsgArray {
    var items: seq<Value>

    constructor (items: seq<Value>)
      ensures this.items == items
    {
      this.items := items;
    }
  }

  /** A message: one element (a string or a segment), or an array. An array
      is always passed as `Many`, so that it can be changed in place. */
  datatype Msg = Single(v: Value) | Many(arr: MsgArray)

  /** Arrays are given as `Many`, never as a `Single` list value. */
  predicate ArraysInPlace(msg: Msg) {
    msg.Single? ==> !msg.v.List?
  }

  /** `segment.at(qq)` */
  function AtSegment(qq: Value): Value {
    Obj(map["type" := Str("at"), "qq" := qq])
  }

  /** `segment.reply(id)` */
  function ReplySegment(id: Value): Value {
    Obj(map["type" := Str("reply"), "id" := id])
  }

  /** Whom an `at` option mentions: `true` stands for the sender. */
  function AtTarget(e: Event, at: Value): Value
  {
    if at == Bool(true) then e.user_id else at
  }

  /** The mention `reply` adds in groups: the target, then a line break. */
  function Mention(e: Event, at: Value): seq<Value>
    reads e`isGroup
  {
    if Truthy(at) && e.isGroup then [AtSegment(AtTarget(e, at)), Str("\n")] else []
  }

  /** The quote of the event's own message `reply` adds when asked. */
  function Quoted(e: Event, quote: Value): seq<Value>
  {
    if Truthy(quote) && Truthy(e.message_id) then [ReplySegment(e.message_id)] else []
  }

  /** What `reply` puts in front of the message: the quoted message first,
      then the mention and a line break. */
  function Prefix(e: Event, at: Value, quote: Value): (r: seq<Value>)
    reads e`isGroup
    ensures |r| == (if Truthy(quote) && Truthy(e.message_id) then 1 else 0) + (if Truthy(at) && e.isGroup then 2 else 0)
  {
    Quoted(e, quote) + Mention(e, at)
  }

  /** The payload `reply` sends: the prefix in front of the array's items,
      or in front of the single element (which stays as it is when there
      is nothing to put in front). */
  function Payload(prefix: seq<Value>, items: Option<seq<Value>>, single: Value): Value {
    if items.Some? then List(prefix + items.value)
    else if prefix == [] then single
    else List(prefix + [single])
  }

  /** A mention is added only in groups, names the sender for `at: true`,
      and comes after a quote. */
  lemma PrefixSpec(e: Event, at: Value, quote: Value)
    ensures !e.isGroup && !(Truthy(quote) && Truthy(e.message_id)) ==> Prefix(e, at, quote) == []
    ensures e.isGroup && at == Bool(true) && !Truthy(quote) ==> Prefix(e, at, quote) == [AtSegment(e.user_id), Str("\n")]
    ensures e.isGroup && Truthy(at) && Truthy(quote) && Truthy(e.message_id) ==>
              Prefix(e, at, quote) == [ReplySegment(e.message_id), AtSegment(AtTarget(e, at)), Str("\n")]
    ensures Truthy(quote) && !Truthy(e.message_id) ==> Prefix(e, at, quote) == Prefix(e, at, Bool(false))
  {
  }

  // ---------------------------------------------------------------------
  // Sending and recalling
  // ---------------------------------------------------------------------

  /** How the transport's send ends. */
  datatype SendOutcome = Sent(res: Value) | SendFailed(err: Value)

  /** Which send `reply` uses: the transport's own `e.reply`, the group or
      friend handle's `sendMsg`, or a handle picked from the bot. */
  datatype Route = Adapter | GroupHandle | PickGroup | FriendHandle | PickFriend

  function SendRoute(e: Event): (r: Route)
    reads e`isGroup
    ensures r == Adapter <==> e.hasReply
    ensures !e.hasReply ==> (r == GroupHandle || r == PickGroup <==> e.isGroup)
    ensures r == GroupHandle ==> e.group.Some? && e.group.value.canSendMsg
    ensures r == FriendHandle ==> e.friend.Some? && e.friend.value.canSendMsg
  {
    if e.hasReply then Adapter
    else if e.isGroup then (if e.group.Some? && e.group.value.canSendMsg then GroupHandle else PickGroup)
    else if e.friend.Some? && e.friend.value.canSendMsg then FriendHandle else PickFriend
  }

  /** What `reply` returns for a send: its result, or `{error: [err]}`. */
  function SendValue(o: SendOutcome): (r: Value)
    ensures o.SendFailed? ==> r == Obj(map["error" := List([o.err])])
    ensures o.Sent? ==> r == o.res
  {
    match o
    case Sent(res) => res
    case SendFailed(err) => Obj(map["error" := List([err])])
  }

  datatype RecallVia = ViaGroupHandle | ViaFriendHandle

  /** A scheduled recall: which handle, after how many ms, of which messages. */
  datatype Recall = Recall(via: RecallVia, delay: int, ids: seq<Value>)

  /** `recallMsg > 0 && res?.message_id`, then the group handle's or else
      the friend handle's `recallMsg`: the sent message, then the event's own. */
  function RecallPlan(e: Event, recallMsg: Value, res: Value): (r: Option<Recall>)
    ensures r.Some? ==> ToNumber(recallMsg).Some? && ToNumber(recallMsg).value > 0 && Truthy(Get(res, "message_id"))
    ensures r.Some? ==> 1 <= |r.value.ids| <= 2 && r.value.ids[0] == Get(res, "message_id")
    ensures r.Some? ==> (|r.value.ids| == 2 <==> Truthy(e.message_id))
    ensures r.Some? ==> 1 <= r.value.delay <= TimeoutMax
  {
    var n := ToNumber(recallMsg);
    if n.None? || n.value <= 0 || !Truthy(Get(res, "message_id")) then None
    else
      var ids := [Get(res, "message_id")] + (if Truthy(e.message_id) then [e.message_id] else []);
      var delay := Delay(Num(n.value * 1000));
      if e.group.Some? && e.group.value.canRecall then Some(Recall(ViaGroupHandle, delay, ids))
      else if e.friend.Some? && e.friend.value.canRecall then Some(Recall(ViaFriendHandle, delay, ids))
      else None
  }

  /** A recall of up to 2147483 seconds fires after exactly that many seconds. */
  lemma RecallDelay(e: Event, n: int, res: Value)
    requires 0 < n <= 2147483 && Truthy(Get(res, "message_id"))
    requires e.group.Some? && e.group.value.canRecall
    ensures RecallPlan(e, Num(n), res).Some? && RecallPlan(e, Num(n), res).value.delay == n * 1000
  {
  }

  /** A failed send has no `message_id`, so it is never recalled. */
  lemma FailedSendNotRecalled(e: Event, recallMsg: Value, err: Value)
    ensures RecallPlan(e, recallMsg, SendValue(SendFailed(err))).None?
  {
  }

  // ---------------------------------------------------------------------
  // count
  // ---------------------------------------------------------------------

  /** `i?.type || "text"` */
  function TypeName(i: Value): string {
    var t := Get(i, "type");
    if Truthy(t) then ToStr(t) else "text"
  }

  /** The counter types `count(e, type, msg)` saves, in order: one per
      element when message types are counted, then "<type>:msg". */
  function CountTypes(kind: string, msg: Value, byType: bool): (r: seq<string>)
    ensures |r| >= 1 && r[|r| - 1] == kind + ":msg"
    ensures !byType ==> r == [kind + ":msg"]
    ensures byType ==> |r| == 1 + (if msg.List? then |msg.items| else 1)
    ensures byType ==> forall i :: 0 <= i < |r| - 1 ==>
              r[i] == kind + ":" + TypeName((if msg.List? then msg.items else [msg])[i])
  {
    var items := if msg.List? then msg.items else [msg];
    (if byType then seq(|items|, i requires 0 <= i < |items| => kind + ":" + TypeName(items[i])) else [])
    + [kind + ":msg"]
  }

  // ---------------------------------------------------------------------
  // reply
  // ---------------------------------------------------------------------

  /** What one call of `e.reply` did: its return value, the send route used,
      the recall scheduled, and the counter types saved. */
  datatype ReplyResult = ReplyResult(ret: Value, route: Option<Route>, recall: Option<Recall>, counted: seq<string>)

  /** `e.reply(msg, quote, {recallMsg, at})`. An empty message returns false
      and sends nothing; otherwise the prefix is put in front (in place for
      an array), the payload sent, a recall scheduled, and the send counted. */
  method Reply(e: Event, msg: Msg, quote: Value, recallOpt: Value, atOpt: Value,
               send: Value -> SendOutcome, countByType: bool) returns (out: ReplyResult, payload: Value)
    requires ArraysInPlace(msg)
    modifies if msg.Many? then {msg.arr} else {}
    ensures msg.Single? && !Truthy(msg.v) ==> out == ReplyResult(Bool(false), None, None, []) && payload == msg.v
    ensures !(msg.Single? && !Truthy(msg.v)) ==>
      var prefix := Prefix(e, if atOpt.Undef? then Str("") else atOpt, quote);
      && payload == Payload(prefix, if msg.Many? then Some(old(msg.arr.items)) else None,
                            if msg.Single? then msg.v else Undef)
      && (msg.Many? ==> msg.arr.items == prefix + old(msg.arr.items))
      && out.ret == SendValue(send(payload))
      && out.route == Some(SendRoute(e))
      && out.recall == RecallPlan(e, if recallOpt.Undef? then Num(0) else recallOpt, out.ret)
      && out.counted == CountTypes("send", payload, countByType)
  {
    if msg.Single? && !Truthy(msg.v) {
      return ReplyResult(Bool(false), None, None, []), msg.v;
    }
    var recallMsg := if recallOpt.Undef? then Num(0) else recallOpt;
    var at := if atOpt.Undef? then Str("") else atOpt;
    payload := AddPrefix(e, msg, at, quote);
    var res := SendValue(send(payload));
    out := ReplyResult(res, Some(SendRoute(e)), RecallPlan(e, recallMsg, res), CountTypes("send", payload, countByType));
  }

  /** The mention, then the quote, put in front of the message. */
  method AddPrefix(e: Event, msg: Msg, at: Value, quote: Value) returns (payload: Value)
    requires ArraysInPlace(msg)
    modifies if msg.Many? then {msg.arr} else {}
    ensures payload == Payload(Prefix(e, at, quote), if msg.Many? then Some(old(msg.arr.items)) else None,
                               if msg.Single? then msg.v else Undef)
    ensures msg.Many? ==> msg.arr.items == Prefix(e, at, quote) + old(msg.arr.items)
  {
    var mention := Mention(e, at);
    var quoted := Quoted(e, quote);
    if msg.Many? {
      Unshift(msg.arr, mention, quoted);
      payload := List(msg.arr.items);
    } else if mention == [] && quoted == [] {
      payload := msg.v;
    } else {
      var arr := new MsgArray([msg.v]);
      Unshift(arr, mention, quoted);
      payload := List(arr.items);
    }
  }

  /** `unshift` of the mention, then of the quote: the quote ends up first. */
  method Unshift(arr: MsgArray, mention: seq<Value>, quoted: seq<Value>)
    modifies arr
    ensures arr.items == quoted + mention + old(arr.items)
  {
    if mention != [] {
      arr.items := mention + arr.items;
    }
    if quoted != [] {
      arr.items := quoted + arr.items;
    }
  }

  // ---------------------------------------------------------------------
  // saveCount
  // ---------------------------------------------------------------------

  /** The date strings `saveCount` formats: "YYYY:MM:DD", "YYYY:MM", "YYYY". */
  datatype Dates = Dates(day: string, month: string, year: string)

  function Periods(d: Dates): seq<string> {
    [d.day, d.month, d.year, "total"]
  }

  /** The keys of one period: always the total, then the bot, user and
      group present on the event. */
  function PeriodKeys(self: Value, user: Value, group: Value, p: string): seq<string> {
    ["total:" + p]
    + (if Truthy(self) then ["bot:" + ToStr(self) + ":" + p] else [])
    + (if Truthy(user) then ["user:" + ToStr(user) + ":" + p] else [])
    + (if Truthy(group) then ["group:" + ToStr(group) + ":" + p] else [])
  }

  function AllPeriodKeys(self: Value, user: Value, group: Value, ps: seq<string>): seq<string> {
    if ps == [] then [] else PeriodKeys(self, user, group, ps[0]) + AllPeriodKeys(self, user, group, ps[1..])
  }

  /** Every counter key of one type starts with this. */
  function KeyPrefix(kind: string): string {
    "Yz:count:" + kind + ":"
  }

  /** The redis keys `saveCount(e, type)` increments, in order. */
  function CountKeys(kind: string, self: Value, user: Value, group: Value, d: Dates): seq<string> {
    Prefixed(KeyPrefix(kind), AllPeriodKeys(self, user, group, Periods(d)))
  }

  /** Each string of `raw`, behind `pre`. */
  function Prefixed(pre: string, raw: seq<string>): (r: seq<string>)
    ensures |r| == |raw|
  {
    seq(|raw|, i requires 0 <= i < |raw| => pre + raw[i])
  }

  lemma PrefixedMembers(pre: string, raw: seq<string>)
    ensures forall s :: s in raw ==> pre + s in Prefixed(pre, raw)
    ensures forall k :: k in Prefixed(pre, raw) ==> StartsWith(k, pre)
  {
    var keys := Prefixed(pre, raw);
    forall s | s in raw ensures pre + s in keys {
      var i :| 0 <= i < |raw| && raw[i] == s;
      assert keys[i] == pre + s;
    }
    forall k | k in keys ensures StartsWith(k, pre) {
      var i :| 0 <= i < |keys| && keys[i] == k;
      assert k[..|pre|] == pre;
    }
  }

  /** Every period gets its total key and one key per id present, each
      under the "Yz:count:<type>:" prefix. */
  lemma {:induction false} CountKeysSpec(kind: string, self: Value, user: Value, group: Value, d: Dates)
    ensures var n := 1 + (if Truthy(self) then 1 else 0) + (if Truthy(user) then 1 else 0) + (if Truthy(group) then 1 else 0);
      |CountKeys(kind, self, user, group, d)| == 4 * n
    ensures forall k :: k in CountKeys(kind, self, user, group, d) ==> StartsWith(k, KeyPrefix(kind))
    ensures forall p :: p in Periods(d) ==> KeyPrefix(kind) + ("total:" + p) in CountKeys(kind, self, user, group, d)
    ensures Truthy(self) ==> forall p :: p in Periods(d) ==>
              KeyPrefix(kind) + ("bot:" + ToStr(self) + ":" + p) in CountKeys(kind, self, user, group, d)
    ensures Truthy(user) ==> forall p :: p in Periods(d) ==>
              KeyPrefix(kind) + ("user:" + ToStr(user) + ":" + p) in CountKeys(kind, self, user, group, d)
    ensures Truthy(group) ==> forall p :: p in Periods(d) ==>
              KeyPrefix(kind) + ("group:" + ToStr(group) + ":" + p) in CountKeys(kind, self, user, group, d)
  {
    AllPeriodKeysSpec(self, user, group, Periods(d));
    PrefixedMembers(KeyPrefix(kind), AllPeriodKeys(self, user, group, Periods(d)));
  }

  /** One period: its total key and a key per id present. */
  lemma PeriodKeysSpec(self: Value, user: Value, group: Value, p: string)
    ensures var n := 1 + (if Truthy(self) then 1 else 0) + (if Truthy(user) then 1 else 0) + (if Truthy(group) then 1 else 0);
      |PeriodKeys(self, user, group, p)| == n
    ensures "total:" + p in PeriodKeys(self, user, group, p)
    ensures Truthy(self) ==> "bot:" + ToStr(self) + ":" + p in PeriodKeys(self, user, group, p)
    ensures Truthy(user) ==> "user:" + ToStr(user) + ":" + p in PeriodKeys(self, user, group, p)
    ensures Truthy(group) ==> "group:" + ToStr(group) + ":" + p in PeriodKeys(self, user, group, p)
  {
    var own := PeriodKeys(self, user, group, p);
    var b := if Truthy(self) then 1 else 0;
    var u := if Truthy(user) then 1 else 0;
    assert own[0] == "total:" + p;
    if Truthy(self) {
      assert own[1] == "bot:" + ToStr(self) + ":" + p;
    }
    if Truthy(user) {
      assert own[1 + b] == "user:" + ToStr(user) + ":" + p;
    }
    if Truthy(group) {
      assert own[1 + b + u] == "group:" + ToStr(group) + ":" + p;
    }
  }

  lemma AllPeriodKeysSpec(self: Value, user: Value, group: Value, ps: seq<string>)
    ensures var n := 1 + (if Truthy(self) then 1 else 0) + (if Truthy(user) then 1 else 0) + (if Truthy(group) then 1 else 0);
      |AllPeriodKeys(self, user, group, ps)| == |ps| * n
    ensures forall p :: p in ps ==> "total:" + p in AllPeriodKeys(self, user, group, ps)
    ensures Truthy(self) ==> forall p :: p in ps ==> "bot:" + ToStr(self) + ":" + p in AllPeriodKeys(self, user, group, ps)
    ensures Truthy(user) ==> forall p :: p in ps ==> "user:" + ToStr(user) + ":" + p in AllPeriodKeys(self, user, group, ps)
    ensures Truthy(group) ==> forall p :: p in ps ==> "group:" + ToStr(group) + ":" + p in AllPeriodKeys(self, user, group, ps)
  {
    AllPeriodKeysLength(self, user, group, ps);
    forall p | p in ps
      ensures "total:" + p in AllPeriodKeys(self, user, group, ps)
      ensures Truthy(self) ==> "bot:" + ToStr(self) + ":" + p in AllPeriodKeys(self, user, group, ps)
      ensures Truthy(user) ==> "user:" + ToStr(user) + ":" + p in AllPeriodKeys(self, user, group, ps)
      ensures Truthy(group) ==> "group:" + ToStr(group) + ":" + p in AllPeriodKeys(self, user, group, ps)
    {
      PeriodKeysSpec(self, user, group, p);
      PeriodKeyIncluded(self, user, group, ps, p, "total:" + p);
      if Truthy(self) {
        PeriodKeyIncluded(self, user, group, ps, p, "bot:" + ToStr(self) + ":" + p);
      }
      if Truthy(user) {
        PeriodKeyIncluded(self, user, group, ps, p, "user:" + ToStr(user) + ":" + p);
      }
      if Truthy(group) {
        PeriodKeyIncluded(self, user, group, ps, p, "group:" + ToStr(group) + ":" + p);
      }
    }
  }

  lemma {:induction false} AllPeriodKeysLength(self: Value, user: Value, group: Value, ps: seq<string>)
    ensures var n := 1 + (if Truthy(self) then 1 else 0) + (if Truthy(user) then 1 else 0) + (if Truthy(group) then 1 else 0);
      |AllPeriodKeys(self, user, group, ps)| == |ps| * n
  {
    if ps != [] {
      var rest := ps[1..];
      AllPeriodKeysLength(self, user, group, rest);
      PeriodKeysSpec(self, user, group, ps[0]);
      var n := 1 + (if Truthy(self) then 1 else 0) + (if Truthy(user) then 1 else 0) + (if Truthy(group) then 1 else 0);
      MulSucc(|rest|, n);
    }
  }

  /** A key of a listed period occurs among the keys of all periods. */
  lemma {:induction false} PeriodKeyIncluded(self: Value, user: Value, group: Value, ps: seq<string>, p: string, k: string)
    requires p in ps && k in PeriodKeys(self, user, group, p)
    ensures k in AllPeriodKeys(self, user, group, ps)
  {
    var rest := ps[1..];
    var head := PeriodKeys(self, user, group, ps[0]);
    var tail := AllPeriodKeys(self, user, group, rest);
    assert AllPeriodKeys(self, user, group, ps) == head + tail;
    if p == ps[0] {
      assert k in head;
    } else {
      assert p in rest;
      PeriodKeyIncluded(self, user, group, rest, p, k);
      assert k in tail;
    }
  }

  lemma MulSucc(a: nat, n: nat)
    ensures (a + 1) * n == n + a * n
  {
  }

  /** The counter store (redis): a count per key. */
  class Counters {
    var count: map<string, nat>

    constructor ()
      ensures count == map[]
    {
      count := map[];
    }
  }

  function Incr(m: map<string, nat>, k: string): map<string, nat> {
    m[k := (if k in m then m[k] else 0) + 1]
  }

  function IncrAll(m: map<string, nat>, keys: seq<string>): map<string, nat>
    decreases keys
  {
    if keys == [] then m else IncrAll(Incr(m, keys[0]), keys[1..])
  }

  function CountOf(m: map<string, nat>, k: string): nat {
    if k in m then m[k] else 0
  }

  /** Each counter grows by the number of times its key is listed. */
  lemma {:induction false} IncrAllCounts(m: map<string, nat>, keys: seq<string>, k: string)
    ensures CountOf(IncrAll(m, keys), k) == CountOf(m, k) + multiset(keys)[k]
    decreases keys
  {
    if keys != [] {
      IncrAllCounts(Incr(m, keys[0]), keys[1..], k);
      assert keys == [keys[0]] + keys[1..];
    }
  }

  /** `saveCount(e, type)`: increments every counter key of the event. */
  method SaveCount(c: Counters, kind: string, self: Value, user: Value, group: Value, d: Dates)
    modifies c
    ensures c.count == IncrAll(old(c.count), CountKeys(kind, self, user, group, d))
  {
    var keys := CountKeys(kind, self, user, group, d);
    for i := 0 to |keys|
      invariant c.count == IncrAll(old(c.count), keys[..i])
    {
      IncrAllSnoc(old(c.count), keys[..i], keys[i]);
      assert keys[..i + 1] == keys[..i] + [keys[i]];
      c.count := Incr(c.count, keys[i]);
    }
    assert keys[..|keys|] == keys;
  }

  lemma {:induction false} IncrAllSnoc(m: map<string, nat>, keys: seq<string>, k: string)
    ensures IncrAll(m, keys + [k]) == Incr(IncrAll(m, keys), k)
    decreases keys
  {
    if keys != [] {
      assert (keys + [k])[1..] == keys[1..] + [k];
      IncrAllSnoc(Incr(m, keys[0]), keys[1..], k);
    } else {
      assert keys + [k] == [k];
    }
  }

  /** The counters after saving each type in turn. */
  function SaveAll(m: map<string, nat>, types: seq<string>, self: Value, user: Value, group: Value, d: Dates): map<string, nat>
    decreases types
  {
    if types == [] then m else SaveAll(IncrAll(m, CountKeys(types[0], self, user, group, d)), types[1..], self, user, group, d)
  }

  lemma {:induction false} SaveAllSnoc(m: map<string, nat>, types: seq<string>, t: string, self: Value, user: Value,
                                       group: Value, d: Dates)
    ensures SaveAll(m, types + [t], self, user, group, d) ==
              IncrAll(SaveAll(m, types, self, user, group, d), CountKeys(t, self, user, group, d))
    decreases types
  {
    if types != [] {
      assert (types + [t])[1..] == types[1..] + [t];
      SaveAllSnoc(IncrAll(m, CountKeys(types[0], self, user, group, d)), types[1..], t, self, user, group, d);
    } else {
      assert types + [t] == [t];
    }
  }

  /** Saving several types adds, to every counter, the number of times its
      key occurs across them. */
  lemma {:induction false} SaveAllCounts(m: map<string, nat>, types: seq<string>, self: Value, user: Value,
                                         group: Value, d: Dates, k: string)
    ensures CountOf(SaveAll(m, types, self, user, group, d), k) == CountOf(m, k) + CountedTimes(types, self, user, group, d, k)
    decreases types
  {
    if types != [] {
      var keys := CountKeys(types[0], self, user, group, d);
      IncrAllCounts(m, keys, k);
      SaveAllCounts(IncrAll(m, keys), types[1..], self, user, group, d, k);
    }
  }

  /** `count(e, type, msg)`: one `saveCount` per counted type. */
  method Count(c: Counters, kind: string, msg: Value, byType: bool, self: Value, user: Value, group: Value, d: Dates)
    modifies c
    ensures c.count == SaveAll(old(c.count), CountTypes(kind, msg, byType), self, user, group, d)
  {
    SaveTypes(c, CountTypes(kind, msg, byType), self, user, group, d);
  }

  /** `saveCount` for each type in turn. */
  method SaveTypes(c: Counters, types: seq<string>, self: Value, user: Value, group: Value, d: Dates)
    modifies c
    ensures c.count == SaveAll(old(c.count), types, self, user, group, d)
  {
    for i := 0 to |types|
      invariant c.count == SaveAll(old(c.count), types[..i], self, user, group, d)
    {
      SaveAllSnoc(old(c.count), types[..i], types[i], self, user, group, d);
      assert types[..i + 1] == types[..i] + [types[i]];
      SaveCount(c, types[i], self, user, group, d);
    }
    assert types[..|types|] == types;
  }

  /** How often key `k` is incremented by saving all the given types. */
  function CountedTimes(types: seq<string>, self: Value, user: Value, group: Value, d: Dates, k: string): nat {
    if types == [] then 0
    else multiset(CountKeys(types[0], self, user, group, d))[k] + CountedTimes(types[1..], self, user, group, d, k)
  }

}
