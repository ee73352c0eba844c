/** The event normaliser of the plugin loader: the incoming event, the text
    canonicalisation of `dealText`, and `dealEvent`, which folds the message
    segments into the convenience fields (`msg`, `img`, `atBot`, `at`,
    `reply_id`, `file`), derives the chat scope and the sender, looks the
    sender up among the masters and strips a leading bot alias. */
module Normalizer {
  import opened Js
  import opened Config

  // ---------------------------------------------------------------------
  // The event
  // ---------------------------------------------------------------------

  /** The `data` of an xml or json segment: a string, or a structure that is
      appended in its JSON serialisation. */
  datatype Payload = Text(text: string) | Structured(json: string)

  /** One element of `e.message`. */
  datatype Segment =
    | TextSeg(text: string)
    | ImageSeg(url: Value)
    | AtSeg(qq: Value)
    | ReplySeg(id: Value)
    | FileSeg(name: Value)
    | XmlSeg(data: Payload)
    | JsonSeg(data: Payload)
    | OtherSeg(kind: OtherKind)

  /** The `type` names the loader handles itself. */
  const KnownKinds: set<string> := {"text", "image", "at", "reply", "file", "xml", "json"}

  /** The `type` of a segment the loader does not handle itself. */
  type OtherKind = k: string | k !in KnownKinds witness "face"

  /** The `type` of a segment. */
  function SegType(seg: Segment): string {
    match seg
    case TextSeg(_) => "text"
    case ImageSeg(_) => "image"
    case AtSeg(_) => "at"
    case ReplySeg(_) => "reply"
    case FileSeg(_) => "file"
    case XmlSeg(_) => "xml"
    case JsonSeg(_) => "json"
    case OtherSeg(kind) => kind
  }

  /** The transport's group, friend and member handles, reduced to the
      properties the loader reads and the methods whose presence it tests. */
  datatype Group = Group(name: Value, mute_left: Value, canGetMsg: bool, canSendMsg: bool, canRecall: bool)
  datatype Friend = Friend(nickname: Value, canGetMsg: bool, canSendMsg: bool, canRecall: bool)
  datatype Member = Member(nickname: Value, card: Value, is_owner: Value, is_admin: Value)
  datatype Sender = Sender(user_id: Value, nickname: Value, card: Value)

  /** Where `e.getReply` fetches the quoted message from. */
  datatype ReplyFetch = NoFetch | ViaGroup | ViaFriend

  /** What the transport delivers. `message` is None when the event carries
      no message array; `hasReply` says whether the transport installed its
      own `e.reply`. */
  datatype Incoming = Incoming(
    post_type: Value, message_type: Value, notice_type: Value, request_type: Value, sub_type: Value,
    self_id: Value, user_id: Value, group_id: Value, message_id: Value, raw_message: Value,
    message: Option<seq<Segment>>, group: Option<Group>, friend: Option<Friend>, member: Option<Member>,
    sender: Option<Sender>, group_name: Value, isGroup: bool, isPrivate: bool, hasReply: bool)

  /** The fields `dealEvent` assigns while folding the segments. */
  datatype Parts = Parts(msg: Option<string>, img: Option<seq<Value>>, atBot: bool, at: Value,
                         reply_id: Value, getReply: ReplyFetch, file: Option<Segment>)

  /** Everything `dealEvent` may assign. */
  datatype Enrichment = Enrichment(parts: Parts, isPrivate: bool, isGroup: bool, sender: Option<Sender>,
                                   group_name: Value, isMaster: bool, hasAlias: bool)

  /** An event: the transport's fields are constant, the fields the loader
      adds are assigned in place. */
  class Event {
    const post_type: Value
    const message_type: Value
    const notice_type: Value
    const request_type: Value
    const sub_type: Value
    const self_id: Value
    const user_id: Value
    const group_id: Value
    const message_id: Value
    const raw_message: Value
    const message: Option<seq<Segment>>
    const group: Option<Group>
    const friend: Option<Friend>
    const member: Option<Member>
    const hasReply: bool

    var msg: Option<string>
    var img: Option<seq<Value>>
    var atBot: bool
    var at: Value
    var reply_id: Value
    var getReply: ReplyFetch
    var file: Option<Segment>
    var isPrivate: bool
    var isGroup: bool
    var sender: Option<Sender>
    var group_name: Value
    var isMaster: bool
    var hasAlias: bool
    var game: Value

    constructor (r: Incoming)
      ensures post_type == r.post_type && message_type == r.message_type && notice_type == r.notice_type
      ensures request_type == r.request_type && sub_type == r.sub_type
      ensures self_id == r.self_id && user_id == r.user_id && group_id == r.group_id
      ensures message_id == r.message_id && raw_message == r.raw_message && message == r.message
      ensures group == r.group && friend == r.friend && member == r.member && hasReply == r.hasReply
      ensures Snapshot() == Enrichment(Parts(None, None, false, Undef, Undef, NoFetch, None),
                                       r.isPrivate, r.isGroup, r.sender, r.group_name, false, false)
      ensures game == Undef
    {
      post_type, message_type, notice_type := r.post_type, r.message_type, r.notice_type;
      request_type, sub_type := r.request_type, r.sub_type;
      self_id, user_id, group_id := r.self_id, r.user_id, r.group_id;
      message_id, raw_message, message := r.message_id, r.raw_message, r.message;
      group, friend, member, hasReply := r.group, r.friend, r.member, r.hasReply;
      msg, img, atBot, at := None, None, false, Undef;
      reply_id, getReply, file := Undef, NoFetch, None;
      isPrivate, isGroup, sender, group_name := r.isPrivate, r.isGroup, r.sender, r.group_name;
      isMaster, hasAlias, game := false, false, Undef;
    }

    function PartsNow(): Parts
      reads this
    {
      Parts(msg, img, atBot, at, reply_id, getReply, file)
    }

    function Snapshot(): Enrichment
      reads this
    {
      Enrichment(PartsNow(), isPrivate, isGroup, sender, group_name, isMaster, hasAlias)
    }
  }

  // ---------------------------------------------------------------------
  // dealText
  // ---------------------------------------------------------------------

  const HashMarks: set<char> := {'＃', '井'}
  const StarMarks: set<char> := {'＊', '※'}
  const SlashMarks: set<char> := {'/'}

  /** `text.replace(/^\s*[marks]\s*\/, mark)`: when the first non-space
      character is one of `marks`, it and the whitespace around it become `mark`. */
  function Canon(text: string, marks: set<char>, mark: char): string {
    var t := TrimStart(text);
    if t != [] && t[0] in marks then [mark] + TrimStart(t[1..]) else text
  }

  /** The three prefix rewrites of `dealText`, before the final trim. */
  function Marked(text: string, slashToHash: bool): string {
    var t := if slashToHash then Canon(text, SlashMarks, '#') else text;
    Canon(Canon(t, HashMarks, '#'), StarMarks, '*')
  }

  /** `dealText(text)`; `slashToHash` is the bot setting "/→#". */
  function DealText(text: string, slashToHash: bool): (r: string)
    ensures IsTrimmed(r)
  {
    Trim(Marked(text, slashToHash))
  }

  /** A string that starts with a non-space character outside `marks` is
      left alone by `Canon`. */
  lemma CanonOfHeaded(h: string, marks: set<char>, mark: char)
    requires h != [] && !IsSpace(h[0]) && h[0] !in marks
    ensures TrimStart(h) == h && Canon(h, marks, mark) == h
  {
  }

  lemma CanonFires(text: string, marks: set<char>, mark: char)
    requires TrimStart(text) != [] && TrimStart(text)[0] in marks
    ensures Canon(text, marks, mark) != [] && Canon(text, marks, mark)[0] == mark
  {
  }

  lemma CanonSkips(text: string, marks: set<char>, mark: char)
    requires TrimStart(text) == [] || TrimStart(text)[0] !in marks
    ensures Canon(text, marks, mark) == text
  {
  }

  lemma TrimOfHeaded(h: string)
    requires h != [] && !IsSpace(h[0])
    ensures Trim(h) != [] && Trim(h)[0] == h[0]
  {
    TrimKeepsHead(h);
  }

  lemma MarkedSlash(text: string)
    requires TrimStart(text) != [] && TrimStart(text)[0] == '/'
    ensures Marked(text, true) != [] && Marked(text, true)[0] == '#'
  {
    CanonFires(text, SlashMarks, '#');
    var h := Canon(text, SlashMarks, '#');
    CanonOfHeaded(h, HashMarks, '#');
    CanonOfHeaded(h, StarMarks, '*');
  }

  lemma MarkedHash(text: string, slashToHash: bool)
    requires TrimStart(text) != [] && TrimStart(text)[0] in HashMarks
    ensures Marked(text, slashToHash) != [] && Marked(text, slashToHash)[0] == '#'
  {
    CanonSkips(text, SlashMarks, '#');
    CanonFires(text, HashMarks, '#');
    CanonOfHeaded(Canon(text, HashMarks, '#'), StarMarks, '*');
  }

  lemma MarkedStar(text: string, slashToHash: bool)
    requires TrimStart(text) != [] && TrimStart(text)[0] in StarMarks
    ensures Marked(text, slashToHash) != [] && Marked(text, slashToHash)[0] == '*'
  {
    CanonSkips(text, SlashMarks, '#');
    CanonSkips(text, HashMarks, '#');
    CanonFires(text, StarMarks, '*');
  }

  lemma MarkedPlain(text: string, slashToHash: bool)
    requires var t := TrimStart(text);
      t == [] || (t[0] !in HashMarks + StarMarks && !(slashToHash && t[0] == '/'))
    ensures Marked(text, slashToHash) == text
  {
    if slashToHash {
      CanonSkips(text, SlashMarks, '#');
    }
    CanonSkips(text, HashMarks, '#');
    CanonSkips(text, StarMarks, '*');
  }

  /** The leading mark decides the prefix of `dealText`: '＃' or '井' (or a
      slash under "/→#") gives '#', '＊' or '※' gives '*', and
      any other text is only trimmed. */
  lemma DealTextPrefix(text: string, slashToHash: bool)
    ensures var t := TrimStart(text);
      && (t != [] && (t[0] in HashMarks || (slashToHash && t[0] == '/')) ==>
            DealText(text, slashToHash) != [] && DealText(text, slashToHash)[0] == '#')
      && (t != [] && t[0] in StarMarks ==>
            DealText(text, slashToHash) != [] && DealText(text, slashToHash)[0] == '*')
      && (t == [] || (t[0] !in HashMarks + StarMarks && !(slashToHash && t[0] == '/')) ==>
            DealText(text, slashToHash) == Trim(text))
  {
    var t := TrimStart(text);
    var m := Marked(text, slashToHash);
    if t != [] && slashToHash && t[0] == '/' {
      MarkedSlash(text);
      TrimOfHeaded(m);
    } else if t != [] && t[0] in HashMarks {
      MarkedHash(text, slashToHash);
      TrimOfHeaded(m);
    } else if t != [] && t[0] in StarMarks {
      MarkedStar(text, slashToHash);
      TrimOfHeaded(m);
    } else {
      MarkedPlain(text, slashToHash);
    }
  }

  lemma DealTextOfUnmarked(r: string, slashToHash: bool)
    requires IsTrimmed(r)
    requires r == [] || (r[0] !in HashMarks + StarMarks && !(slashToHash && r[0] == '/'))
    ensures DealText(r, slashToHash) == r
  {
    TrimOfTrimmed(r);
    MarkedPlain(r, slashToHash);
  }

  /** `dealText` is idempotent: its output carries no mark left to rewrite. */
  lemma DealTextIdempotent(text: string, slashToHash: bool)
    ensures DealText(DealText(text, slashToHash), slashToHash) == DealText(text, slashToHash)
  {
    var r := DealText(text, slashToHash);
    DealTextUnmarked(text, slashToHash);
    DealTextOfUnmarked(r, slashToHash);
  }

  /** The output of `dealText` does not start with a mark. */
  lemma DealTextUnmarked(text: string, slashToHash: bool)
    ensures var r := DealText(text, slashToHash);
      r == [] || (r[0] !in HashMarks + StarMarks && !(slashToHash && r[0] == '/'))
  {
    var t := TrimStart(text);
    var m := Marked(text, slashToHash);
    if t != [] && slashToHash && t[0] == '/' {
      MarkedSlash(text);
      TrimOfHeaded(m);
    } else if t != [] && t[0] in HashMarks {
      MarkedHash(text, slashToHash);
      TrimOfHeaded(m);
    } else if t != [] && t[0] in StarMarks {
      MarkedStar(text, slashToHash);
      TrimOfHeaded(m);
    } else {
      MarkedPlain(text, slashToHash);
      if t != [] {
        TrimKeepsHead(text);
      }
    }
  }

  // ---------------------------------------------------------------------
  // The segment fold of dealEvent
  // ---------------------------------------------------------------------

  /** The text a segment appends to `msg`, if it is a text, xml or json segment. */
  function SegText(seg: Segment, slashToHash: bool): Option<string> {
    match seg
    case TextSeg(t) => Some(DealText(t, slashToHash))
    case XmlSeg(d) => Some(PayloadText(d))
    case JsonSeg(d) => Some(PayloadText(d))
    case _ => None
  }

  function PayloadText(d: Payload): string {
    match d
    case Text(s) => s
    case Structured(json) => json
  }

  /** `x || ""` for an optional string */
  function OrEmpty(s: Option<string>): string {
    if s.Some? then s.value else ""
  }

  function OrNone(s: Option<seq<Value>>): seq<Value> {
    if s.Some? then s.value else []
  }

  /** Which handle `e.getReply` goes through: `e.group?.getMsg`, else `e.friend?.getMsg`. */
  function FetchOf(e: Event): ReplyFetch {
    if e.group.Some? && e.group.value.canGetMsg then ViaGroup
    else if e.friend.Some? && e.friend.value.canGetMsg then ViaFriend
    else NoFetch
  }

  /** One iteration of the segment loop. */
  function Absorb(p: Parts, seg: Segment, slashToHash: bool, self: Value, fetch: ReplyFetch): Parts {
    match seg
    case ImageSeg(url) => p.(img := Some(OrNone(p.img) + [url]))
    case AtSeg(qq) => if LooseEq(qq, self) then p.(atBot := true) else p.(at := qq)
    case ReplySeg(id) => p.(reply_id := id, getReply := if fetch == NoFetch then p.getReply else fetch)
    case FileSeg(_) => p.(file := Some(seg))
    case OtherSeg(_) => p
    case _ => p.(msg := Some(OrEmpty(p.msg) + SegText(seg, slashToHash).value))
  }

  /** The segment loop over a prefix of the segments. */
  function Fold(p: Parts, segs: seq<Segment>, slashToHash: bool, self: Value, fetch: ReplyFetch): Parts
    decreases |segs|
  {
    if segs == [] then p
    else Absorb(Fold(p, segs[..|segs| - 1], slashToHash, self, fetch), segs[|segs| - 1], slashToHash, self, fetch)
  }

  // One loop iteration, field by field

  lemma AbsorbText(q: Parts, seg: Segment, slashToHash: bool, self: Value, fetch: ReplyFetch)
    ensures var t := SegText(seg, slashToHash);
      && OrEmpty(Absorb(q, seg, slashToHash, self, fetch).msg) == OrEmpty(q.msg) + (if t.Some? then t.value else "")
      && (Absorb(q, seg, slashToHash, self, fetch).msg.Some? <==> q.msg.Some? || seg.TextSeg? || seg.XmlSeg? || seg.JsonSeg?)
  {
  }

  lemma AbsorbImage(q: Parts, seg: Segment, slashToHash: bool, self: Value, fetch: ReplyFetch)
    ensures OrNone(Absorb(q, seg, slashToHash, self, fetch).img) == OrNone(q.img) + (if seg.ImageSeg? then [seg.url] else [])
    ensures Absorb(q, seg, slashToHash, self, fetch).img.Some? <==> q.img.Some? || seg.ImageSeg?
  {
  }

  lemma AbsorbAt(q: Parts, seg: Segment, slashToHash: bool, self: Value, fetch: ReplyFetch)
    ensures Absorb(q, seg, slashToHash, self, fetch).atBot <==> q.atBot || (seg.AtSeg? && LooseEq(seg.qq, self))
    ensures Absorb(q, seg, slashToHash, self, fetch).at == if seg.AtSeg? && !LooseEq(seg.qq, self) then seg.qq else q.at
  {
  }

  lemma AbsorbReplyAndFile(q: Parts, seg: Segment, slashToHash: bool, self: Value, fetch: ReplyFetch)
    ensures Absorb(q, seg, slashToHash, self, fetch).reply_id == if seg.ReplySeg? then seg.id else q.reply_id
    ensures Absorb(q, seg, slashToHash, self, fetch).getReply == if seg.ReplySeg? && fetch != NoFetch then fetch else q.getReply
    ensures Absorb(q, seg, slashToHash, self, fetch).file == if seg.FileSeg? then Some(seg) else q.file
  {
  }

  // Independent per-field views of the segments

  /** The texts of the text, xml and json segments, concatenated in order. */
  function Texts(segs: seq<Segment>, slashToHash: bool): string {
    if segs == [] then ""
    else
      var last := SegText(segs[|segs| - 1], slashToHash);
      Texts(segs[..|segs| - 1], slashToHash) + (if last.Some? then last.value else "")
  }

  predicate HasText(segs: seq<Segment>) {
    exists i :: 0 <= i < |segs| && (segs[i].TextSeg? || segs[i].XmlSeg? || segs[i].JsonSeg?)
  }

  /** The urls of the image segments, in order. */
  function Urls(segs: seq<Segment>): seq<Value> {
    if segs == [] then []
    else Urls(segs[..|segs| - 1]) + (if segs[|segs| - 1].ImageSeg? then [segs[|segs| - 1].url] else [])
  }

  predicate HasImage(segs: seq<Segment>) {
    exists i :: 0 <= i < |segs| && segs[i].ImageSeg?
  }

  lemma HasTextSnoc(segs: seq<Segment>)
    requires segs != []
    ensures var last := segs[|segs| - 1];
      HasText(segs) <==> HasText(segs[..|segs| - 1]) || last.TextSeg? || last.XmlSeg? || last.JsonSeg?
  {
    var init := segs[..|segs| - 1];
    if HasText(segs) {
      var i :| 0 <= i < |segs| && (segs[i].TextSeg? || segs[i].XmlSeg? || segs[i].JsonSeg?);
      if i < |init| { assert init[i] == segs[i]; }
    }
    if HasText(init) {
      var i :| 0 <= i < |init| && (init[i].TextSeg? || init[i].XmlSeg? || init[i].JsonSeg?);
      assert segs[i] == init[i];
    }
  }

  lemma MentionsBotSnoc(segs: seq<Segment>, self: Value)
    requires segs != []
    ensures var last := segs[|segs| - 1];
      MentionsBot(segs, self) <==> MentionsBot(segs[..|segs| - 1], self) || (last.AtSeg? && LooseEq(last.qq, self))
  {
    var init := segs[..|segs| - 1];
    if MentionsBot(segs, self) {
      var i :| 0 <= i < |segs| && segs[i].AtSeg? && LooseEq(segs[i].qq, self);
      if i < |init| { assert init[i] == segs[i]; }
    }
    if MentionsBot(init, self) {
      var i :| 0 <= i < |init| && init[i].AtSeg? && LooseEq(init[i].qq, self);
      assert segs[i] == init[i];
    }
  }

  lemma HasImageSnoc(segs: seq<Segment>)
    requires segs != []
    ensures HasImage(segs) <==> HasImage(segs[..|segs| - 1]) || segs[|segs| - 1].ImageSeg?
  {
    var init := segs[..|segs| - 1];
    if HasImage(segs) {
      var i :| 0 <= i < |segs| && segs[i].ImageSeg?;
      if i < |init| { assert init[i].ImageSeg?; }
    }
    if HasImage(init) {
      var i :| 0 <= i < |init| && init[i].ImageSeg?;
      assert segs[i].ImageSeg?;
    }
  }

  /** Some at segment mentions the bot. */
  predicate MentionsBot(segs: seq<Segment>, self: Value) {
    exists i :: 0 <= i < |segs| && segs[i].AtSeg? && LooseEq(segs[i].qq, self)
  }

  /** The targets of the at segments that do not mention the bot, in order. */
  function OtherAts(segs: seq<Segment>, self: Value): seq<Value> {
    if segs == [] then []
    else
      var last := segs[|segs| - 1];
      OtherAts(segs[..|segs| - 1], self) + (if last.AtSeg? && !LooseEq(last.qq, self) then [last.qq] else [])
  }

  /** The ids of the reply segments, in order. */
  function ReplyIds(segs: seq<Segment>): seq<Value> {
    if segs == [] then []
    else ReplyIds(segs[..|segs| - 1]) + (if segs[|segs| - 1].ReplySeg? then [segs[|segs| - 1].id] else [])
  }

  /** The file segments, in order. */
  function Files(segs: seq<Segment>): seq<Option<Segment>> {
    if segs == [] then []
    else Files(segs[..|segs| - 1]) + (if segs[|segs| - 1].FileSeg? then [Some(segs[|segs| - 1])] else [])
  }

  function Last<T>(xs: seq<T>, default: T): T {
    if xs == [] then default else xs[|xs| - 1]
  }

  /** `msg` is the earlier text followed by the segment texts in order; it is
      set exactly when it was set before or some segment carries text. */
  lemma {:induction false} FoldText(p: Parts, segs: seq<Segment>, slashToHash: bool, self: Value, fetch: ReplyFetch)
    ensures OrEmpty(Fold(p, segs, slashToHash, self, fetch).msg) == OrEmpty(p.msg) + Texts(segs, slashToHash)
    ensures Fold(p, segs, slashToHash, self, fetch).msg.Some? <==> p.msg.Some? || HasText(segs)
    decreases |segs|
  {
    if segs != [] {
      var init, last := segs[..|segs| - 1], segs[|segs| - 1];
      FoldText(p, init, slashToHash, self, fetch);
      var q := Fold(p, init, slashToHash, self, fetch);
      assert Fold(p, segs, slashToHash, self, fetch) == Absorb(q, last, slashToHash, self, fetch);
      AbsorbText(q, last, slashToHash, self, fetch);
      var t := SegText(last, slashToHash);
      assert Texts(segs, slashToHash) == Texts(init, slashToHash) + (if t.Some? then t.value else "");
      HasTextSnoc(segs);
    }
  }

  /** `img` is the earlier list followed by the image urls in order. */
  lemma {:induction false} FoldImages(p: Parts, segs: seq<Segment>, slashToHash: bool, self: Value, fetch: ReplyFetch)
    ensures OrNone(Fold(p, segs, slashToHash, self, fetch).img) == OrNone(p.img) + Urls(segs)
    ensures Fold(p, segs, slashToHash, self, fetch).img.Some? <==> p.img.Some? || HasImage(segs)
    decreases |segs|
  {
    if segs != [] {
      var init, last := segs[..|segs| - 1], segs[|segs| - 1];
      FoldImages(p, init, slashToHash, self, fetch);
      var q := Fold(p, init, slashToHash, self, fetch);
      assert Fold(p, segs, slashToHash, self, fetch) == Absorb(q, last, slashToHash, self, fetch);
      AbsorbImage(q, last, slashToHash, self, fetch);
      assert Urls(segs) == Urls(init) + (if last.ImageSeg? then [last.url] else []);
      HasImageSnoc(segs);
    }
  }

  /** An at on the bot sets `atBot`; otherwise the last at wins `at`. */
  lemma {:induction false} FoldAts(p: Parts, segs: seq<Segment>, slashToHash: bool, self: Value, fetch: ReplyFetch)
    ensures Fold(p, segs, slashToHash, self, fetch).atBot <==> p.atBot || MentionsBot(segs, self)
    ensures Fold(p, segs, slashToHash, self, fetch).at == Last(OtherAts(segs, self), p.at)
    decreases |segs|
  {
    if segs != [] {
      var init, last := segs[..|segs| - 1], segs[|segs| - 1];
      FoldAts(p, init, slashToHash, self, fetch);
      var q := Fold(p, init, slashToHash, self, fetch);
      assert Fold(p, segs, slashToHash, self, fetch) == Absorb(q, last, slashToHash, self, fetch);
      AbsorbAt(q, last, slashToHash, self, fetch);
      assert OtherAts(segs, self) == OtherAts(init, self) + (if last.AtSeg? && !LooseEq(last.qq, self) then [last.qq] else []);
      MentionsBotSnoc(segs, self);
    }
  }

  /** The last reply segment gives `reply_id`, the last file segment `file`;
      the transport handle for `getReply` is chosen once a reply occurs. */
  lemma {:induction false} FoldReplyAndFile(p: Parts, segs: seq<Segment>, slashToHash: bool, self: Value, fetch: ReplyFetch)
    ensures Fold(p, segs, slashToHash, self, fetch).reply_id == Last(ReplyIds(segs), p.reply_id)
    ensures Fold(p, segs, slashToHash, self, fetch).getReply
            == if ReplyIds(segs) != [] && fetch != NoFetch then fetch else p.getReply
    ensures Fold(p, segs, slashToHash, self, fetch).file == Last(Files(segs), p.file)
    decreases |segs|
  {
    if segs != [] {
      var init, last := segs[..|segs| - 1], segs[|segs| - 1];
      FoldReplyAndFile(p, init, slashToHash, self, fetch);
      var q := Fold(p, init, slashToHash, self, fetch);
      assert Fold(p, segs, slashToHash, self, fetch) == Absorb(q, last, slashToHash, self, fetch);
      AbsorbReplyAndFile(q, last, slashToHash, self, fetch);
      assert ReplyIds(segs) == ReplyIds(init) + (if last.ReplySeg? then [last.id] else []);
      assert Files(segs) == Files(init) + (if last.FileSeg? then [Some(last)] else []);
    }
  }

  // ---------------------------------------------------------------------
  // Scope, sender, master, alias
  // ---------------------------------------------------------------------

  predicate PrivateScope(e: Event) {
    LooseEq(e.message_type, Str("private")) || LooseEq(e.notice_type, Str("friend"))
  }

  predicate GroupScope(e: Event) {
    LooseEq(e.message_type, Str("group")) || LooseEq(e.notice_type, Str("group"))
  }

  function FriendNickname(f: Option<Friend>): Value {
    if f.Some? then f.value.nickname else Undef
  }

  /** The private-chat sender: an existing sender's card becomes its
      nickname, otherwise one is built from the friend handle. */
  function PrivateSender(s: Option<Sender>, userId: Value, f: Option<Friend>): (r: Sender)
    ensures r.card == r.nickname
    ensures r.user_id == if s.Some? then s.value.user_id else userId
  {
    if s.Some? then s.value.(card := s.value.nickname)
    else Sender(userId, FriendNickname(f), FriendNickname(f))
  }

  /** The group sender: an existing sender keeps a non-empty card; otherwise
      one is built from the member handle, then the friend handle. */
  function GroupSender(s: Option<Sender>, userId: Value, m: Option<Member>, f: Option<Friend>): (r: Sender)
    ensures Truthy(r.nickname) ==> Truthy(r.card)
    ensures r.user_id == if s.Some? then s.value.user_id else userId
    ensures s.Some? && Truthy(s.value.card) ==> r == s.value
  {
    if s.Some? then
      if !Truthy(s.value.card) then s.value.(card := s.value.nickname) else s.value
    else
      var nick := if m.Some? then m.value.nickname else Undef;
      var card := if m.Some? then m.value.card else Undef;
      Sender(userId, Or(nick, FriendNickname(f)), Or(Or(card, nick), FriendNickname(f)))
  }

  /** The scope step of `dealEvent`. */
  function ScopeStep(e: Event, st: Enrichment): (r: Enrichment)
    ensures r.parts == st.parts && r.isMaster == st.isMaster && r.hasAlias == st.hasAlias
    ensures r.isPrivate == (st.isPrivate || PrivateScope(e))
    ensures r.isGroup == (st.isGroup || (!PrivateScope(e) && GroupScope(e)))
    ensures (PrivateScope(e) || GroupScope(e)) ==> r.sender.Some?
    ensures !GroupScope(e) || PrivateScope(e) ==> r.group_name == st.group_name
    ensures !PrivateScope(e) && GroupScope(e) ==>
              (Truthy(r.group_name) <==> Truthy(st.group_name) || (e.group.Some? && Truthy(e.group.value.name)))
    ensures !PrivateScope(e) && !GroupScope(e) ==> r == st
  {
    if PrivateScope(e) then
      st.(isPrivate := true, sender := Some(PrivateSender(st.sender, e.user_id, e.friend)))
    else if GroupScope(e) then
      var name := if !Truthy(st.group_name) && e.group.Some? && Truthy(e.group.value.name)
                  then e.group.value.name else st.group_name;
      st.(isGroup := true, sender := Some(GroupSender(st.sender, e.user_id, e.member, e.friend)), group_name := name)
    else st
  }

  /** The master lookup: None when reading the `master` table raises. */
  function MasterStep(e: Event, st: Enrichment, other: map<string, Value>): Option<Enrichment> {
    if !Truthy(e.user_id) then Some(st)
    else
      match MasterOf(other)
      case None => None
      case Some(m) =>
        var bot := ToStr(e.self_id);
        if bot in m && ToStr(e.user_id) in m[bot] then Some(st.(isMaster := true)) else Some(st)
  }

  /** A sender is recognised as master exactly when the `master` list holds
      the entry "bot:user" for this bot (for colon-free bot ids). */
  lemma MasterStepRecognises(e: Event, st: Enrichment, other: map<string, Value>)
    requires Truthy(e.user_id)
    requires AllStrings(AsList(Get(Obj(other), "master")))
    requires ':' !in ToStr(e.self_id) && ToStr(e.user_id) != ""
    ensures MasterStep(e, st, other).Some?
    ensures MasterStep(e, st, other).value.isMaster <==>
              st.isMaster || Str(ToStr(e.self_id) + ":" + ToStr(e.user_id)) in AsList(Get(Obj(other), "master"))
    ensures MasterStep(e, st, other).value.(isMaster := st.isMaster) == st
  {
    var entries := AsList(Get(Obj(other), "master"));
    MasterGroupsByBot(other);
    UsersForNamesEntry(entries, ToStr(e.self_id), ToStr(e.user_id));
  }

  /** `groupCfg.botAlias`, a non-array wrapped as a one-element list. */
  function AliasNames(groupCfg: map<string, Value>): seq<Value> {
    var a := Get(Obj(groupCfg), "botAlias");
    if a.List? then a.items else [a]
  }

  /** The first alias whose string form prefixes `msg`. */
  function FirstAlias(msg: string, names: seq<Value>): (r: Option<nat>)
    ensures r.Some? ==> r.value < |names| && StartsWith(msg, ToStr(names[r.value]))
    ensures r.Some? ==> forall j :: 0 <= j < r.value ==> !StartsWith(msg, ToStr(names[j]))
    ensures r.None? ==> forall j :: 0 <= j < |names| ==> !StartsWith(msg, ToStr(names[j]))
    decreases |names|
  {
    if names == [] then None
    else if StartsWith(msg, ToStr(names[0])) then Some(0)
    else
      match FirstAlias(msg, names[1..])
      case None => None
      case Some(k) => Some(k + 1)
  }

  /** `lodash.trimStart(msg, name).trim()` */
  function StripAlias(msg: string, name: Value): string {
    Trim(TrimStartChars(msg, name))
  }

  /** The alias step of `dealEvent`. */
  function AliasStep(st: Enrichment, groupCfg: map<string, Value>): (r: Enrichment)
    ensures r.hasAlias && !st.hasAlias ==> st.isGroup && st.parts.msg.Some?
    ensures r.(parts := r.parts.(msg := st.parts.msg), hasAlias := st.hasAlias) == st
    ensures r.hasAlias <==>
              || st.hasAlias
              || (&& st.isGroup && st.parts.msg.Some? && st.parts.msg.value != ""
                  && exists j :: 0 <= j < |AliasNames(groupCfg)| && StartsWith(st.parts.msg.value, ToStr(AliasNames(groupCfg)[j])))
    ensures r.hasAlias && !st.hasAlias ==>
              var names := AliasNames(groupCfg);
              && FirstAlias(st.parts.msg.value, names).Some?
              && r.parts.msg == Some(StripAlias(st.parts.msg.value, names[FirstAlias(st.parts.msg.value, names).value]))
  {
    if st.parts.msg.Some? && st.parts.msg.value != "" && st.isGroup then
      var names := AliasNames(groupCfg);
      match FirstAlias(st.parts.msg.value, names)
      case Some(k) =>
        st.(parts := st.parts.(msg := Some(StripAlias(st.parts.msg.value, names[k]))), hasAlias := true)
      case None => st
    else st
  }

  /** A string alias is removed as a whole, together with every following
      character that also occurs in it (lodash strips a character set, not a
      prefix), and the remainder is trimmed. */
  lemma AliasStripRemovesAlias(msg: string, alias: string)
    requires StartsWith(msg, alias)
    ensures exists k :: |alias| <= k <= |msg| && StripAlias(msg, Str(alias)) == Trim(msg[k..])
              && (forall i :: 0 <= i < k ==> msg[i] in alias)
  {
    var r := DropWhileIn(msg, alias);
    DropWhileInCoversPrefix(msg, alias, alias);
    var k := |msg| - |r|;
    assert StripAlias(msg, Str(alias)) == Trim(msg[k..]);
  }

  /** With no `botAlias` configured the alias list is `[undefined]`, which
      matches a message starting with the text "undefined"; only whitespace
      is then trimmed. */
  lemma MissingAliasMatchesUndefined(st: Enrichment, groupCfg: map<string, Value>)
    requires "botAlias" !in groupCfg
    requires st.isGroup && st.parts.msg.Some? && StartsWith(st.parts.msg.value, "undefined")
    ensures AliasStep(st, groupCfg).hasAlias
    ensures AliasStep(st, groupCfg).parts.msg == Some(Trim(st.parts.msg.value))
  {
    assert AliasNames(groupCfg) == [Undef];
    assert FirstAlias(st.parts.msg.value, [Undef]) == Some(0);
    var t := TrimStart(st.parts.msg.value);
    assert TrimStart(t) == t;
  }

  // ---------------------------------------------------------------------
  // dealEvent
  // ---------------------------------------------------------------------

  predicate SlashToHash(s: Settings) {
    Truthy(Get(Obj(s.bot), "/→#"))
  }

  /** `dealEvent` as a transition of the assigned fields; the flag is false
      when the master lookup raised, leaving the alias step undone. */
  function Normalise(e: Event, st: Enrichment, s: Settings): (Enrichment, bool) {
    var segs := if e.message.Some? then e.message.value else [];
    var st1 := st.(parts := Fold(st.parts, segs, SlashToHash(s), e.self_id, FetchOf(e)));
    var st2 := ScopeStep(e, st1);
    match MasterStep(e, st2, s.other)
    case None => (st2, false)
    case Some(st3) => (AliasStep(st3, GroupCfg(s, e.self_id, e.group_id)), true)
  }

  /** One iteration of the segment loop of `dealEvent`. */
  method AbsorbOne(e: Event, seg: Segment, slashToHash: bool)
    modifies e
    ensures e.PartsNow() == Absorb(old(e.PartsNow()), seg, slashToHash, e.self_id, FetchOf(e))
    ensures unchanged(e`isPrivate, e`isGroup, e`sender, e`group_name, e`isMaster, e`hasAlias, e`game)
  {
    match seg {
      case TextSeg(t) =>
        e.msg := Some(OrEmpty(e.msg) + DealText(t, slashToHash));
      case ImageSeg(url) =>
        if e.img.Some? {
          e.img := Some(e.img.value + [url]);
        } else {
          e.img := Some([url]);
          assert OrNone(old(e.img)) + [url] == [url];
        }
      case AtSeg(qq) =>
        if LooseEq(qq, e.self_id) {
          e.atBot := true;
        } else {
          e.at := qq;
        }
      case ReplySeg(id) =>
        e.reply_id := id;
        if e.group.Some? && e.group.value.canGetMsg {
          e.getReply := ViaGroup;
        } else if e.friend.Some? && e.friend.value.canGetMsg {
          e.getReply := ViaFriend;
        }
      case FileSeg(_) =>
        e.file := Some(seg);
      case XmlSeg(d) =>
        e.msg := Some(OrEmpty(e.msg) + PayloadText(d));
      case JsonSeg(d) =>
        e.msg := Some(OrEmpty(e.msg) + PayloadText(d));
      case OtherSeg(_) =>
    }
  }

  /** The segment loop of `dealEvent`. */
  method AbsorbSegments(e: Event, slashToHash: bool)
    modifies e
    ensures e.game == old(e.game)
    ensures var segs := if e.message.Some? then e.message.value else [];
      e.Snapshot() == old(e.Snapshot()).(parts := Fold(old(e.PartsNow()), segs, slashToHash, e.self_id, FetchOf(e)))
  {
    if e.message.Some? {
      var segs := e.message.value;
      ghost var start := e.PartsNow();
      for k := 0 to |segs|
        invariant e.PartsNow() == Fold(start, segs[..k], slashToHash, e.self_id, FetchOf(e))
        invariant e.Snapshot() == old(e.Snapshot()).(parts := e.PartsNow())
        invariant e.game == old(e.game)
      {
        AbsorbOne(e, segs[k], slashToHash);
        assert segs[..k + 1][..k] == segs[..k];
      }
      assert segs[..|segs|] == segs;
    }
  }

  /** The scope derivation of `dealEvent`. */
  method DeriveScope(e: Event)
    modifies e
    ensures e.game == old(e.game)
    ensures e.Snapshot() == ScopeStep(e, old(e.Snapshot()))
  {
    if LooseEq(e.message_type, Str("private")) || LooseEq(e.notice_type, Str("friend")) {
      e.isPrivate := true;
      if e.sender.Some? {
        e.sender := Some(e.sender.value.(card := e.sender.value.nickname));
      } else {
        e.sender := Some(Sender(e.user_id, FriendNickname(e.friend), FriendNickname(e.friend)));
      }
    } else if LooseEq(e.message_type, Str("group")) || LooseEq(e.notice_type, Str("group")) {
      e.isGroup := true;
      e.sender := Some(GroupSender(e.sender, e.user_id, e.member, e.friend));
      if !Truthy(e.group_name) && e.group.Some? && Truthy(e.group.value.name) {
        e.group_name := e.group.value.name;
      }
    }
  }

  /** The master lookup of `dealEvent`; false when the `master` getter raised. */
  method FindMaster(e: Event, other: map<string, Value>) returns (ok: bool)
    modifies e
    ensures e.game == old(e.game)
    ensures ok ==> MasterStep(e, old(e.Snapshot()), other) == Some(e.Snapshot())
    ensures !ok ==> MasterStep(e, old(e.Snapshot()), other).None? && e.Snapshot() == old(e.Snapshot())
  {
    ok := true;
    if Truthy(e.user_id) {
      var masters := Master(other);
      match masters {
        case None => ok := false;
        case Some(m) =>
          var bot := ToStr(e.self_id);
          if bot in m && ToStr(e.user_id) in m[bot] {
            e.isMaster := true;
          }
      }
    }
  }

  /** The alias loop of `dealEvent`. */
  method StripLeadingAlias(e: Event, groupCfg: map<string, Value>)
    modifies e
    ensures e.game == old(e.game)
    ensures e.Snapshot() == AliasStep(old(e.Snapshot()), groupCfg)
  {
    if e.msg.Some? && e.msg.value != "" && e.isGroup {
      ghost var st := e.Snapshot();
      var names := AliasNames(groupCfg);
      var m := e.msg.value;
      var i := 0;
      while i < |names|
        invariant 0 <= i <= |names|
        invariant forall j :: 0 <= j < i ==> !StartsWith(m, ToStr(names[j]))
        invariant unchanged(e)
      {
        if StartsWith(m, ToStr(names[i])) {
          assert FirstAlias(m, names) == Some(i);
          assert AliasStep(st, groupCfg) == st.(parts := st.parts.(msg := Some(StripAlias(m, names[i]))), hasAlias := true);
          e.msg := Some(StripAlias(m, names[i]));
          e.hasAlias := true;
          break;
        }
        i := i + 1;
      }
      if i == |names| {
        assert FirstAlias(m, names) == None;
        assert AliasStep(st, groupCfg) == st;
      }
    }
  }

  /** `dealEvent(e)`; false when it raised. */
  method DealEvent(e: Event, s: Settings) returns (ok: bool)
    modifies e
    ensures e.game == old(e.game)
    ensures (e.Snapshot(), ok) == Normalise(e, old(e.Snapshot()), s)
  {
    AbsorbSegments(e, SlashToHash(s));
    DeriveScope(e);
    ok := FindMaster(e, s.other);
    if ok {
      StripLeadingAlias(e, GroupCfg(s, e.self_id, e.group_id));
    }
  }
}
