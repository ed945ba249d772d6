/**
  handleGatewayDispatch: which packets are queued, and under which event id.
  What the handler looks up elsewhere (bot identity, roles, cached channels,
  auto-start channels) comes in as `Deps`; the outcome of deferring an
  interaction is not part of the envelope here.
 */
module Dispatch {
  import opened Prelude
  import opened Decimal
  import opened Fields
  import Q = QueueModel

  datatype Mention = Mention(id: string)

  datatype Body = Body(
    id: Option<string>,
    // messages
    guildId: Option<string>,
    content: string,
    authorId: Option<string>,
    authorIsBot: bool,
    webhook: bool,
    mentions: seq<Mention>,
    mentionRoles: seq<string>,
    // reactions
    channelId: Option<string>,
    messageId: Option<string>,
    userId: Option<string>,
    emojiId: Option<string>,
    emojiName: Option<string>)

  /** `eventType` is None for every other dispatch type, `body` for a packet without an object. */
  datatype Packet = Packet(eventType: Option<Q.EventType>, sequence: Option<int>, body: Option<Body>)

  /** `thread` is None when the channel is not cached. */
  datatype Deps = Deps(
    botUserId: Option<string>,
    botUsername: Option<string>,
    botRoleId: Option<string>,
    thread: Option<bool>,
    enqueueUnknownGuildChannel: bool,
    autoStartChannel: bool,
    scope: Option<string>)

  datatype Result = Ignored | Enqueue(envelope: Q.Envelope)

  predicate Truthy(o: Option<string>) {
    o.Some? && o.value != ""
  }

  predicate Contains(text: string, part: string) {
    exists i :: 0 <= i <= |text| && part <= text[i..]
  }

  function ReplaceAll(text: string, part: string, other: string): string
    requires part != ""
    decreases |text|
  {
    if |text| < |part| then text
    else if text[..|part|] == part then other + ReplaceAll(text[|part|..], part, other)
    else [text[0]] + ReplaceAll(text[1..], part, other)
  }

  predicate IsBotRoleMentioned(m: Body, role: string) {
    role in m.mentionRoles || Contains(m.content, "<@&" + role + ">")
  }

  predicate IsBotMentioned(m: Body, bot: Option<string>) {
    Truthy(bot) &&
    (Mention(bot.value) in m.mentions || Contains(m.content, "<@" + bot.value + ">")
     || Contains(m.content, "<@!" + bot.value + ">"))
  }

  function NormalizeBotRoleMention(m: Body, role: string, bot: string): Body {
    m.(content := ReplaceAll(m.content, "<@&" + role + ">", "<@" + bot + ">"),
       mentions := if Mention(bot) in m.mentions then m.mentions else m.mentions + [Mention(bot)])
  }

  /** The message after managed-role normalization. */
  function Normalized(m: Body, d: Deps): Body {
    if Truthy(d.botUserId) && Truthy(d.botUsername) && Truthy(m.guildId) && Truthy(d.botRoleId)
       && IsBotRoleMentioned(m, d.botRoleId.value)
    then NormalizeBotRoleMention(m, d.botRoleId.value, d.botUserId.value)
    else m
  }

  function Field(o: Option<string>): string {
    if o.Some? then o.value else ""
  }

  function ReactionPrefix(r: Body): string
    requires r.emojiName.Some?
  {
    Field(r.channelId) + ":" + Field(r.messageId) + ":" + Field(r.userId) + ":"
    + (if r.emojiId.Some? then r.emojiId.value else r.emojiName.value)
  }

  function ReactionEventId(r: Body, sequence: Option<int>, scope: Option<string>): Option<string> {
    if sequence.Some? && Truthy(r.channelId) && Truthy(r.messageId) && Truthy(r.userId) && Truthy(r.emojiName) then
      Some((if Truthy(scope) then ReactionPrefix(r) + [':'] + scope.value else ReactionPrefix(r))
           + [':'] + PrintInt(sequence.value))
    else None
  }

  /** The event id of a packet: its own id, or one made for a reaction. */
  function EventId(t: Q.EventType, b: Body, sequence: Option<int>, scope: Option<string>): Option<string> {
    var id := if b.id.Some? then b.id
              else if t.MessageReactionAdd? then ReactionEventId(b, sequence, scope) else None;
    if Truthy(id) then id else None
  }

  function Handle(p: Packet, d: Deps): Result {
    if p.eventType.None? || p.body.None? then Ignored else
    var t := p.eventType.value;
    if t.MessageCreate? then
      if !Truthy(p.body.value.id) then Ignored else
      if Truthy(d.botUserId) && p.body.value.authorId == d.botUserId then Ignored else
      var m := Normalized(p.body.value, d);
      var botAuthored := p.body.value.authorIsBot || p.body.value.webhook;
      if botAuthored && !d.autoStartChannel && !IsBotMentioned(m, d.botUserId) then Ignored else
      if Truthy(m.guildId) && Truthy(d.botUserId) && !d.autoStartChannel && !IsBotMentioned(m, d.botUserId)
         && d.thread != Some(true) && !(d.enqueueUnknownGuildChannel && d.thread.None?)
      then Ignored
      else Queue(t, m, p.sequence, d.scope)
    else Queue(t, p.body.value, p.sequence, d.scope)
  }

  function Queue(t: Q.EventType, b: Body, sequence: Option<int>, scope: Option<string>): Result {
    var id := EventId(t, b, sequence, scope);
    if id.None? then Ignored else Enqueue(Q.Envelope(id.value, t, b.content))
  }

  /** The dedupe key under which a packet is queued, if it is queued at all. */
  function KeyFor(p: Packet, scope: Option<string>): Option<Q.Key> {
    if p.eventType.None? || p.body.None? then None else
    var id := EventId(p.eventType.value, p.body.value, p.sequence, scope);
    if id.None? then None else Some(Q.Key(p.eventType.value, id.value))
  }

  /**
    A replayed packet is queued under the same key, whatever has changed in the
    bot's roles, the channel cache or the auto-start channels meanwhile.
   */
  lemma ReplayKeepsKey(p: Packet, d: Deps)
    requires Handle(p, d).Enqueue?
    ensures KeyFor(p, d.scope) == Some(Q.KeyOf(Handle(p, d).envelope))
  {
  }

  /**
    Within one bot's sessions, whose scopes are hex digests, the id made for a
    reaction determines both the session and the sequence number.
   */
  lemma ReactionIdDeterminesDispatch(r1: Body, n1: int, s1: string, r2: Body, n2: int, s2: string)
    requires ':' !in s1 && ':' !in s2 && s1 != "" && s2 != ""
    requires ReactionEventId(r1, Some(n1), Some(s1)).Some?
    requires ReactionEventId(r1, Some(n1), Some(s1)) == ReactionEventId(r2, Some(n2), Some(s2))
    ensures n1 == n2 && s1 == s2 && ReactionPrefix(r1) == ReactionPrefix(r2)
  {
    var a, b := ReactionPrefix(r1) + [':'] + s1, ReactionPrefix(r2) + [':'] + s2;
    LastFieldDetermined(a, PrintInt(n1), b, PrintInt(n2), ':');
    LastFieldDetermined(ReactionPrefix(r1), s1, ReactionPrefix(r2), s2, ':');
    PrintIntInjective(n1, n2);
  }

  function Emoji(r: Body): string {
    if r.emojiId.Some? then r.emojiId.value else Field(r.emojiName)
  }

  /** The parts of the id made for a reaction. */
  function ReactionFields(r: Body, sequence: int, scope: Option<string>): seq<string> {
    [Field(r.channelId), Field(r.messageId), Field(r.userId), Emoji(r)]
    + (if Truthy(scope) then [scope.value] else []) + [PrintInt(sequence)]
  }

  /** Discord's ids are numerals, an emoji's name has no colon, and a scope is a hex digest. */
  predicate AreColonFree(fields: seq<string>) {
    forall f :: f in fields ==> ':' !in f
  }

  lemma ReactionIdJoins(r: Body, n: int, scope: Option<string>)
    requires ReactionEventId(r, Some(n), scope).Some?
    ensures ReactionEventId(r, Some(n), scope) == Some(Join(ReactionFields(r, n, scope), ':'))
  {
    hide Join;
    var c, m, u, e, s := Field(r.channelId), Field(r.messageId), Field(r.userId), Emoji(r), PrintInt(n);
    var rest := if Truthy(scope) then [scope.value] + [s] else [s];
    assert ReactionFields(r, n, scope) == [c] + ([m] + ([u] + ([e] + rest)));
    JoinCons(c, [m] + ([u] + ([e] + rest)), ':');
    JoinCons(m, [u] + ([e] + rest), ':');
    JoinCons(u, [e] + rest, ':');
    JoinCons(e, rest, ':');
    JoinOne(s, ':');
    if Truthy(scope) {
      JoinCons(scope.value, [s], ':');
      assert ReactionPrefix(r) + [':'] + scope.value + [':'] + s
          == c + [':'] + (m + [':'] + (u + [':'] + (e + [':'] + (scope.value + [':'] + s))));
    } else {
      assert ReactionPrefix(r) + [':'] + s == c + [':'] + (m + [':'] + (u + [':'] + (e + [':'] + s)));
    }
  }

  /**
    The id made for a reaction determines its channel, message, user, emoji,
    session scope, if there is one, and sequence number.
   */
  lemma ReactionIdDeterminesReaction(r1: Body, n1: int, s1: Option<string>, r2: Body, n2: int, s2: Option<string>)
    requires ReactionEventId(r1, Some(n1), s1).Some?
    requires ReactionEventId(r1, Some(n1), s1) == ReactionEventId(r2, Some(n2), s2)
    requires AreColonFree(ReactionFields(r1, n1, s1)) && AreColonFree(ReactionFields(r2, n2, s2))
    ensures r1.channelId == r2.channelId && r1.messageId == r2.messageId && r1.userId == r2.userId
    ensures Emoji(r1) == Emoji(r2) && n1 == n2
    ensures (Truthy(s1) <==> Truthy(s2)) && (Truthy(s1) ==> s1 == s2)
  {
    var a, b := ReactionFields(r1, n1, s1), ReactionFields(r2, n2, s2);
    ReactionIdJoins(r1, n1, s1);
    ReactionIdJoins(r2, n2, s2);
    SplitJoin(a, ':');
    SplitJoin(b, ':');
    assert a == b;
    assert a[|a| - 1] == PrintInt(n1) && b[|b| - 1] == PrintInt(n2);
    PrintIntInjective(n1, n2);
    assert a[0] == b[0] && a[1] == b[1] && a[2] == b[2] && a[3] == b[3];
    assert Truthy(s1) && Truthy(s2) ==> a[4] == s1.value && b[4] == s2.value;
  }

  /* ----- which event a packet is ----- */

  /**
    The event a packet is about: its own id with its type; for a reaction, which
    has none, its parts, the session scope and the sequence number.
   */
  predicate Names(p: Packet, scope: Option<string>, k: Q.Key) {
    && p.eventType == Some(k.eventType) && p.body.Some?
    && match p.body.value.id
       case Some(id) => id != "" && k.eventId == id
       case None =>
         && k.eventType.MessageReactionAdd? && HasReaction(p)
         && k.eventId == Join(ReactionFields(p.body.value, p.sequence.value, scope), ':')
  }

  /** A numbered reaction with its channel, message, user and emoji. */
  predicate HasReaction(p: Packet) {
    && p.sequence.Some? && p.body.Some? && var r := p.body.value;
    Truthy(r.channelId) && Truthy(r.messageId) && Truthy(r.userId) && Truthy(r.emojiName)
  }

  lemma KeyForNames(p: Packet, scope: Option<string>, k: Q.Key)
    ensures KeyFor(p, scope) == Some(k) <==> Names(p, scope, k)
  {
    hide Join;
    if p.body.Some? && HasReaction(p) {
      ReactionIdJoins(p.body.value, p.sequence.value, scope);
      JoinedIsLong(p.body.value, p.sequence.value, scope);
    }
  }

  lemma JoinedIsLong(r: Body, n: int, scope: Option<string>)
    requires ReactionEventId(r, Some(n), scope).Some?
    ensures ReactionEventId(r, Some(n), scope).value != ""
  {
  }

  /**
    A packet is queued as the event it names, with its own content unless a role in
    it is made a mention of the bot.
   */
  lemma QueuedAsNamed(p: Packet, d: Deps)
    requires Handle(p, d).Enqueue?
    ensures var e, b := Handle(p, d).envelope, p.body.value;
            && Names(p, d.scope, Q.KeyOf(e))
            && (p.eventType != Some(Q.MessageCreate) || Normalized(b, d) == b ==> e.payload == b.content)
            && (p.eventType == Some(Q.MessageCreate) ==> e.payload == Normalized(b, d).content)
  {
    ReplayKeepsKey(p, d);
    hide Names, KeyFor, Normalized;
    KeyForNames(p, d.scope, Q.KeyOf(Handle(p, d).envelope));
  }

  /** Packets with ids of their own name the same event exactly when id and type agree. */
  lemma OwnIdsDistinguish(p: Packet, q: Packet, scope: Option<string>, j: Q.Key, k: Q.Key)
    requires Names(p, scope, j) && Names(q, scope, k) && p.body.value.id.Some? && q.body.value.id.Some?
    ensures j == k <==> p.eventType == q.eventType && p.body.value.id == q.body.value.id
  {
  }

  /** Interactions are queued exactly when they have an id; reactions also when they have their parts and a number. */
  lemma OtherForwardedIff(p: Packet, d: Deps)
    requires p.eventType.Some? && p.eventType != Some(Q.MessageCreate) && p.body.Some?
    ensures Handle(p, d).Enqueue? <==>
              || Truthy(p.body.value.id)
              || (p.eventType == Some(Q.MessageReactionAdd) && p.body.value.id.None? && HasReaction(p))
  {
    hide Join;
    if HasReaction(p) {
      JoinedIsLong(p.body.value, p.sequence.value, d.scope);
    }
  }

  /** Packets of other types, or without an object, are not. */
  lemma OthersAreIgnored(p: Packet, d: Deps)
    requires p.eventType.None? || p.body.None?
    ensures Handle(p, d).Ignored?
  {
  }

  /** The bot is addressed: by a user mention, or by its managed role where that is known. */
  predicate Addressed(m: Body, d: Deps) {
    Truthy(d.botUserId) &&
    (IsBotMentioned(m, d.botUserId)
     || (Truthy(d.botUsername) && Truthy(m.guildId) && Truthy(d.botRoleId) && IsBotRoleMentioned(m, d.botRoleId.value)))
  }

  /** Normalization makes every address a mention; it never makes or unmakes one otherwise. */
  lemma NormalizedMentionIff(m: Body, d: Deps)
    ensures IsBotMentioned(Normalized(m, d), d.botUserId) <==> Addressed(m, d)
  {
  }

  /** Exactly which messages are forwarded, without the order of the handler's tests. */
  lemma MessageForwardedIff(p: Packet, d: Deps)
    requires p.eventType == Some(Q.MessageCreate) && p.body.Some?
    ensures var m := p.body.value;
            Handle(p, d).Enqueue? <==>
              && Truthy(m.id)
              && !(Truthy(d.botUserId) && m.authorId == d.botUserId)
              && (|| d.autoStartChannel
                  || Addressed(m, d)
                  || (&& !m.authorIsBot && !m.webhook
                      && (|| !Truthy(m.guildId) || !Truthy(d.botUserId) || d.thread == Some(true)
                          || (d.enqueueUnknownGuildChannel && d.thread.None?))))
  {
    NormalizedMentionIff(p.body.value, d);
  }
}
