/** The chat message as the client keeps it, the wire envelope it is built
    from, and the pure decisions the chat page makes on an inbound envelope:
    normalisation with defaults, the JOIN/LEAVE status line, the refresh
    signals, and the three REST history mappers. */
module Messages {
  import opened Base

  const UNKNOWN_ID: Scalar := Str("unknown")
  const UNKNOWN_USER := "Unknown User"

  const CHAT := "CHAT"
  const JOIN := "JOIN"
  const LEAVE := "LEAVE"
  const TYPING := "TYPING"
  const GROUP_ADD := "GROUP_ADD"
  const GROUP_REMOVE := "GROUP_REMOVE"

  /** A participant object inside an envelope (`sender`, `recipient` or
      `group`): its id, its display name (`username`, or `groupname` for a
      group), its e-mail and the `downloadUrl` of its image. Every field may
      be absent. */
  datatype Party = Party(id: Option<Scalar>, name: Option<string>, email: Option<string>, imageUrl: Option<string>)

  /** A parsed JSON frame body as it travels over the broker, and the shape
      of a row returned by the message-history endpoints. */
  datatype Envelope = Envelope(
    sender: Option<Party>,
    recipient: Option<Party>,
    group: Option<Party>,
    content: Option<string>,
    timestamp: Option<string>,
    kind: Option<string>)

  /** The client-side message record (`Message` in the type declarations).
      The declared `id` and `isSelf` fields are never set by the chat page
      and are not represented. `kind` is the `type` string. */
  datatype Message = Message(
    senderId: Scalar,
    senderName: string,
    senderAvatar: Option<string>,
    receiverId: Option<Scalar>,
    receiverName: Option<string>,
    groupId: Option<Scalar>,
    content: string,
    timestamp: string,
    kind: string)

  /** A message object in a list. Lists hold references: the typing timers
      remove a message by identity (`m !== msg`), not by value. */
  class MessageObject {
    const value: Message

    constructor (v: Message)
      ensures value == v
    {
      value := v;
    }
  }

  function IdOf(p: Option<Party>): Option<Scalar> {
    if p.Some? then p.value.id else None
  }

  function NameOf(p: Option<Party>): Option<string> {
    if p.Some? then p.value.name else None
  }

  function ImageOf(p: Option<Party>): Option<string> {
    if p.Some? then p.value.imageUrl else None
  }

  /** The normalised message: `sender?.id || "unknown"`,
      `sender?.username || "Unknown User"`, falsy avatar, recipient and
      group fields dropped, `content || ""`, `timestamp || now` (the client
      clock) and `type || "CHAT"`. */
  function Normalize(env: Envelope, now: string): Message {
    Message(
      ScalarOr(IdOf(env.sender), UNKNOWN_ID),
      TextOr(NameOf(env.sender), UNKNOWN_USER),
      TextOrUndefined(ImageOf(env.sender)),
      ScalarOrUndefined(IdOf(env.recipient)),
      TextOrUndefined(NameOf(env.recipient)),
      ScalarOrUndefined(IdOf(env.group)),
      TextOr(env.content, ""),
      TextOr(env.timestamp, now),
      TextOr(env.kind, CHAT))
  }

  /** The shape every normalised message has: a truthy sender id, a
      non-empty sender name, timestamp and type, and no falsy optional
      field. */
  predicate Canonical(m: Message) {
    && Truthy(Some(m.senderId))
    && m.senderName != ""
    && m.senderAvatar != Some("")
    && (m.receiverId.Some? ==> Truthy(m.receiverId))
    && m.receiverName != Some("")
    && (m.groupId.Some? ==> Truthy(m.groupId))
    && m.timestamp != ""
    && m.kind != ""
  }

  /** A reference inverse of `Normalize`: one envelope that carries every
      field of a message. It stands beside the round-trip lemma below and
      makes no claim about the frames the broker relays. */
  function Encode(m: Message): Envelope {
    Envelope(
      Some(Party(Some(m.senderId), Some(m.senderName), None, m.senderAvatar)),
      if m.receiverId.Some? || m.receiverName.Some? then Some(Party(m.receiverId, m.receiverName, None, None)) else None,
      if m.groupId.Some? then Some(Party(m.groupId, None, None, None)) else None,
      Some(m.content),
      Some(m.timestamp),
      Some(m.kind))
  }

  /** Normalisation always yields a canonical message, whatever the
      envelope holds, provided the client clock gives a non-empty
      timestamp. */
  lemma NormalizeIsCanonical(env: Envelope, now: string)
    requires now != ""
    ensures Canonical(Normalize(env, now))
  {
  }

  /** Normalisation inverts encoding: a canonical message that travels
      through the broker comes back unchanged. */
  lemma NormalizeEncode(m: Message, now: string)
    requires Canonical(m)
    ensures Normalize(Encode(m), now) == m
  {
  }

  /** Each field of the normalised message: a truthy field of the envelope
      is copied as it is, and a missing or falsy one takes its default
      ("unknown", "Unknown User", the empty content, the client clock,
      "CHAT") or is dropped. */
  lemma NormalizeDefaults(env: Envelope, now: string)
    ensures var m := Normalize(env, now);
      && (Truthy(IdOf(env.sender)) ==> m.senderId == IdOf(env.sender).value)
      && (!Truthy(IdOf(env.sender)) ==> m.senderId == UNKNOWN_ID)
      && (Filled(NameOf(env.sender)) ==> m.senderName == NameOf(env.sender).value)
      && (!Filled(NameOf(env.sender)) ==> m.senderName == UNKNOWN_USER)
      && (Filled(ImageOf(env.sender)) ==> m.senderAvatar == ImageOf(env.sender))
      && (!Filled(ImageOf(env.sender)) ==> m.senderAvatar.None?)
      && (Truthy(IdOf(env.recipient)) ==> m.receiverId == IdOf(env.recipient))
      && (!Truthy(IdOf(env.recipient)) ==> m.receiverId.None?)
      && (Filled(NameOf(env.recipient)) ==> m.receiverName == NameOf(env.recipient))
      && (!Filled(NameOf(env.recipient)) ==> m.receiverName.None?)
      && (Truthy(IdOf(env.group)) ==> m.groupId == IdOf(env.group))
      && (!Truthy(IdOf(env.group)) ==> m.groupId.None?)
      && (env.content.None? ==> m.content == "")
      && (env.content.Some? ==> m.content == env.content.value)
      && (Filled(env.timestamp) ==> m.timestamp == env.timestamp.value)
      && (!Filled(env.timestamp) ==> m.timestamp == now)
      && (Filled(env.kind) ==> m.kind == env.kind.value)
      && (!Filled(env.kind) ==> m.kind == CHAT)
  {
  }

  /** What the chat page does with a refreshed roster or group list after
      an inbound event. */
  datatype Refresh = NoRefresh | RefreshUsers | RefreshGroups

  /** The outcome of one well-formed inbound envelope: the single message
      appended to the list and the refresh it triggers. */
  datatype Inbound = Inbound(appended: Message, refresh: Refresh)

  predicate IsPresence(env: Envelope) {
    env.kind == Some(JOIN) || env.kind == Some(LEAVE)
  }

  predicate IsMembership(env: Envelope) {
    env.kind == Some(GROUP_ADD) || env.kind == Some(GROUP_REMOVE)
  }

  /** The status line synthesised for a JOIN or LEAVE event: the sender
      fields, the text "<name> joined the chat." or "<name> left the chat.",
      the client clock as timestamp and no addressing. */
  function StatusMessage(env: Envelope, now: string): Message
    requires IsPresence(env)
  {
    var name := TextOr(NameOf(env.sender), UNKNOWN_USER);
    Message(
      ScalarOr(IdOf(env.sender), UNKNOWN_ID),
      name,
      TextOrUndefined(ImageOf(env.sender)),
      None, None, None,
      name + " " + (if env.kind == Some(JOIN) then "joined" else "left") + " the chat.",
      now,
      env.kind.value)
  }

  /** The inbound dispatch of the chat page: JOIN/LEAVE append a status line
      and refresh the users, GROUP_ADD/GROUP_REMOVE append the normalised
      message and refresh the groups, anything else is appended as
      normalised. No envelope is filtered out by its addressing. */
  function Route(env: Envelope, now: string): Inbound {
    if IsPresence(env) then Inbound(StatusMessage(env, now), RefreshUsers)
    else if IsMembership(env) then Inbound(Normalize(env, now), RefreshGroups)
    else Inbound(Normalize(env, now), NoRefresh)
  }

  /** Every envelope that is not a presence event is appended exactly as
      normalised: neither its type nor its recipient or group keeps it out
      of the list. */
  lemma RouteAppendsNormalized(env: Envelope, now: string)
    ensures !IsPresence(env) ==> Route(env, now).appended == Normalize(env, now)
    ensures Route(env, now).refresh == RefreshUsers <==> IsPresence(env)
    ensures Route(env, now).refresh == RefreshGroups <==> IsMembership(env)
  {
  }

  /** A presence event appends the status line "<name> joined the chat." or
      "<name> left the chat." for the sender's name (or "Unknown User"),
      keeps the event's type, stamps the client clock and drops any
      addressing. */
  lemma RouteStatusLine(env: Envelope, now: string)
    requires IsPresence(env)
    ensures var m := Route(env, now).appended;
      var name := Normalize(env, now).senderName;
      && m.content == name + (if env.kind == Some(JOIN) then " joined the chat." else " left the chat.")
      && m.kind == env.kind.value
      && m.senderId == Normalize(env, now).senderId
      && m.timestamp == now
      && m.receiverId.None? && m.groupId.None?
  {
  }

  /** Which history endpoint a list of rows came from. */
  datatype HistoryScope = PrivateHistory | GroupHistory(groupId: string) | PublicHistory

  /** One REST history row mapped to a message. The private mapper is the
      inbound normaliser; the group mapper keeps no recipient and falls back
      to the requested group id; the public mapper keeps neither. */
  function HistoryRow(scope: HistoryScope, env: Envelope, now: string): Message {
    var m := Normalize(env, now);
    match scope
    case PrivateHistory => m
    case GroupHistory(gid) =>
      m.(receiverId := None, receiverName := None, groupId := Some(ScalarOr(IdOf(env.group), Str(gid))))
    case PublicHistory =>
      m.(receiverId := None, receiverName := None, groupId := None)
  }

  /** Every history mapper applies the same sender, content, timestamp and
      type defaults as the inbound normaliser; they differ only in the
      addressing they keep. */
  lemma HistoryRowAddressing(scope: HistoryScope, env: Envelope, now: string)
    ensures var m := HistoryRow(scope, env, now);
      var n := Normalize(env, now);
      && m.senderId == n.senderId && m.senderName == n.senderName && m.senderAvatar == n.senderAvatar
      && m.content == n.content && m.timestamp == n.timestamp && m.kind == n.kind
      && (scope.PrivateHistory? ==> m == n)
      && (scope.GroupHistory? ==> m.receiverId.None? && m.receiverName.None? && m.groupId.Some?
                                  && (Truthy(IdOf(env.group)) ==> m.groupId == n.groupId)
                                  && (!Truthy(IdOf(env.group)) ==> m.groupId == Some(Str(scope.groupId))))
      && (scope.PublicHistory? ==> m.receiverId.None? && m.receiverName.None? && m.groupId.None?)
  {
  }
}
