/** What the chat page publishes: the three-way destination choice (group,
    then user, then public) shared by sending and typing, the frame bodies,
    and the local echo appended after a send. */
module Outbound {
  import opened Base
  import opened Text
  import opened Users
  import opened Messages

  /** The logged-in user as read back from storage: the id as the server
      sent it, the name, the e-mail and the image's download URL. */
  datatype Account = Account(id: Scalar, username: string, email: string, avatarUrl: Option<string>)

  /** Where the current conversation is. */
  datatype Target = ToGroup(group: GroupRecord) | ToUser(user: UserRecord) | ToPublic

  /** The destination ladder: a selected group wins over a selected user,
      and with neither the public room is addressed. */
  function TargetOf(selectedUser: Option<UserRecord>, selectedGroup: Option<GroupRecord>): (t: Target)
    ensures t.ToGroup? <==> selectedGroup.Some?
    ensures t.ToUser? <==> selectedGroup.None? && selectedUser.Some?
    ensures t.ToPublic? <==> selectedGroup.None? && selectedUser.None?
    ensures t.ToGroup? ==> t.group == selectedGroup.value
    ensures t.ToUser? ==> t.user == selectedUser.value
  {
    if selectedGroup.Some? then ToGroup(selectedGroup.value)
    else if selectedUser.Some? then ToUser(selectedUser.value)
    else ToPublic
  }

  const SEND_GROUP_PREFIX := "/app/chat.sendGroupMessage/"
  const SEND_PUBLIC := "/app/chat.sendMessage"
  const TYPING_PREFIX := "/app/chat.typing/"
  const LEAVE_DESTINATION := "/app/chat.leave"

  /** The destination of a chat message. */
  function SendDestination(t: Target): string {
    match t
    case ToGroup(g) => SEND_GROUP_PREFIX + g.id
    case ToUser(u) => SEND_PUBLIC + "/" + u.id
    case ToPublic => SEND_PUBLIC
  }

  /** The destination of a typing event. */
  function TypingDestination(t: Target): string {
    match t
    case ToGroup(g) => TYPING_PREFIX + g.id
    case ToUser(u) => TYPING_PREFIX + u.id
    case ToPublic => TYPING_PREFIX + "public"
  }

  /** The id a target names, as it appears in a destination. */
  function TargetId(t: Target): string {
    match t
    case ToGroup(g) => g.id
    case ToUser(u) => u.id
    case ToPublic => ""
  }

  /** Send destinations keep the three kinds of conversation apart, and a
      destination names its target's id: the server can tell from the
      destination alone where a message goes. */
  lemma SendDestinationDetermined(t1: Target, t2: Target)
    requires SendDestination(t1) == SendDestination(t2)
    ensures t1.ToGroup? == t2.ToGroup? && t1.ToUser? == t2.ToUser?
    ensures TargetId(t1) == TargetId(t2)
  {
    var d := SendDestination(t1);
    // "/app/chat.send" is common; position 14 is 'G' for groups, 'M' otherwise
    assert d[14] == (if t1.ToGroup? then 'G' else 'M');
    assert d[14] == (if t2.ToGroup? then 'G' else 'M');
    if t1.ToGroup? {
      assert d[|SEND_GROUP_PREFIX|..] == TargetId(t1) == TargetId(t2);
    } else if t1.ToUser? && t2.ToUser? {
      assert d[|SEND_PUBLIC| + 1..] == TargetId(t1) == TargetId(t2);
    }
  }

  /** Typing destinations do not keep the kinds apart: a group and a user
      with the same id, or a user whose id is "public", share the
      destination of another target. */
  lemma TypingDestinationAmbiguous(g: GroupRecord, u: UserRecord)
    ensures g.id == u.id ==> TypingDestination(ToGroup(g)) == TypingDestination(ToUser(u))
    ensures u.id == "public" ==> TypingDestination(ToUser(u)) == TypingDestination(ToPublic)
  {
  }

  function AccountParty(me: Account): Party {
    Party(Some(me.id), Some(me.username), Some(me.email), me.avatarUrl)
  }

  function UserParty(u: UserRecord): Party {
    Party(Some(Str(u.id)), Some(u.username), Some(u.email), if u.image.Some? then u.image.value.downloadUrl else None)
  }

  function GroupParty(g: GroupRecord): Party {
    Party(Some(Str(g.id)), Some(g.groupname), None, if g.image.Some? then g.image.value.downloadUrl else None)
  }

  function RecipientOf(selectedUser: Option<UserRecord>): Option<Party> {
    if selectedUser.Some? then Some(UserParty(selectedUser.value)) else None
  }

  function GroupOf(selectedGroup: Option<GroupRecord>): Option<Party> {
    if selectedGroup.Some? then Some(GroupParty(selectedGroup.value)) else None
  }

  /** The body of a chat frame: the sender, the trimmed content, type CHAT,
      the selected user and group (each or both may be null) and the client
      clock. */
  function ChatBody(me: Account, selectedUser: Option<UserRecord>, selectedGroup: Option<GroupRecord>,
                    content: string, now: string): Envelope {
    Envelope(Some(AccountParty(me)), RecipientOf(selectedUser), GroupOf(selectedGroup),
             Some(Trim(content)), Some(now), Some(CHAT))
  }

  /** The body of a typing frame: "<name> is typing..." with type TYPING and
      no timestamp. */
  function TypingBody(me: Account, selectedUser: Option<UserRecord>, selectedGroup: Option<GroupRecord>): Envelope {
    Envelope(Some(AccountParty(me)), RecipientOf(selectedUser), GroupOf(selectedGroup),
             Some(me.username + " is typing..."), None, Some(TYPING))
  }

  /** The body of the LEAVE frame published on disconnect. */
  function LeaveBody(me: Account): Envelope {
    Envelope(Some(AccountParty(me)), None, None, None, None, Some(LEAVE))
  }

  /** The local echo appended after a send: the sender's fields, the
      selected user's and group's ids and the user's name, the trimmed
      content and type CHAT. */
  function LocalEcho(me: Account, selectedUser: Option<UserRecord>, selectedGroup: Option<GroupRecord>,
                     content: string, now: string): Message {
    Message(
      me.id, me.username, me.avatarUrl,
      if selectedUser.Some? then Some(Str(selectedUser.value.id)) else None,
      if selectedUser.Some? then Some(selectedUser.value.username) else None,
      if selectedGroup.Some? then Some(Str(selectedGroup.value.id)) else None,
      Trim(content), now, CHAT)
  }

  /** The local echo and the published body carry the same trimmed content,
      type and addressing. Their timestamps come from two separate reads of
      the client clock, so they need not agree. */
  lemma EchoAgreesWithBody(me: Account, su: Option<UserRecord>, sg: Option<GroupRecord>,
                           content: string, bodyNow: string, echoNow: string)
    ensures var e := LocalEcho(me, su, sg, content, echoNow);
      var b := ChatBody(me, su, sg, content, bodyNow);
      && b.content == Some(e.content) && b.kind == Some(e.kind)
      && b.timestamp == Some(bodyNow) && e.timestamp == echoNow
      && (e.receiverId.Some? <==> b.recipient.Some?)
      && (e.groupId.Some? <==> b.group.Some?)
      && (b.recipient.Some? ==> b.recipient.value.id == e.receiverId)
      && (b.group.Some? ==> b.group.value.id == e.groupId)
  {
  }

  /** If the broker relays the published body back to the sender unchanged,
      the normalised copy equals the local echo in every field but the
      timestamp, which is the body's clock reading rather than the echo's
      (given a sender with a truthy id and a name, and selections with
      non-empty ids and names): nothing but those two clock readings tells
      the two apart, and both stay in the list. */
  lemma RelayedCopyEqualsEcho(me: Account, su: Option<UserRecord>, sg: Option<GroupRecord>,
                               content: string, bodyNow: string, echoNow: string, later: string)
    requires Truthy(Some(me.id)) && me.username != "" && me.avatarUrl != Some("")
    requires su.Some? ==> su.value.id != "" && su.value.username != ""
    requires sg.Some? ==> sg.value.id != ""
    requires bodyNow != ""
    ensures Normalize(ChatBody(me, su, sg, content, bodyNow), later)
         == LocalEcho(me, su, sg, content, echoNow).(timestamp := bodyNow)
  {
  }
}
