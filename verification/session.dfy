/** The chat page's session state and its handlers: choosing a
    conversation, sending, typing, receiving a frame, connection events,
    disconnecting and the token check, together with the effect that keeps
    one subscription to the selected group's topic.

    The broker client is represented by what the page hands it: the
    sequence `transport` of publishes, subscriptions and unsubscriptions,
    in order. Toasts and the error banner (which the page turns into a
    toast) are the sequence `toasts`. Navigation is `location`. REST
    requests are returned to the caller as `HistoryRequest` values, and
    their results come back through `ApplyHistory`. */
module Session {
  import opened Base
  import opened Text
  import opened Users
  import opened Messages
  import opened Outbound
  import opened Auth

  /** What the page hands the broker client. */
  datatype TransportOp =
    | Publish(destination: string, auth: string, body: Envelope)
    | Subscribe(topic: string)
    | Unsubscribe(topic: string)

  /** The history a handler asks the server for. */
  datatype HistoryRequest = NoHistory | FetchPrivate(user1: Scalar, user2: string) | FetchGroup(groupId: string) | FetchPublic

  const NOT_SENDABLE := "Cannot send message: Not connected or invalid input"
  const BAD_FRAME := "Error processing message"

  /** `Bearer ${localStorage.getItem("token")}`: a missing token renders as
      "null". */
  function AuthHeader(s: Storage): string {
    "Bearer " + (if TOKEN_KEY in s then s[TOKEN_KEY] else "null")
  }

  /** The topic of a group's messages. */
  function GroupTopic(id: string): string {
    "/topic/group/" + id
  }

  /** The dependencies of the group-subscription effect: whether a client
      exists, whether it is connected, and the selected group. */
  datatype EffectDeps = EffectDeps(hasClient: bool, connected: bool, group: Option<GroupRecord>)

  /** The subscription the effect holds after running with `d`: the
      selected group's topic when a client is connected, otherwise none. */
  function Subscription(d: EffectDeps): Option<string> {
    if d.hasClient && d.connected && d.group.Some? then Some(GroupTopic(d.group.value.id)) else None
  }

  function AsMultiset(o: Option<string>): multiset<string> {
    if o.Some? then multiset{o.value} else multiset{}
  }

  /** The broker-side effect of one operation on the group topics the page
      listens to. */
  function Step(live: multiset<string>, op: TransportOp): multiset<string> {
    match op
    case Subscribe(t) => live + multiset{t}
    case Unsubscribe(t) => live - multiset{t}
    case Publish(_, _, _) => live
  }

  /** The topics the page listens to after handing the client `ops`, each
      subscription counted once. */
  function Live(ops: seq<TransportOp>): multiset<string>
    decreases |ops|
  {
    if ops == [] then multiset{} else Step(Live(ops[..|ops| - 1]), ops[|ops| - 1])
  }

  lemma LiveSnoc(ops: seq<TransportOp>, op: TransportOp)
    ensures Live(ops + [op]) == Step(Live(ops), op)
  {
    assert (ops + [op])[..|ops|] == ops;
  }

  /** What the effect hands the client when it re-runs: nothing if its
      dependencies are unchanged; otherwise the cleanup's unsubscribe (if
      the last run subscribed) and then the new run's subscribe (if a
      client is connected and a group is selected). */
  function EffectOps(current: Option<string>, prev: EffectDeps, next: EffectDeps): seq<TransportOp> {
    if prev == next then []
    else
      (if current.Some? then [Unsubscribe(current.value)] else [])
      + (if Subscription(next).Some? then [Subscribe(Subscription(next).value)] else [])
  }

  /** Re-running the effect keeps the page listening to exactly the topic
      the new dependencies call for: at most one group topic, and none
      unless a client is connected and a group is selected. */
  lemma {:induction false} EffectKeepsOneSubscription(ops: seq<TransportOp>, prev: EffectDeps, next: EffectDeps)
    requires Live(ops) == AsMultiset(Subscription(prev))
    ensures Live(ops + EffectOps(Subscription(prev), prev, next)) == AsMultiset(Subscription(next))
  {
    var cur := Subscription(prev);
    if prev == next {
      assert ops + [] == ops;
    } else {
      var first := if cur.Some? then [Unsubscribe(cur.value)] else [];
      var mid := ops + first;
      if cur.Some? {
        LiveSnoc(ops, Unsubscribe(cur.value));
      } else {
        assert mid == ops;
      }
      assert Live(mid) == multiset{};
      var d := Subscription(next);
      if d.Some? {
        LiveSnoc(mid, Subscribe(d.value));
        assert ops + EffectOps(cur, prev, next) == mid + [Subscribe(d.value)];
      } else {
        assert ops + EffectOps(cur, prev, next) == mid;
      }
    }
  }

  /** The send guard: a client, a connection, a current user and a draft
      that is not blank after trimming. */
  predicate CanPublishChat(hasClient: bool, connected: bool, me: Option<Account>, content: string) {
    hasClient && connected && me.Some? && Trim(content) != []
  }

  /** The send guard rejects exactly a missing client, a lost connection,
      a missing user or a blank draft. */
  lemma CanPublishChatIff(hasClient: bool, connected: bool, me: Option<Account>, content: string)
    ensures CanPublishChat(hasClient, connected, me, content) <==> hasClient && connected && me.Some? && !IsBlank(content)
  {
    TrimEmptyIffBlank(content);
  }

  class ChatSession {
    var storage: Storage
    var currentUser: Option<Account>
    var hasClient: bool
    var connected: bool
    var selectedUser: Option<UserRecord>
    var selectedGroup: Option<GroupRecord>
    var messages: seq<MessageObject>
    var groupSubscription: Option<string>
    var transport: seq<TransportOp>
    var toasts: seq<string>
    var location: Option<string>

    function Deps(): EffectDeps
      reads this`hasClient, this`connected, this`selectedGroup
    {
      EffectDeps(hasClient, connected, selectedGroup)
    }

    /** At most one of a user and a group is selected; the group
        subscription is the one the current dependencies call for, and it is
        the only group topic the page listens to. */
    ghost predicate Valid()
      reads this`selectedUser, this`selectedGroup, this`hasClient, this`connected, this`groupSubscription, this`transport
    {
      && (selectedUser.None? || selectedGroup.None?)
      && groupSubscription == Subscription(Deps())
      && Live(transport) == AsMultiset(groupSubscription)
    }

    /** The page mounts: the stored user is parsed (`parseAccount` stands
        for `JSON.parse`), nothing is selected or connected, and the page
        leaves for the login page when there is no user. */
    constructor (s: Storage, parseAccount: string -> Option<Account>)
      ensures Valid()
      ensures storage == s
      ensures currentUser == (if Present(s, USER_KEY) then parseAccount(s[USER_KEY]) else None)
      ensures !hasClient && !connected && selectedUser.None? && selectedGroup.None?
      ensures messages == [] && transport == [] && toasts == []
      ensures location == (if currentUser.None? then Some(LOGIN_PATH) else None)
    {
      storage := s;
      var user := if Present(s, USER_KEY) then parseAccount(s[USER_KEY]) else None;
      currentUser := user;
      hasClient := false;
      connected := false;
      selectedUser := None;
      selectedGroup := None;
      messages := [];
      groupSubscription := None;
      transport := [];
      toasts := [];
      location := if user.None? then Some(LOGIN_PATH) else None;
    }

    /** The group-subscription effect after a render whose dependencies
        were `prev` before the handler ran. */
    method RerunGroupEffect(prev: EffectDeps)
      requires groupSubscription == Subscription(prev)
      requires Live(transport) == AsMultiset(groupSubscription)
      modifies this`transport, this`groupSubscription
      ensures transport == old(transport) + EffectOps(old(groupSubscription), prev, Deps())
      ensures groupSubscription == Subscription(Deps())
      ensures Live(transport) == AsMultiset(groupSubscription)
    {
      EffectKeepsOneSubscription(transport, prev, Deps());
      transport := transport + EffectOps(groupSubscription, prev, Deps());
      groupSubscription := Subscription(Deps());
    }

    /** `handleUserSelect`: the user is selected, the group cleared, the
        list emptied, and the private history between the current user and
        the chosen one requested. */
    method SelectUser(user: UserRecord) returns (request: HistoryRequest)
      requires Valid()
      modifies this`selectedUser, this`selectedGroup, this`messages, this`transport, this`groupSubscription
      ensures Valid()
      ensures selectedUser == Some(user) && selectedGroup.None? && messages == []
      ensures request == if old(currentUser).Some? then FetchPrivate(old(currentUser).value.id, user.id) else NoHistory
      ensures transport == old(transport) + EffectOps(old(groupSubscription), old(Deps()), Deps())
    {
      var prev := Deps();
      selectedUser := Some(user);
      selectedGroup := None;
      messages := [];
      RerunGroupEffect(prev);
      request := if currentUser.Some? then FetchPrivate(currentUser.value.id, user.id) else NoHistory;
    }

    /** `handleGroupSelect`: the group is selected, the user cleared, the
        list emptied, and the group's history requested. */
    method SelectGroup(group: GroupRecord) returns (request: HistoryRequest)
      requires Valid()
      modifies this`selectedUser, this`selectedGroup, this`messages, this`transport, this`groupSubscription
      ensures Valid()
      ensures selectedGroup == Some(group) && selectedUser.None? && messages == []
      ensures request == FetchGroup(group.id)
      ensures transport == old(transport) + EffectOps(old(groupSubscription), old(Deps()), Deps())
    {
      var prev := Deps();
      selectedGroup := Some(group);
      selectedUser := None;
      messages := [];
      RerunGroupEffect(prev);
      request := FetchGroup(group.id);
    }

    /** `handlePublicChatSelect`: both selections cleared, the list emptied,
        and the public history requested. */
    method SelectPublic() returns (request: HistoryRequest)
      requires Valid()
      modifies this`selectedUser, this`selectedGroup, this`messages, this`transport, this`groupSubscription
      ensures Valid()
      ensures selectedUser.None? && selectedGroup.None? && messages == []
      ensures request == FetchPublic
      ensures transport == old(transport) + EffectOps(old(groupSubscription), old(Deps()), Deps())
    {
      var prev := Deps();
      selectedUser := None;
      selectedGroup := None;
      messages := [];
      RerunGroupEffect(prev);
      request := FetchPublic;
    }

    /** A history response: the list is replaced by the rows mapped with the
        scope's mapper, each a new message object. */
    method ApplyHistory(scope: HistoryScope, rows: seq<Envelope>, now: string)
      requires Valid()
      modifies this`messages
      ensures Valid()
      ensures |messages| == |rows|
      ensures forall i :: 0 <= i < |rows| ==> messages[i].value == HistoryRow(scope, rows[i], now) && fresh(messages[i])
    {
      var built: seq<MessageObject> := [];
      var i := 0;
      while i < |rows|
        invariant 0 <= i <= |rows| && |built| == i
        invariant forall j :: 0 <= j < i ==> built[j].value == HistoryRow(scope, rows[j], now) && fresh(built[j])
      {
        var m := new MessageObject(HistoryRow(scope, rows[i], now));
        built := built + [m];
        i := i + 1;
      }
      messages := built;
    }

    /** `handleSendMessage`: a rejected send only toasts; an accepted one
        publishes the chat body to the destination the selection calls for
        and appends one local echo at the end of the list. The body and the
        echo each read the client clock: `bodyNow` and `echoNow`. */
    method SendMessage(content: string, bodyNow: string, echoNow: string)
      requires Valid()
      modifies this`transport, this`messages, this`toasts
      ensures Valid()
      ensures !CanPublishChat(hasClient, connected, currentUser, content) ==>
        transport == old(transport) && messages == old(messages) && toasts == old(toasts) + [NOT_SENDABLE]
      ensures CanPublishChat(hasClient, connected, currentUser, content) ==>
        && transport == old(transport) + [Publish(SendDestination(TargetOf(selectedUser, selectedGroup)), AuthHeader(storage),
                                                  ChatBody(currentUser.value, selectedUser, selectedGroup, content, bodyNow))]
        && |messages| == |old(messages)| + 1 && messages[..|old(messages)|] == old(messages)
        && fresh(messages[|old(messages)|])
        && messages[|old(messages)|].value == LocalEcho(currentUser.value, selectedUser, selectedGroup, content, echoNow)
        && toasts == old(toasts)
    {
      if !CanPublishChat(hasClient, connected, currentUser, content) {
        toasts := toasts + [NOT_SENDABLE];
        return;
      }
      var me := currentUser.value;
      var destination := SendDestination(TargetOf(selectedUser, selectedGroup));
      var op := Publish(destination, AuthHeader(storage), ChatBody(me, selectedUser, selectedGroup, content, bodyNow));
      LiveSnoc(transport, op);
      transport := transport + [op];
      var echo := new MessageObject(LocalEcho(me, selectedUser, selectedGroup, content, echoNow));
      messages := messages + [echo];
    }

    /** The debounced typing handler: with a client, a connection and a
        current user it publishes the typing body to the typing destination
        the selection calls for; otherwise it does nothing. */
    method Typing()
      requires Valid()
      modifies this`transport
      ensures Valid()
      ensures !(hasClient && connected && currentUser.Some?) ==> transport == old(transport)
      ensures hasClient && connected && currentUser.Some? ==>
        transport == old(transport) + [Publish(TypingDestination(TargetOf(selectedUser, selectedGroup)), AuthHeader(storage),
                                               TypingBody(currentUser.value, selectedUser, selectedGroup))]
    {
      if !(hasClient && connected && currentUser.Some?) {
        return;
      }
      var op := Publish(TypingDestination(TargetOf(selectedUser, selectedGroup)), AuthHeader(storage),
                        TypingBody(currentUser.value, selectedUser, selectedGroup));
      LiveSnoc(transport, op);
      transport := transport + [op];
    }

    /** `onMessageReceived`: a frame whose body does not parse (`None`) only
        raises "Error processing message"; any other frame appends exactly
        one message at the end of the list, whatever its type or
        addressing, and reports the refresh it triggers. */
    method OnMessageReceived(payload: Option<Envelope>, now: string) returns (refresh: Refresh)
      requires Valid()
      modifies this`messages, this`toasts
      ensures Valid()
      ensures payload.None? ==> messages == old(messages) && toasts == old(toasts) + [BAD_FRAME] && refresh == NoRefresh
      ensures payload.Some? ==>
        && |messages| == |old(messages)| + 1 && messages[..|old(messages)|] == old(messages)
        && fresh(messages[|old(messages)|])
        && messages[|old(messages)|].value == Route(payload.value, now).appended
        && refresh == Route(payload.value, now).refresh
        && toasts == old(toasts)
    {
      if payload.None? {
        toasts := toasts + [BAD_FRAME];
        refresh := NoRefresh;
        return;
      }
      var inbound := Route(payload.value, now);
      var m := new MessageObject(inbound.appended);
      messages := messages + [m];
      refresh := inbound.refresh;
    }

    /** The client is created and activated. */
    method AttachClient()
      requires Valid()
      modifies this`hasClient, this`transport, this`groupSubscription
      ensures Valid()
      ensures hasClient
      ensures transport == old(transport) + EffectOps(old(groupSubscription), old(Deps()), Deps())
    {
      var prev := Deps();
      hasClient := true;
      RerunGroupEffect(prev);
    }

    /** The client reports a connection. */
    method OnConnect()
      requires Valid()
      modifies this`connected, this`transport, this`groupSubscription
      ensures Valid()
      ensures connected
      ensures transport == old(transport) + EffectOps(old(groupSubscription), old(Deps()), Deps())
    {
      var prev := Deps();
      connected := true;
      RerunGroupEffect(prev);
    }

    /** The client reports the connection lost or the socket closed. */
    method OnConnectionLost()
      requires Valid()
      modifies this`connected, this`transport, this`groupSubscription
      ensures Valid()
      ensures !connected
      ensures transport == old(transport) + EffectOps(old(groupSubscription), old(Deps()), Deps())
    {
      var prev := Deps();
      connected := false;
      RerunGroupEffect(prev);
    }

    /** `handleDisconnect`: with a client, a connection and a user, a LEAVE
        frame is published and the connection dropped; in every case the
        credentials are removed, the user forgotten and the page sent to the
        login page. */
    method Disconnect()
      requires Valid()
      modifies this`transport, this`connected, this`groupSubscription, this`storage, this`currentUser, this`location
      ensures Valid()
      ensures var announced := old(hasClient && connected && currentUser.Some?);
        && (announced ==> transport == old(transport) + [Publish(LEAVE_DESTINATION, AuthHeader(old(storage)), LeaveBody(old(currentUser).value))]
                                        + EffectOps(old(groupSubscription), old(Deps()), Deps()))
        && (!announced ==> transport == old(transport))
        && connected == (old(connected) && !announced)
      ensures storage == ClearAuth(old(storage)) && currentUser.None? && location == Some(LOGIN_PATH)
    {
      if hasClient && connected && currentUser.Some? {
        AnnounceLeave();
      }
      storage := ClearAuth(storage);
      currentUser := None;
      location := Some(LOGIN_PATH);
    }

    /** The LEAVE frame and the deactivation of the client. */
    method AnnounceLeave()
      requires Valid() && hasClient && connected && currentUser.Some?
      modifies this`transport, this`connected, this`groupSubscription
      ensures Valid() && !connected
      ensures transport == old(transport) + [Publish(LEAVE_DESTINATION, AuthHeader(storage), LeaveBody(currentUser.value))]
                           + EffectOps(old(groupSubscription), old(Deps()), Deps())
    {
      var prev := Deps();
      var op := Publish(LEAVE_DESTINATION, AuthHeader(storage), LeaveBody(currentUser.value));
      LiveSnoc(transport, op);
      transport := transport + [op];
      connected := false;
      RerunGroupEffect(prev);
    }

    /** `validateToken`: a missing, undecodable or expired token raises its
        error and sends the page to the login page, the latter two also
        removing the credentials; a valid token changes nothing. */
    method ValidateToken(decode: string -> Claims, nowMillis: int) returns (ok: bool)
      requires Valid()
      modifies this`storage, this`toasts, this`location
      ensures Valid()
      ensures ok <==> CheckToken(old(storage), decode, nowMillis) == TokenOk
      ensures var v := CheckToken(old(storage), decode, nowMillis);
        && storage == (if TokenClears(v) then ClearAuth(old(storage)) else old(storage))
        && toasts == (if ok then old(toasts) else old(toasts) + [TokenMessage(v)])
        && location == (if ok then old(location) else Some(LOGIN_PATH))
    {
      var v := CheckToken(storage, decode, nowMillis);
      ok := v == TokenOk;
      if !ok {
        toasts := toasts + [TokenMessage(v)];
        if TokenClears(v) {
          storage := ClearAuth(storage);
        }
        location := Some(LOGIN_PATH);
      }
    }
  }
}
