/** The message list view: its copy of the messages, the map from typing
    key to timer handle that it keeps in step with the TYPING messages, the
    removal a timer performs when it fires, and the text of system lines.

    The runtime's timers are modelled by `armed`: each handle that has been
    set and neither cleared nor fired, with the removal its callback
    performs. `setTimeout` returns a fresh handle (`nextHandle`),
    `clearTimeout` removes a handle from `armed`, and only an armed handle
    can fire. */
module TypingTimers {
  import opened Base
  import opened Messages

  /** What a pending timer's callback removes: the message object it
      captured and the key it deletes. */
  datatype PendingRemoval = PendingRemoval(target: MessageObject, key: string)

  /** The addressing half of a typing key: the receiver id, else the group
      id, else "public" (each test is JavaScript truthiness). */
  function ScopePart(m: Message): string {
    if Truthy(m.receiverId) then Render(m.receiverId.value)
    else if Truthy(m.groupId) then Render(m.groupId.value)
    else "public"
  }

  /** `${senderId}-${receiverId || groupId || "public"}`. */
  function TypingKey(m: Message): string {
    Render(m.senderId) + "-" + ScopePart(m)
  }

  /** A receiver id takes precedence over a group id, and the key does not
      record which of the two it used: a typing message to user x and one in
      group y from the same sender share a key when x and y render alike. */
  lemma TypingKeyCollides(m1: Message, m2: Message)
    requires m1.senderId == m2.senderId
    requires Truthy(m1.receiverId) && !Truthy(m2.receiverId) && Truthy(m2.groupId)
    requires Render(m1.receiverId.value) == Render(m2.groupId.value)
    ensures TypingKey(m1) == TypingKey(m2)
  {
  }

  /** `messages.filter(msg => msg.type === "TYPING")`. */
  function TypingOnly(s: seq<MessageObject>): (r: seq<MessageObject>)
    ensures |r| <= |s|
    ensures forall i :: 0 <= i < |r| ==> r[i] in s && r[i].value.kind == TYPING
    ensures forall i :: 0 <= i < |s| && s[i].value.kind == TYPING ==> s[i] in r
  {
    if s == [] then []
    else if s[0].value.kind == TYPING then [s[0]] + TypingOnly(s[1..])
    else TypingOnly(s[1..])
  }

  /** The filter keeps the list's order and each TYPING message once:
      appending a message appends it to the filtered list exactly when it
      is a TYPING message. */
  lemma {:induction false} TypingOnlyAppend(s: seq<MessageObject>, x: MessageObject)
    ensures TypingOnly(s + [x]) == TypingOnly(s) + (if x.value.kind == TYPING then [x] else [])
    decreases |s|
  {
    if s == [] {
      assert [x][1..] == [];
    } else {
      assert (s + [x])[1..] == s[1..] + [x];
      TypingOnlyAppend(s[1..], x);
    }
  }

  /** A TYPING message with key `k`. */
  predicate TypingWithKey(m: MessageObject, k: string) {
    m.value.kind == TYPING && TypingKey(m.value) == k
  }

  /** `typing.some(msg => key(msg) === k)`. */
  predicate HasKey(typing: seq<MessageObject>, k: string) {
    exists i :: 0 <= i < |typing| && TypingKey(typing[i].value) == k
  }

  /** The keys of the TYPING messages in a list. */
  function ActiveKeys(messages: seq<MessageObject>): set<string> {
    var typing := TypingOnly(messages);
    set i | 0 <= i < |typing| :: TypingKey(typing[i].value)
  }

  lemma ActiveKeysAreKeys(messages: seq<MessageObject>, k: string)
    ensures k in ActiveKeys(messages) <==> HasKey(TypingOnly(messages), k)
  {
  }

  /** The first message in `typing` with key `k`: the one whose timer the
      reconciliation arms, because later ones find the key present. */
  function FirstWithKey(typing: seq<MessageObject>, k: string): (r: MessageObject)
    requires HasKey(typing, k)
    ensures r in typing && TypingKey(r.value) == k
  {
    if TypingKey(typing[0].value) == k then typing[0]
    else
      assert HasKey(typing[1..], k) by {
        var i :| 0 <= i < |typing| && TypingKey(typing[i].value) == k;
        assert typing[1..][i - 1] == typing[i];
      }
      FirstWithKey(typing[1..], k)
  }

  /** Appending a message adds exactly its key. */
  lemma HasKeyAppend(s: seq<MessageObject>, x: MessageObject, k: string)
    ensures HasKey(s + [x], k) <==> HasKey(s, k) || TypingKey(x.value) == k
  {
    var t := s + [x];
    if HasKey(s, k) {
      var i :| 0 <= i < |s| && TypingKey(s[i].value) == k;
      assert t[i] == s[i];
    }
    if TypingKey(x.value) == k {
      assert t[|s|] == x;
    }
    if HasKey(t, k) && TypingKey(x.value) != k {
      var i :| 0 <= i < |t| && TypingKey(t[i].value) == k;
      assert t[i] == s[i];
    }
  }

  /** Appending a message leaves the first holder of a key in place, and
      makes the appended message the first holder of a key nobody held. */
  lemma {:induction false} FirstWithKeyAppend(s: seq<MessageObject>, x: MessageObject, k: string)
    ensures HasKey(s, k) ==> HasKey(s + [x], k) && FirstWithKey(s + [x], k) == FirstWithKey(s, k)
    ensures !HasKey(s, k) && TypingKey(x.value) == k ==> HasKey(s + [x], k) && FirstWithKey(s + [x], k) == x
  {
    var t := s + [x];
    if HasKey(s, k) {
      var i :| 0 <= i < |s| && TypingKey(s[i].value) == k;
      assert t[i] == s[i];
      if TypingKey(s[0].value) != k {
        assert t[1..] == s[1..] + [x];
        assert s[1..][i - 1] == s[i];
        FirstWithKeyAppend(s[1..], x, k);
      }
    } else if TypingKey(x.value) == k {
      assert t[|s|] == x;
      if s != [] {
        assert t[1..] == s[1..] + [x];
        assert !HasKey(s[1..], k) by {
          forall i | 0 <= i < |s[1..]| ensures TypingKey(s[1..][i].value) != k {
            assert s[1..][i] == s[i + 1];
          }
        }
        FirstWithKeyAppend(s[1..], x, k);
      }
    }
  }

  /** A list that starts with a TYPING message with key `k` has that
      message as the first TYPING message with key `k`. */
  lemma FirstWithKeyHead(ms: seq<MessageObject>, k: string)
    requires ms != [] && TypingWithKey(ms[0], k)
    ensures HasKey(TypingOnly(ms), k) && FirstWithKey(TypingOnly(ms), k) == ms[0]
  {
    assert TypingOnly(ms)[0] == ms[0];
  }

  /** Dropping a leading message that is not a TYPING message with key `k`
      from a list keeps the first TYPING message with key `k`. */
  lemma FirstWithKeySkip(ms: seq<MessageObject>, k: string)
    requires ms != [] && !TypingWithKey(ms[0], k) && HasKey(TypingOnly(ms), k)
    ensures HasKey(TypingOnly(ms[1..]), k)
    ensures FirstWithKey(TypingOnly(ms), k) == FirstWithKey(TypingOnly(ms[1..]), k)
  {
    var t, u := TypingOnly(ms), TypingOnly(ms[1..]);
    if ms[0].value.kind == TYPING {
      assert t == [ms[0]] + u;
      assert t[1..] == u;
      var n :| 0 <= n < |t| && TypingKey(t[n].value) == k;
      assert u[n - 1] == t[n];
    } else {
      assert t == u;
    }
  }

  /** No element before index `i + 1` of `ms` is a TYPING message with key
      `k` when none before `i` in its tail is and its head is not. */
  lemma NoneEarlierShifted(ms: seq<MessageObject>, k: string, i: nat)
    requires i < |ms| - 1 && !TypingWithKey(ms[0], k)
    requires forall j :: 0 <= j < i ==> !TypingWithKey(ms[1..][j], k)
    ensures forall j :: 0 <= j < i + 1 ==> !TypingWithKey(ms[j], k)
  {
    forall j | 0 < j < i + 1 ensures !TypingWithKey(ms[j], k) {
      assert ms[j] == ms[1..][j - 1];
    }
  }

  /** The message whose timer the reconciliation arms for `k` is the
      earliest TYPING message with that key in the whole list. */
  lemma {:induction false} FirstWithKeyIsEarliest(ms: seq<MessageObject>, k: string) returns (i: nat)
    requires HasKey(TypingOnly(ms), k)
    ensures i < |ms| && ms[i] == FirstWithKey(TypingOnly(ms), k) && TypingWithKey(ms[i], k)
    ensures forall j :: 0 <= j < i ==> !TypingWithKey(ms[j], k)
    decreases |ms|
  {
    assert ms != [];
    if TypingWithKey(ms[0], k) {
      FirstWithKeyHead(ms, k);
      i := 0;
    } else {
      FirstWithKeySkip(ms, k);
      var i' := FirstWithKeyIsEarliest(ms[1..], k);
      NoneEarlierShifted(ms, k, i');
      i := i' + 1;
      assert ms[i] == ms[1..][i'];
    }
  }

  /** `prev.filter(m => m !== target)`: removal by identity. */
  function Without(s: seq<MessageObject>, target: MessageObject): (r: seq<MessageObject>)
    ensures forall i :: 0 <= i < |r| ==> r[i] in s && r[i] != target
    ensures forall i :: 0 <= i < |s| && s[i] != target ==> s[i] in r
    ensures |r| <= |s|
  {
    if s == [] then []
    else if s[0] == target then Without(s[1..], target)
    else [s[0]] + Without(s[1..], target)
  }

  /** When the target occurs once, at index i, removal drops exactly that
      element and keeps the others in order. */
  lemma {:induction false} WithoutSingle(s: seq<MessageObject>, i: nat)
    requires i < |s|
    requires forall j :: 0 <= j < |s| && j != i ==> s[j] != s[i]
    ensures Without(s, s[i]) == s[..i] + s[i + 1..]
  {
    var t := s[i];
    if i == 0 {
      assert t !in s[1..];
      WithoutAbsent(s[1..], t);
    } else {
      var r := s[1..];
      assert r[i - 1] == t;
      forall j | 0 <= j < |r| && j != i - 1 ensures r[j] != r[i - 1] {
        assert r[j] == s[j + 1];
      }
      WithoutSingle(r, i - 1);
      assert s[0] != t;
      assert Without(s, t) == [s[0]] + (r[..i - 1] + r[i..]);
      assert r[..i - 1] == s[1..i];
      assert r[i..] == s[i + 1..];
      assert s[..i] == [s[0]] + s[1..i];
    }
  }

  lemma {:induction false} WithoutAbsent(s: seq<MessageObject>, target: MessageObject)
    requires target !in s
    ensures Without(s, target) == s
  {
    if s != [] {
      assert s[1..] + [] == s[1..];
      WithoutAbsent(s[1..], target);
    }
  }

  /** The four system types. */
  predicate IsSystemKind(kind: string) {
    kind == JOIN || kind == LEAVE || kind == GROUP_ADD || kind == GROUP_REMOVE
  }

  /** The fixed phrase each system type is rendered with. */
  function SystemPhrase(kind: string): string
    requires IsSystemKind(kind)
  {
    if kind == JOIN then "joined the chat"
    else if kind == LEAVE then "left the chat"
    else if kind == GROUP_ADD then "was added to the group"
    else "was removed from the group"
  }

  /** How one message is drawn: a centred system line, a typing line, or a
      chat bubble on the right for the current user's own messages. */
  datatype Line = SystemLine(text: string) | TypingLine(text: string) | Bubble(mine: bool, content: string)

  /** The rendering decision of the message list. A system line shows the
      sender's name and the type's phrase, never the stored content. */
  function RenderLine(m: Message, me: Option<Scalar>): Line {
    if IsSystemKind(m.kind) then SystemLine(m.senderName + " " + SystemPhrase(m.kind))
    else if m.kind == TYPING then TypingLine(m.senderName + " is typing...")
    else Bubble(me.Some? && m.senderId == me.value, m.content)
  }

  /** For one sender name, the four system types give four different lines,
      and each line ends with its type's phrase. */
  lemma SystemLinesDistinct(m1: Message, m2: Message, me: Option<Scalar>)
    requires IsSystemKind(m1.kind) && IsSystemKind(m2.kind)
    requires m1.senderName == m2.senderName && m1.kind != m2.kind
    ensures RenderLine(m1, me).SystemLine? && RenderLine(m2, me).SystemLine?
    ensures RenderLine(m1, me) != RenderLine(m2, me)
  {
    assert |m1.senderName + " " + SystemPhrase(m1.kind)| != |m2.senderName + " " + SystemPhrase(m2.kind)|;
  }

  /** A presence event the chat page appended is drawn as
      "<name> joined the chat" or "<name> left the chat": the period of the
      stored status text is not shown. */
  lemma PresenceLineFromName(env: Envelope, now: string, me: Option<Scalar>)
    requires IsPresence(env)
    ensures var m := Route(env, now).appended;
      RenderLine(m, me) == SystemLine(m.senderName + (if env.kind == Some(JOIN) then " joined the chat" else " left the chat"))
  {
  }

  /** The message list component. */
  class ChatMessages {
    var displayed: seq<MessageObject>
    var timeouts: map<string, nat>
    var armed: map<nat, PendingRemoval>
    var nextHandle: nat

    /** Every key's handle is armed with a callback for that key; every armed
        handle is the handle of its key; handles come from the counter. */
    ghost predicate Valid()
      reads this
    {
      && (forall k :: k in timeouts ==> timeouts[k] in armed && armed[timeouts[k]].key == k)
      && (forall h :: h in armed ==> armed[h].key in timeouts && timeouts[armed[h].key] == h)
      && (forall h :: h in armed ==> h < nextHandle)
    }

    constructor ()
      ensures Valid()
      ensures displayed == [] && timeouts == map[] && armed == map[]
    {
      displayed := [];
      timeouts := map[];
      armed := map[];
      nextHandle := 0;
    }

    /** The body of the effect that runs when `messages` changes. It resets
        the displayed list, clears and deletes the timer of every key that
        no TYPING message holds any more, and arms a three-second timer for
        every key held by a TYPING message that has none yet. */
    method Reconcile(messages: seq<MessageObject>)
      requires Valid()
      modifies this
      ensures Valid()
      ensures displayed == messages
      ensures timeouts.Keys == ActiveKeys(messages)
      ensures nextHandle >= old(nextHandle)
      // a key that stays keeps its timer: it is not re-armed
      ensures forall k :: k in old(timeouts) && k in timeouts ==>
        timeouts[k] == old(timeouts)[k] && armed[timeouts[k]] == old(armed)[old(timeouts)[k]]
      // a new key's timer is fresh and removes the first TYPING message with that key
      ensures forall k :: k in timeouts && k !in old(timeouts) ==>
        timeouts[k] >= old(nextHandle) && HasKey(TypingOnly(messages), k)
        && armed[timeouts[k]] == PendingRemoval(FirstWithKey(TypingOnly(messages), k), k)
    {
      displayed := messages;
      var typing := TypingOnly(messages);
      DropStaleTimers(typing);
      ArmNewTimers(typing);
      forall k ensures k in timeouts <==> k in ActiveKeys(messages) {
        ActiveKeysAreKeys(messages, k);
      }
    }

    /** The first loop of the effect: every key that no TYPING message holds
        has its timer cleared and is deleted; the other keys keep theirs. */
    method DropStaleTimers(typing: seq<MessageObject>)
      requires Valid()
      modifies this`timeouts, this`armed
      ensures Valid()
      ensures forall k :: k in timeouts <==> k in old(timeouts) && HasKey(typing, k)
      ensures forall k :: k in timeouts ==> timeouts[k] == old(timeouts)[k]
      ensures forall h :: h in armed ==> h in old(armed) && armed[h] == old(armed)[h]
    {
      var pending := timeouts.Keys;
      while pending != {}
        invariant Valid()
        invariant pending <= timeouts.Keys
        invariant forall k :: k in timeouts <==> k in old(timeouts) && (k in pending || HasKey(typing, k))
        invariant forall k :: k in timeouts ==> timeouts[k] == old(timeouts)[k]
        invariant forall h :: h in armed ==> h in old(armed) && armed[h] == old(armed)[h]
        decreases pending
      {
        var k :| k in pending;
        if !HasKey(typing, k) {
          armed := armed - {timeouts[k]};
          timeouts := timeouts - {k};
        }
        pending := pending - {k};
      }
    }

    /** The second loop of the effect: in list order, a TYPING message whose
        key has no timer gets a fresh one that will remove it; a key that
        already has a timer keeps it. */
    method ArmNewTimers(typing: seq<MessageObject>)
      requires Valid()
      modifies this`timeouts, this`armed, this`nextHandle
      ensures Valid()
      ensures nextHandle >= old(nextHandle)
      ensures forall k :: k in timeouts <==> k in old(timeouts) || HasKey(typing, k)
      ensures forall k :: k in old(timeouts) ==>
        timeouts[k] == old(timeouts)[k] && armed[timeouts[k]] == old(armed)[old(timeouts)[k]]
      ensures forall k :: k in timeouts && k !in old(timeouts) ==>
        timeouts[k] >= old(nextHandle) && HasKey(typing, k)
        && armed[timeouts[k]] == PendingRemoval(FirstWithKey(typing, k), k)
    {
      ghost var t0, a0, h0 := timeouts, armed, nextHandle;
      var i := 0;
      assert typing[..0] == [];
      while i < |typing|
        invariant 0 <= i <= |typing|
        invariant Valid()
        invariant ArmedUpTo(t0, a0, h0, typing[..i])
      {
        var msg := typing[i];
        assert typing[..i + 1] == typing[..i] + [msg];
        ArmOne(t0, a0, h0, typing[..i], msg);
        i := i + 1;
      }
      assert typing[..i] == typing;
    }

    /** The state after the arming loop has seen `s`, relative to the state
        `t0`, `a0`, `h0` before it: the keys are the old ones and those held
        in `s`; an old key keeps its timer; a new key has a fresh timer that
        removes the first message of `s` holding it. */
    ghost predicate ArmedUpTo(t0: map<string, nat>, a0: map<nat, PendingRemoval>, h0: nat, s: seq<MessageObject>)
      reads this
    {
      && nextHandle >= h0
      && (forall k :: k in timeouts <==> k in t0 || HasKey(s, k))
      && (forall k :: k in t0 ==>
            t0[k] in a0 && timeouts[k] == t0[k] && timeouts[k] in armed && armed[timeouts[k]] == a0[t0[k]])
      && (forall k :: k in timeouts && k !in t0 ==>
            timeouts[k] >= h0 && HasKey(s, k) && timeouts[k] in armed
            && armed[timeouts[k]] == PendingRemoval(FirstWithKey(s, k), k))
    }

    /** One step of the arming loop: a message whose key has no timer gets a
        fresh one; otherwise nothing changes. */
    method ArmOne(ghost t0: map<string, nat>, ghost a0: map<nat, PendingRemoval>, ghost h0: nat,
                  ghost s: seq<MessageObject>, msg: MessageObject)
      requires Valid() && ArmedUpTo(t0, a0, h0, s)
      modifies this`timeouts, this`armed, this`nextHandle
      ensures Valid() && ArmedUpTo(t0, a0, h0, s + [msg])
    {
      var key := TypingKey(msg.value);
      if key in timeouts {
        KeyAlreadyArmed(t0, a0, h0, s, msg);
      } else {
        ghost var t1, a1 := timeouts, armed;
        var handle := nextHandle;
        nextHandle := nextHandle + 1;
        armed := armed[handle := PendingRemoval(msg, key)];
        timeouts := timeouts[key := handle];
        KeyFreshlyArmed(t0, a0, h0, s, msg, t1, a1);
      }
    }

    /** A message whose key already has a timer changes nothing. */
    lemma KeyAlreadyArmed(t0: map<string, nat>, a0: map<nat, PendingRemoval>, h0: nat,
                          s: seq<MessageObject>, msg: MessageObject)
      requires ArmedUpTo(t0, a0, h0, s) && TypingKey(msg.value) in timeouts
      ensures ArmedUpTo(t0, a0, h0, s + [msg])
    {
      forall k ensures HasKey(s + [msg], k) <==> HasKey(s, k) || k == TypingKey(msg.value) {
        HasKeyAppend(s, msg, k);
      }
      forall k | k in timeouts && k !in t0
        ensures FirstWithKey(s + [msg], k) == FirstWithKey(s, k)
      {
        FirstWithKeyAppend(s, msg, k);
      }
    }

    /** The state right after a fresh handle was armed for `msg`, whose key
        had none: `t1` and `a1` are the maps before, and they satisfied
        `ArmedUpTo` for `s`. */
    ghost predicate FreshlyArmed(t0: map<string, nat>, a0: map<nat, PendingRemoval>, h0: nat,
                                 s: seq<MessageObject>, msg: MessageObject,
                                 t1: map<string, nat>, a1: map<nat, PendingRemoval>)
      reads this
    {
      var key := TypingKey(msg.value);
      && key !in t1 && nextHandle >= 1 && nextHandle - 1 >= h0
      && timeouts == t1[key := nextHandle - 1]
      && armed == a1[nextHandle - 1 := PendingRemoval(msg, key)]
      && (forall h :: h in a1 ==> h < nextHandle - 1)
      && (forall k :: k in t1 <==> k in t0 || HasKey(s, k))
      && (forall k :: k in t0 ==> t0[k] in a0 && t1[k] == t0[k] && t1[k] in a1 && a1[t1[k]] == a0[t0[k]])
      && (forall k :: k in t1 && k !in t0 ==>
            t1[k] >= h0 && HasKey(s, k) && t1[k] in a1 && a1[t1[k]] == PendingRemoval(FirstWithKey(s, k), k))
    }

    /** Arming a fresh handle for a message whose key had none. */
    lemma KeyFreshlyArmed(t0: map<string, nat>, a0: map<nat, PendingRemoval>, h0: nat,
                          s: seq<MessageObject>, msg: MessageObject,
                          t1: map<string, nat>, a1: map<nat, PendingRemoval>)
      requires FreshlyArmed(t0, a0, h0, s, msg, t1, a1)
      ensures ArmedUpTo(t0, a0, h0, s + [msg])
    {
      FreshKeys(t0, a0, h0, s, msg, t1, a1);
      FreshOldKept(t0, a0, h0, s, msg, t1, a1);
      FreshNewArmed(t0, a0, h0, s, msg, t1, a1);
    }

    lemma FreshKeys(t0: map<string, nat>, a0: map<nat, PendingRemoval>, h0: nat,
                    s: seq<MessageObject>, msg: MessageObject,
                    t1: map<string, nat>, a1: map<nat, PendingRemoval>)
      requires FreshlyArmed(t0, a0, h0, s, msg, t1, a1)
      ensures forall k :: k in timeouts <==> k in t0 || HasKey(s + [msg], k)
    {
      forall k ensures k in timeouts <==> k in t0 || HasKey(s + [msg], k) {
        HasKeyAppend(s, msg, k);
      }
    }

    lemma FreshOldKept(t0: map<string, nat>, a0: map<nat, PendingRemoval>, h0: nat,
                       s: seq<MessageObject>, msg: MessageObject,
                       t1: map<string, nat>, a1: map<nat, PendingRemoval>)
      requires FreshlyArmed(t0, a0, h0, s, msg, t1, a1)
      ensures forall k :: k in t0 ==>
        t0[k] in a0 && timeouts[k] == t0[k] && timeouts[k] in armed && armed[timeouts[k]] == a0[t0[k]]
    {
      forall k | k in t0
        ensures t0[k] in a0 && timeouts[k] == t0[k] && timeouts[k] in armed && armed[timeouts[k]] == a0[t0[k]]
      {
        assert k != TypingKey(msg.value) && t1[k] in a1 && t1[k] != nextHandle - 1;
      }
    }

    lemma FreshNewArmed(t0: map<string, nat>, a0: map<nat, PendingRemoval>, h0: nat,
                        s: seq<MessageObject>, msg: MessageObject,
                        t1: map<string, nat>, a1: map<nat, PendingRemoval>)
      requires FreshlyArmed(t0, a0, h0, s, msg, t1, a1)
      ensures forall k :: k in timeouts && k !in t0 ==>
        timeouts[k] >= h0 && HasKey(s + [msg], k) && timeouts[k] in armed
        && armed[timeouts[k]] == PendingRemoval(FirstWithKey(s + [msg], k), k)
    {
      forall k | k in timeouts && k !in t0
        ensures timeouts[k] >= h0 && HasKey(s + [msg], k) && timeouts[k] in armed
          && armed[timeouts[k]] == PendingRemoval(FirstWithKey(s + [msg], k), k)
      {
        FirstWithKeyAppend(s, msg, k);
        if k != TypingKey(msg.value) {
          assert t1[k] in a1 && t1[k] != nextHandle - 1;
        }
      }
    }

    /** The effect's cleanup: clear every timer in the map, then empty it. */
    method Teardown()
      requires Valid()
      modifies this
      ensures Valid()
      ensures timeouts == map[] && armed == map[]
      ensures displayed == old(displayed) && nextHandle == old(nextHandle)
    {
      var pending := timeouts.Keys;
      while pending != {}
        invariant pending <= timeouts.Keys
        invariant timeouts == old(timeouts)
        invariant forall h :: h in armed <==> h in old(armed) && old(armed)[h].key in pending
        invariant forall h :: h in armed ==> armed[h] == old(armed)[h]
        invariant displayed == old(displayed) && nextHandle == old(nextHandle)
        decreases pending
      {
        var k :| k in pending;
        armed := armed - {timeouts[k]};
        pending := pending - {k};
      }
      timeouts := map[];
    }

    /** A timer fires: its message object leaves the displayed list and its
        key leaves the map; nothing else changes. */
    method TimerFired(handle: nat)
      requires Valid()
      requires handle in armed
      modifies this
      ensures Valid()
      ensures displayed == Without(old(displayed), old(armed)[handle].target)
      ensures timeouts == old(timeouts) - {old(armed)[handle].key}
      ensures armed == old(armed) - {handle}
      ensures nextHandle == old(nextHandle)
    {
      var removal := armed[handle];
      armed := armed - {handle};
      displayed := Without(displayed, removal.target);
      timeouts := timeouts - {removal.key};
    }

    /** A new `messages` prop: the cleanup of the previous run, then the
        effect. Because the cleanup empties the map first, every TYPING key
        gets a fresh three-second timer on every change of the list. */
    method MessagesChanged(messages: seq<MessageObject>)
      requires Valid()
      modifies this
      ensures Valid()
      ensures displayed == messages
      ensures timeouts.Keys == ActiveKeys(messages)
      ensures forall h :: h in armed ==> h >= old(nextHandle)
      ensures forall k :: k in timeouts ==>
        HasKey(TypingOnly(messages), k) && armed[timeouts[k]] == PendingRemoval(FirstWithKey(TypingOnly(messages), k), k)
    {
      Teardown();
      Reconcile(messages);
    }
  }
}
