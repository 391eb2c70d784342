/** Messages (app/routes/messages.py): sending, reading a thread (which
    marks the other party's messages read), and the conversation list, which
    groups a user's messages by partner, newest first. The `messages` table is
    kept in insertion order, which stands for timestamp order. */
module MessageRoutes {
  import opened Common
  import opened UserModels
  import opened Store
  import opened AuthGuard

  // ---------------------------------------------------------------------
  // Sending

  /** The `MessageCreate` body. */
  datatype MessageCreate = MessageCreate(recipientId: Id, content: string, propertyId: Option<Id>, applicationId: Option<Id>)

  const RecipientNotFound: Error := Error(NotFound, "Recipient not found")
  const TextMessage: string := "text"

  /** The row `send_message` inserts. */
  function NewMessage(sender: Id, data: MessageCreate, now: Timestamp): MessageRow
  {
    MessageRow(sender, data.recipientId, data.content, data.propertyId, data.applicationId, TextMessage, false, None, [], now)
  }

  /** A new message is an unread text message without attachments, from the
      caller to the named recipient. */
  lemma NewMessageDefaults(sender: Id, data: MessageCreate, now: Timestamp)
    ensures var m := NewMessage(sender, data, now);
            !m.read && m.readAt.None? && m.messageType == "text" && m.attachments == []
            && m.senderId == sender && m.recipientId == data.recipientId && m.content == data.content
  {
  }

  /** `send_message`: the recipient must have a `users` row. */
  method SendMessage(db: Database, caller: CurrentUser, data: MessageCreate, now: Timestamp) returns (r: Result<MessageRow>)
    requires db.Valid()
    modifies db`messages
    ensures db.Valid()
    ensures r.Ok? <==> data.recipientId in db.users
    ensures r.Err? ==> r == Err(RecipientNotFound) && db.messages == old(db.messages)
    ensures r.Ok? ==> r.value == NewMessage(caller.id, data, now) && db.messages == old(db.messages) + [r.value]
  {
    if data.recipientId !in db.users {
      return Err(RecipientNotFound);
    }
    var m := NewMessage(caller.id, data, now);
    db.messages := db.messages + [m];
    r := Ok(m);
  }

  // ---------------------------------------------------------------------
  // A thread between two users

  /** The message goes between `a` and `b`, in either direction. */
  predicate Between(m: MessageRow, a: Id, b: Id)
  {
    (m.senderId == a && m.recipientId == b) || (m.senderId == b && m.recipientId == a)
  }

  /** The messages between two users, oldest first. */
  function Thread(msgs: seq<MessageRow>, a: Id, b: Id): (r: seq<MessageRow>)
    ensures forall m :: m in r <==> m in msgs && Between(m, a, b)
    ensures |r| <= |msgs|
  {
    if msgs == [] then []
    else Thread(msgs[..|msgs| - 1], a, b) + (if Between(msgs[|msgs| - 1], a, b) then [msgs[|msgs| - 1]] else [])
  }

  /** A message sent between the two is the newest of their thread. */
  lemma SentMessageEndsThread(msgs: seq<MessageRow>, m: MessageRow)
    ensures Thread(msgs + [m], m.senderId, m.recipientId) == Thread(msgs, m.senderId, m.recipientId) + [m]
  {
    assert (msgs + [m])[..|msgs|] == msgs;
  }

  /** The read-marking of `get_messages` applied to one row: only unread
      messages from `from` to `to` are flipped, and stamped. */
  function MarkRead(m: MessageRow, from: Id, to: Id, now: Timestamp): MessageRow
  {
    if m.senderId == from && m.recipientId == to && !m.read then m.(read := true, readAt := Some(now)) else m
  }

  /** Marking changes only unread messages from the other user to the
      caller, changes nothing but their read flag and stamp, and leaves none
      of them unread. */
  lemma MarkReadOnlyTouchesIncoming(m: MessageRow, from: Id, to: Id, now: Timestamp)
    ensures MarkRead(m, from, to, now) != m <==> m.senderId == from && m.recipientId == to && !m.read
    ensures MarkRead(m, from, to, now).(read := m.read, readAt := m.readAt) == m
    ensures m.senderId == from && m.recipientId == to ==> MarkRead(m, from, to, now).read
    ensures MarkRead(MarkRead(m, from, to, now), from, to, now) == MarkRead(m, from, to, now)
  {
  }

  /** `get_messages`: the thread as read before marking, then the other
      user's unread messages to the caller are marked read in place. */
  method GetMessages(db: Database, caller: CurrentUser, other: Id, now: Timestamp) returns (r: Result<seq<MessageRow>>)
    requires db.Valid()
    modifies db`messages
    ensures db.Valid()
    ensures r == Ok(Thread(old(db.messages), caller.id, other))
    ensures |db.messages| == |old(db.messages)|
    ensures forall k | 0 <= k < |db.messages| :: db.messages[k] == MarkRead(old(db.messages)[k], other, caller.id, now)
  {
    r := Ok(Thread(db.messages, caller.id, other));
    var i := 0;
    while i < |db.messages|
      invariant 0 <= i <= |db.messages| == |old(db.messages)|
      invariant forall k | 0 <= k < i :: db.messages[k] == MarkRead(old(db.messages)[k], other, caller.id, now)
      invariant forall k | i <= k < |db.messages| :: db.messages[k] == old(db.messages)[k]
      invariant db.Valid()
    {
      var m := db.messages[i];
      if m.senderId == other && m.recipientId == caller.id && !m.read {
        db.messages := db.messages[i := m.(read := true, readAt := Some(now))];
      }
      i := i + 1;
    }
  }

  // ---------------------------------------------------------------------
  // Conversations

  /** The caller sent or received the message. */
  predicate Involves(m: MessageRow, me: Id)
  {
    m.senderId == me || m.recipientId == me
  }

  /** The caller's messages, newest first. */
  function Feed(msgs: seq<MessageRow>, me: Id): (r: seq<MessageRow>)
    ensures forall m :: m in r <==> m in msgs && Involves(m, me)
    ensures |r| <= |msgs|
  {
    if msgs == [] then []
    else
      var last := msgs[|msgs| - 1];
      (if Involves(last, me) then [last] else []) + Feed(msgs[..|msgs| - 1], me)
  }

  /** A message sent after all the others heads the caller's feed when it
      involves the caller, and leaves the feed alone otherwise. */
  lemma FeedAppend(msgs: seq<MessageRow>, m: MessageRow, me: Id)
    ensures Feed(msgs + [m], me) == (if Involves(m, me) then [m] else []) + Feed(msgs, me)
  {
    assert (msgs + [m])[..|msgs|] == msgs;
  }

  /** A later batch of messages comes before an earlier one in the feed:
      the feed is the caller's messages in reverse insertion order. */
  lemma {:induction false} FeedConcat(older: seq<MessageRow>, newer: seq<MessageRow>, me: Id)
    ensures Feed(older + newer, me) == Feed(newer, me) + Feed(older, me)
    decreases |newer|
  {
    if newer == [] {
      assert older + newer == older;
    } else {
      var init := newer[..|newer| - 1];
      var last := newer[|newer| - 1];
      var head := if Involves(last, me) then [last] else [];
      assert older + newer == (older + init) + [last];
      calc {
        Feed(older + newer, me);
        { FeedAppend(older + init, last, me); }
        head + Feed(older + init, me);
        { FeedConcat(older, init, me); }
        head + (Feed(init, me) + Feed(older, me));
        (head + Feed(init, me)) + Feed(older, me);
        { assert newer == init + [last]; FeedAppend(init, last, me); }
        Feed(newer, me) + Feed(older, me);
      }
    }
  }

  /** The conversation partner: the recipient of a message the caller sent,
      otherwise its sender. */
  function PartnerOf(m: MessageRow, me: Id): Id
  {
    if m.senderId == me then m.recipientId else m.senderId
  }

  /** The partner of a message the caller is part of is the other party. */
  lemma PartnerIsOtherParty(m: MessageRow, me: Id)
    requires Involves(m, me)
    ensures Between(m, me, PartnerOf(m, me))
    ensures m.senderId != me ==> PartnerOf(m, me) == m.senderId && m.recipientId == me
  {
  }

  predicate HasPartnerIn(feed: seq<MessageRow>, me: Id, p: Id)
  {
    exists i | 0 <= i < |feed| :: PartnerOf(feed[i], me) == p
  }

  /** The position of the first (newest) message with the partner. */
  function FirstWith(feed: seq<MessageRow>, me: Id, p: Id): (i: nat)
    requires HasPartnerIn(feed, me, p)
    ensures i < |feed| && PartnerOf(feed[i], me) == p
    ensures forall j | 0 <= j < i :: PartnerOf(feed[j], me) != p
  {
    if PartnerOf(feed[0], me) == p then 0
    else
      assert HasPartnerIn(feed[1..], me, p) by {
        var i :| 0 <= i < |feed| && PartnerOf(feed[i], me) == p;
        assert feed[1..][i - 1] == feed[i];
      }
      1 + FirstWith(feed[1..], me, p)
  }

  /** Extending the feed does not move a partner's first position. */
  lemma FirstWithPrefix(feed: seq<MessageRow>, n: nat, me: Id, p: Id)
    requires n <= |feed| && HasPartnerIn(feed[..n], me, p)
    ensures HasPartnerIn(feed, me, p)
    ensures FirstWith(feed, me, p) == FirstWith(feed[..n], me, p)
  {
    assert forall j | 0 <= j < n :: feed[..n][j] == feed[j];
    var i1 := FirstWith(feed[..n], me, p);
    assert PartnerOf(feed[i1], me) == p;
  }

  /** The partner summary of a conversation. */
  datatype PartnerInfo = PartnerInfo(id: Id, name: string, avatarUrl: Option<string>, userType: UserType)
  /** The `last_message` summary of a conversation. */
  datatype LastMessage = LastMessage(content: string, timestamp: Timestamp, read: bool)
  datatype Conversation = Conversation(user: PartnerInfo, lastMessage: LastMessage)

  const ConversationsFailed: Error :=
    Error(InternalServerError, "Failed to fetch conversations: 'NoneType' object is not subscriptable")

  /** The conversation a message opens: its partner's row and its summary. */
  function ConversationOf(m: MessageRow, me: Id, users: map<Id, UserRow>): Conversation
    requires PartnerOf(m, me) in users
  {
    var p := PartnerOf(m, me);
    Conversation(PartnerInfo(p, users[p].fullName, users[p].avatarUrl, users[p].userType),
                 LastMessage(m.content, m.timestamp, m.read))
  }

  predicate HasConversation(cs: seq<Conversation>, p: Id)
  {
    exists k | 0 <= k < |cs| :: cs[k].user.id == p
  }

  /** The grouping of `get_conversations` over a feed, message by message:
      a partner already seen is skipped, a new partner without a `users`
      row fails the request, and any other opens a conversation. */
  function Group(feed: seq<MessageRow>, me: Id, users: map<Id, UserRow>): (r: Result<seq<Conversation>>)
  {
    if feed == [] then Ok([])
    else
      var n := |feed| - 1;
      match Group(feed[..n], me, users)
      case Err(e) => Err(e)
      case Ok(cs) =>
        var p := PartnerOf(feed[n], me);
        if HasConversation(cs, p) then Ok(cs)
        else if p !in users then Err(ConversationsFailed)
        else Ok(cs + [ConversationOf(feed[n], me, users)])
  }

  /** A conversation list extended by one has the new partner and the old ones. */
  lemma HasConversationAppend(cs: seq<Conversation>, c: Conversation)
    ensures forall q :: HasConversation(cs + [c], q) <==> HasConversation(cs, q) || c.user.id == q
  {
    forall q | HasConversation(cs + [c], q)
      ensures HasConversation(cs, q) || c.user.id == q
    {
      var k :| 0 <= k < |cs| + 1 && (cs + [c])[k].user.id == q;
      if k < |cs| {
        assert cs[k].user.id == q;
      }
    }
    forall q | HasConversation(cs, q)
      ensures HasConversation(cs + [c], q)
    {
      var k :| 0 <= k < |cs| && cs[k].user.id == q;
      assert (cs + [c])[k].user.id == q;
    }
    assert (cs + [c])[|cs|].user.id == c.user.id;
  }

  /** The conversations `cs` group the feed: every partner has a `users`
      row; partners are distinct; every partner in the feed has one; each
      conversation is opened by its partner's first (newest) message; and
      conversations appear in the order their partners first appear. */
  ghost predicate Grouped(feed: seq<MessageRow>, me: Id, users: map<Id, UserRow>, cs: seq<Conversation>)
  {
    (forall i | 0 <= i < |feed| :: PartnerOf(feed[i], me) in users)
    && (forall i, j | 0 <= i < j < |cs| :: cs[i].user.id != cs[j].user.id)
    && (forall i | 0 <= i < |feed| :: HasConversation(cs, PartnerOf(feed[i], me)))
    && (forall k | 0 <= k < |cs| ::
          HasPartnerIn(feed, me, cs[k].user.id)
          && cs[k] == ConversationOf(feed[FirstWith(feed, me, cs[k].user.id)], me, users))
    && (forall i, j | 0 <= i < j < |cs| ::
          FirstWith(feed, me, cs[i].user.id) < FirstWith(feed, me, cs[j].user.id))
  }

  /** `Group` computes a grouping of the feed, and fails exactly when some
      partner has no `users` row. */
  lemma {:induction false} GroupCorrect(feed: seq<MessageRow>, me: Id, users: map<Id, UserRow>)
    ensures Group(feed, me, users).Ok? ==> Grouped(feed, me, users, Group(feed, me, users).value)
    ensures Group(feed, me, users).Ok? <==> forall i | 0 <= i < |feed| :: PartnerOf(feed[i], me) in users
    ensures Group(feed, me, users).Err? ==> Group(feed, me, users).error == ConversationsFailed
    decreases |feed|
  {
    if feed != [] {
      var n := |feed| - 1;
      var init := feed[..n];
      GroupCorrect(init, me, users);
      assert forall j | 0 <= j < n :: init[j] == feed[j];
      var g := Group(init, me, users);
      if g.Ok? {
        var p := PartnerOf(feed[n], me);
        if HasConversation(g.value, p) {
          StepSeen(feed, me, users, g.value);
        } else if p in users {
          StepNew(feed, me, users, g.value);
        }
      } else {
        var i :| 0 <= i < n && PartnerOf(init[i], me) !in users;
        assert PartnerOf(feed[i], me) !in users;
      }
    }
  }

  /** The conversations found so far keep their first positions when the
      feed grows by one message. */
  lemma StepKeepsPositions(feed: seq<MessageRow>, me: Id, users: map<Id, UserRow>, cs: seq<Conversation>)
    requires |feed| > 0 && Grouped(feed[..|feed| - 1], me, users, cs)
    ensures forall k | 0 <= k < |cs| ::
              HasPartnerIn(feed, me, cs[k].user.id)
              && FirstWith(feed, me, cs[k].user.id) == FirstWith(feed[..|feed| - 1], me, cs[k].user.id) < |feed| - 1
  {
    var n := |feed| - 1;
    forall k | 0 <= k < |cs|
      ensures HasPartnerIn(feed, me, cs[k].user.id)
      ensures FirstWith(feed, me, cs[k].user.id) == FirstWith(feed[..n], me, cs[k].user.id) < n
    {
      FirstWithPrefix(feed, n, me, cs[k].user.id);
    }
  }

  /** The last message's partner already has a conversation: the grouping
      carries over unchanged. */
  lemma StepSeen(feed: seq<MessageRow>, me: Id, users: map<Id, UserRow>, cs: seq<Conversation>)
    requires |feed| > 0 && Grouped(feed[..|feed| - 1], me, users, cs)
    requires HasConversation(cs, PartnerOf(feed[|feed| - 1], me))
    ensures Grouped(feed, me, users, cs)
  {
    StepKeepsPositions(feed, me, users, cs);
    StepSeenPartners(feed, me, users, cs);
    StepSeenOrder(feed, me, users, cs);
  }

  /** After a partner already seen, every partner of the feed is known and has a conversation. */
  lemma StepSeenPartners(feed: seq<MessageRow>, me: Id, users: map<Id, UserRow>, cs: seq<Conversation>)
    requires |feed| > 0 && Grouped(feed[..|feed| - 1], me, users, cs)
    requires HasConversation(cs, PartnerOf(feed[|feed| - 1], me))
    ensures forall i | 0 <= i < |feed| :: PartnerOf(feed[i], me) in users && HasConversation(cs, PartnerOf(feed[i], me))
  {
    var n := |feed| - 1;
    var init := feed[..n];
    var p := PartnerOf(feed[n], me);
    var k :| 0 <= k < |cs| && cs[k].user.id == p;
    assert PartnerOf(init[FirstWith(init, me, p)], me) == p;
    forall i | 0 <= i < |feed|
      ensures PartnerOf(feed[i], me) in users && HasConversation(cs, PartnerOf(feed[i], me))
    {
      if i < n {
        assert init[i] == feed[i];
        assert PartnerOf(init[i], me) in users && HasConversation(cs, PartnerOf(init[i], me));
      }
    }
  }

  /** After a partner already seen, each conversation is still opened by its
      first message, in order of first appearance. */
  lemma StepSeenOrder(feed: seq<MessageRow>, me: Id, users: map<Id, UserRow>, cs: seq<Conversation>)
    requires |feed| > 0 && Grouped(feed[..|feed| - 1], me, users, cs)
    requires forall k | 0 <= k < |cs| ::
               HasPartnerIn(feed, me, cs[k].user.id)
               && FirstWith(feed, me, cs[k].user.id) == FirstWith(feed[..|feed| - 1], me, cs[k].user.id) < |feed| - 1
    ensures forall k | 0 <= k < |cs| ::
              HasPartnerIn(feed, me, cs[k].user.id)
              && cs[k] == ConversationOf(feed[FirstWith(feed, me, cs[k].user.id)], me, users)
    ensures forall i, j | 0 <= i < j < |cs| ::
              FirstWith(feed, me, cs[i].user.id) < FirstWith(feed, me, cs[j].user.id)
  {
    var init := feed[..|feed| - 1];
    forall k | 0 <= k < |cs|
      ensures cs[k] == ConversationOf(feed[FirstWith(feed, me, cs[k].user.id)], me, users)
    {
      assert feed[FirstWith(init, me, cs[k].user.id)] == init[FirstWith(init, me, cs[k].user.id)];
    }
  }

  /** The last message's partner is new and known: it opens a conversation
      at the end of the list. */
  lemma StepNew(feed: seq<MessageRow>, me: Id, users: map<Id, UserRow>, cs: seq<Conversation>)
    requires |feed| > 0 && Grouped(feed[..|feed| - 1], me, users, cs)
    requires !HasConversation(cs, PartnerOf(feed[|feed| - 1], me)) && PartnerOf(feed[|feed| - 1], me) in users
    ensures Grouped(feed, me, users, cs + [ConversationOf(feed[|feed| - 1], me, users)])
  {
    StepKeepsPositions(feed, me, users, cs);
    NewPartnerIsLast(feed, me, users, cs);
    StepNewPartners(feed, me, users, cs);
    StepNewOrder(feed, me, users, cs);
  }

  /** A partner absent from the grouping of all but the last message is
      first met at the last message. */
  lemma NewPartnerIsLast(feed: seq<MessageRow>, me: Id, users: map<Id, UserRow>, cs: seq<Conversation>)
    requires |feed| > 0 && Grouped(feed[..|feed| - 1], me, users, cs)
    requires !HasConversation(cs, PartnerOf(feed[|feed| - 1], me))
    ensures HasPartnerIn(feed, me, PartnerOf(feed[|feed| - 1], me))
    ensures FirstWith(feed, me, PartnerOf(feed[|feed| - 1], me)) == |feed| - 1
  {
    var n := |feed| - 1;
    var init := feed[..n];
    var p := PartnerOf(feed[n], me);
    forall j | 0 <= j < n
      ensures PartnerOf(feed[j], me) != p
    {
      assert init[j] == feed[j];
      assert HasConversation(cs, PartnerOf(init[j], me));
    }
    assert HasPartnerIn(feed, me, p) by {
      assert PartnerOf(feed[n], me) == p;
    }
  }

  /** After a new partner, every partner of the feed is known and has a conversation. */
  lemma StepNewPartners(feed: seq<MessageRow>, me: Id, users: map<Id, UserRow>, cs: seq<Conversation>)
    requires |feed| > 0 && Grouped(feed[..|feed| - 1], me, users, cs)
    requires PartnerOf(feed[|feed| - 1], me) in users
    ensures var cs1 := cs + [ConversationOf(feed[|feed| - 1], me, users)];
            forall i | 0 <= i < |feed| ::
              PartnerOf(feed[i], me) in users && HasConversation(cs1, PartnerOf(feed[i], me))
  {
    var n := |feed| - 1;
    var init := feed[..n];
    var c := ConversationOf(feed[n], me, users);
    HasConversationAppend(cs, c);
    forall i | 0 <= i < |feed|
      ensures PartnerOf(feed[i], me) in users && HasConversation(cs + [c], PartnerOf(feed[i], me))
    {
      if i < n {
        assert init[i] == feed[i];
        assert PartnerOf(init[i], me) in users && HasConversation(cs, PartnerOf(init[i], me));
      }
    }
  }

  /** After a new partner, the conversations stay distinct, opened by their
      first messages, and in order of first appearance. */
  lemma StepNewOrder(feed: seq<MessageRow>, me: Id, users: map<Id, UserRow>, cs: seq<Conversation>)
    requires |feed| > 0 && Grouped(feed[..|feed| - 1], me, users, cs)
    requires !HasConversation(cs, PartnerOf(feed[|feed| - 1], me)) && PartnerOf(feed[|feed| - 1], me) in users
    requires HasPartnerIn(feed, me, PartnerOf(feed[|feed| - 1], me))
    requires FirstWith(feed, me, PartnerOf(feed[|feed| - 1], me)) == |feed| - 1
    requires forall k | 0 <= k < |cs| ::
               HasPartnerIn(feed, me, cs[k].user.id)
               && FirstWith(feed, me, cs[k].user.id) == FirstWith(feed[..|feed| - 1], me, cs[k].user.id) < |feed| - 1
    ensures var cs1 := cs + [ConversationOf(feed[|feed| - 1], me, users)];
            (forall i, j | 0 <= i < j < |cs1| :: cs1[i].user.id != cs1[j].user.id)
            && (forall k | 0 <= k < |cs1| ::
                  HasPartnerIn(feed, me, cs1[k].user.id)
                  && cs1[k] == ConversationOf(feed[FirstWith(feed, me, cs1[k].user.id)], me, users))
            && (forall i, j | 0 <= i < j < |cs1| ::
                  FirstWith(feed, me, cs1[i].user.id) < FirstWith(feed, me, cs1[j].user.id))
  {
    var n := |feed| - 1;
    var init := feed[..n];
    var c := ConversationOf(feed[n], me, users);
    var cs1 := cs + [c];
    assert cs1[|cs|] == c;
    assert forall k | 0 <= k < |cs| :: cs1[k] == cs[k];
    forall k | 0 <= k < |cs|
      ensures cs[k] == ConversationOf(feed[FirstWith(feed, me, cs[k].user.id)], me, users)
    {
      assert feed[FirstWith(init, me, cs[k].user.id)] == init[FirstWith(init, me, cs[k].user.id)];
    }
  }

  /** The newest message opens the first conversation. */
  lemma NewestMessageLeads(feed: seq<MessageRow>, me: Id, users: map<Id, UserRow>)
    requires |feed| > 0 && Group(feed, me, users).Ok?
    ensures |Group(feed, me, users).value| > 0 && PartnerOf(feed[0], me) in users
    ensures Group(feed, me, users).value[0] == ConversationOf(feed[0], me, users)
  {
    GroupCorrect(feed, me, users);
    var cs := Group(feed, me, users).value;
    assert HasConversation(cs, PartnerOf(feed[0], me));
    var k :| 0 <= k < |cs| && cs[k].user.id == PartnerOf(feed[0], me);
    assert FirstWith(feed, me, cs[k].user.id) == 0;
    forall j | 0 < j < |cs|
      ensures FirstWith(feed, me, cs[j].user.id) > 0
    {
      assert FirstWith(feed, me, cs[0].user.id) < FirstWith(feed, me, cs[j].user.id);
    }
  }

  /** A message just sent leads the sender's conversation list, with the
      recipient as partner. */
  lemma SentMessageLeadsConversations(msgs: seq<MessageRow>, sender: Id, data: MessageCreate, now: Timestamp,
                                      users: map<Id, UserRow>)
    requires Group(Feed(msgs + [NewMessage(sender, data, now)], sender), sender, users).Ok?
    ensures var cs := Group(Feed(msgs + [NewMessage(sender, data, now)], sender), sender, users).value;
            |cs| > 0 && cs[0].user.id == data.recipientId && cs[0].lastMessage.content == data.content
            && !cs[0].lastMessage.read
  {
    var m := NewMessage(sender, data, now);
    var all := msgs + [m];
    assert all[..|all| - 1] == msgs;
    var feed := Feed(all, sender);
    assert feed[0] == m;
    NewestMessageLeads(feed, sender, users);
  }

  /** One more message of the feed takes one step of `Group`. */
  lemma GroupExtends(feed: seq<MessageRow>, i: nat, me: Id, users: map<Id, UserRow>)
    requires i < |feed|
    ensures var p := PartnerOf(feed[i], me);
            Group(feed[..i + 1], me, users) ==
              match Group(feed[..i], me, users)
              case Err(e) => Err(e)
              case Ok(cs) =>
                if HasConversation(cs, p) then Ok(cs)
                else if p !in users then Err(ConversationsFailed)
                else Ok(cs + [ConversationOf(feed[i], me, users)])
  {
    assert feed[..i + 1][..i] == feed[..i] && feed[..i + 1][i] == feed[i];
  }

  /** A partner without a `users` row anywhere in the feed fails the grouping. */
  lemma UnknownPartnerFails(feed: seq<MessageRow>, i: nat, me: Id, users: map<Id, UserRow>)
    requires i < |feed| && PartnerOf(feed[i], me) !in users
    ensures Group(feed, me, users) == Err(ConversationsFailed)
  {
    GroupCorrect(feed, me, users);
  }

  /** `get_conversations`: the loop over the caller's feed, keeping the
      first conversation opened per partner. */
  method GetConversations(db: Database, caller: CurrentUser) returns (r: Result<seq<Conversation>>)
    ensures r == Group(Feed(db.messages, caller.id), caller.id, db.users)
  {
    var me := caller.id;
    var feed := Feed(db.messages, me);
    var conversations: seq<Conversation> := [];
    var seen: set<Id> := {};
    var i := 0;
    while i < |feed|
      invariant 0 <= i <= |feed|
      invariant Group(feed[..i], me, db.users) == Ok(conversations)
      invariant forall p :: p in seen <==> HasConversation(conversations, p)
    {
      GroupExtends(feed, i, me, db.users);
      var msg := feed[i];
      var p := PartnerOf(msg, me);
      if p !in seen {
        if p !in db.users {
          UnknownPartnerFails(feed, i, me, db.users);
          return Err(ConversationsFailed);
        }
        var c := ConversationOf(msg, me, db.users);
        HasConversationAppend(conversations, c);
        conversations := conversations + [c];
        seen := seen + {p};
      }
      i := i + 1;
    }
    assert feed[..i] == feed;
    r := Ok(conversations);
  }
}
