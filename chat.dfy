/**
 * The list bookkeeping of the chat page (class ChatApp in
 * frontend/static/js/chat.js): the contact list and its move-to-top rule,
 * the open conversation's messages with their receipt flags, the unread
 * map, paging back through older messages, and the conversation room name.
 *
 * Rendering, scrolling and the DOM are not modelled. What the page sends
 * over the socket, and its requests to reload the contacts, are appended to
 * `out`. An awaited request is split into the step before the await and
 * the step after it, which takes the response as a parameter.
 */
module Chat {
  import opened Wrappers
  import opened Text
  import opened Ordering

  type UserId = int

  datatype Contact = Contact(id: UserId, name: string, phone: string, avatar: string, isOnline: bool, lastSeen: string)

  /** The `sender` object a relayed message carries; `isOnline` may be missing. */
  datatype SenderData = SenderData(id: UserId, name: string, phone: string, avatar: string, isOnline: Option<bool>)

  datatype ChatMessage = ChatMessage(id: int, senderId: UserId, receiverId: UserId, content: Option<string>,
                                     isRead: bool, isDelivered: bool)

  datatype ClientEffect =
    | Emit(event: string, messageId: int)   // message_delivered / message_read with { message_id }
    | JoinRoom(room: string)
    | InviteToRoom(room: string, userId: UserId)   // join_conversation with { room, user_id }
    | ReloadContacts                        // loadContacts()

  // ------------------------------------------------------------------ rooms

  /** The conversation room `chat_<min>_<max>`. */
  function RoomName(a: UserId, b: UserId): (r: string)
    ensures Split(r, '_') == ["chat", IntToString(Min(a, b)), IntToString(Max(a, b))]
  {
    var x, y := IntToString(Min(a, b)), IntToString(Max(a, b));
    NoUnderscoreInNumber(Min(a, b));
    NoUnderscoreInNumber(Max(a, b));
    assert "chat_" + x + "_" + y == "chat" + ['_'] + (x + ['_'] + y);
    SplitAtFirst("chat", '_', x + ['_'] + y);
    SplitAtSeparator(x, '_', y);
    "chat_" + x + "_" + y
  }

  /** Both users compute the same room, whoever computes it. */
  lemma RoomNameSymmetric(a: UserId, b: UserId)
    ensures RoomName(a, b) == RoomName(b, a)
  {
  }

  lemma NoUnderscoreInNumber(n: int)
    ensures '_' !in IntToString(n)
  {
  }

  /** Different pairs of users never share a room. */
  lemma RoomNameInjective(a: UserId, b: UserId, c: UserId, d: UserId)
    requires RoomName(a, b) == RoomName(c, d)
    ensures Min(a, b) == Min(c, d) && Max(a, b) == Max(c, d)
  {
    var x1, y1 := IntToString(Min(a, b)), IntToString(Max(a, b));
    var x2, y2 := IntToString(Min(c, d)), IntToString(Max(c, d));
    NoUnderscoreInNumber(Min(a, b));
    NoUnderscoreInNumber(Max(a, b));
    NoUnderscoreInNumber(Min(c, d));
    NoUnderscoreInNumber(Max(c, d));
    assert RoomName(a, b)[5..] == x1 + "_" + y1;
    assert RoomName(c, d)[5..] == x2 + "_" + y2;
    SplitAtSeparator(x1, '_', y1);
    SplitAtSeparator(x2, '_', y2);
    IntToStringInjective(Min(a, b), Min(c, d));
    IntToStringInjective(Max(a, b), Max(c, d));
  }

  // ---------------------------------------------------------------- contacts

  /** findIndex(c => c.id === id). */
  function IndexOfContact(contacts: seq<Contact>, id: UserId): (r: Option<nat>)
    ensures r.Some? ==> r.value < |contacts| && contacts[r.value].id == id
    ensures r.Some? ==> forall j :: 0 <= j < r.value ==> contacts[j].id != id
    ensures r.None? <==> forall j :: 0 <= j < |contacts| ==> contacts[j].id != id
  {
    if contacts == [] then None
    else if contacts[0].id == id then Some(0)
    else
      var rest := IndexOfContact(contacts[1..], id);
      if rest.Some? then Some(rest.value + 1) else None
  }

  /** The list without its `i`th element. */
  function Without<T>(s: seq<T>, i: nat): (r: seq<T>)
    requires i < |s|
    ensures |r| == |s| - 1
  {
    s[..i] + s[i + 1..]
  }

  /** splice(i, 1) followed by unshift: the `i`th element first, the others in their order. */
  function MoveToFront<T>(s: seq<T>, i: nat): (r: seq<T>)
    requires i < |s|
    ensures |r| == |s| && r[0] == s[i] && r[1..] == Without(s, i)
    ensures multiset(r) == multiset(s)
  {
    assert s == s[..i] + [s[i]] + s[i + 1..];
    [s[i]] + Without(s, i)
  }

  /** The contact built for a sender first heard from: seen now, offline unless the sender says otherwise. */
  function NewContact(sender: SenderData, now: string): (c: Contact)
    ensures c.id == sender.id && c.lastSeen == now
    ensures c.isOnline <==> sender.isOnline == Some(true)
  {
    Contact(sender.id, sender.name, sender.phone, sender.avatar, sender.isOnline.GetOr(false), now)
  }

  /**
   * The contact list after addOrMoveContactToTop(id, sender): a known contact
   * moves to the front, an unknown one is added in front when there is
   * sender data, and otherwise the list stays as it was.
   */
  function AddedOrMoved(contacts: seq<Contact>, id: UserId, sender: Option<SenderData>, now: string): (r: seq<Contact>)
    ensures IndexOfContact(contacts, id).Some? ==>
      |r| == |contacts| && multiset(r) == multiset(contacts) && r[0].id == id
    ensures IndexOfContact(contacts, id).None? && sender.Some? ==>
      |r| == |contacts| + 1 && r[0] == NewContact(sender.value, now) && r[1..] == contacts
    ensures IndexOfContact(contacts, id).None? && sender.None? ==> r == contacts
  {
    var i := IndexOfContact(contacts, id);
    if i.Some? && i.value > 0 then MoveToFront(contacts, i.value)
    else if i.None? && sender.Some? then [NewContact(sender.value, now)] + contacts
    else contacts
  }

  /** A contact already at the front stays where it is; only a contact further down is moved. */
  lemma AddedOrMovedKnown(contacts: seq<Contact>, id: UserId, sender: Option<SenderData>, now: string)
    requires IndexOfContact(contacts, id).Some?
    ensures IndexOfContact(AddedOrMoved(contacts, id, sender, now), id) == Some(0)
    ensures var i := IndexOfContact(contacts, id).value;
      AddedOrMoved(contacts, id, sender, now) == if i == 0 then contacts else MoveToFront(contacts, i)
    ensures AddedOrMoved(AddedOrMoved(contacts, id, sender, now), id, sender, now) == AddedOrMoved(contacts, id, sender, now)
  {
  }

  /** A receipt flag change: 'delivered' sets is_delivered, 'read' both flags, anything else nothing. */
  function WithStatus(m: ChatMessage, status: string): (r: ChatMessage)
    ensures r.(isRead := m.isRead, isDelivered := m.isDelivered) == m
    ensures status == "delivered" ==> r.isDelivered && r.isRead == m.isRead
    ensures status == "read" ==> r.isDelivered && r.isRead
    ensures status != "delivered" && status != "read" ==> r == m
  {
    if status == "delivered" then m.(isDelivered := true)
    else if status == "read" then m.(isDelivered := true, isRead := true)
    else m
  }

  /** find(m => m.id === id): the first message with the id. */
  function IndexOfMessage(messages: seq<ChatMessage>, id: int): (r: Option<nat>)
    ensures r.Some? ==> r.value < |messages| && messages[r.value].id == id
    ensures r.Some? ==> forall j :: 0 <= j < r.value ==> messages[j].id != id
    ensures r.None? <==> forall j :: 0 <= j < |messages| ==> messages[j].id != id
  {
    if messages == [] then None
    else if messages[0].id == id then Some(0)
    else
      var rest := IndexOfMessage(messages[1..], id);
      if rest.Some? then Some(rest.value + 1) else None
  }

  predicate UniqueIds(messages: seq<ChatMessage>)
  {
    forall i, j :: 0 <= i < j < |messages| ==> messages[i].id != messages[j].id
  }

  /** The unread badge: nothing for no unread messages, the count up to 9, then "9+". */
  function Badge(count: nat): (r: Option<string>)
    ensures r.None? <==> count == 0
    ensures r.Some? ==> 1 <= |r.value| <= 2
    ensures count > 9 ==> r == Some("9+")
    ensures 0 < count <= 9 ==> r == Some([DigitChar(count)])
  {
    if count == 0 then None
    else if count > 9 then Some("9+")
    else Some(IntToString(count))
  }

  /** The tick mark and its colour class under a sent message. */
  datatype StatusIcon = StatusIcon(ticks: string, color: string)

  function IconFor(isRead: bool, isDelivered: bool): (r: StatusIcon)
    ensures r.color == "text-blue-500" <==> isRead
    ensures r.ticks == "✓✓" <==> isRead || isDelivered
    ensures r.ticks == "✓" <==> !isRead && !isDelivered
  {
    if isRead then StatusIcon("✓✓", "text-blue-500")
    else if isDelivered then StatusIcon("✓✓", "text-gray-400")
    else StatusIcon("✓", "text-gray-400")
  }

  // ------------------------------------------------------------ read marking

  /** A message of the open chat that the current user received and has not read. */
  predicate UnreadFrom(m: ChatMessage, me: UserId, other: UserId)
  {
    m.receiverId == me && m.senderId == other && !m.isRead
  }

  /** The messages after markUnreadMessagesAsRead: the unread ones from `other` marked read, the rest as they were. */
  function MarkedRead(messages: seq<ChatMessage>, me: UserId, other: UserId): (r: seq<ChatMessage>)
    ensures |r| == |messages|
    ensures forall i :: 0 <= i < |r| ==> r[i] == if UnreadFrom(messages[i], me, other) then messages[i].(isRead := true) else messages[i]
  {
    seq(|messages|, i requires 0 <= i < |messages| =>
      if UnreadFrom(messages[i], me, other) then messages[i].(isRead := true) else messages[i])
  }

  /** The message_read emits of markUnreadMessagesAsRead, one per unread message, in list order. */
  function ReadReceipts(messages: seq<ChatMessage>, me: UserId, other: UserId): seq<ClientEffect>
  {
    if messages == [] then []
    else
      var last := messages[|messages| - 1];
      ReadReceipts(messages[..|messages| - 1], me, other)
        + (if UnreadFrom(last, me, other) then [Emit("message_read", last.id)] else [])
  }

  /** How many messages markUnreadMessagesAsRead changes. */
  function CountUnread(messages: seq<ChatMessage>, me: UserId, other: UserId): nat
  {
    if messages == [] then 0
    else CountUnread(messages[..|messages| - 1], me, other) + (if UnreadFrom(messages[|messages| - 1], me, other) then 1 else 0)
  }

  /** Exactly one receipt per message changed, each naming an unread message of the chat. */
  lemma {:induction false} ReceiptsMatchChanges(messages: seq<ChatMessage>, me: UserId, other: UserId)
    ensures |ReadReceipts(messages, me, other)| == CountUnread(messages, me, other)
    ensures forall e :: e in ReadReceipts(messages, me, other) ==>
      exists i :: 0 <= i < |messages| && UnreadFrom(messages[i], me, other) && e == Emit("message_read", messages[i].id)
  {
    if messages != [] {
      var init := messages[..|messages| - 1];
      ReceiptsMatchChanges(init, me, other);
      forall e | e in ReadReceipts(messages, me, other)
        ensures exists i :: 0 <= i < |messages| && UnreadFrom(messages[i], me, other) && e == Emit("message_read", messages[i].id)
      {
        if e in ReadReceipts(init, me, other) {
          var i :| 0 <= i < |init| && UnreadFrom(init[i], me, other) && e == Emit("message_read", init[i].id);
          assert messages[i] == init[i];
        } else {
          assert UnreadFrom(messages[|messages| - 1], me, other) && e == Emit("message_read", messages[|messages| - 1].id);
        }
      }
    }
  }

  /** Nothing is left unread from the open chat, so marking again changes and sends nothing. */
  lemma {:induction false} MarkingIsIdempotent(messages: seq<ChatMessage>, me: UserId, other: UserId)
    ensures MarkedRead(MarkedRead(messages, me, other), me, other) == MarkedRead(messages, me, other)
    ensures ReadReceipts(MarkedRead(messages, me, other), me, other) == []
  {
    var marked := MarkedRead(messages, me, other);
    NoReceiptsWithoutUnread(marked, me, other);
  }

  lemma {:induction false} NoReceiptsWithoutUnread(messages: seq<ChatMessage>, me: UserId, other: UserId)
    requires forall i :: 0 <= i < |messages| ==> !UnreadFrom(messages[i], me, other)
    ensures ReadReceipts(messages, me, other) == []
  {
    if messages != [] {
      NoReceiptsWithoutUnread(messages[..|messages| - 1], me, other);
    }
  }

  // ------------------------------------------------------------------ client

  /** The server's answer to a conversation request during paging. */
  datatype PageResponse =
    | Paged(older: seq<ChatMessage>, hasMore: bool)   // { messages, has_more }
    | Bare(older: seq<ChatMessage>)                   // a plain array
    | RequestFailed

  class ChatClient {
    var currentUser: UserId
    var contacts: seq<Contact>
    var messages: seq<ChatMessage>
    var unread: map<UserId, seq<ChatMessage>>
    var selectedContact: Option<UserId>
    var currentPage: int
    var hasMoreMessages: bool
    var loadingMore: bool
    var out: seq<ClientEffect>

    constructor(me: UserId)
      ensures currentUser == me && contacts == [] && messages == [] && unread == map[]
      ensures selectedContact.None? && currentPage == 1 && !hasMoreMessages && !loadingMore && out == []
    {
      currentUser := me;
      contacts := [];
      messages := [];
      unread := map[];
      selectedContact := None;
      currentPage := 1;
      hasMoreMessages := false;
      loadingMore := false;
      out := [];
    }

    /** moveContactToTop(contactId): a known contact moves to the front; an unknown one makes the list reload. */
    method MoveContactToTop(contactId: UserId)
      modifies this`contacts, this`out
      ensures var i := IndexOfContact(old(contacts), contactId);
        && (i.Some? && i.value > 0 ==> contacts == MoveToFront(old(contacts), i.value) && out == old(out))
        && (i == Some(0) ==> contacts == old(contacts) && out == old(out))
        && (i.None? ==> contacts == old(contacts) && out == old(out) + [ReloadContacts])
    {
      var i := IndexOfContact(contacts, contactId);
      if i.Some? && i.value > 0 {
        contacts := MoveToFront(contacts, i.value);
      } else if i.None? {
        out := out + [ReloadContacts];
      }
    }

    /**
     * addOrMoveContactToTop(contactId, senderData): a known contact moves to
     * the front; an unknown one is added in front, built from the sender
     * data, when there is any.
     */
    method AddOrMoveContactToTop(contactId: UserId, senderData: Option<SenderData>, now: string)
      modifies this`contacts
      ensures contacts == AddedOrMoved(old(contacts), contactId, senderData, now)
      ensures |contacts| == |old(contacts)| + 1 <==> IndexOfContact(old(contacts), contactId).None? && senderData.Some?
      ensures var i := IndexOfContact(old(contacts), contactId);
        && (i.Some? && i.value > 0 ==> contacts == MoveToFront(old(contacts), i.value))
        && (i == Some(0) ==> contacts == old(contacts))
        && (i.None? && senderData.Some? ==> contacts == [NewContact(senderData.value, now)] + old(contacts))
        && (i.None? && senderData.None? ==> contacts == old(contacts))
    {
      var i := IndexOfContact(contacts, contactId);
      if i.Some? && i.value > 0 {
        contacts := MoveToFront(contacts, i.value);
      } else if i.None? && senderData.Some? {
        contacts := [NewContact(senderData.value, now)] + contacts;
      }
    }

    /**
     * selectContact(contact) up to the conversation request of
     * loadConversation: the contact is selected and paging restarts at the
     * first page, presumed to have more behind it.
     */
    method SelectContact(contact: Contact)
      modifies this`selectedContact, this`currentPage, this`hasMoreMessages
      ensures selectedContact == Some(contact.id) && currentPage == 1 && hasMoreMessages
    {
      selectedContact := Some(contact.id);
      currentPage := 1;
      hasMoreMessages := true;
    }

    /**
     * The rest of selectContact(contact), once the first page of the
     * conversation with `contactId` has answered: the page replaces the
     * shown messages (a failed request leaves them), the open chat's unread
     * messages are read, and this user joins the conversation room and asks
     * the contact to join it.
     */
    method FinishSelectContact(contactId: UserId, response: PageResponse)
      modifies this`messages, this`hasMoreMessages, this`out
      ensures var loaded := if response.RequestFailed? then old(messages) else response.older;
        && messages == (if selectedContact.Some? then MarkedRead(loaded, currentUser, selectedContact.value) else loaded)
        && out == old(out)
             + (if selectedContact.Some? then ReadReceipts(loaded, currentUser, selectedContact.value) else [])
             + [JoinRoom(RoomName(currentUser, contactId)), InviteToRoom(RoomName(currentUser, contactId), contactId)]
      ensures hasMoreMessages == if response.Paged? then response.hasMore else old(hasMoreMessages)
      ensures selectedContact == Some(contactId) ==>
        forall i :: 0 <= i < |messages| ==> !UnreadFrom(messages[i], currentUser, contactId)
    {
      if !response.RequestFailed? {
        messages := response.older;
        if response.Paged? {
          hasMoreMessages := response.hasMore;
        }
      }
      MarkUnreadMessagesAsRead();
      var room := RoomName(currentUser, contactId);
      out := out + [JoinRoom(room), InviteToRoom(room, contactId)];
    }

    /**
     * startChatWithUser(user): add the user in front when not yet a
     * contact, then select them; selectContact is not awaited, so what
     * follows its request is FinishSelectContact.
     */
    method StartChatWithUser(user: Contact)
      modifies this`contacts, this`selectedContact, this`currentPage, this`hasMoreMessages
      ensures IndexOfContact(old(contacts), user.id).None? ==> contacts == [user] + old(contacts)
      ensures IndexOfContact(old(contacts), user.id).Some? ==> contacts == old(contacts)
      ensures IndexOfContact(contacts, user.id).Some?
      ensures selectedContact == Some(user.id) && currentPage == 1 && hasMoreMessages
    {
      if IndexOfContact(contacts, user.id).None? {
        contacts := [user] + contacts;
      }
      SelectContact(user);
    }

    /** The relayed message belongs to the open chat: sent by the selected contact, or by this user to them. */
    predicate ForOpenChat(m: ChatMessage)
      reads this`selectedContact, this`currentUser
    {
      selectedContact.Some? &&
      (m.senderId == selectedContact.value || (m.senderId == currentUser && m.receiverId == selectedContact.value))
    }

    /** handleIncomingMessage once it confirms receipt: a message for this user is acknowledged and its sender brought to the top. */
    method AcknowledgeIncoming(m: ChatMessage, sender: Option<SenderData>, now: string)
      modifies this`out, this`contacts
      ensures m.receiverId == currentUser ==>
        && out == old(out) + [Emit("message_delivered", m.id), JoinRoom(RoomName(currentUser, m.senderId))]
        && contacts == AddedOrMoved(old(contacts), m.senderId, sender, now)
      ensures m.receiverId != currentUser ==> out == old(out) && contacts == old(contacts)
    {
      if m.receiverId == currentUser {
        out := out + [Emit("message_delivered", m.id)];
        AddOrMoveContactToTop(m.senderId, sender, now);
        out := out + [JoinRoom(RoomName(currentUser, m.senderId))];
      }
    }

    /**
     * handleIncomingMessage(data): acknowledge a message for this user, then
     * show a message of the open chat unless one with its id is already
     * shown, reading it at once when it is for this user.
     */
    method HandleIncomingMessage(m: ChatMessage, sender: Option<SenderData>, now: string)
      modifies this`out, this`contacts, this`messages
      ensures var shown := ForOpenChat(m) && IndexOfMessage(old(messages), m.id).None?;
        && messages == (if shown then old(messages) + [m] else old(messages))
        && out == old(out)
             + (if m.receiverId == currentUser then [Emit("message_delivered", m.id), JoinRoom(RoomName(currentUser, m.senderId))] else [])
             + (if shown && m.receiverId == currentUser then [Emit("message_read", m.id)] else [])
      ensures contacts == if m.receiverId == currentUser then AddedOrMoved(old(contacts), m.senderId, sender, now) else old(contacts)
      ensures UniqueIds(old(messages)) ==> UniqueIds(messages)
    {
      AcknowledgeIncoming(m, sender, now);
      if ForOpenChat(m) && IndexOfMessage(messages, m.id).None? {
        messages := messages + [m];
        if m.receiverId == currentUser {
          out := out + [Emit("message_read", m.id)];
        }
      }
    }

    /** updateMessageStatus(messageId, status): the first message with the id takes the status; an unknown id changes nothing. */
    method UpdateMessageStatus(messageId: int, status: string)
      modifies this`messages
      ensures var i := IndexOfMessage(old(messages), messageId);
        messages == if i.Some? then old(messages)[i.value := WithStatus(old(messages)[i.value], status)] else old(messages)
    {
      var i := IndexOfMessage(messages, messageId);
      if i.Some? {
        messages := messages[i.value := WithStatus(messages[i.value], status)];
      }
    }

    /** getUnreadCount(contactId). */
    function UnreadCount(contactId: UserId): (n: nat)
      reads this`unread
      ensures contactId !in unread ==> n == 0
      ensures contactId in unread ==> n == |unread[contactId]|
    {
      if contactId in unread then |unread[contactId]| else 0
    }

    /** addUnreadMessage(senderId, message): appended to that sender's list, started if need be. */
    method AddUnreadMessage(senderId: UserId, m: ChatMessage)
      modifies this`unread
      ensures UnreadCount(senderId) == old(UnreadCount(senderId)) + 1
      ensures unread[senderId] == (if senderId in old(unread) then old(unread)[senderId] else []) + [m]
      ensures forall c :: c != senderId ==> (c in unread <==> c in old(unread)) && (c in unread ==> unread[c] == old(unread)[c])
    {
      var before := if senderId in unread then unread[senderId] else [];
      unread := unread[senderId := before + [m]];
    }

    /** clearUnreadMessages(contactId): the contact's entry is removed. */
    method ClearUnreadMessages(contactId: UserId)
      modifies this`unread
      ensures UnreadCount(contactId) == 0
      ensures unread == old(unread) - {contactId}
    {
      unread := unread - {contactId};
    }

    /**
     * The first half of loadMoreMessages, up to the request: nothing while a
     * load is running, with no open chat or when there is nothing more;
     * otherwise the next page is requested.
     */
    method BeginLoadMore() returns (page: Option<int>)
      modifies this`loadingMore
      ensures page.None? <==> old(loadingMore) || selectedContact.None? || !hasMoreMessages
      ensures page.None? ==> loadingMore == old(loadingMore)
      ensures page.Some? ==> page.value == currentPage + 1 && loadingMore
    {
      if loadingMore || selectedContact.None? || !hasMoreMessages {
        return None;
      }
      loadingMore := true;
      page := Some(currentPage + 1);
    }

    /**
     * The second half of loadMoreMessages, once the page `nextPage` has
     * answered: older messages go in front and the page counter moves to
     * it; an empty page ends the paging; the load is over either way.
     */
    method FinishLoadMore(nextPage: int, response: PageResponse)
      modifies this`messages, this`currentPage, this`hasMoreMessages, this`loadingMore
      ensures !loadingMore
      ensures response.RequestFailed? ==>
        messages == old(messages) && currentPage == old(currentPage) && hasMoreMessages == old(hasMoreMessages)
      ensures !response.RequestFailed? && response.older != [] ==>
        && messages == response.older + old(messages) && currentPage == nextPage
        && hasMoreMessages == (if response.Paged? then response.hasMore else |response.older| == 50)
      ensures !response.RequestFailed? && response.older == [] ==>
        messages == old(messages) && currentPage == old(currentPage) && !hasMoreMessages
    {
      if !response.RequestFailed? {
        if response.Paged? {
          hasMoreMessages := response.hasMore;
        } else {
          hasMoreMessages := |response.older| == 50;
        }
        if response.older != [] {
          messages := response.older + messages;
          currentPage := nextPage;
        } else {
          hasMoreMessages := false;
        }
      }
      loadingMore := false;
    }

    /**
     * markUnreadMessagesAsRead(): every unread message the selected contact
     * sent this user is marked read and acknowledged with one message_read.
     */
    method MarkUnreadMessagesAsRead()
      modifies this`messages, this`out
      ensures selectedContact.None? ==> messages == old(messages) && out == old(out)
      ensures selectedContact.Some? ==>
        && messages == MarkedRead(old(messages), currentUser, selectedContact.value)
        && out == old(out) + ReadReceipts(old(messages), currentUser, selectedContact.value)
    {
      if selectedContact.None? {
        return;
      }
      var other := selectedContact.value;
      var i := 0;
      while i < |messages|
        invariant 0 <= i <= |messages| == |old(messages)|
        invariant messages[..i] == MarkedRead(old(messages)[..i], currentUser, other)
        invariant messages[i..] == old(messages)[i..]
        invariant out == old(out) + ReadReceipts(old(messages)[..i], currentUser, other)
      {
        var m := messages[i];
        assert m == old(messages)[i];
        assert old(messages)[..i + 1][..i] == old(messages)[..i];
        if UnreadFrom(m, currentUser, other) {
          out := out + [Emit("message_read", m.id)];
          messages := messages[i := m.(isRead := true)];
        }
        i := i + 1;
      }
      assert old(messages)[..i] == old(messages);
      assert messages[..i] == messages;
    }
  }

  // ---------------------------------------------- call ids across the page

  /** The JavaScript values a call id takes on the page. */
  datatype JsValue = JsNumber(n: int) | JsString(s: string) | JsNull

  /** `===`: same type and same value. */
  predicate StrictEquals(a: JsValue, b: JsValue)
  {
    a == b
  }

  /** A call_mode_changed signal as the page receives it, with its call id as sent. */
  datatype ModeSignal = ModeSignal(callId: JsValue, newMode: string, room: string)

  /** The signal the caller sends, carrying the call id it got back from /api/calls/initiate as a number. */
  function CallerModeSignal(callId: int, newMode: string, room: string): (sig: ModeSignal)
    ensures sig.callId.JsNumber? && sig.callId.n == callId && sig.newMode == newMode
  {
    ModeSignal(JsNumber(callId), newMode, room)
  }

  /**
   * The guard of the call_mode_changed branch of handleCallSignal: the mode
   * is followed only when the signal's call id is `===` to the held one.
   */
  predicate FollowsModeChange(sig: ModeSignal, currentCallId: JsValue)
  {
    StrictEquals(sig.callId, currentCallId)
  }

  /**
   * `popup.dataset.callId = data.call_id` stores the number as a string;
   * answerCall(popup.dataset.callId) then makes that string the callee's
   * currentCallId.
   */
  function DatasetCallId(callId: int): (r: JsValue)
    ensures r.JsString? && PyInt(r.s) == Some(callId)
  {
    PyIntToString(callId);
    JsString(IntToString(callId))
  }

  /**
   * As written, once the callee has answered from the popup, neither side
   * follows the other's call_mode_changed: the caller's signal carries the
   * number, the callee holds the string, and `===` tells them apart (and the
   * callee's own signal carries the string to a caller holding the number).
   */
  lemma ModeChangeIgnoredAsWritten(callId: int, newMode: string, room: string)
    ensures !FollowsModeChange(CallerModeSignal(callId, newMode, room), DatasetCallId(callId))
    ensures !FollowsModeChange(ModeSignal(DatasetCallId(callId), newMode, room), JsNumber(callId))
    ensures FollowsModeChange(CallerModeSignal(callId, newMode, room), JsNumber(callId))
  {
  }

  /**
   * With the dataset value turned back into the number it came from, both
   * sides hold the same id, which is what the call manager's model compares
   * (WebRTC.CallManager.HandleCallSignal).
   */
  function CallIdFromDataset(v: JsValue): (r: Option<int>)
    ensures v.JsNumber? ==> r == Some(v.n)
    ensures v.JsNull? ==> r.None?
  {
    if v.JsString? then PyInt(v.s) else if v.JsNumber? then Some(v.n) else None
  }

  lemma DatasetCallIdRoundTrip(callId: int)
    ensures CallIdFromDataset(DatasetCallId(callId)) == Some(callId)
    ensures StrictEquals(JsNumber(CallIdFromDataset(DatasetCallId(callId)).value), JsNumber(callId))
  {
    PyIntToString(callId);
  }
}
