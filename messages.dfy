/**
 * The messages page (app/messages/page.tsx): the two queries whose results
 * replace the page's lists wholesale, the receiver and partner-name choices,
 * and `handleSendMessage`, which appends to the message log and only then
 * updates the conversation's summary.
 *
 * The store is an in-memory pair of tables. Its replies (success, a returned
 * error, or a thrown exception) and its clocks are parameters of the methods
 * that call it.
 */
module Messages {
  import opened Wrappers
  import opened Database
  import opened Seqs
  import opened Text

  // ---------------------------------------------------------------------------
  // The conversation list query.

  /** A conversation as the list loads it: the row and its participants' `full_name`s. */
  datatype ConversationView = ConversationView(row: Conversation, buyerName: Option<string>, sellerName: Option<string>)

  function FullName(profiles: map<Id, Profile>, id: Id): Option<string>
  {
    if id in profiles then profiles[id].fullName else None
  }

  /** The `buyer:profiles(...)` and `seller:profiles(...)` joins of one row. */
  function Join(profiles: map<Id, Profile>, c: Conversation): ConversationView
  {
    ConversationView(c, FullName(profiles, c.buyerId), FullName(profiles, c.sellerId))
  }

  function JoinAll(cs: seq<Conversation>, profiles: map<Id, Profile>): (r: seq<ConversationView>)
    ensures |r| == |cs|
  {
    seq(|cs|, i requires 0 <= i < |cs| => Join(profiles, cs[i]))
  }

  /** `or(buyer_id.eq.user, seller_id.eq.user)`. */
  predicate Involves(user: Id, c: Conversation)
  {
    c.buyerId == user || c.sellerId == user
  }

  function InvolvesUser(user: Id): Conversation -> bool
  {
    (c: Conversation) => Involves(user, c)
  }

  /**
   * The sort key of `order('last_message_at', { ascending: false, nullsFirst: false })`:
   * later summaries first, rows without a summary time after all others.
   */
  function SummaryRecency(c: Conversation): int
  {
    match c.lastMessageAt
    case Some(t) => -(t as int)
    case None => 1
  }

  function ConversationList(table: seq<Conversation>, profiles: map<Id, Profile>, user: Id): seq<ConversationView>
  {
    JoinAll(SortBy(Filter(table, InvolvesUser(user)), SummaryRecency), profiles)
  }

  /** The loaded rows of a conversation list, without their joined names. */
  function Rows(l: seq<ConversationView>): (r: seq<Conversation>)
    ensures |r| == |l|
  {
    seq(|l|, i requires 0 <= i < |l| => l[i].row)
  }

  /** Without their names, the loaded rows are the sorted query rows. */
  lemma RowsOfList(table: seq<Conversation>, profiles: map<Id, Profile>, user: Id)
    ensures Rows(ConversationList(table, profiles, user)) == SortBy(Filter(table, InvolvesUser(user)), SummaryRecency)
  {
  }

  /** The loaded rows are the involved rows of the table, with their multiplicities. */
  lemma ListRowCounts(table: seq<Conversation>, profiles: map<Id, Profile>, user: Id)
    ensures var r := Rows(ConversationList(table, profiles, user));
            && (forall c :: multiset(r)[c] == if Involves(user, c) then multiset(table)[c] else 0)
            && (forall c :: c in r <==> c in table && Involves(user, c))
  {
    var r := Rows(ConversationList(table, profiles, user));
    RowsOfList(table, profiles, user);
    forall c ensures multiset(r)[c] == if Involves(user, c) then multiset(table)[c] else 0 {
      assert InvolvesUser(user)(c) == Involves(user, c);
    }
    forall c ensures c in r <==> c in table && Involves(user, c) {
      assert c in r <==> c in multiset(r);
      assert c in table <==> c in multiset(table);
    }
  }

  /** Every loaded row is joined with its participants' names, newest summary first, rows without one last. */
  lemma ListJoinedAndOrdered(table: seq<Conversation>, profiles: map<Id, Profile>, user: Id)
    ensures var l := ConversationList(table, profiles, user);
            && (forall i :: 0 <= i < |l| ==> l[i] == Join(profiles, l[i].row))
            && (forall i, j :: 0 <= i < j < |l| && l[j].row.lastMessageAt.Some? ==>
                  l[i].row.lastMessageAt.Some? && l[i].row.lastMessageAt.value >= l[j].row.lastMessageAt.value)
  {
    var s := SortBy(Filter(table, InvolvesUser(user)), SummaryRecency);
    var l := ConversationList(table, profiles, user);
    forall i, j | 0 <= i < j < |l| && l[j].row.lastMessageAt.Some?
      ensures l[i].row.lastMessageAt.Some? && l[i].row.lastMessageAt.value >= l[j].row.lastMessageAt.value
    {
      assert SummaryRecency(s[i]) <= SummaryRecency(s[j]);
    }
  }

  /**
   * The list holds exactly the rows where the user is buyer or seller, with their
   * multiplicities, each joined with its participants' names, newest summary first
   * and rows without one last.
   */
  lemma ConversationListSpec(table: seq<Conversation>, profiles: map<Id, Profile>, user: Id)
    ensures var l := ConversationList(table, profiles, user);
            && (forall c :: multiset(Rows(l))[c] == if Involves(user, c) then multiset(table)[c] else 0)
            && (forall c :: (exists i :: 0 <= i < |l| && l[i].row == c) <==> c in table && Involves(user, c))
            && (forall i :: 0 <= i < |l| ==> l[i] == Join(profiles, l[i].row))
            && (forall i, j :: 0 <= i < j < |l| && l[j].row.lastMessageAt.Some? ==>
                  l[i].row.lastMessageAt.Some? && l[i].row.lastMessageAt.value >= l[j].row.lastMessageAt.value)
  {
    ListRowCounts(table, profiles, user);
    ListRowsListed(ConversationList(table, profiles, user));
    ListJoinedAndOrdered(table, profiles, user);
  }

  /** A row is in the list's rows exactly when some entry of the list holds it. */
  lemma ListRowsListed(l: seq<ConversationView>)
    ensures forall c :: (exists i :: 0 <= i < |l| && l[i].row == c) <==> c in Rows(l)
  {
    forall c ensures (exists i :: 0 <= i < |l| && l[i].row == c) <==> c in Rows(l) {
      if c in Rows(l) {
        var i :| 0 <= i < |l| && Rows(l)[i] == c;
        assert l[i].row == c;
      }
      if i :| 0 <= i < |l| && l[i].row == c {
        assert Rows(l)[i] == c;
      }
    }
  }

  /** `conversations.find(c => c.id === id)`: the first loaded conversation with that id. */
  function Find(cs: seq<ConversationView>, id: Id): (r: Option<ConversationView>)
    ensures r.Some? <==> exists i :: 0 <= i < |cs| && cs[i].row.id == id
    ensures r.Some? ==> r.value in cs && r.value.row.id == id
    ensures r.Some? ==> exists i :: 0 <= i < |cs| && r.value == cs[i] && forall j :: 0 <= j < i ==> cs[j].row.id != id
  {
    if cs == [] then None
    else if cs[0].row.id == id then Some(cs[0])
    else
      var r := Find(cs[1..], id);
      assert forall i :: 0 < i < |cs| ==> cs[i] == cs[1..][i - 1];
      r
  }

  // ---------------------------------------------------------------------------
  // The message query.

  function InConversation(id: Id): Message -> bool
  {
    (m: Message) => m.conversationId == id
  }

  function SentAt(m: Message): int
  {
    m.createdAt
  }

  /** `eq('conversation_id', id).order('created_at', { ascending: true })`. */
  function MessagesOf(log: seq<Message>, id: Id): seq<Message>
  {
    SortBy(Filter(log, InConversation(id)), SentAt)
  }

  /**
   * The message pane holds exactly the conversation's messages, with their
   * multiplicities, oldest first; messages with the same time stay in log order.
   */
  lemma MessagesOfSpec(log: seq<Message>, id: Id)
    ensures var r := MessagesOf(log, id);
            && (forall m :: multiset(r)[m] == if m.conversationId == id then multiset(log)[m] else 0)
            && (forall m :: m in r <==> m in log && m.conversationId == id)
            && (forall i, j :: 0 <= i < j < |r| ==> r[i].createdAt <= r[j].createdAt)
            && (forall t :: KeyClass(r, SentAt, t) == KeyClass(Filter(log, InConversation(id)), SentAt, t))
  {
    var f := Filter(log, InConversation(id));
    var r := MessagesOf(log, id);
    forall m ensures m in r <==> m in log && m.conversationId == id {
      assert m in r <==> m in multiset(r);
    }
    forall i, j | 0 <= i < j < |r| ensures r[i].createdAt <= r[j].createdAt {
      assert SentAt(r[i]) <= SentAt(r[j]);
    }
    forall t ensures KeyClass(r, SentAt, t) == KeyClass(f, SentAt, t) {
      SortByStable(f, SentAt, t);
    }
  }

  // ---------------------------------------------------------------------------
  // Receiver and partner label.

  /** The receiver of a message `sender` writes: the seller when the sender is the buyer, else the buyer. */
  function Receiver(c: Conversation, sender: Id): (r: Id)
    ensures r == c.buyerId || r == c.sellerId
    ensures sender == c.buyerId ==> r == c.sellerId
    ensures sender != c.buyerId ==> r == c.buyerId
    ensures Involves(sender, c) && c.buyerId != c.sellerId ==> r != sender
  {
    if c.buyerId == sender then c.sellerId else c.buyerId
  }

  /** `name || fallback`: a missing or empty name gives the fallback. */
  function NameOr(name: Option<string>, fallback: string): string
  {
    if name.Some? && name.value != "" then name.value else fallback
  }

  /** The name shown under a conversation: the other participant's, or their role. */
  function PartnerLabel(user: Option<Id>, v: ConversationView): (r: string)
    ensures r != ""
    ensures user == Some(v.row.buyerId) ==>
              r == (if v.sellerName.Some? && v.sellerName.value != "" then v.sellerName.value else "Seller")
    ensures user != Some(v.row.buyerId) ==>
              r == (if v.buyerName.Some? && v.buyerName.value != "" then v.buyerName.value else "Buyer")
  {
    if user.Some? && user.value == v.row.buyerId then NameOr(v.sellerName, "Seller")
    else NameOr(v.buyerName, "Buyer")
  }

  // ---------------------------------------------------------------------------
  // The summary and the log.

  /** Some message of conversation `id` in the log has exactly this content. */
  ghost predicate Logged(log: seq<Message>, id: Id, content: string)
  {
    exists j :: 0 <= j < |log| && log[j].conversationId == id && log[j].content == content
  }

  /** Every conversation summary names the content of a message already in the log. */
  ghost predicate SummariesBacked(conversations: seq<Conversation>, log: seq<Message>)
  {
    forall i :: 0 <= i < |conversations| && conversations[i].lastMessage.Some? ==>
      Logged(log, conversations[i].id, conversations[i].lastMessage.value)
  }

  /** `update({ last_message, last_message_at }).eq('id', id)`. */
  function SetSummary(conversations: seq<Conversation>, id: Id, content: string, at: Timestamp): (r: seq<Conversation>)
    ensures |r| == |conversations|
  {
    seq(|conversations|, i requires 0 <= i < |conversations| =>
      var c := conversations[i];
      if c.id == id then c.(lastMessage := Some(content), lastMessageAt := Some(at)) else c)
  }

  /**
   * Appending a message and then setting its conversation's summary to its content
   * keeps every summary backed by the log.
   */
  lemma AppendThenSummarise(conversations: seq<Conversation>, log: seq<Message>, m: Message, at: Timestamp)
    requires SummariesBacked(conversations, log)
    ensures SummariesBacked(conversations, log + [m])
    ensures SummariesBacked(SetSummary(conversations, m.conversationId, m.content, at), log + [m])
  {
    var log' := log + [m];
    forall i | 0 <= i < |conversations| && conversations[i].lastMessage.Some?
      ensures Logged(log', conversations[i].id, conversations[i].lastMessage.value)
    {
      var j :| 0 <= j < |log| && log[j].conversationId == conversations[i].id
               && log[j].content == conversations[i].lastMessage.value;
      assert log'[j] == log[j];
    }
    assert log'[|log|] == m;
    SummariseLogged(conversations, log', m.conversationId, m.content, at);
  }

  /** Setting a conversation's summary to a logged content of it keeps every summary backed. */
  lemma SummariseLogged(conversations: seq<Conversation>, log: seq<Message>, id: Id, content: string, at: Timestamp)
    requires SummariesBacked(conversations, log) && Logged(log, id, content)
    ensures SummariesBacked(SetSummary(conversations, id, content, at), log)
  {
    var r := SetSummary(conversations, id, content, at);
    forall i | 0 <= i < |r| && r[i].lastMessage.Some?
      ensures Logged(log, r[i].id, r[i].lastMessage.value)
    {
      if conversations[i].id != id {
        assert r[i] == conversations[i];
      }
    }
  }

  /**
   * The write-order guarantee as a reader sees it: a summary's content can be
   * fetched from that conversation's message query.
   */
  lemma SummaryIsFetchable(conversations: seq<Conversation>, log: seq<Message>, i: nat)
    requires SummariesBacked(conversations, log)
    requires i < |conversations| && conversations[i].lastMessage.Some?
    ensures exists m :: m in MessagesOf(log, conversations[i].id) && m.content == conversations[i].lastMessage.value
  {
    var c := conversations[i];
    var j :| 0 <= j < |log| && log[j].conversationId == c.id && log[j].content == c.lastMessage.value;
    MessagesOfSpec(log, c.id);
    assert log[j] in MessagesOf(log, c.id);
  }

  /** The row `handleSendMessage` inserts; `is_read` takes its column default, false. */
  function Outgoing(c: Conversation, sender: Id, content: string, id: Id, at: Timestamp): (m: Message)
    ensures m.conversationId == c.id && m.senderId == sender && m.content == content
    ensures m.receiverId == Receiver(c, sender) && m.productId == c.productId
  {
    Message(id, c.id, sender, Receiver(c, sender), c.productId, content, false, at)
  }

  // ---------------------------------------------------------------------------
  // The store and the page.

  /** A store reply: success, a returned `{ error }`, or a thrown exception. */
  datatype Reply = Ok | Failed | Threw

  /** The `messages`, `conversations` and `profiles` tables. */
  class Store {
    var messages: seq<Message>
    var conversations: seq<Conversation>
    var profiles: map<Id, Profile>

    /** Summaries only name logged contents, and no logged content is blank. */
    ghost predicate Valid()
      reads this
    {
      && SummariesBacked(conversations, messages)
      && (forall i :: 0 <= i < |messages| ==> !AllSpace(messages[i].content))
    }

    constructor (profiles: map<Id, Profile>)
      ensures messages == [] && conversations == [] && this.profiles == profiles
      ensures Valid()
    {
      messages := [];
      conversations := [];
      this.profiles := profiles;
    }

    /** `from('messages').insert(m)`: the row is appended only when the store accepts it. */
    method InsertMessage(m: Message, reply: Reply)
      modifies this`messages
      ensures messages == if reply.Ok? then old(messages) + [m] else old(messages)
      ensures old(Valid()) && !AllSpace(m.content) ==> Valid()
    {
      if reply.Ok? {
        if Valid() {
          AppendThenSummarise(conversations, messages, m, 0);
        }
        messages := messages + [m];
      }
    }

    /** `from('conversations').update(...).eq('id', id)`, applied only when the store accepts it. */
    method UpdateSummary(id: Id, content: string, at: Timestamp, reply: Reply)
      modifies this`conversations
      ensures conversations == if reply.Ok? then SetSummary(old(conversations), id, content, at) else old(conversations)
      ensures old(Valid()) && Logged(messages, id, content) ==> Valid()
    {
      if reply.Ok? {
        if Valid() && Logged(messages, id, content) {
          SummariseLogged(conversations, messages, id, content, at);
        }
        conversations := SetSummary(conversations, id, content, at);
      }
    }
  }

  class MessagesPage {
    var user: Option<Id>
    var conversations: seq<ConversationView>
    var selectedConversation: Option<Id>
    var messages: seq<Message>
    var newMessage: string
    var loading: bool

    /** The page as it mounts, with the `conversation` search parameter as the selection. */
    constructor (fromUrl: Option<Id>)
      ensures user == None && conversations == [] && selectedConversation == fromUrl
      ensures messages == [] && newMessage == "" && !loading
    {
      user := None;
      conversations := [];
      selectedConversation := fromUrl;
      messages := [];
      newMessage := "";
      loading := false;
    }

    /** A selection is present and, being a JavaScript string, not empty. */
    predicate HasSelection()
      reads this
    {
      selectedConversation.Some? && selectedConversation.value != ""
    }

    method SetUser(u: Option<Id>)
      modifies this`user
      ensures user == u
    {
      user := u;
    }

    method SelectConversation(id: Id)
      modifies this`selectedConversation
      ensures selectedConversation == Some(id)
    {
      selectedConversation := Some(id);
    }

    method SetNewMessage(draft: string)
      modifies this`newMessage
      ensures newMessage == draft
    {
      newMessage := draft;
    }

    /**
     * `fetchConversations`, run once a user is known and again on every change
     * notification of the conversations table: a successful query replaces the list.
     */
    method FetchConversations(db: Store, ok: bool)
      modifies this`conversations
      ensures user.Some? && ok ==> conversations == ConversationList(db.conversations, db.profiles, user.value)
      ensures !(user.Some? && ok) ==> conversations == old(conversations)
    {
      if user.Some? && ok {
        conversations := ConversationList(db.conversations, db.profiles, user.value);
      }
    }

    /**
     * `fetchMessages`, run when a conversation is selected and again on every
     * insert notification for it: a successful query replaces the pane.
     */
    method FetchMessages(db: Store, ok: bool)
      modifies this`messages
      ensures HasSelection() && ok ==> messages == MessagesOf(db.messages, selectedConversation.value)
      ensures !(HasSelection() && ok) ==> messages == old(messages)
    {
      if HasSelection() && ok {
        messages := MessagesOf(db.messages, selectedConversation.value);
      }
    }

    /**
     * `handleSendMessage`. Nothing happens for a blank draft, a missing user or no
     * selection. Otherwise `loading` is set; if the selection is not among the
     * loaded conversations the handler stops there, leaving `loading` set. Else
     * the untrimmed draft is inserted; only after the insert succeeds is the
     * summary updated; the draft is cleared unless the insert failed or the
     * update threw; and `loading` ends false.
     */
    method HandleSendMessage(db: Store, insertReply: Reply, updateReply: Reply,
                             messageId: Id, insertedAt: Timestamp, now: Timestamp)
      modifies this`loading, this`newMessage, db`messages, db`conversations
      ensures Trim(old(newMessage)) == [] || user.None? || !HasSelection() ==>
                && loading == old(loading) && newMessage == old(newMessage)
                && db.messages == old(db.messages) && db.conversations == old(db.conversations)
      ensures Trim(old(newMessage)) != [] && user.Some? && HasSelection() ==>
                match Find(conversations, selectedConversation.value)
                case None =>
                  && loading && newMessage == old(newMessage)
                  && db.messages == old(db.messages) && db.conversations == old(db.conversations)
                case Some(v) =>
                  && !loading
                  && db.messages == (if insertReply.Ok?
                                     then old(db.messages) + [Outgoing(v.row, user.value, old(newMessage), messageId, insertedAt)]
                                     else old(db.messages))
                  && db.conversations == (if insertReply.Ok? && updateReply.Ok?
                                          then SetSummary(old(db.conversations), selectedConversation.value, old(newMessage), now)
                                          else old(db.conversations))
                  && newMessage == (if insertReply.Ok? && !updateReply.Threw? then "" else old(newMessage))
      ensures old(db.Valid()) ==> db.Valid()
    {
      if Trim(newMessage) == [] || user.None? || !HasSelection() {
        return;
      }
      loading := true;
      var found := Find(conversations, selectedConversation.value);
      if found.None? {
        return;
      }
      var conversation := found.value.row;
      var m := Outgoing(conversation, user.value, newMessage, messageId, insertedAt);
      TrimEmptyIffAllSpace(newMessage);
      ghost var before := db.messages;
      db.InsertMessage(m, insertReply);
      if insertReply.Ok? {
        assert db.messages[|before|] == m;
        db.UpdateSummary(selectedConversation.value, newMessage, now, updateReply);
        if !updateReply.Threw? {
          newMessage := "";
        }
      }
      loading := false;
    }
  }
}
