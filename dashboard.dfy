/**
 * The dashboard's chat, presence and discover state (client/src/components/Dashboard.js).
 *
 * The open conversation's message list, the draft being typed and the set of online users are
 * fields of `ChatView`, changed by the socket event handlers and by the send and load actions.
 * A send is asynchronous: `BeginSend` shows the draft at once under a temporary id, and
 * `ResolveSend` later applies the server's answer to whatever the list holds by then.
 */
module Dashboard {
  import opened Wrappers
  import opened Text
  import opened Seqs
  import Bearer

  /** An entry's id: the server's `_id` string, or the number `Date.now()` gave an optimistic draft.
      The two never compare equal under `===`, which the two constructors capture. */
  datatype MsgId = Server(oid: string) | Temp(millis: int)

  /** `new Date(createdAt)` for a server record, `new Date()` for a draft. */
  datatype Stamp = Created(createdAt: string) | Clock(millis: int)

  datatype Sender = Sender(id: string, name: string)

  /** A message as the server sends it, with its sender populated. */
  datatype ServerMessage = ServerMessage(oid: string, sender: Sender, content: string, createdAt: string)

  /** One entry of `chatMessages`. */
  datatype ChatEntry = ChatEntry(id: MsgId, senderId: Option<string>, senderName: string,
                                 text: string, timestamp: Stamp, isOwn: bool)

  /** The request `sendMessage` posts: its headers, and the body's `recipientId` and `content`. */
  datatype Outgoing = Outgoing(tempId: MsgId, headers: map<string, string>, recipientId: string, content: string)

  /** What the awaited `fetch` of a send ends in. */
  datatype SendOutcome = Delivered(record: ServerMessage) | Refused | Thrown

  /** What the awaited `fetch` of a history load ends in. */
  datatype LoadOutcome = Loaded(messages: seq<ServerMessage>) | LoadRefused | LoadThrown

  datatype PresenceEvent = Online(user: string) | Offline(user: string)

  /** A user of the discover list; name, role and place may be missing. */
  datatype DiscoverUser = DiscoverUser(id: string, name: Option<string>, role: Option<string>, place: Option<string>)

  // ---------------------------------------------------------------- auth headers

  /** `getAuthHeaders`: the JSON content type and the bearer credential, or `null` when no token is stored. */
  function AuthHeaders(token: Option<string>): (r: Option<map<string, string>>)
    ensures r.Some? <==> Truthy(token)
    ensures r.Some? ==> r.value.Keys == {"Content-Type", "Authorization"}
                        && r.value["Content-Type"] == "application/json"
                        && Bearer.ParseCredentials(r.value["Authorization"]) == Some(token.value)
  {
    if Truthy(token) then
      Bearer.CredentialsRoundTrip(token.value);
      Some(map["Content-Type" := "application/json", "Authorization" := Bearer.Credentials(token.value)])
    else None
  }

  // ---------------------------------------------------------------- message entries

  /** The entry the client builds from a server record. */
  function FromServer(m: ServerMessage, isOwn: bool): ChatEntry {
    ChatEntry(Server(m.oid), Some(m.sender.id), m.sender.name, m.content, Created(m.createdAt), isOwn)
  }

  /** The entry `sendMessage` shows before the server has answered. */
  function Optimistic(now: int, me: Option<string>, userName: Option<string>, text: string): ChatEntry {
    ChatEntry(Temp(now), me, OrElse(userName, "You"), text, Clock(now), true)
  }

  /** `loadChatMessages`: the history mapped one to one, in order, marked own exactly when the sender is the current user. */
  function History(ms: seq<ServerMessage>, me: Option<string>): (r: seq<ChatEntry>)
    ensures |r| == |ms|
    ensures forall i :: 0 <= i < |ms| ==>
              r[i].id == Server(ms[i].oid) && r[i].text == ms[i].content && r[i].senderId == Some(ms[i].sender.id)
    ensures forall i :: 0 <= i < |ms| ==> (r[i].isOwn <==> me == Some(ms[i].sender.id))
  {
    seq(|ms|, i requires 0 <= i < |ms| => FromServer(ms[i], me == Some(ms[i].sender.id)))
  }

  predicate IdAbsent(ms: seq<ChatEntry>, id: MsgId) {
    forall i :: 0 <= i < |ms| ==> ms[i].id != id
  }

  /** The `map` applied on a successful send: entries with the temporary id become the server's record. */
  function Reconcile(ms: seq<ChatEntry>, tempId: MsgId, confirmed: ChatEntry): (r: seq<ChatEntry>)
    ensures |r| == |ms|
    ensures forall i :: 0 <= i < |ms| && ms[i].id != tempId ==> r[i] == ms[i]
  {
    seq(|ms|, i requires 0 <= i < |ms| => if ms[i].id == tempId then confirmed else ms[i])
  }

  /** `msg => msg.id !== tempId`. */
  function OtherThan(tempId: MsgId): ChatEntry -> bool {
    (e: ChatEntry) => e.id != tempId
  }

  /** The `filter` applied on a refused send: entries with the temporary id are dropped. */
  function Retract(ms: seq<ChatEntry>, tempId: MsgId): (r: seq<ChatEntry>)
    ensures |r| <= |ms|
    ensures IdAbsent(r, tempId)
  {
    Filter(ms, OtherThan(tempId))
  }

  /** A successful send changes only the entries with the temporary id; the length and every other entry stay. */
  lemma ReconcileReplacesOnlyTemp(ms: seq<ChatEntry>, tempId: MsgId, confirmed: ChatEntry)
    ensures |Reconcile(ms, tempId, confirmed)| == |ms|
    ensures forall i :: 0 <= i < |ms| ==>
              Reconcile(ms, tempId, confirmed)[i] == (if ms[i].id == tempId then confirmed else ms[i])
    ensures IdAbsent(ms, tempId) ==> Reconcile(ms, tempId, confirmed) == ms
  {
  }

  /** A refused send drops the entries with the temporary id and keeps every other entry, every
      copy of it, in order. */
  lemma RetractKeepsOthersInOrder(ms: seq<ChatEntry>, tempId: MsgId)
    ensures IdAbsent(Retract(ms, tempId), tempId)
    ensures forall i :: 0 <= i < |ms| && ms[i].id != tempId ==> ms[i] in Retract(ms, tempId)
    ensures forall e: ChatEntry :: e.id != tempId ==> multiset(Retract(ms, tempId))[e] == multiset(ms)[e]
    ensures IsSubsequence(Retract(ms, tempId), ms)
  {
    FilterIsSubsequence(ms, OtherThan(tempId));
    forall e: ChatEntry | e.id != tempId
      ensures multiset(Retract(ms, tempId))[e] == multiset(ms)[e]
    {
      FilterCount(ms, OtherThan(tempId), e);
    }
  }

  /** Entries built from server records never carry a temporary id, so a reconcile cannot touch them. */
  lemma ServerEntriesNeverTemp(ms: seq<ServerMessage>, me: Option<string>, millis: int)
    ensures IdAbsent(History(ms, me), Temp(millis))
  {
  }

  /** Draft, then success: the draft's slot holds the server record, whatever arrived around it meanwhile. */
  lemma {:induction false} SendThenDelivered(before: seq<ChatEntry>, draft: ChatEntry, after: seq<ChatEntry>, confirmed: ChatEntry)
    requires IdAbsent(before, draft.id) && IdAbsent(after, draft.id)
    ensures Reconcile(before + [draft] + after, draft.id, confirmed) == before + [confirmed] + after
  {
    var ms := before + [draft] + after;
    assert forall i :: 0 <= i < |ms| ==> (ms[i].id == draft.id <==> i == |before|);
  }

  /** Draft, then refusal: the list is what it would have been had the draft never been shown. */
  lemma {:induction false} SendThenRefused(before: seq<ChatEntry>, draft: ChatEntry, after: seq<ChatEntry>)
    requires IdAbsent(before, draft.id) && IdAbsent(after, draft.id)
    ensures Retract(before + [draft] + after, draft.id) == before + after
  {
    FilterDropsOne(before, draft, after, OtherThan(draft.id));
  }

  // ---------------------------------------------------------------- presence

  /** One `userOnline` or `userOffline` event applied to the online set. */
  function ApplyPresence(online: set<string>, e: PresenceEvent): (r: set<string>)
    ensures e.user !in online && e.Online? ==> |r| == |online| + 1
    ensures forall u :: u != e.user ==> (u in r <==> u in online)
    ensures e.user in r <==> e.Online?
  {
    match e
    case Online(u) => online + {u}
    case Offline(u) => online - {u}
  }

  /** A stream of presence events applied in order. */
  function Replay(online: set<string>, evs: seq<PresenceEvent>): set<string>
    decreases |evs|
  {
    if evs == [] then online else Replay(ApplyPresence(online, evs[0]), evs[1..])
  }

  /** The last event about `u` in the stream, if there is one. */
  function LastAbout(evs: seq<PresenceEvent>, u: string): Option<PresenceEvent>
    decreases |evs|
  {
    if evs == [] then None
    else if evs[|evs| - 1].user == u then Some(evs[|evs| - 1])
    else LastAbout(evs[..|evs| - 1], u)
  }

  lemma {:induction false} ReplaySnoc(online: set<string>, evs: seq<PresenceEvent>, e: PresenceEvent)
    ensures Replay(online, evs + [e]) == ApplyPresence(Replay(online, evs), e)
    decreases |evs|
  {
    if evs != [] {
      assert (evs + [e])[1..] == evs[1..] + [e];
      ReplaySnoc(ApplyPresence(online, evs[0]), evs[1..], e);
    }
  }

  /** Whether a user is shown online depends only on the last event about that user: repeated
      events are harmless and events about other users never matter. */
  lemma {:induction false} LastEventDecides(online: set<string>, evs: seq<PresenceEvent>, u: string)
    ensures u in Replay(online, evs) <==>
              (match LastAbout(evs, u) case None => u in online case Some(e) => e.Online?)
    decreases |evs|
  {
    if evs != [] {
      var init, e := evs[..|evs| - 1], evs[|evs| - 1];
      assert evs == init + [e];
      ReplaySnoc(online, init, e);
      LastEventDecides(online, init, u);
    }
  }

  // ---------------------------------------------------------------- discover filter

  /** `field?.toLowerCase().includes(term.toLowerCase())`; a missing field never matches. */
  predicate FieldMatches(field: Option<string>, term: string) {
    field.Some? && Contains(Lower(field.value), Lower(term))
  }

  predicate MatchesSearch(u: DiscoverUser, term: string) {
    FieldMatches(u.name, term) || FieldMatches(u.role, term) || FieldMatches(u.place, term)
  }

  /** `filteredDiscoverUsers`. */
  function FilterDiscoverUsers(users: seq<DiscoverUser>, term: string): (r: seq<DiscoverUser>)
    ensures |r| <= |users|
    ensures forall i :: 0 <= i < |r| ==> r[i] in users && MatchesSearch(r[i], term)
  {
    Filter(users, (u: DiscoverUser) => MatchesSearch(u, term))
  }

  /** A user is listed exactly when a present name, role or place contains the search term, ignoring case. */
  lemma DiscoverKeepsExactlyMatches(users: seq<DiscoverUser>, term: string)
    ensures forall i :: 0 <= i < |FilterDiscoverUsers(users, term)| ==>
              MatchesSearch(FilterDiscoverUsers(users, term)[i], term)
    ensures forall i :: 0 <= i < |users| && MatchesSearch(users[i], term) ==> users[i] in FilterDiscoverUsers(users, term)
    ensures forall u :: u in FilterDiscoverUsers(users, term) ==> u in users
  {
  }

  /** The filtered list keeps the order of `discoverUsers`. */
  lemma DiscoverOrderPreserving(users: seq<DiscoverUser>, term: string)
    ensures IsSubsequence(FilterDiscoverUsers(users, term), users)
  {
    FilterIsSubsequence(users, (u: DiscoverUser) => MatchesSearch(u, term));
  }

  /** Searching for a term and for its lower-case form lists the same users. */
  lemma DiscoverIgnoresCase(users: seq<DiscoverUser>, term: string)
    ensures FilterDiscoverUsers(users, term) == FilterDiscoverUsers(users, Lower(term))
  {
    LowerIdempotent(term);
    FilterAgrees(users, (u: DiscoverUser) => MatchesSearch(u, term), (u: DiscoverUser) => MatchesSearch(u, Lower(term)));
  }

  /** An empty search lists every user with at least one of name, role and place, and no other. */
  lemma DiscoverEmptyTerm(users: seq<DiscoverUser>)
    ensures FilterDiscoverUsers(users, "")
            == Filter(users, (u: DiscoverUser) => u.name.Some? || u.role.Some? || u.place.Some?)
  {
    forall i | 0 <= i < |users|
      ensures MatchesSearch(users[i], "") == (users[i].name.Some? || users[i].role.Some? || users[i].place.Some?)
    {
      var u := users[i];
      if u.name.Some? { ContainsEmpty(Lower(u.name.value)); }
      if u.role.Some? { ContainsEmpty(Lower(u.role.value)); }
      if u.place.Some? { ContainsEmpty(Lower(u.place.value)); }
    }
    FilterAgrees(users, (u: DiscoverUser) => MatchesSearch(u, ""),
                 (u: DiscoverUser) => u.name.Some? || u.role.Some? || u.place.Some?);
  }

  // ---------------------------------------------------------------- the chat state

  class ChatView {
    var selectedChat: Option<string>
    var chatOpen: bool
    var messages: seq<ChatEntry>
    var draft: string
    var chatLoading: bool
    var onlineUsers: set<string>

    constructor ()
      ensures selectedChat == None && !chatOpen && messages == [] && draft == ""
      ensures !chatLoading && onlineUsers == {}
    {
      selectedChat, chatOpen, messages, draft := None, false, [], "";
      chatLoading, onlineUsers := false, {};
    }

    /** `startChat`: the conversation with `peer` becomes the open one. The history load it then
        starts is the separate call `LoadMessages`. */
    method StartChat(peer: string)
      modifies this`selectedChat, this`chatOpen
      ensures selectedChat == Some(peer) && chatOpen
    {
      selectedChat, chatOpen := Some(peer), true;
    }

    /** Typing into the message box. */
    method EditDraft(text: string)
      modifies this`draft
      ensures draft == text
    {
      draft := text;
    }

    /** `handleNewMessage`: appended, as not own, only when it comes from the open conversation's peer. */
    method HandleNewMessage(m: ServerMessage)
      modifies this`messages
      ensures selectedChat == Some(m.sender.id) ==> messages == old(messages) + [FromServer(m, false)]
      ensures selectedChat != Some(m.sender.id) ==> messages == old(messages)
    {
      if selectedChat == Some(m.sender.id) {
        messages := messages + [FromServer(m, false)];
      }
    }

    /** `handleUserOnline`. */
    method HandleUserOnline(u: string)
      modifies this`onlineUsers
      ensures onlineUsers == ApplyPresence(old(onlineUsers), Online(u))
    {
      onlineUsers := onlineUsers + {u};
    }

    /** `handleUserOffline`. */
    method HandleUserOffline(u: string)
      modifies this`onlineUsers
      ensures onlineUsers == ApplyPresence(old(onlineUsers), Offline(u))
    {
      onlineUsers := onlineUsers - {u};
    }

    /** `loadChatMessages`: with a token and an ok response the list becomes the mapped history;
        otherwise it is left as it was. The loading flag is down again when it returns. */
    method LoadMessages(token: Option<string>, me: Option<string>, outcome: LoadOutcome)
      modifies this`messages, this`chatLoading
      ensures Truthy(token) && outcome.Loaded? ==> messages == History(outcome.messages, me)
      ensures !(Truthy(token) && outcome.Loaded?) ==> messages == old(messages)
      ensures !chatLoading
    {
      chatLoading := true;
      var headers := AuthHeaders(token);
      if headers.Some? && outcome.Loaded? {
        messages := History(outcome.messages, me);
      }
      chatLoading := false;
    }

    /** The synchronous half of `sendMessage`. Nothing happens for a blank draft, without an open
        conversation or without a token; otherwise the trimmed draft is shown at once under the
        temporary id `Temp(now)`, the box is cleared, and the request to post is returned. */
    method BeginSend(token: Option<string>, now: int, me: Option<string>, userName: Option<string>)
      returns (req: Option<Outgoing>)
      modifies this`messages, this`draft
      ensures Trim(old(draft)) == "" || selectedChat.None? || !Truthy(token) ==>
                req == None && messages == old(messages) && draft == old(draft)
      ensures Trim(old(draft)) != "" && selectedChat.Some? && Truthy(token) ==>
                && req == Some(Outgoing(Temp(now), AuthHeaders(token).value, selectedChat.value, Trim(old(draft))))
                && messages == old(messages) + [Optimistic(now, me, userName, Trim(old(draft)))]
                && draft == ""
    {
      var text := Trim(draft);
      if text == "" || selectedChat.None? {
        return None;
      }
      var headers := AuthHeaders(token);
      if headers.None? {
        return None;
      }
      messages := messages + [Optimistic(now, me, userName, text)];
      draft := "";
      req := Some(Outgoing(Temp(now), headers.value, selectedChat.value, text));
    }

    /** The asynchronous half of `sendMessage`, applied to the list as it is when the answer comes:
        success swaps the draft for the server's record, a non-ok answer drops it, and a thrown
        error leaves it where it is. */
    method ResolveSend(tempId: MsgId, outcome: SendOutcome)
      modifies this`messages
      ensures outcome.Delivered? ==> messages == Reconcile(old(messages), tempId, FromServer(outcome.record, true))
      ensures outcome.Refused? ==> messages == Retract(old(messages), tempId)
      ensures outcome.Thrown? ==> messages == old(messages)
    {
      match outcome
      case Delivered(record) =>
        messages := Reconcile(messages, tempId, FromServer(record, true));
      case Refused =>
        messages := Retract(messages, tempId);
      case Thrown =>
    }
  }

  /** One send, with nothing else arriving. When a draft was shown, success leaves the server's
      record in its slot, a refusal brings the list back to what it was, and a thrown error leaves
      the draft appended. When nothing was sent, the list is unchanged whatever the outcome. */
  method SendRoundTrip(view: ChatView, token: Option<string>, now: int, me: Option<string>,
                       userName: Option<string>, outcome: SendOutcome)
    requires IdAbsent(view.messages, Temp(now))
    modifies view`messages, view`draft
    ensures outcome.Delivered? && old(Trim(view.draft)) != "" && old(view.selectedChat).Some? && Truthy(token) ==>
              view.messages == old(view.messages) + [FromServer(outcome.record, true)]
    ensures outcome.Refused? ==> view.messages == old(view.messages)
    ensures outcome.Thrown? && old(Trim(view.draft)) != "" && old(view.selectedChat).Some? && Truthy(token) ==>
              view.messages == old(view.messages) + [Optimistic(now, me, userName, old(Trim(view.draft)))]
    ensures !(old(Trim(view.draft)) != "" && old(view.selectedChat).Some? && Truthy(token)) ==>
              view.messages == old(view.messages) && view.draft == old(view.draft)
    ensures old(Trim(view.draft)) != "" && old(view.selectedChat).Some? && Truthy(token) ==> view.draft == ""
  {
    var before := view.messages;
    var req := view.BeginSend(token, now, me, userName);
    if req.Some? {
      var draft := Optimistic(now, me, userName, req.value.content);
      assert view.messages == before + [draft] + [];
      view.ResolveSend(req.value.tempId, outcome);
      match outcome {
        case Delivered(record) =>
          SendThenDelivered(before, draft, [], FromServer(record, true));
        case Refused =>
          SendThenRefused(before, draft, []);
          assert before + [] == before;
        case Thrown =>
      }
    }
  }
}
