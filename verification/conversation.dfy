/**
 The conversation store of the chat container: a roster of contacts, a
 history of messages per contact id, the active contact, and the replies
 the reply simulator has scheduled but not yet delivered.

 Every transition is a pure function from store to store. A scheduled reply
 is the id of the contact that was active when the message was sent; the
 timer firing is `DeliverReply`, whose position `k` in the pending queue
 stands for whichever timer fires first, and whose `choice` stands for the
 random pick from the canned replies.
 */
module Conversation {
  import opened Wrappers
  import opened ChatTypes

  /** Message histories keyed by contact id; a missing key is an empty history. */
  type Histories = map<string, seq<Message>>

  datatype Store = Store(
    contacts: seq<Contact>,
    messages: Histories,
    active: Option<string>,
    pending: seq<string>)

  /** The canned replies the simulator picks from. */
  const Responses: seq<string> := [
    "That's interesting! Tell me more.",
    "I see what you mean.",
    "Good point!",
    "I'll think about that.",
    "Thanks for sharing!",
    "Let me get back to you on that.",
    "I appreciate your perspective."
  ]

  /** An index `floor(random * 7)` into the canned replies. */
  type ReplyChoice = i: nat | i < 7

  /** The history of contact `id`, treating a missing entry as empty. */
  function History(m: Histories, id: string): seq<Message> {
    if id in m then m[id] else []
  }

  /** The ids of a roster, in roster order. */
  function Ids(cs: seq<Contact>): seq<string> {
    seq(|cs|, i requires 0 <= i < |cs| => cs[i].id)
  }

  /** No unread count in the roster is negative. */
  predicate Valid(s: Store) {
    forall i :: 0 <= i < |s.contacts| ==> ValidContact(s.contacts[i])
  }

  /** The thread the chat window shows: the active contact's history, or
      nothing when no contact is active. */
  function ActiveThread(s: Store): seq<Message> {
    match s.active
    case None => []
    case Some(id) => History(s.messages, id)
  }

  // ---------------------------------------------------------------------
  // Seed data

  function InitialContacts(): seq<Contact> {
    [ Contact("1", "Lana Xan", "https://i.pravatar.cc/150?img=1", "Online", 3),
      Contact("2", "David Miller", "https://i.pravatar.cc/150?img=8", "Last seen 1h ago", 0),
      Contact("3", "Emily Davis", "https://i.pravatar.cc/150?img=5", "Typing...", 0),
      Contact("4", "Thomas Wilson", "https://i.pravatar.cc/150?img=7", "Last seen yesterday", 0),
      Contact("5", "Jessica Taylor", "https://i.pravatar.cc/150?img=9", "Online", 1) ]
  }

  function InitialHistories(): Histories {
    map[
      "1" := [
        Message(Them, "Hey there! How are you doing today?", "10:32 AM"),
        Message(Me, "I'm good, thanks! Just working on a new project. How about you?", "10:34 AM"),
        Message(Them, "That sounds interesting! What kind of project is it?", "10:35 AM"),
        Message(Them, "I'm just preparing for my vacation next week.", "10:35 AM")],
      "2" := [
        Message(Them, "Hello! Did you get a chance to review the document I sent?", "9:15 AM")],
      "3" := [
        Message(Them, "When is our next team meeting?", "Yesterday"),
        Message(Me, "I think it's scheduled for Thursday at 2pm", "Yesterday"),
        Message(Them, "Perfect, thank you!", "Yesterday")],
      "4" := [
        Message(Me, "Hey Thomas, are you still coming to the event on Saturday?", "Monday")],
      "5" := [
        Message(Them, "Have you seen the new movie everyone is talking about?", "Sunday"),
        Message(Me, "Not yet! Is it good?", "Sunday"),
        Message(Them, "It's amazing! We should go see it sometime.", "Sunday")]
    ]
  }

  /** The store when the chat container mounts. */
  function Initial(): (s: Store)
    ensures Ids(s.contacts) == ["1", "2", "3", "4", "5"]
    ensures forall i, j :: 0 <= i < j < |s.contacts| ==> s.contacts[i].id != s.contacts[j].id
    ensures s.contacts[0].unread == 3 && s.contacts[1].unread == 0 && s.contacts[2].unread == 0
    ensures s.contacts[3].unread == 0 && s.contacts[4].unread == 1
    ensures Valid(s)
    ensures s.active == None && s.pending == []
    ensures forall i :: 0 <= i < |s.contacts| ==> s.contacts[i].id in s.messages
  {
    Store(InitialContacts(), InitialHistories(), None, [])
  }

  // ---------------------------------------------------------------------
  // Selecting a contact

  /** Sets `unread` to 0 on every roster entry whose id is `id`. */
  function ClearUnread(cs: seq<Contact>, id: string): (r: seq<Contact>)
    ensures |r| == |cs|
    ensures forall i :: 0 <= i < |cs| && cs[i].id == id ==> r[i] == cs[i].(unread := 0)
    ensures forall i :: 0 <= i < |cs| && cs[i].id != id ==> r[i] == cs[i]
  {
    if cs == [] then []
    else [if cs[0].id == id then cs[0].(unread := 0) else cs[0]] + ClearUnread(cs[1..], id)
  }

  /** Selecting a contact: its unread count drops to 0 and it becomes the
      active contact. An id absent from the roster still becomes active and
      leaves the roster as it was. */
  function Select(s: Store, id: string): (r: Store)
    ensures r.active == Some(id)
    ensures |r.contacts| == |s.contacts|
    ensures forall i :: 0 <= i < |s.contacts| && s.contacts[i].id == id ==>
      r.contacts[i] == s.contacts[i].(unread := 0)
    ensures forall i :: 0 <= i < |s.contacts| && s.contacts[i].id != id ==>
      r.contacts[i] == s.contacts[i]
    ensures id !in Ids(s.contacts) ==> r.contacts == s.contacts
    ensures r.messages == s.messages && r.pending == s.pending
  {
    var cs := ClearUnread(s.contacts, id);
    assert id !in Ids(s.contacts) ==> cs == s.contacts by {
      if id !in Ids(s.contacts) {
        forall i | 0 <= i < |s.contacts| ensures cs[i] == s.contacts[i] {
          assert Ids(s.contacts)[i] == s.contacts[i].id;
        }
      }
    }
    s.(contacts := cs, active := Some(id))
  }

  // ---------------------------------------------------------------------
  // Sending and the reply simulator

  /** Sending `text` at display time `time`. With no active contact nothing
      happens. Otherwise the text, exactly as given, is appended to the
      active contact's history as the user's message, and one reply is
      scheduled for that contact. */
  function Send(s: Store, text: string, time: string): (r: Store)
    ensures s.active.None? ==> r == s
    ensures s.active.Some? ==>
      && History(r.messages, s.active.value) == History(s.messages, s.active.value) + [Message(Me, text, time)]
      && r.pending == s.pending + [s.active.value]
    ensures forall id :: Some(id) != s.active ==> History(r.messages, id) == History(s.messages, id)
    ensures r.contacts == s.contacts && r.active == s.active
  {
    match s.active
    case None => s
    case Some(c) =>
      s.(messages := s.messages[c := History(s.messages, c) + [Message(Me, text, time)]],
         pending := s.pending + [c])
  }

  /** The `k`-th scheduled reply fires: one of the canned replies is appended
      to the history of the contact it was scheduled for, whether or not that
      contact is still active, and the reply leaves the queue. Neither the
      roster (unread counts included) nor the active contact changes. */
  function DeliverReply(s: Store, k: nat, choice: ReplyChoice, time: string): (r: Store)
    requires k < |s.pending|
    ensures History(r.messages, s.pending[k]) ==
      History(s.messages, s.pending[k]) + [Message(Them, Responses[choice], time)]
    ensures forall id :: id != s.pending[k] ==> History(r.messages, id) == History(s.messages, id)
    ensures multiset(r.pending) == multiset(s.pending) - multiset{s.pending[k]}
    ensures |r.pending| == |s.pending| - 1
    ensures r.contacts == s.contacts && r.active == s.active
  {
    var c := s.pending[k];
    RemoveAt(s.pending, k);
    s.(messages := s.messages[c := History(s.messages, c) + [Message(Them, Responses[choice], time)]],
       pending := s.pending[..k] + s.pending[k + 1..])
  }

  /** Removing one position from a sequence removes one occurrence of its element. */
  lemma RemoveAt<T>(p: seq<T>, k: nat)
    requires k < |p|
    ensures multiset(p[..k] + p[k + 1..]) == multiset(p) - multiset{p[k]}
  {
    assert p == p[..k] + [p[k]] + p[k + 1..];
  }

  // ---------------------------------------------------------------------
  // Counting messages and replies

  /** Number of messages in `h` written by `who`. */
  function CountBy(h: seq<Message>, who: Sender): nat {
    if h == [] then 0
    else CountBy(h[..|h| - 1], who) + (if h[|h| - 1].sender == who then 1 else 0)
  }

  /** Outbound minus inbound messages of contact `id`, minus the replies
      still scheduled for it. Every operation keeps this number fixed: a send
      adds one outbound message and one scheduled reply, a delivery turns one
      scheduled reply into one inbound message. */
  function Unanswered(s: Store, id: string): int {
    CountBy(History(s.messages, id), Me) - CountBy(History(s.messages, id), Them) - multiset(s.pending)[id]
  }

  // ---------------------------------------------------------------------
  // Event traces

  /** What can happen to the store: the user picks a contact, the user sends
      a message, or the `k`-th scheduled reply timer fires. */
  datatype Event =
    | SelectContact(id: string)
    | SendMessage(text: string, time: string)
    | ReplyFires(k: nat, choice: ReplyChoice, time: string)

  /** One event; None when a timer fires that was never scheduled. */
  function Apply(s: Store, e: Event): Option<Store> {
    match e
    case SelectContact(id) => Some(Select(s, id))
    case SendMessage(text, time) => Some(Send(s, text, time))
    case ReplyFires(k, choice, time) =>
      if k < |s.pending| then Some(DeliverReply(s, k, choice, time)) else None
  }

  /** A sequence of events, stopping at the first that cannot happen. */
  function Run(s: Store, es: seq<Event>): Option<Store>
    decreases |es|
  {
    if es == [] then Some(s)
    else
      match Apply(s, es[0])
      case None => None
      case Some(t) => Run(t, es[1..])
  }

  /** Each history of `s` is a prefix of the same contact's history in `r`. */
  ghost predicate Extends(s: Store, r: Store) {
    forall id :: History(s.messages, id) <= History(r.messages, id)
  }

  /** What every transition keeps: valid unread counts, the roster's ids in
      order, append-only histories, and the balance of sends against replies. */
  ghost predicate Preserves(s: Store, r: Store) {
    && (Valid(s) ==> Valid(r))
    && Ids(r.contacts) == Ids(s.contacts)
    && Extends(s, r)
    && forall id :: Unanswered(r, id) == Unanswered(s, id)
  }

  lemma SelectPreserves(s: Store, id: string)
    ensures Preserves(s, Select(s, id))
  {
  }

  lemma SendPreserves(s: Store, text: string, time: string)
    ensures Preserves(s, Send(s, text, time))
  {
  }

  lemma DeliverReplyPreserves(s: Store, k: nat, choice: ReplyChoice, time: string)
    requires k < |s.pending|
    ensures Preserves(s, DeliverReply(s, k, choice, time))
  {
  }

  /** Any single event keeps the store's invariants. */
  lemma ApplyPreserves(s: Store, e: Event)
    ensures Apply(s, e).Some? ==> Preserves(s, Apply(s, e).value)
  {
    match e
    case SelectContact(id) => SelectPreserves(s, id);
    case SendMessage(text, time) => SendPreserves(s, text, time);
    case ReplyFires(k, choice, time) =>
      if k < |s.pending| {
        DeliverReplyPreserves(s, k, choice, time);
      }
  }

  /** Any run of events keeps the store's invariants: unread counts stay
      non-negative, the roster keeps its ids, no message is ever removed or
      reordered, and sends and replies stay balanced per contact. */
  lemma {:induction false} RunPreserves(s: Store, es: seq<Event>)
    ensures Run(s, es).Some? ==> Preserves(s, Run(s, es).value)
    decreases |es|
  {
    if es != [] {
      var t := Apply(s, es[0]);
      if t.Some? {
        ApplyPreserves(s, es[0]);
        RunPreserves(t.value, es[1..]);
        if Run(t.value, es[1..]).Some? {
          var r := Run(t.value, es[1..]).value;
          forall id ensures History(s.messages, id) <= History(r.messages, id) {
            assert History(s.messages, id) <= History(t.value.messages, id);
            assert History(t.value.messages, id) <= History(r.messages, id);
          }
        }
      }
    }
  }

  /** Once every scheduled reply has been delivered, each contact has
      received exactly as many replies since start-up as the user sent it. */
  lemma EveryMessageAnswered(es: seq<Event>, id: string)
    requires Run(Initial(), es).Some? && Run(Initial(), es).value.pending == []
    ensures
      var s0 := Initial();
      var r := Run(Initial(), es).value;
      CountBy(History(r.messages, id), Me) - CountBy(History(s0.messages, id), Me) ==
      CountBy(History(r.messages, id), Them) - CountBy(History(s0.messages, id), Them)
  {
    RunPreserves(Initial(), es);
    var r := Run(Initial(), es).value;
    assert Unanswered(r, id) == Unanswered(Initial(), id);
  }

  /** Selecting a roster contact makes the chat window show its history. */
  lemma SelectShowsThread(s: Store, id: string)
    ensures ActiveThread(Select(s, id)) == History(s.messages, id)
  {
  }

  /** After a send while `c` is active, the shown thread ends with the new message. */
  lemma SendShowsMessage(s: Store, text: string, time: string)
    requires s.active.Some?
    ensures var t := ActiveThread(Send(s, text, time));
      |t| > 0 && t[|t| - 1] == Message(Me, text, time)
  {
  }
}
