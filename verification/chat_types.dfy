/** The two record types shared by the chat components. */
module ChatTypes {
  import opened Wrappers

  /** Who wrote a message: the local user or the contact. */
  datatype Sender = Me | Them

  /** A chat message. `time` is a preformatted display string, stored as given
      and never parsed. */
  datatype Message = Message(sender: Sender, text: string, time: string)

  /** A roster entry. `id` identifies the contact everywhere: it keys the
      message histories and it is what "active" compares. `unread` is an
      unbounded number in the source type. */
  datatype Contact = Contact(id: string, name: string, avatar: string, status: string, unread: int)

  /** The bound the type does not express: unread counts are never negative. */
  predicate ValidContact(c: Contact) {
    c.unread >= 0
  }

  /** The wire spelling of a sender. */
  function SenderTag(s: Sender): (tag: string)
    ensures tag == "me" || tag == "them"
    ensures s == Me <==> tag == "me"
  {
    match s
    case Me => "me"
    case Them => "them"
  }

  /** Reads a sender back; only the two literal tags are senders. */
  function ParseSender(tag: string): (r: Option<Sender>)
    ensures r.Some? <==> tag == "me" || tag == "them"
    ensures r.Some? ==> SenderTag(r.value) == tag
    ensures forall s :: tag == SenderTag(s) ==> r == Some(s)
  {
    if tag == "me" then Some(Me)
    else if tag == "them" then Some(Them)
    else None
  }
}
