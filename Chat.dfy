/** A project's chat: the message list kept under `messages-<projectId>`,
    sending a message as the signed-in user, and which messages are drawn as
    the viewer's own. */
module Chat {
  import opened Common
  import opened Entities
  import opened Storage

  /** The message `handleSend` appends, or none when there is no user or the
      input is blank: the content is the trimmed input, the author is the
      user. */
  function SentMessage(user: Option<User>, input: string, id: string, createdAt: string): (r: Option<Message>)
    ensures r.Some? <==> user.Some? && !IsBlank(input)
    ensures r.Some? ==> r.value.content != [] && r.value.content == Trim(input)
    ensures r.Some? ==> r.value.userId == user.value.id && r.value.displayName == user.value.fullName
    ensures r.Some? ==> r.value.id == id && r.value.createdAt == createdAt
  {
    if user.None? || Trim(input) == "" then None
    else Some(Message(id, Trim(input), user.value.id, user.value.fullName, createdAt))
  }

  /** `message.userId === user?.id`: with nobody signed in no message is
      anyone's own. */
  predicate IsOwn(m: Message, user: Option<User>) {
    user.Some? && m.userId == user.value.id
  }

  /** A sent message is drawn as own by exactly the viewers with the
      sender's user id, and by nobody while no one is signed in. */
  lemma OwnMessages(sender: User, viewer: User, input: string, id: string, createdAt: string)
    requires SentMessage(Some(sender), input, id, createdAt).Some?
    ensures var m := SentMessage(Some(sender), input, id, createdAt).value;
            (IsOwn(m, Some(viewer)) <==> viewer.id == sender.id) && !IsOwn(m, None)
  {
  }

  /** A sent message needs no further trimming, and its sender sees it as
      their own. */
  lemma SentMessageProperties(user: Option<User>, input: string, id: string, createdAt: string)
    requires SentMessage(user, input, id, createdAt).Some?
    ensures var m := SentMessage(user, input, id, createdAt).value;
            Trim(m.content) == m.content && !IsBlank(m.content) && IsOwn(m, user)
  {
    TrimIdempotent(input);
  }

  class Chat {
    const projectId: string
    const store: LocalStore
    var messages: seq<Message>
    var newMessage: string
    var sending: bool

    /** Mounting loads `messages-<projectId>` (none saved: no messages). */
    constructor (projectId: string, store: LocalStore)
      ensures this.projectId == projectId && this.store == store
      ensures messages == SavedMessages(store.entries, projectId)
      ensures newMessage == "" && !sending
    {
      this.projectId := projectId;
      this.store := store;
      messages := SavedMessages(store.entries, projectId);
      newMessage := "";
      sending := false;
    }

    /** The stored list is the list on screen. */
    ghost predicate Persisted()
      reads this, store
    {
      SavedMessages(store.entries, projectId) == messages
    }

    /** `saveMessages` */
    method SaveMessages(updated: seq<Message>)
      modifies this`messages, store
      ensures messages == updated
      ensures store.entries == old(store.entries)[MessagesKey(projectId) := MessagesEntry(updated)]
      ensures Persisted()
    {
      messages := updated;
      store.SetItem(MessagesKey(projectId), MessagesEntry(updated));
    }

    /** The input's `onChange`. */
    method SetNewMessage(text: string)
      modifies this`newMessage
      ensures newMessage == text
    {
      newMessage := text;
    }

    /** `handleSend`: with no user or a blank input nothing happens;
        otherwise the message goes last, the list is saved, the input is
        cleared and sending ends. */
    method HandleSend(user: Option<User>, id: string, createdAt: string)
      modifies this`messages, this`newMessage, this`sending, store
      ensures SentMessage(user, old(newMessage), id, createdAt).None? ==>
                messages == old(messages) && newMessage == old(newMessage)
                && sending == old(sending) && store.entries == old(store.entries)
      ensures SentMessage(user, old(newMessage), id, createdAt).Some? ==>
                && messages == old(messages) + [SentMessage(user, old(newMessage), id, createdAt).value]
                && store.entries == old(store.entries)[MessagesKey(projectId) := MessagesEntry(messages)]
                && Persisted() && newMessage == "" && !sending
                && !ShowsPlaceholder()
    {
      if user.None? || Trim(newMessage) == "" {
        return;
      }
      sending := true;
      var m := Message(id, Trim(newMessage), user.value.id, user.value.fullName, createdAt);
      SaveMessages(messages + [m]);
      newMessage := "";
      sending := false;
    }

    /** The empty-chat placeholder shows exactly when no message is
        listed. */
    predicate ShowsPlaceholder(): (shown: bool)
      reads this
      ensures shown <==> forall m :: m !in messages
    {
      assert messages != [] ==> messages[0] in messages;
      messages == []
    }
  }
}
