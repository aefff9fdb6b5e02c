/** The chat of src/components/ChatInterface.tsx: the message list filled by
    the initial fetch and grown by the room's INSERT feed, the send form, and
    reactions set on one message at a time. */
module Chat {
  import opened Wrappers
  import opened Text
  import Rooms

  /** A row of the `messages` table as the component holds it. */
  datatype Message = Message(id: string, roomId: string, userId: Rooms.UserId, sender: string,
                             content: string, timestamp: string, reaction: Option<string>)

  /** The row `sendMessage` asks the store to insert. */
  datatype NewRow = NewRow(roomId: string, userId: Rooms.UserId, content: string, sender: string)

  /** The list with `reaction` set on every message whose id is `id`; every
      other message, the number of messages and their order stay. */
  function WithReaction(ms: seq<Message>, id: string, reaction: string): (r: seq<Message>)
    ensures |r| == |ms|
    ensures forall i :: 0 <= i < |ms| ==>
      r[i] == if ms[i].id == id then ms[i].(reaction := Some(reaction)) else ms[i]
  {
    if ms == [] then []
    else [if ms[0].id == id then ms[0].(reaction := Some(reaction)) else ms[0]]
         + WithReaction(ms[1..], id, reaction)
  }

  /** `currentUserId && message.user_id === currentUserId`: a null or empty
      current id is falsy and marks nothing. */
  predicate IsMine(m: Message, currentUserId: Option<Rooms.UserId>) {
    currentUserId.Some? && currentUserId.value != [] && m.userId == currentUserId.value
  }

  /** A reaction on an id no message has changes nothing. */
  lemma ReactionOnUnknownIdChangesNothing(ms: seq<Message>, id: string, reaction: string)
    requires forall i :: 0 <= i < |ms| ==> ms[i].id != id
    ensures WithReaction(ms, id, reaction) == ms
  {
  }

  /** Reacting twice with the same reaction is reacting once; a later
      reaction replaces an earlier one. */
  lemma LaterReactionWins(ms: seq<Message>, id: string, first: string, second: string)
    ensures WithReaction(WithReaction(ms, id, first), id, second) == WithReaction(ms, id, second)
  {
  }

  /** The feed's echo of a row someone sent is drawn as "mine" for the
      sender, and for no one else. */
  lemma EchoIsMineOnlyForItsSender(row: NewRow, m: Message, viewer: Option<Rooms.UserId>)
    requires row.userId != [] && m.userId == row.userId
    ensures IsMine(m, Some(row.userId))
    ensures IsMine(m, viewer) <==> viewer == Some(row.userId)
  {
  }

  class ChatInterface {
    const roomId: string
    var messages: seq<Message>
    var newMessage: string
    var currentUserId: Option<Rooms.UserId>
    /** The texts of the sends still waiting on the store. */
    var sending: seq<string>

    constructor (roomId: string)
      ensures this.roomId == roomId
      ensures messages == [] && newMessage == [] && currentUserId == None && sending == []
    {
      this.roomId := roomId;
      messages := [];
      newMessage := [];
      currentUserId := None;
      sending := [];
    }

    /** The signed-in user arrives from the auth provider. */
    method UserLoaded(user: Option<Rooms.UserId>)
      modifies this
      ensures currentUserId == user
      ensures messages == old(messages) && newMessage == old(newMessage) && sending == old(sending)
    {
      currentUserId := user;
    }

    /** The initial fetch of the room's messages: the list is replaced only
        when the query succeeds. */
    method Fetched(result: Result<seq<Message>, string>)
      modifies this
      ensures messages == (if result.Ok? then result.value else old(messages))
      ensures newMessage == old(newMessage) && currentUserId == old(currentUserId) && sending == old(sending)
    {
      if result.Ok? {
        messages := result.value;
      }
    }

    /** An INSERT event from the room's feed, which is filtered on this
        room's id: appended at the end. */
    method Inserted(m: Message)
      requires m.roomId == roomId
      modifies this
      ensures messages == old(messages) + [m]
      ensures newMessage == old(newMessage) && currentUserId == old(currentUserId) && sending == old(sending)
    {
      messages := messages + [m];
    }

    /** Typing in the input. */
    method TypeMessage(value: string)
      modifies this
      ensures newMessage == value
      ensures messages == old(messages) && currentUserId == old(currentUserId) && sending == old(sending)
    {
      newMessage := value;
    }

    /** `sendMessage` is pressed: a blank input returns at once; otherwise
        the text as it is now is captured for a send that then waits on the
        store. Nothing guards against pressing again meanwhile. */
    method SubmitMessage() returns (started: bool)
      modifies this
      ensures started <==> !Blank(old(newMessage))
      ensures sending == old(sending) + (if started then [old(newMessage)] else [])
      ensures newMessage == old(newMessage)
      ensures messages == old(messages) && currentUserId == old(currentUserId)
    {
      if Trim(newMessage) == [] {
        return false;
      }
      sending := sending + [newMessage];
      started := true;
    }

    /** The `i`-th send in flight resumes after its awaits. Without a
        signed-in user nothing is sent. Otherwise the captured text is sent
        as a row of this room by the user, and when the store reports no
        `fault` the input is cleared, whatever was typed in the meantime.
        The list itself waits for the feed. */
    method SendCompletes(i: nat, user: Option<Rooms.UserId>, fault: Option<string>)
      returns (sent: Option<NewRow>)
      requires i < |sending|
      modifies this
      ensures sent.Some? <==> user.Some?
      ensures sent.Some? ==> sent.value == NewRow(roomId, user.value, old(sending)[i], user.value)
      ensures newMessage == (if sent.Some? && fault.None? then [] else old(newMessage))
      ensures sending == old(sending)[..i] + old(sending)[i + 1..]
      ensures messages == old(messages) && currentUserId == old(currentUserId)
    {
      var text := sending[i];
      sending := sending[..i] + sending[i + 1..];
      if user.None? {
        return None;
      }
      sent := Some(NewRow(roomId, user.value, text, user.value));
      if fault.None? {
        newMessage := [];
      }
    }

    /** `addReaction`: the local list changes whatever the remote update
        does. */
    method AddReaction(id: string, reaction: string)
      modifies this
      ensures messages == WithReaction(old(messages), id, reaction)
      ensures newMessage == old(newMessage) && currentUserId == old(currentUserId) && sending == old(sending)
    {
      messages := WithReaction(messages, id, reaction);
    }
  }

  /** With nothing in between, pressing send and the send completing is the
      handler as one step: a row exactly when the input is not blank and a
      user is signed in, carrying the text, and the input cleared only when
      the store accepts it. */
  method SendAlone(roomId: string, text: string, user: Option<Rooms.UserId>, fault: Option<string>)
    returns (sent: Option<NewRow>, inputAfter: string)
    ensures sent.Some? <==> !Blank(text) && user.Some?
    ensures sent.Some? ==> sent.value == NewRow(roomId, user.value, text, user.value)
    ensures inputAfter == (if sent.Some? && fault.None? then [] else text)
  {
    var chat := new ChatInterface(roomId);
    chat.TypeMessage(text);
    var started := chat.SubmitMessage();
    sent := None;
    if started {
      sent := chat.SendCompletes(0, user, fault);
    }
    inputAfter := chat.newMessage;
  }

  /** What is typed while a send waits on the store is cleared unsent when
      that send succeeds. */
  method TypingDuringSendIsLost(roomId: string, first: string, more: string, user: Rooms.UserId)
    returns (sent: Option<NewRow>, inputAfter: string)
    requires !Blank(first)
    ensures sent == Some(NewRow(roomId, user, first, user))
    ensures inputAfter == []
  {
    var chat := new ChatInterface(roomId);
    chat.TypeMessage(first);
    var started := chat.SubmitMessage();
    chat.TypeMessage(more);
    sent := chat.SendCompletes(0, Some(user), None);
    inputAfter := chat.newMessage;
  }

  /** Pressing send twice before the store answers sends the same text
      twice. */
  method DoubleSubmitSendsTwice(roomId: string, text: string, user: Rooms.UserId)
    returns (first: Option<NewRow>, second: Option<NewRow>)
    requires !Blank(text)
    ensures first == second == Some(NewRow(roomId, user, text, user))
  {
    var chat := new ChatInterface(roomId);
    chat.TypeMessage(text);
    var started := chat.SubmitMessage();
    started := chat.SubmitMessage();
    first := chat.SendCompletes(0, Some(user), None);
    second := chat.SendCompletes(0, Some(user), None);
  }
}
