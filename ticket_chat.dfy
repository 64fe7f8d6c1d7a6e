/** The chat panel of client/src/components/TicketChat.jsx: the message
    list, the input box and the sending flag, the send handler, the
    auto-scroll effect, and the choice of bubble style. The server's reply
    to a send is a parameter: `None` stands for a failed request. */
module TicketChat {
  import opened Common

  /** One chat message as the panel shows it. */
  datatype Message = Message(senderId: int, senderRole: string, text: string)

  /** The body of a send: the sender and the trimmed text. */
  datatype ChatRequest = ChatRequest(senderId: int, message: string)

  /** The bubble styles, in the order `roleBubble` tests them. */
  datatype Bubble = OwnBubble | AdminBubble | TechnicianBubble | DefaultBubble

  /** The viewer's own messages first, then admins, then technicians,
      then everyone else. */
  function RoleBubble(role: string, isSelf: bool): (b: Bubble)
    ensures isSelf <==> b == OwnBubble
    ensures b == AdminBubble <==> !isSelf && role == ROLE_ADMIN
    ensures b == TechnicianBubble <==> !isSelf && role == ROLE_TECHNICIAN
    ensures b == DefaultBubble <==> !isSelf && role != ROLE_ADMIN && role != ROLE_TECHNICIAN
  {
    if isSelf then OwnBubble
    else if role == ROLE_ADMIN then AdminBubble
    else if role == ROLE_TECHNICIAN then TechnicianBubble
    else DefaultBubble
  }

  class Chat {
    const userId: int
    var messages: seq<Message>
    var newMsg: string
    var sending: bool
    var prevCount: int

    /** The panel as it mounts. */
    constructor (id: int)
      ensures userId == id && messages == [] && newMsg == "" && !sending && prevCount == 0
    {
      userId := id;
      messages := [];
      newMsg := "";
      sending := false;
      prevCount := 0;
    }

    /** Typing into the input box. */
    method Type(text: string)
      modifies this`newMsg
      ensures newMsg == text
    {
      newMsg := text;
    }

    /** A poll of the message list replaces it. */
    method Receive(data: seq<Message>)
      modifies this`messages
      ensures messages == data
    {
      messages := data;
    }

    /** `handleSend`: nothing happens for a blank message or while a send
        is under way; otherwise the trimmed text is sent, a returned
        message is appended and the input cleared, and the flag is down
        again whatever the reply. */
    method HandleSend(reply: Option<Message>) returns (sent: Option<ChatRequest>)
      modifies this`messages, this`newMsg, this`sending
      ensures Blank(old(newMsg)) || old(sending) ==>
        sent.None? && messages == old(messages) && newMsg == old(newMsg) && sending == old(sending)
      ensures !Blank(old(newMsg)) && !old(sending) ==>
        sent == Some(ChatRequest(userId, Trim(old(newMsg)))) && !sending
      ensures sent.Some? ==> sent.value.message != "" && |sent.value.message| <= |old(newMsg)|
      ensures sent.Some? && reply.Some? ==> messages == old(messages) + [reply.value] && newMsg == ""
      ensures sent.Some? && reply.None? ==> messages == old(messages) && newMsg == old(newMsg)
    {
      var text := Trim(newMsg);
      if text == "" || sending {
        return None;
      }
      sending := true;
      sent := Some(ChatRequest(userId, text));
      if reply.Some? {
        messages := messages + [reply.value];
        newMsg := "";
      }
      sending := false;
    }

    /** The effect after every change of the list: scroll to the bottom
        only when the list grew, and remember its length. */
    method ScrollEffect() returns (scroll: bool)
      modifies this`prevCount
      ensures scroll <==> |messages| > old(prevCount)
      ensures prevCount == |messages|
    {
      scroll := |messages| > prevCount;
      prevCount := |messages|;
    }
  }
}
