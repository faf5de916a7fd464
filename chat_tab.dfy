/**
 * The chat history shown in the Chat tab: a newest-first buffer that the
 * receiver's idle callback pushes each new message onto.
 */
module ChatTab {
  import ChatReceiver
  import opened NewestFirst

  class Chat {
    var messages: seq<ChatReceiver.Message>

    constructor ()
      ensures messages == []
    {
      messages := [];
    }

    /**
     * The idle callback of `receive_priv_msg`: `push_front`, then
     * `truncate(chat_buffer)` when the buffer has grown past the setting.
     */
    method PushMessage(m: ChatReceiver.Message, chatBuffer: nat)
      modifies this
      ensures messages == PushFront(old(messages), m, chatBuffer)
      ensures |messages| <= chatBuffer
      ensures chatBuffer > 0 ==> messages[0] == m
      ensures chatBuffer == 0 ==> messages == []
    {
      messages := [m] + messages;
      if |messages| > chatBuffer {
        messages := messages[..chatBuffer];
      }
    }

    /** `messages.clear()` */
    method Clear()
      modifies this
      ensures messages == []
    {
      messages := [];
    }
  }
}
