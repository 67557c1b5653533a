/**
 * The chat panel of components/ChatInterface.tsx: the message list grows
 * only by appends, a blank input is not sent, and a sent input is cleared.
 * The assistant's replies arrive from timers and are not part of the model.
 */
module ChatInterface {
  import opened Strings

  datatype Role = User | Assistant

  datatype ChatMessage = ChatMessage(role: Role, content: string)

  class ChatInterface {
    /** The text in the input box. */
    var message: string
    var messages: seq<ChatMessage>

    constructor ()
      ensures message == "" && messages == []
    {
      message := "";
      messages := [];
    }

    method SetMessage(text: string)
      modifies this`message
      ensures message == text
    {
      message := text;
    }

    /**
     * `handleSubmit`: an input that is only whitespace changes nothing;
     * any other input is appended as it was typed, untrimmed, and the box
     * is cleared.
     */
    method HandleSubmit()
      modifies this
      ensures IsBlank(old(message)) ==> message == old(message) && messages == old(messages)
      ensures !IsBlank(old(message)) ==>
                messages == old(messages) + [ChatMessage(User, old(message))] && message == ""
    {
      TrimEmptyIffBlank(message);
      if Trim(message) == "" {
        return;
      }
      messages := messages + [ChatMessage(User, message)];
      message := "";
    }

    /** `handleFileUpload`: the first of the chosen files is announced; without files nothing happens. */
    method HandleFileUpload(fileNames: seq<string>)
      modifies this`messages
      ensures fileNames == [] ==> messages == old(messages)
      ensures fileNames != [] ==> messages == old(messages) + [ChatMessage(User, "Uploaded file: " + fileNames[0])]
    {
      if |fileNames| > 0 {
        var fileName := fileNames[0];
        messages := messages + [ChatMessage(User, "Uploaded file: " + fileName)];
      }
    }

    /** `disabled={!message.trim()}`: the send button is off exactly when the input is blank. */
    function SendDisabled(): (disabled: bool)
      reads this
      ensures disabled <==> IsBlank(message)
    {
      TrimEmptyIffBlank(message);
      Trim(message) == ""
    }
  }
}
