/** The floating support chat: a message list, the input box and a loading flag. */
module GymChatWidget {
  import opened Wrappers

  datatype Sender = UserSender | BotSender

  datatype Message = Message(role: Sender, text: string)

  /**
   * How the webhook call settles: `Answered` is an OK response whose JSON has
   * the given `answer` field; `Failed` is a non-OK status (the code throws) or
   * a rejected fetch or JSON parse.
   */
  datatype ChatReply = Answered(answer: Option<string>) | Failed

  const NoAnswer: string := "No answer."
  const ChatDown: string := "Chat down. Try again later."

  /** The characters `String.prototype.trim` removes: ECMAScript WhiteSpace and LineTerminator. */
  predicate IsTrimmed(c: char)
  {
    // WhiteSpace: TAB, VT, FF, SP, NBSP, ZWNBSP and the other space separators (category Zs)
    c == '\t' || c == '\U{000B}' || c == '\U{000C}' || c == ' ' || c == '\U{00A0}' || c == '\U{FEFF}' ||
    c == '\U{1680}' || ('\U{2000}' <= c <= '\U{200A}') || c == '\U{202F}' || c == '\U{205F}' || c == '\U{3000}' ||
    // LineTerminator: LF, CR, LINE SEPARATOR, PARAGRAPH SEPARATOR
    c == '\n' || c == '\r' || c == '\U{2028}' || c == '\U{2029}'
  }

  /** `!input.trim()`: the input trims to the empty string. */
  predicate Blank(s: string)
  {
    forall i :: 0 <= i < |s| ==> IsTrimmed(s[i])
  }

  /** The bot's reply text: `data.answer || 'No answer.'`, or the fallback when the call failed. */
  function BotText(reply: ChatReply): (r: string)
    ensures reply.Failed? ==> r == ChatDown
    ensures reply.Answered? && reply.answer.Some? && reply.answer.value != "" ==> r == reply.answer.value
    ensures reply.Answered? && (reply.answer.None? || reply.answer.value == "") ==> r == NoAnswer
  {
    match reply
    case Failed => ChatDown
    case Answered(answer) => if answer.Some? && answer.value != "" then answer.value else NoAnswer
  }

  class ChatWidget {
    var messages: seq<Message>
    var input: string
    var loading: bool

    constructor ()
      ensures messages == [] && input == "" && !loading
    {
      messages := [];
      input := "";
      loading := false;
    }

    /** `onChange` of the input box. */
    method Type(text: string)
      modifies this`input
      ensures input == text
    {
      input := text;
    }

    /**
     * `sendMessage` up to the `await`: the user's message (untrimmed) is
     * appended and `loading` set. Returns the `question` sent to the webhook,
     * or `None` when the call returns at once.
     */
    method BeginSend() returns (question: Option<string>)
      modifies this`messages, this`loading
      ensures Blank(old(input)) || old(loading) ==> question == None && unchanged(this)
      ensures !Blank(old(input)) && !old(loading) ==>
        question == Some(input) && input == old(input) && loading &&
        messages == old(messages) + [Message(UserSender, input)]
    {
      if Blank(input) || loading {
        return None;
      }
      messages := messages + [Message(UserSender, input)];
      loading := true;
      question := Some(input);
    }

    /** `sendMessage` after the `await`: the bot's message, then `setInput('')` and `setLoading(false)`. */
    method FinishSend(reply: ChatReply)
      requires loading
      modifies this
      ensures messages == old(messages) + [Message(BotSender, BotText(reply))]
      ensures input == "" && !loading
    {
      messages := messages + [Message(BotSender, BotText(reply))];
      input := "";
      loading := false;
    }

    /** One whole `sendMessage()` call whose request settles as `reply`. */
    method SendMessage(reply: ChatReply) returns (question: Option<string>)
      modifies this
      ensures Blank(old(input)) || old(loading) ==> question == None && unchanged(this)
      ensures !Blank(old(input)) && !old(loading) ==>
        question == Some(old(input)) &&
        messages == old(messages) + [Message(UserSender, old(input)), Message(BotSender, BotText(reply))] &&
        input == "" && !loading
    {
      question := BeginSend();
      if question.Some? {
        FinishSend(reply);
      }
    }
  }
}
