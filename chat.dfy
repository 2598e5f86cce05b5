/**
 * The conversation kept by `Chatbot.tsx`: an append-only message history,
 * the text being typed, and a flag for a request in flight. The assistant
 * service is an oracle whose answer is either a text or a failure.
 */
module Chat {
  import opened Wrappers
  import opened Strings
  import opened Types

  /** The bot's opening message. */
  const Greeting: ChatMessage := ChatMessage(Bot, "Hello! I am AgriBot. How can I assist you with your farming questions today?")

  /** The bot's message when the assistant call fails. */
  const Apology: string := "Sorry, something went wrong. Please try again."

  /** How the awaited assistant call ends: a resolved text or a rejection. */
  datatype Reply = Answer(text: string) | Failure

  /** The bot message a reply turns into. */
  function BotMessage(reply: Reply): (m: ChatMessage)
    ensures m.sender == Bot
    ensures reply.Failure? ==> m.text == Apology
    ensures reply.Answer? ==> m.text == reply.text
  {
    match reply
    case Answer(text) => ChatMessage(Bot, text)
    case Failure => ChatMessage(Bot, Apology)
  }

  /** A history that starts with the greeting and then alternates user and bot messages. */
  predicate Alternates(messages: seq<ChatMessage>)
  {
    |messages| >= 1 && messages[0] == Greeting &&
    forall i :: 1 <= i < |messages| ==> messages[i].sender == if i % 2 == 1 then User else Bot
  }

  /**
   * `handleSend`'s guard `input.trim() && !isLoading`: the input is not
   * blank (`Strings.Trim` is empty exactly for blank strings) and no request
   * is in flight.
   */
  predicate CanSend(input: string, isLoading: bool)
  {
    !IsBlank(input) && !isLoading
  }

  /** `CanSend` is the negation of the source's early-return condition. */
  lemma CanSendIsGuard(input: string, isLoading: bool)
    ensures CanSend(input, isLoading) <==> !(Trim(input) == "" || isLoading)
  {
  }

  /** Appending the message whose turn it is keeps a history alternating. */
  lemma AlternatesAppend(messages: seq<ChatMessage>, m: ChatMessage)
    requires Alternates(messages)
    requires m.sender == if |messages| % 2 == 1 then User else Bot
    ensures Alternates(messages + [m])
  {
    var ms := messages + [m];
    forall i | 1 <= i < |ms|
      ensures ms[i].sender == if i % 2 == 1 then User else Bot
    {
      if i < |messages| {
        assert ms[i] == messages[i];
      }
    }
  }

  class Chatbot {
    var messages: seq<ChatMessage>
    var input: string
    var isLoading: bool

    /**
     * Every user message is followed by exactly one bot answer, except the
     * last one while its request is in flight.
     */
    ghost predicate Valid()
      reads this
    {
      Alternates(messages) && (isLoading <==> |messages| % 2 == 0)
    }

    constructor ()
      ensures Valid()
      ensures messages == [Greeting] && input == "" && !isLoading
    {
      messages := [Greeting];
      input := "";
      isLoading := false;
    }

    /** The text field's `onChange`. */
    method SetInput(text: string)
      requires Valid()
      modifies this`input
      ensures Valid()
      ensures input == text
    {
      input := text;
    }

    /**
     * The part of `handleSend` before the `await`: nothing happens for blank
     * input or while a request is in flight; otherwise the untrimmed input is
     * appended as a user message and returned as the prompt, the field is
     * cleared and the request is marked in flight.
     */
    method BeginSend() returns (prompt: Option<string>)
      requires Valid()
      modifies this
      ensures Valid()
      ensures !CanSend(old(input), old(isLoading)) ==>
        prompt == None && messages == old(messages) && input == old(input) && isLoading == old(isLoading)
      ensures CanSend(old(input), old(isLoading)) ==>
        && prompt == Some(old(input))
        && messages == old(messages) + [ChatMessage(User, old(input))]
        && input == "" && isLoading
    {
      if !CanSend(input, isLoading) {
        return None;
      }
      prompt := Some(input);
      PostUserMessage();
    }

    /**
     * The three state updates of a send that passed the guard: the typed
     * text becomes a user message, the field is cleared, a request is in flight.
     */
    method PostUserMessage()
      requires Valid() && !isLoading
      modifies this
      ensures Valid()
      ensures messages == old(messages) + [ChatMessage(User, old(input))]
      ensures input == "" && isLoading
    {
      var sent := ChatMessage(User, input);
      AlternatesAppend(messages, sent);
      messages := messages + [sent];
      assert |messages| % 2 == 0;
      input := "";
      isLoading := true;
    }

    /**
     * The part after the `await`: exactly one bot message, the reply text or
     * the apology, is appended and the request is no longer in flight.
     */
    method CompleteSend(reply: Reply)
      requires Valid() && isLoading
      modifies this`messages, this`isLoading
      ensures Valid()
      ensures messages == old(messages) + [BotMessage(reply)]
      ensures !isLoading
    {
      AlternatesAppend(messages, BotMessage(reply));
      messages := messages + [BotMessage(reply)];
      isLoading := false;
    }

    /**
     * `handleSend` taken as one step, with the assistant's answer given: a
     * send that passes the guard adds the user message and then its answer,
     * and leaves nothing in flight; earlier messages never change.
     */
    method HandleSend(reply: Reply)
      requires Valid()
      modifies this
      ensures Valid()
      ensures old(messages) <= messages
      ensures !CanSend(old(input), old(isLoading)) ==>
        messages == old(messages) && input == old(input) && isLoading == old(isLoading)
      ensures CanSend(old(input), old(isLoading)) ==>
        && messages == old(messages) + [ChatMessage(User, old(input)), BotMessage(reply)]
        && input == "" && !isLoading
    {
      ghost var before, typed := messages, input;
      var prompt := BeginSend();
      if prompt.Some? {
        ghost var asked := messages;
        assert asked == before + [ChatMessage(User, typed)];
        CompleteSend(reply);
        assert messages == asked + [BotMessage(reply)];
        assert messages == before + [ChatMessage(User, typed), BotMessage(reply)];
      }
    }
  }
}
