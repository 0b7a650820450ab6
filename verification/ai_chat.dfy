/**
 * The agriculture AI chat page: an append-only log of messages, an input
 * field, a send action guarded on the trimmed input, and a canned AI reply
 * that arrives some time after each accepted send.
 */
module AiChat {
  import opened Text

  datatype Sender = Ai | User

  datatype Message = Message(sender: Sender, text: string)

  const Greeting := "Hello! I'm your agriculture AI assistant. Ask me anything about crop prediction, weather, soil, or farming!"
  const Placeholder := "(AI response about agriculture will appear here.)"

  /** `input.trim()` is truthy: the guard of `handleSend`. */
  function CanSend(input: string): bool {
    Trim(input) != []
  }

  /** The send button's `disabled={!input.trim()}`. */
  function SendDisabled(input: string): bool {
    !(Trim(input) != [])
  }

  /** A send goes through exactly when the input holds a character other than white space. */
  lemma CanSendIff(input: string)
    ensures CanSend(input) <==> exists i :: 0 <= i < |input| && !IsJsWhitespace(input[i])
  {
    TrimEmptyIff(input);
  }

  /** The button is disabled exactly when every character of the input is white space. */
  lemma SendDisabledIff(input: string)
    ensures SendDisabled(input) <==> forall i :: 0 <= i < |input| ==> IsJsWhitespace(input[i])
  {
    TrimEmptyIff(input);
  }

  /** The button is disabled exactly when a send would be ignored. */
  lemma ButtonMatchesGuard(input: string)
    ensures SendDisabled(input) <==> !CanSend(input)
  {
  }

  /** How many messages of `log` come from `sender`. */
  function CountFrom(log: seq<Message>, sender: Sender): (n: nat)
    ensures n <= |log|
  {
    if log == [] then 0
    else (if log[|log| - 1].sender == sender then 1 else 0) + CountFrom(log[..|log| - 1], sender)
  }

  /** Appending a message adds one to its sender's count and leaves the other's alone. */
  lemma CountAppend(log: seq<Message>, m: Message, sender: Sender)
    ensures CountFrom(log + [m], sender) == CountFrom(log, sender) + (if m.sender == sender then 1 else 0)
  {
    assert (log + [m])[..|log|] == log;
  }

  /** Every message is from the AI or from the user. */
  lemma {:induction false} CountsPartition(log: seq<Message>)
    ensures CountFrom(log, Ai) + CountFrom(log, User) == |log|
  {
    if log != [] {
      CountsPartition(log[..|log| - 1]);
    }
  }

  /** `log` is `earlier` with zero or more messages appended. */
  predicate IsPrefix(earlier: seq<Message>, log: seq<Message>) {
    |earlier| <= |log| && log[..|earlier|] == earlier
  }

  /** Appends never touch earlier messages: being a prefix is transitive. */
  lemma {:induction false} PrefixTransitive(a: seq<Message>, b: seq<Message>, c: seq<Message>)
    requires IsPrefix(a, b) && IsPrefix(b, c)
    ensures IsPrefix(a, c)
  {
    assert c[..|a|] == c[..|b|][..|a|];
  }

  class ChatPage {
    var messages: seq<Message>
    var input: string
    /** AI replies scheduled by a send and not yet delivered (the pending `setTimeout` callbacks). */
    ghost var pendingReplies: nat

    /**
     * The log opens with the greeting, and every user message is answered by
     * an AI reply that is either in the log or still pending.
     */
    ghost predicate Valid()
      reads this
    {
      && |messages| >= 1
      && messages[0] == Message(Ai, Greeting)
      && CountFrom(messages, User) + 1 == CountFrom(messages, Ai) + pendingReplies
    }

    constructor ()
      ensures Valid()
      ensures messages == [Message(Ai, Greeting)] && input == "" && pendingReplies == 0
    {
      messages := [Message(Ai, Greeting)];
      input := "";
      pendingReplies := 0;
    }

    /** Typing into the input field. */
    method SetInput(text: string)
      requires Valid()
      modifies this`input
      ensures Valid() && input == text
    {
      input := text;
    }

    /**
     * `handleSend`: a blank input changes nothing; otherwise the untrimmed input
     * is appended as one user message, the input is cleared and a reply is scheduled.
     */
    method Send()
      requires Valid()
      modifies this
      ensures Valid()
      ensures CanSend(old(input)) ==>
                && messages == old(messages) + [Message(User, old(input))]
                && input == ""
                && pendingReplies == old(pendingReplies) + 1
      ensures !CanSend(old(input)) ==>
                messages == old(messages) && input == old(input) && pendingReplies == old(pendingReplies)
      ensures IsPrefix(old(messages), messages)
    {
      if CanSend(input) {
        var before, sent := messages, Message(User, input);
        CountAppend(before, sent, User);
        CountAppend(before, sent, Ai);
        assert (before + [sent])[..|before|] == before;
        messages := before + [sent];
        input := "";
        pendingReplies := pendingReplies + 1;
      }
    }

    /** A scheduled reply arrives: one AI message with the placeholder text is appended to the current log. */
    method DeliverReply()
      requires Valid() && pendingReplies > 0
      modifies this
      ensures Valid()
      ensures messages == old(messages) + [Message(Ai, Placeholder)]
      ensures input == old(input) && pendingReplies == old(pendingReplies) - 1
      ensures IsPrefix(old(messages), messages)
    {
      var before, reply := messages, Message(Ai, Placeholder);
      CountAppend(before, reply, User);
      CountAppend(before, reply, Ai);
      assert (before + [reply])[..|before|] == before;
      messages := before + [reply];
      pendingReplies := pendingReplies - 1;
    }

    /** Once every reply has arrived, the log holds one more AI message than user messages. */
    lemma Settled()
      requires Valid() && pendingReplies == 0
      ensures CountFrom(messages, Ai) == CountFrom(messages, User) + 1
      ensures |messages| == 2 * CountFrom(messages, User) + 1
    {
      CountsPartition(messages);
    }
  }
}
