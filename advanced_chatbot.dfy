/** The `AdvancedChatbot` component: the message list around a request to
    the chat endpoint, with a typing placeholder while the reply is pending. */
module AdvancedChatbot {
  import opened Wrappers
  import opened Text
  import opened Seqs

  datatype Sender = User | Bot

  /** A chat bubble; `loading` marks the typing placeholder. */
  datatype Message = Message(id: int, sender: Sender, text: string, loading: bool)

  const WelcomeText := "Hello! I'm your MindCare AI assistant. I'm here to provide mental health support, coping strategies, and a listening ear. How are you feeling today?"
  const Apology := "I apologize, but I'm having trouble responding right now. Please try again in a moment."

  const Welcome := Message(1, Bot, WelcomeText, false)

  predicate IsLoading(m: Message)
  {
    m.loading
  }

  predicate IsSettled(m: Message)
  {
    !m.loading
  }

  /** `prev.filter(msg => !msg.loading)`. */
  function WithoutPlaceholders(ms: seq<Message>): seq<Message>
  {
    Filter(ms, IsSettled)
  }

  /** Dropping the placeholders removes exactly the loading messages, keeps
      the rest in order, and a settled first message stays first. */
  lemma PlaceholdersRemoved(ms: seq<Message>)
    ensures Filter(WithoutPlaceholders(ms), IsLoading) == []
    ensures forall i :: 0 <= i < |ms| && !ms[i].loading ==> ms[i] in WithoutPlaceholders(ms)
    ensures |WithoutPlaceholders(ms)| + |Filter(ms, IsLoading)| == |ms|
    ensures ms != [] && !ms[0].loading ==> WithoutPlaceholders(ms)[0] == ms[0]
  {
    var kept := WithoutPlaceholders(ms);
    FilterKeepsAll(kept, IsSettled);
    FilterPartition(kept, IsSettled, IsLoading);
    FilterPartition(ms, IsSettled, IsLoading);
  }

  /** The bot message that replaces the placeholder: the server's text, or
      the apology when the request failed or reported no success. */
  function ReplyMessage(outcome: Option<string>, id: int): (m: Message)
    ensures m.sender == Bot && !m.loading
    ensures m.text == if outcome.Some? then outcome.value else Apology
  {
    Message(id, Bot, if outcome.Some? then outcome.value else Apology, false)
  }

  /** The state of the `AdvancedChatbot` component. */
  class AdvancedChatbot {
    var messages: seq<Message>
    var input: string
    var isLoading: bool

    /** The welcome bubble stays first, and there is one placeholder while a
        request is pending and none otherwise. */
    predicate Valid()
      reads this
    {
      |messages| >= 1 && messages[0] == Welcome &&
      |Filter(messages, IsLoading)| == if isLoading then 1 else 0
    }

    constructor ()
      ensures Valid()
      ensures messages == [Welcome] && input == "" && !isLoading
    {
      messages := [Welcome];
      input := "";
      isLoading := false;
    }

    /** Quick suggestions are offered only while the welcome is the only message. */
    predicate QuickRepliesVisible()
      reads this
    {
      |messages| == 1
    }

    /** The synchronous part of `handleSendMessage`: blank text or a pending
        request changes nothing; otherwise the trimmed text is appended as a
        user message followed by one placeholder, and the request starts. */
    method Send(text: string, id: int) returns (started: bool)
      requires Valid()
      modifies this
      ensures Valid()
      ensures started <==> !IsBlank(text) && !old(isLoading)
      ensures !started ==> messages == old(messages) && input == old(input) && isLoading == old(isLoading)
      ensures started ==>
                messages == old(messages) + [Message(id, User, Trim(text), false), Message(id + 1, Bot, "", true)] &&
                input == "" && isLoading
      ensures started ==> !QuickRepliesVisible()
    {
      if IsBlank(text) || isLoading {
        return false;
      }
      var user := Message(id, User, Trim(text), false);
      var typing := Message(id + 1, Bot, "", true);
      FilterConcat(messages, [user, typing], IsLoading);
      assert Filter([user, typing], IsLoading) == [typing];
      messages := messages + [user, typing];
      input := "";
      isLoading := true;
      return true;
    }

    /** The end of `handleSendMessage`: every placeholder is removed, one bot
        message with the reply or the apology is appended, and loading ends. */
    method Receive(outcome: Option<string>, id: int)
      requires Valid()
      modifies this
      ensures Valid()
      ensures messages == WithoutPlaceholders(old(messages)) + [ReplyMessage(outcome, id)]
      ensures !isLoading && input == old(input)
      ensures |messages| >= 2
    {
      PlaceholdersRemoved(messages);
      var reply := ReplyMessage(outcome, id);
      FilterConcat(WithoutPlaceholders(messages), [reply], IsLoading);
      messages := WithoutPlaceholders(messages) + [reply];
      isLoading := false;
    }

    /** `handleSendMessage` from start to end when no other request is
        pending: the list gains the user message and the reply, nothing else. */
    method HandleSendMessage(text: string, outcome: Option<string>, id: int)
      requires Valid() && !isLoading
      modifies this
      ensures Valid() && !isLoading
      ensures IsBlank(text) ==> messages == old(messages) && input == old(input)
      ensures !IsBlank(text) ==>
                messages == old(messages) + [Message(id, User, Trim(text), false), ReplyMessage(outcome, id + 2)] &&
                input == ""
    {
      ghost var before := messages;
      var started := Send(text, id);
      if started {
        var typing := Message(id + 1, Bot, "", true);
        var user := Message(id, User, Trim(text), false);
        SettledListIsKept(before);
        FilterConcat(before, [user, typing], IsSettled);
        assert Filter([user, typing], IsSettled) == [user];
        Receive(outcome, id + 2);
      }
    }

    /** `handleQuickReply`: clears the input and sends the suggestion. */
    method HandleQuickReply(text: string, id: int) returns (started: bool)
      requires Valid()
      modifies this
      ensures Valid()
      ensures started <==> !IsBlank(text) && !old(isLoading)
      ensures started ==> messages == old(messages) + [Message(id, User, Trim(text), false), Message(id + 1, Bot, "", true)]
      ensures input == ""
    {
      input := "";
      started := Send(text, id);
    }
  }

  /** A list without a placeholder passes the filter whole. */
  lemma SettledListIsKept(ms: seq<Message>)
    requires |Filter(ms, IsLoading)| == 0
    ensures WithoutPlaceholders(ms) == ms
  {
    FilterPartition(ms, IsSettled, IsLoading);
    FilterSizeKeepsAll(ms, IsSettled);
  }
}
