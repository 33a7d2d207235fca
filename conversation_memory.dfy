/** Per-conversation memory of the tool-less chat services (cheerup, trivia, recipe).

    Each service keeps a module-level table from `context_id` to the list of
    `{role, content}` entries exchanged so far, and its `chat` turn appends the
    user entry, asks the model with the system prompt in front of the whole
    history, appends the reply as an assistant entry and returns it. The three
    services share this logic word for word and differ only in the prompt, so
    it is modelled once here, as a class parameterised by the prompt. */
module ConversationMemory {
  import opened Wrappers

  datatype Role = System | User | Assistant

  /** One `{"role": ..., "content": ...}` entry. The content is `None` only when
      the model answered with a null message content. */
  datatype Entry = Entry(role: Role, content: Option<string>)

  function UserEntry(text: string): Entry {
    Entry(User, Some(text))
  }

  function SystemEntry(prompt: string): Entry {
    Entry(System, Some(prompt))
  }

  /** What `client.chat.completions.create` yields: it raises (network,
      HTTP status, bad request, ...), or it returns the response's choices,
      each carrying the content of its message, which may be null. */
  datatype Completion = Raised(reason: string) | Completed(choices: seq<Option<string>>)

  /** The chat model: an oracle from the message list it is sent to its answer. */
  type Model = seq<Entry> -> Completion

  /** Why a turn raised instead of returning a reply:
      the completion call raised; `response.choices[0]` found no choice
      (IndexError); or the reply content was null, which is stored and then
      makes the log line's `assistant_message[:200]` raise (TypeError). */
  datatype ChatError = ApiError(reason: string) | NoChoices | NullContent

  /** The history after a turn, and what the turn returned or raised. */
  datatype TurnResult = TurnResult(history: seq<Entry>, reply: Result<string, ChatError>)

  /** The message list sent to the model: the system prompt, then the history. */
  function ModelInput(prompt: string, history: seq<Entry>): (input: seq<Entry>)
    ensures |input| == |history| + 1 && input[0] == SystemEntry(prompt) && input[1..] == history
  {
    [SystemEntry(prompt)] + history
  }

  /** A history as it is stored: the system prompt never appears in it. */
  ghost predicate NoSystemEntry(history: seq<Entry>) {
    forall i :: 0 <= i < |history| ==> history[i].role != System
  }

  /** One `chat` turn on the history of one conversation. */
  function Turn(prompt: string, history: seq<Entry>, userMessage: string, llm: Model): (t: TurnResult)
    // append-only: the prior history is kept as it was, followed by the user entry
    ensures |history| < |t.history| <= |history| + 2
    ensures t.history[..|history|] == history
    ensures t.history[|history|] == UserEntry(userMessage)
    ensures NoSystemEntry(history) ==> NoSystemEntry(t.history)
    // the model is asked exactly once, on the prompt, the prior history and the user entry
    ensures var c := llm([SystemEntry(prompt)] + history + [UserEntry(userMessage)]);
      && (t.reply.Success? <==> c.Completed? && |c.choices| > 0 && c.choices[0].Some?)
      && (t.reply.Success? ==> t.reply.value == c.choices[0].value)
      && (t.reply == Failure(NoChoices) <==> c == Completed([]))
      && (c.Raised? <==> t.reply.Failure? && t.reply.error.ApiError?)
      && (c.Raised? ==> t.reply == Failure(ApiError(c.reason)))
    // on success: user entry then assistant entry, and the reply is what was stored
    ensures t.reply.Success? ==>
      t.history == history + [UserEntry(userMessage), Entry(Assistant, Some(t.reply.value))]
    // on failure nothing is rolled back, and no assistant text is stored
    ensures t.reply.Failure? && t.reply.error != NullContent ==>
      t.history == history + [UserEntry(userMessage)]
    ensures t.reply == Failure(NullContent) ==>
      t.history == history + [UserEntry(userMessage), Entry(Assistant, None)]
  {
    var withUser := history + [UserEntry(userMessage)];
    assert ModelInput(prompt, withUser) == [SystemEntry(prompt)] + history + [UserEntry(userMessage)];
    match llm(ModelInput(prompt, withUser))
    case Raised(reason) => TurnResult(withUser, Failure(ApiError(reason)))
    case Completed(choices) =>
      if |choices| == 0 then TurnResult(withUser, Failure(NoChoices))
      else
        var stored := withUser + [Entry(Assistant, choices[0])];
        assert stored == history + [UserEntry(userMessage), Entry(Assistant, choices[0])];
        match choices[0]
        case None => TurnResult(stored, Failure(NullContent))
        case Some(text) => TurnResult(stored, Success(text))
  }

  /** The history of one conversation after a series of turns, one per user message. */
  function Conversation(prompt: string, history: seq<Entry>, userMessages: seq<string>, llm: Model): (h: seq<Entry>)
    ensures |history| + |userMessages| <= |h| && h[..|history|] == history
    ensures |userMessages| > 0 ==> h[|history|] == UserEntry(userMessages[0])
    ensures |userMessages| == 0 ==> h == history
    decreases |userMessages|
  {
    if |userMessages| == 0 then history
    else Conversation(prompt, Turn(prompt, history, userMessages[0], llm).history, userMessages[1..], llm)
  }

  /** The texts of the user entries of a history, in order. */
  function UserMessages(history: seq<Entry>): seq<string> {
    if |history| == 0 then []
    else
      (if history[0].role == User && history[0].content.Some? then [history[0].content.value] else [])
      + UserMessages(history[1..])
  }

  lemma {:induction false} UserMessagesAppend(a: seq<Entry>, b: seq<Entry>)
    ensures UserMessages(a + b) == UserMessages(a) + UserMessages(b)
  {
    if |a| == 0 {
      assert a + b == b;
    } else {
      assert (a + b)[1..] == a[1..] + b;
      UserMessagesAppend(a[1..], b);
    }
  }

  /** A turn adds exactly its own user message to the user side of the history. */
  lemma TurnAddsUserMessage(prompt: string, history: seq<Entry>, userMessage: string, llm: Model)
    ensures UserMessages(Turn(prompt, history, userMessage, llm).history) == UserMessages(history) + [userMessage]
  {
    var t := Turn(prompt, history, userMessage, llm);
    var tail := t.history[|history|..];
    assert t.history == history + tail;
    UserMessagesAppend(history, tail);
    assert tail == [UserEntry(userMessage)] + tail[1..];
    UserMessagesAppend([UserEntry(userMessage)], tail[1..]);
    assert UserMessages([UserEntry(userMessage)]) == [userMessage];
    assert |tail[1..]| == 0 || (|tail[1..]| == 1 && tail[1..][0].role == Assistant);
    if |tail[1..]| == 1 {
      assert UserMessages(tail[1..]) == [] + UserMessages(tail[1..][1..]);
    }
  }

  /** Memory is append-only over any number of turns: nothing stored is ever
      removed or reordered, each turn stores one or two entries, and the
      system prompt is never stored. */
  lemma {:induction false} ConversationAppendOnly(prompt: string, history: seq<Entry>, userMessages: seq<string>, llm: Model)
    ensures var h := Conversation(prompt, history, userMessages, llm);
      && |history| + |userMessages| <= |h| <= |history| + 2 * |userMessages|
      && h[..|history|] == history
      && (NoSystemEntry(history) ==> NoSystemEntry(h))
    decreases |userMessages|
  {
    if |userMessages| > 0 {
      var next := Turn(prompt, history, userMessages[0], llm).history;
      ConversationAppendOnly(prompt, next, userMessages[1..], llm);
      var h := Conversation(prompt, history, userMessages, llm);
      assert h[..|next|] == next;
      assert h[..|history|] == next[..|history|];
    }
  }

  /** The user entries of a conversation are exactly the messages the user sent, in order. */
  lemma {:induction false} ConversationKeepsUserMessages(prompt: string, history: seq<Entry>, userMessages: seq<string>, llm: Model)
    ensures UserMessages(Conversation(prompt, history, userMessages, llm)) == UserMessages(history) + userMessages
    decreases |userMessages|
  {
    if |userMessages| > 0 {
      var next := Turn(prompt, history, userMessages[0], llm).history;
      var rest := userMessages[1..];
      assert Conversation(prompt, history, userMessages, llm) == Conversation(prompt, next, rest, llm);
      TurnAddsUserMessage(prompt, history, userMessages[0], llm);
      ConversationKeepsUserMessages(prompt, next, rest, llm);
      assert userMessages == [userMessages[0]] + rest;
    }
  }

  /** The conversation table of one service (its module-level `_conversations`). */
  class ChatService {
    const systemPrompt: string
    var conversations: map<string, seq<Entry>>

    /** No stored history holds the system prompt. */
    ghost predicate Valid()
      reads this
    {
      forall id :: id in conversations ==> NoSystemEntry(conversations[id])
    }

    /** The history of a conversation; an id never seen reads as an empty history. */
    function History(contextId: string): (history: seq<Entry>)
      reads this
      ensures contextId in conversations ==> history == conversations[contextId]
      ensures contextId !in conversations ==> history == []
    {
      if contextId in conversations then conversations[contextId] else []
    }

    /** The table as the module creates it: empty. */
    constructor (prompt: string)
      ensures systemPrompt == prompt && conversations == map[] && Valid()
    {
      systemPrompt := prompt;
      conversations := map[];
    }

    /** `chat(context_id, user_message)`. */
    method Chat(contextId: string, userMessage: string, llm: Model) returns (reply: Result<string, ChatError>)
      requires Valid()
      modifies this
      ensures Valid()
      ensures var t := Turn(systemPrompt, old(History(contextId)), userMessage, llm);
        conversations == old(conversations)[contextId := t.history] && reply == t.reply
      // the id is registered on first use, whatever the outcome of the turn
      ensures conversations.Keys == old(conversations.Keys) + {contextId}
      // an id never seen starts from an empty history, without error
      ensures contextId !in old(conversations) ==>
        |conversations[contextId]| <= 2 && conversations[contextId][0] == UserEntry(userMessage)
      // every other conversation is left as it was
      ensures forall id :: id != contextId ==> History(id) == old(History(id))
    {
      // `_conversations[context_id]` on a defaultdict inserts an empty list for a new id
      var history := History(contextId);
      ghost var t := Turn(systemPrompt, history, userMessage, llm);
      conversations := conversations[contextId := history];
      history := history + [UserEntry(userMessage)];
      conversations := conversations[contextId := history];
      var messages := ModelInput(systemPrompt, history);
      var response := llm(messages);
      match response {
        case Raised(reason) =>
          reply := Failure(ApiError(reason));
        case Completed(choices) =>
          if |choices| == 0 {
            reply := Failure(NoChoices);
          } else {
            var assistantMessage := choices[0];
            history := history + [Entry(Assistant, assistantMessage)];
            conversations := conversations[contextId := history];
            if assistantMessage.None? {
              reply := Failure(NullContent);
            } else {
              reply := Success(assistantMessage.value);
            }
          }
      }
      assert history == t.history && reply == t.reply;
    }
  }
}
