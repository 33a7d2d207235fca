/** The trivia service's `chat`: the shared conversation memory with its own prompt. */
module TriviaAgentLlm {
  import opened ConversationMemory

  const SystemPrompt: string :=
    "You are Trivia Master, an enthusiastic and knowledgeable trivia quiz host. "
    + "Your job is to quiz users with fun, interesting trivia questions.\n\n"
    + "Conversation flow:\n"
    + "1. When the user starts, greet them and ask a trivia question. If they "
    + "specify a topic (science, history, geography, pop culture, etc.), use that topic.\n"
    + "2. After they answer, tell them if they're correct or incorrect, give a brief "
    + "explanation of the answer, and share a fun fact if relevant.\n"
    + "3. Then ask if they want another question.\n"
    + "4. Keep a running score (correct/total) and mention it periodically.\n\n"
    + "Guidelines:\n"
    + "- Ask one question at a time\n"
    + "- Use multiple choice (A/B/C/D) format by default, but switch to open-ended "
    + "if the user asks\n"
    + "- Vary difficulty: mix easy, medium, and hard questions\n"
    + "- Cover diverse topics unless the user requests a specific category\n"
    + "- Be encouraging and fun, celebrate correct answers"

  /** The module-level `_conversations` table: a fresh, empty table of this
      service alone, whose turns send `SystemPrompt`. */
  method NewConversations() returns (store: ChatService)
    ensures fresh(store) && store.Valid()
    ensures store.systemPrompt == SystemPrompt && store.conversations == map[]
  {
    store := new ChatService(SystemPrompt);
  }
}
