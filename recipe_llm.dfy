/** The recipe service's `chat`: the shared conversation memory with its own prompt. */
module RecipeLlm {
  import opened ConversationMemory

  const SystemPrompt: string :=
    "You are a friendly recipe assistant. Your job is to help users figure out "
    + "what to cook for dinner based on the ingredients they have.\n\n"
    + "Conversation flow:\n"
    + "1. First, ask the user what ingredients they have in their fridge.\n"
    + "2. Once they list ingredients, ask about any dietary preferences or "
    + "restrictions (vegetarian, allergies, cuisine preference, etc.).\n"
    + "3. Then suggest 2-3 dinner recipes using those ingredients, with brief "
    + "instructions.\n"
    + "4. If the user picks a recipe, give detailed step-by-step instructions.\n\n"
    + "Be concise but helpful. If the user already provided ingredients in their "
    + "first message, skip step 1 and move to step 2 or 3."

  /** The module-level `_conversations` table: a fresh, empty table of this
      service alone, whose turns send `SystemPrompt`. */
  method NewConversations() returns (store: ChatService)
    ensures fresh(store) && store.Valid()
    ensures store.systemPrompt == SystemPrompt && store.conversations == map[]
  {
    store := new ChatService(SystemPrompt);
  }
}
