/** The message and reply shapes exchanged with a chat model (LangChain's
    SystemMessage, HumanMessage and AIMessage, and `invoke`'s outcome). */
module Chat {

  datatype Message =
    | System(content: string)
    | Human(content: string)
    | Ai(content: string)

  /** What calling a model comes to: the text of its reply, or the message
      of the exception it raised. */
  datatype Reply = Replied(text: string) | Raised(error: string)

  /** A chat model, seen from outside: messages in, a reply out. */
  type Invoke = seq<Message> -> Reply
}
