/** The role/content messages exchanged between the chat page and the chat route. */
module Messages {

  datatype Role = System | User | Assistant

  /** A message as it travels in the request body: role and content only. */
  datatype Message = Message(role: Role, content: string)
}
