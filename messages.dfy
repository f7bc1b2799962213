/**
  The chat message shared by both chat screens (frontend/src/lib/types.ts):
  an id, who wrote it, and its text.
 */
module Messages {
  datatype Role = User | Assistant
  datatype Message = Message(id: string, role: Role, content: string)
}
