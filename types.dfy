/**
 * The records of src/types/index.ts. Timestamps (`Date` in the source) are
 * integers supplied by the caller; optional fields are `Option`s.
 */
module Types {
  import opened Wrappers

  datatype Prompt = Prompt(
    id: string,
    name: string,
    content: string,
    createdAt: int,
    updatedAt: int)

  datatype MessageKind = Text | Image

  datatype Sender = User | Assistant

  datatype Message = Message(
    id: string,
    content: string,
    kind: MessageKind,
    sender: Sender,
    timestamp: int,
    promptUsed: Option<string>,
    imageUrl: Option<string>)

  datatype Conversation = Conversation(
    id: string,
    title: string,
    messages: seq<Message>,
    createdAt: int,
    updatedAt: int)

  /** A message as the chat screen hands it over: everything but `id` and `timestamp`. */
  datatype MessageData = MessageData(
    content: string,
    kind: MessageKind,
    sender: Sender,
    promptUsed: Option<string>,
    imageUrl: Option<string>)

  /** The fields `updatePrompt` lets a caller change; an absent field is left as it is. */
  datatype PromptPatch = PromptPatch(name: Option<string>, content: Option<string>)

  /** `Partial<Conversation>`: any subset of a conversation's fields. */
  datatype ConversationPatch = ConversationPatch(
    id: Option<string>,
    title: Option<string>,
    messages: Option<seq<Message>>,
    createdAt: Option<int>,
    updatedAt: Option<int>)

  function PromptKey(p: Prompt): string { p.id }

  function ConversationKey(c: Conversation): string { c.id }
}
