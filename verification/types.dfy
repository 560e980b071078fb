/** Value shapes shared by the store and the answer renderer
    (src/lib/types.ts). */
module Types {

  /** `T | null` / `T | undefined` in the source. */
  datatype Option<+T> = None | Some(value: T)

  /** A citation source: `{ id: number, url: string, title: string }`. */
  datatype Source = Source(id: int, url: string, title: string)

  /** A conversation turn. The constructor plays the role of the source's
      `role` tag: `UserMessage` is `role: 'user'`, `AssistantMessage` is
      `role: 'assistant'`. */
  datatype ChatMessage =
    | UserMessage(id: string, content: string)
    | AssistantMessage(id: string, content: string, sources: seq<Source>, traceStep: Option<string>)
}
