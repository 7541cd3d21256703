/** The records the application passes around, and the parts of a request to the model. */
module Types {
  import opened Js

  /** One analytics instrumentation point; `id` is a local identity for the table. */
  datatype Event = Event(
    id: string,
    action: string,
    view: string,
    click: string,
    eventName: string,
    eventProperties: string)

  datatype Role = User | Model

  /** One turn of the conversation; `imageData` is an optional embedded image. */
  datatype ChatMessage = ChatMessage(
    id: string,
    role: Role,
    text: string,
    timestamp: int,
    imageData: Option<string>)

  datatype AppState = Idle | Generating | Refining | Error

  /** One part of a model request: inline image data with its MIME type, or text. */
  datatype Part = InlineData(mimeType: string, data: Value) | TextPart(text: string)
}
