/** What is stored and sent: messages, tool calls and the figures of a step. */
module Messages {
  import opened Common

  datatype ToolCall = ToolCall(id: string, name: string, argumentsJson: string)

  datatype FilePart = FilePart(path: string, mimeType: string, sizeBytes: Option<nat>)

  datatype ContentPart = Text(text: string) | File(file: FilePart) | Image(mimeType: string, data: seq<bv8>)

  datatype Usage = Usage(
    promptTokens: nat, completionTokens: nat, totalTokens: nat,
    cachedTokens: Option<nat>, reasoningTokens: Option<nat>)

  datatype StepStats = StepStats(usage: Usage, generationTokens: Option<nat>)

  datatype ChatMessage =
    | System(text: string)
    | User(content: seq<ContentPart>)
    | Assistant(content: seq<ContentPart>, toolCalls: seq<ToolCall>, stats: Option<StepStats>)
    | Tool(callId: string, name: string, result: string, isError: bool)

  function JoinText(parts: seq<ContentPart>): string {
    if parts == [] then ""
    else if !parts[0].Text? then JoinText(parts[1..])
    else if exists part :: part in parts[1..] && part.Text? then parts[0].text + "\n" + JoinText(parts[1..])
    else parts[0].text
  }
}
