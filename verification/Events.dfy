/** The provider's event stream and the Anthropic events written for it. */
module Events {
  import opened Wrappers
  import opened JsonValues

  datatype FinishReason = Stop | Length | ToolUse

  datatype Usage = Usage(
    inputTokens: Option<nat>,
    contextInputTokens: Option<nat>,
    outputTokens: Option<nat>,
    cacheReadTokens: Option<nat>,
    cacheWriteTokens: Option<nat>)

  const NO_USAGE := Usage(None, None, None, None, None)

  datatype ModelEvent =
    | Started
    | TextStart
    | TextDelta(text: string)
    | TextEnd
    | ThinkingStart
    | ThinkingDelta(thinking: string)
    | ThinkingSignature(signature: string)
    | ThinkingEnd
    | ToolCallStart(index: nat, callId: string, name: string)
    | ToolCallArgumentsDelta(index: nat, partial: string)
    | ToolCallEnd(index: nat)
    | ProviderReplayState(providerKind: string, value: Json)
    | UsageReport(usage: Usage)
    | StopSequence(sequence: string)
    | Done(reason: FinishReason)

  /** `content_block` of a `content_block_start`. */
  datatype ContentBlock =
    | TextBlock
    | ThinkingBlock
    | ToolUseBlock(id: string, name: string)
    | RawBlock(value: Json)

  datatype Delta =
    | Text(text: string)
    | Thinking(thinking: string)
    | Signature(signature: string)
    | InputJson(partial: string)

  datatype StopReason = MaxTokens | CallTools | HitStopSequence | EndTurn

  datatype WireUsage = WireUsage(
    inputTokens: nat,
    outputTokens: nat,
    cacheReadInputTokens: Option<nat>,
    cacheCreationInputTokens: Option<nat>)

  datatype WireEvent =
    | MessageStart(id: string, model: string, estimatedInputTokens: nat)
    | BlockStart(index: nat, block: ContentBlock)
    | BlockDelta(index: nat, delta: Delta)
    | BlockStop(index: nat)
    | MessageDelta(stopReason: StopReason, stopSequence: Option<string>, usage: WireUsage)
    | MessageStop
    | ErrorEvent(kind: string, message: string)
}
