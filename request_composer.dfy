/** Turning the per-turn settings and the user's text into the request sent to the
    generation backend: the length-preference lookup, the enhanced system prompt and the
    two-message request. Everything here is a pure function of its arguments. */
module RequestComposer {
  import opened ChatTypes

  // The four length labels offered by the sidebar.
  const Brief: string := "간단"
  const Normal: string := "보통"
  const Detailed: string := "자세함"
  const VeryDetailed: string := "매우 자세함"

  const BriefInstruction: string := "간단하고 핵심적인 답변을 1-2문장으로 제공하세요."
  const NormalInstruction: string := "적절한 길이로 명확하게 답변하세요. (2-3문단 정도)"
  const DetailedInstruction: string := "상세하고 포괄적인 답변을 제공하세요. 예시나 추가 설명을 포함하세요."
  const VeryDetailedInstruction: string :=
    "매우 상세하고 심층적인 답변을 제공하세요. 다양한 관점과 예시, 관련 정보를 포함하세요."

  /** The instruction used for any label outside the four above. */
  const FallbackInstruction: string := "적절한 길이로 답변하세요."

  /** The table from length label to instruction. */
  const LengthMap: map<string, string> := map[
    Brief := BriefInstruction,
    Normal := NormalInstruction,
    Detailed := DetailedInstruction,
    VeryDetailed := VeryDetailedInstruction
  ]

  /** What separates the user's system prompt from the length instruction. */
  const StyleSeparator: string := "\n\n답변 스타일: "

  /** The label is one of the four the sidebar offers. */
  predicate IsLengthLabel(responseLength: string) {
    responseLength == Brief || responseLength == Normal
    || responseLength == Detailed || responseLength == VeryDetailed
  }

  /** Looks the label up, falling back to a generic instruction; never fails. The
      fallback is used exactly when the label is not one of the four, and no
      instruction is empty. */
  function LengthInstruction(responseLength: string): (r: string)
    ensures r != []
    ensures r == FallbackInstruction <==> !IsLengthLabel(responseLength)
    ensures IsLengthLabel(responseLength) ==> r in LengthMap.Values
  {
    if responseLength in LengthMap then LengthMap[responseLength] else FallbackInstruction
  }

  /** Each of the four labels yields its own fixed instruction. */
  lemma KnownLengthInstructions()
    ensures LengthInstruction(Brief) == BriefInstruction
    ensures LengthInstruction(Normal) == NormalInstruction
    ensures LengthInstruction(Detailed) == DetailedInstruction
    ensures LengthInstruction(VeryDetailed) == VeryDetailedInstruction
  {
  }

  /** Distinct recognised labels yield distinct instructions, so the instruction
      determines the label. */
  lemma LengthInstructionInjective(a: string, b: string)
    requires IsLengthLabel(a) && IsLengthLabel(b)
    requires LengthInstruction(a) == LengthInstruction(b)
    ensures a == b
  {
  }

  /** The system prompt sent to the backend: the user's prompt, a blank line, the
      style heading and the length instruction. */
  function EnhancedSystemPrompt(systemPrompt: string, responseLength: string): (p: string)
    ensures |p| == |systemPrompt| + |StyleSeparator| + |LengthInstruction(responseLength)|
    ensures systemPrompt <= p
    ensures p[|systemPrompt|..|systemPrompt| + |StyleSeparator|] == StyleSeparator
    ensures p[|p| - |LengthInstruction(responseLength)|..] == LengthInstruction(responseLength)
  {
    systemPrompt + StyleSeparator + LengthInstruction(responseLength)
  }

  /** With the length label fixed, the enhanced prompt determines the user's prompt. */
  lemma EnhancedPromptDeterminesSystemPrompt(sp1: string, sp2: string, responseLength: string)
    requires EnhancedSystemPrompt(sp1, responseLength) == EnhancedSystemPrompt(sp2, responseLength)
    ensures sp1 == sp2
  {
  }

  /** With the user's prompt fixed, two different recognised labels give two different
      enhanced prompts: the length preference always reaches the backend. */
  lemma EnhancedPromptDistinguishesLabels(systemPrompt: string, a: string, b: string)
    requires IsLengthLabel(a) && IsLengthLabel(b) && a != b
    ensures EnhancedSystemPrompt(systemPrompt, a) != EnhancedSystemPrompt(systemPrompt, b)
  {
  }

  /** The request for one turn: exactly the enhanced system prompt followed by the user's
      text, unchanged (also when empty). No earlier turn of the conversation is included. */
  function ComposeRequest(systemPrompt: string, userInput: string, responseLength: string): (req: Request)
    ensures |req| == 2
    ensures req[0].SystemMessage? && req[1].HumanMessage?
    ensures req[0].content == EnhancedSystemPrompt(systemPrompt, responseLength)
    ensures req[1].content == userInput
  {
    [SystemMessage(EnhancedSystemPrompt(systemPrompt, responseLength)), HumanMessage(userInput)]
  }

  /** The request determines the user's text and the user's system prompt it was built from. */
  lemma ComposeRequestInjective(sp1: string, u1: string, sp2: string, u2: string, responseLength: string)
    requires ComposeRequest(sp1, u1, responseLength) == ComposeRequest(sp2, u2, responseLength)
    ensures sp1 == sp2 && u1 == u2
  {
  }
}
