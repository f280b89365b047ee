/**
 * Prompt composition and result finalisation for the two calls the assistant
 * makes to the text-generation service: the bilingual analysis of an incoming
 * email and the generation of a reply in a chosen tone, length and quick
 * action, with the user's signature appended afterwards.
 *
 * The service itself is not modelled: a call is a total function from the
 * prompt sent to the `Outcome` received.
 */
module Prompts {
  import opened Wrappers
  import opened PyStrings

  /** A line break followed by the eight spaces of indentation that every line
      of the source's triple-quoted templates carries. */
  const Nl: string := "\n        "

  /** The six tone instructions, keyed by tone name. */
  const ToneInstructions: Table := [
    ("professional", "Use formal business language, be respectful and direct"),
    ("friendly", "Use warm, approachable language while maintaining professionalism"),
    ("casual", "Use relaxed, conversational tone but still appropriate for business"),
    ("formal", "Use very formal, traditional business language with proper etiquette"),
    ("empathetic", "Show understanding and compassion, acknowledge concerns warmly"),
    ("assertive", "Be confident and clear, take charge of the situation")
  ]

  /** The three length guidelines, keyed by length name. */
  const LengthInstructions: Table := [
    ("short", "Keep the reply to 2-3 sentences maximum, be very concise"),
    ("medium", "Write a balanced reply of 1-2 paragraphs"),
    ("detailed", "Provide a comprehensive response with detailed explanations")
  ]

  /** The five quick-action instructions, keyed by action name. */
  const ActionPrompts: Table := [
    ("accept_meeting", "Accept the meeting invitation graciously and confirm availability"),
    ("decline_politely", "Politely decline the request with a brief explanation"),
    ("request_info", "Ask for additional information or clarification professionally"),
    ("acknowledge", "Acknowledge receipt and provide appropriate response"),
    ("schedule_followup", "Suggest scheduling a follow-up meeting or call")
  ]

  function ToneInstruction(tone: string): string {
    DictGet(ToneInstructions, tone, DictGet(ToneInstructions, "professional", ""))
  }

  function LengthInstruction(length: string): string {
    DictGet(LengthInstructions, length, DictGet(LengthInstructions, "medium", ""))
  }

  /** The selected action names an entry of the action table (`None` and the
      empty name, both falsy in Python, are never keys). */
  predicate KnownAction(action: Option<string>) {
    action.Some? && HasKey(ActionPrompts, action.value)
  }

  /** The opening of a reply prompt, up to and including the length line. */
  function ReplyHead(tone: string, length: string): string {
    Nl + "Write a professional email reply to the following email. " + Nl
    + Nl + "TONE: " + ToneInstruction(tone)
    + Nl + "LENGTH: " + LengthInstruction(length)
    + Nl
  }

  /** The line a known quick action contributes. */
  function ActionLine(action: Option<string>): string {
    if KnownAction(action) then "\nSPECIFIC ACTION: " + DictGet(ActionPrompts, action.value, "") else ""
  }

  /** The fixed text between the head (or action line) and the email itself. */
  const ReplyEmailIntro: string := Nl + Nl + "Original email to reply to:" + Nl

  /** The fixed structural instructions after the email. */
  const ReplyInstructions: string :=
    Nl + Nl + "Generate a complete email reply with:"
    + Nl + "- Appropriate subject line (if needed)"
    + Nl + "- Professional greeting"
    + Nl + "- Main body addressing the sender's points"
    + Nl + "- Appropriate closing"
    + Nl + Nl + "Do not include sender's signature - that will be added separately."
    + Nl

  /** The part of the reply prompt that carries the email. */
  function ReplyBody(content: string): string {
    ReplyEmailIntro + content + ReplyInstructions
  }

  /** The reply prompt: head, optional action line, the email, the instructions. */
  function ReplyPrompt(content: string, tone: string, length: string, action: Option<string>): string {
    ReplyHead(tone, length) + ActionLine(action) + ReplyBody(content)
  }

  /** Builds the reply prompt by successive appends, as the source does. */
  method ComposeReplyPrompt(content: string, tone: string, length: string, action: Option<string>)
    returns (prompt: string)
    ensures prompt == ReplyPrompt(content, tone, length, action)
  {
    prompt := ReplyHead(tone, length);
    if action.Some? && HasKey(ActionPrompts, action.value) {
      prompt := prompt + ("\nSPECIFIC ACTION: " + DictGet(ActionPrompts, action.value, ""));
    } else {
      assert prompt == ReplyHead(tone, length) + ActionLine(action);
    }
    prompt := prompt + ReplyBody(content);
  }

  /** No table repeats a key. */
  lemma TablesHaveDistinctKeys()
    ensures DistinctKeys(ToneInstructions) && DistinctKeys(LengthInstructions) && DistinctKeys(ActionPrompts)
  {
    // tone keys: professional, friendly, casual, formal, empathetic, assertive
    assert |ToneInstructions[0].0| == 12 && |ToneInstructions[1].0| == 8 && |ToneInstructions[4].0| == 10;
    assert |ToneInstructions[5].0| == 9 && |ToneInstructions[2].0| == 6 && |ToneInstructions[3].0| == 6;
    assert ToneInstructions[2].0[0] != ToneInstructions[3].0[0];
    assert |LengthInstructions[0].0| == 5 && |LengthInstructions[1].0| == 6 && |LengthInstructions[2].0| == 8;
    assert |ActionPrompts[0].0| == 14 && |ActionPrompts[1].0| == 16 && |ActionPrompts[2].0| == 12;
    assert |ActionPrompts[3].0| == 11 && |ActionPrompts[4].0| == 17;
  }

  /** A recognised tone, length or action selects its own entry. */
  lemma KnownSettingsSelected(i: nat)
    ensures i < |ToneInstructions| ==> ToneInstruction(ToneInstructions[i].0) == ToneInstructions[i].1
    ensures i < |LengthInstructions| ==> LengthInstruction(LengthInstructions[i].0) == LengthInstructions[i].1
    ensures i < |ActionPrompts| ==>
      ActionLine(Some(ActionPrompts[i].0)) == "\nSPECIFIC ACTION: " + ActionPrompts[i].1
  {
    TablesHaveDistinctKeys();
    if i < |ToneInstructions| {
      DictGetAt(ToneInstructions, i, DictGet(ToneInstructions, "professional", ""));
    }
    if i < |LengthInstructions| {
      DictGetAt(LengthInstructions, i, DictGet(LengthInstructions, "medium", ""));
    }
    if i < |ActionPrompts| {
      assert HasKey(ActionPrompts, ActionPrompts[i].0);
      DictGetAt(ActionPrompts, i, "");
    }
  }

  /** An unrecognised tone gives the `professional` prompt and an unrecognised
      length the `medium` one. */
  lemma UnknownSettingsFallBack(content: string, tone: string, length: string, action: Option<string>)
    ensures !HasKey(ToneInstructions, tone) ==>
      ReplyPrompt(content, tone, length, action) == ReplyPrompt(content, "professional", length, action)
    ensures !HasKey(LengthInstructions, length) ==>
      ReplyPrompt(content, tone, length, action) == ReplyPrompt(content, tone, "medium", action)
  {
    assert ToneInstruction("professional") == ToneInstructions[0].1;
    assert LengthInstructions[0].0 != "medium";
    assert LengthInstruction("medium") == LengthInstructions[1].1;
    if !HasKey(ToneInstructions, tone) {
      DictGetMissing(ToneInstructions, tone, DictGet(ToneInstructions, "professional", ""));
    }
    if !HasKey(LengthInstructions, length) {
      DictGetMissing(LengthInstructions, length, DictGet(LengthInstructions, "medium", ""));
    }
  }

  /** The prompt equals the no-action prompt exactly when the action is not a
      key of the action table. */
  lemma ActionLineOnlyIfKnown(content: string, tone: string, length: string, action: Option<string>)
    ensures ReplyPrompt(content, tone, length, action) == ReplyPrompt(content, tone, length, None)
        <==> !KnownAction(action)
  {
    var h, b := ReplyHead(tone, length), ReplyBody(content);
    assert ReplyPrompt(content, tone, length, None) == h + [] + b;
    if KnownAction(action) {
      assert |ActionLine(action)| > 0;
      assert |ReplyPrompt(content, tone, length, action)| == |h| + |ActionLine(action)| + |b|;
    }
  }

  /** With the settings fixed, the prompt determines the email it was built from. */
  lemma {:induction false} ReplyPromptInjective(c1: string, c2: string, tone: string, length: string, action: Option<string>)
    requires ReplyPrompt(c1, tone, length, action) == ReplyPrompt(c2, tone, length, action)
    ensures c1 == c2
  {
    var p := ReplyHead(tone, length) + ActionLine(action) + ReplyEmailIntro;
    assert ReplyPrompt(c1, tone, length, action) == p + c1 + ReplyInstructions;
    assert ReplyPrompt(c2, tone, length, action) == p + c2 + ReplyInstructions;
    CancelFrame(p, c1, c2, ReplyInstructions);
  }

  /** What a call to the generation service produced: a response whose text may
      be missing (`None` or empty, both falsy), or an exception with its message. */
  datatype Outcome = Responded(text: Option<string>) | Raised(message: string)

  /** `response.text if response.text else fallback`. */
  function TextOr(text: Option<string>, fallback: string): (r: string)
    requires fallback != []
    ensures r != []
    ensures text.Some? && text.value != [] ==> r == text.value
    ensures (text.None? || text.value == []) ==> r == fallback
  {
    if text.Some? && text.value != [] then text.value else fallback
  }

  /** Appends the signature after a blank line unless it is blank. */
  function Signed(reply: string, signature: string): (r: string)
    ensures !Blank(signature) ==> r == reply + "\n\n" + signature
    ensures Blank(signature) ==> r == reply
  {
    StripBlankIff(signature);
    if Strip(signature) != [] then reply + "\n\n" + signature else reply
  }

  /** A missing, an all-blank and a real signature. */
  lemma SignatureExamples()
    ensures Signed("Hello", "") == "Hello"
    ensures Signed("Hello", "  ") == "Hello"
    ensures Signed("Hello", "Best, A") == "Hello\n\nBest, A"
  {
    assert !IsSpace("Best, A"[0]);
  }

  const NoReply: string := "Unable to generate reply."
  const ReplyErrorPrefix: string := "Error generating reply: "

  /** The text `generate_email_reply` returns for a given service outcome: the
      response (or a fixed fallback) with the signature applied, or an error
      text without the signature. Never empty. */
  function FinishReply(outcome: Outcome, signature: string): (r: string)
    ensures r != []
    ensures outcome.Raised? ==> r == ReplyErrorPrefix + outcome.message
    ensures outcome.Responded? && !Blank(signature) ==> r == TextOr(outcome.text, NoReply) + "\n\n" + signature
    ensures outcome.Responded? && Blank(signature) ==> r == TextOr(outcome.text, NoReply)
  {
    match outcome
    case Raised(message) => ReplyErrorPrefix + message
    case Responded(text) => Signed(TextOr(text, NoReply), signature)
  }

  /** `generate_email_reply`: compose the prompt, send it, finish the result. */
  method GenerateEmailReply(content: string, tone: string, length: string, action: Option<string>,
                            signature: string, service: string -> Outcome)
    returns (reply: string)
    ensures reply == FinishReply(service(ReplyPrompt(content, tone, length, action)), signature)
  {
    var prompt := ComposeReplyPrompt(content, tone, length, action);
    var outcome := service(prompt);
    reply := FinishReply(outcome, signature);
  }

  /** The analysis template before the email. */
  const AnalysisIntro: string :=
    Nl + "Analyze the following email and provide analysis in both English and Telugu languages:"
    + Nl + Nl + "Email content:" + Nl

  /** The analysis template after the email: an English section and a Telugu
      section with the same four labels, in that order. */
  const AnalysisFormat: string :=
    Nl + Nl + "Please provide the analysis in this exact format:"
    + Nl + Nl + "## English Analysis"
    + Nl + "**Summary:** [brief summary in English, 2-3 sentences]"
    + Nl + "**Intent:** [sender's intent/purpose in English]"
    + Nl + "**Key Points:** [bullet points in English]"
    + Nl + "**Urgency:** [Low/Medium/High]"
    + Nl + Nl + "## Telugu Analysis / తెలుగు విశ్లేషణ"
    + Nl + "**సారాంశం:** [brief summary in Telugu, 2-3 sentences]"
    + Nl + "**ఉద్దేశ్యం:** [sender's intent/purpose in Telugu]"
    + Nl + "**ముఖ్య అంశాలు:** [bullet points in Telugu]"
    + Nl + "**అత్యవసరత:** [తక్కువ/మధ్యమ/అధిక]"
    + Nl

  /** The analysis prompt: a constant template with the email as its one hole. */
  function AnalysisPrompt(content: string): string {
    AnalysisIntro + content + AnalysisFormat
  }

  /** The analysis prompt determines the email it was built from. */
  lemma AnalysisPromptInjective(c1: string, c2: string)
    requires AnalysisPrompt(c1) == AnalysisPrompt(c2)
    ensures c1 == c2
  {
    CancelFrame(AnalysisIntro, c1, c2, AnalysisFormat);
  }

  const NoAnalysis: string := "Unable to analyze email."
  const AnalysisErrorPrefix: string := "Error analyzing email: "

  /** `analyze_email`: the response text, the fixed fallback when it is
      missing, or an error text when the call raised. Never empty. */
  function AnalyzeEmail(content: string, service: string -> Outcome): (r: string)
    ensures r != []
    ensures service(AnalysisPrompt(content)).Raised? ==>
      r == AnalysisErrorPrefix + service(AnalysisPrompt(content)).message
    ensures service(AnalysisPrompt(content)) == Responded(None) ==> r == NoAnalysis
    ensures service(AnalysisPrompt(content)) == Responded(Some([])) ==> r == NoAnalysis
    ensures forall t | t != [] :: service(AnalysisPrompt(content)) == Responded(Some(t)) ==> r == t
  {
    match service(AnalysisPrompt(content))
    case Raised(message) => AnalysisErrorPrefix + message
    case Responded(text) => TextOr(text, NoAnalysis)
  }
}
