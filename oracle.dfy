/** The oracle room: the chat page's conversation without sessions or export, with
    shorter simulated replies. */
module Oracle {
  import opened Wrappers
  import opened Text
  import Chat

  function Response(k: nat, draw: nat): (s: string)
    requires k < 3 && draw < 3
    ensures |s| > 0
  {
    match k
    case 0 => (
      match draw
      case 0 => "Based on my analysis, this" + " is a complex topic that" + " requires careful"
                + " consideration of multiple" + " factors. Let me break this" + " down systematically..."
      case 1 => "I understand you're looking" + " for insights on this" + " matter. From a strategic"
                + " perspective, there are" + " several key" + " considerations..."
      case _ => "This is an interesting" + " question that touches on" + " several important domains."
                + " Let me provide a" + " comprehensive analysis...")
    case 1 => (
      match draw
      case 0 => "Here's a concise analysis of" + " your query. The key points" + " to consider are..."
      case 1 => "I can help you with that." + " Based on current data and" + " trends..."
      case _ => "That's a great question. Let" + " me provide you with a" + " focused response...")
    case _ => (
      match draw
      case 0 => "Processing your request" + " locally. Here's what I" + " found..."
      case 1 => "Using local inference to" + " analyze your query. The" + " results indicate..."
      case _ => "Local model analysis" + " complete. Key insights" + " include...")
  }

  /** The sentence every reply ends with, naming the model. */
  function Closing(name: string): string {
    " This response demonstrates" + " the capabilities of the " + name
    + " model in providing" + " detailed, contextual" + " answers to your research" + " questions."
  }

  /** `generateMockResponse`: one of the model's three replies, an unknown model using
      the GPT-4 set, then the closing sentence naming the model. */
  function MockResponse(model: string, draw: nat): (r: string)
    requires draw < 3
    ensures |Response(Chat.ResponseSet(model), draw)| < |r|
    ensures r[..|Response(Chat.ResponseSet(model), draw)|] == Response(Chat.ResponseSet(model), draw)
    ensures |Closing(Chat.NameInText(model))| < |r|
    ensures r[|r| - |Closing(Chat.NameInText(model))|..] == Closing(Chat.NameInText(model))
    ensures |r| == |Response(Chat.ResponseSet(model), draw)| + |Closing(Chat.NameInText(model))|
  {
    var base, closing := Response(Chat.ResponseSet(model), draw), Closing(Chat.NameInText(model));
    assert (base + closing)[..|base|] == base;
    assert (base + closing)[|base|..] == closing;
    base + closing
  }

  /** A model the menu does not list answers with the GPT-4 texts, and its closing
      sentence names "undefined". */
  lemma UnknownModelFallsBack(model: string, draw: nat)
    requires draw < 3 && model !in Chat.ModelIds
    ensures MockResponse(model, draw)[..|Response(0, draw)|] == MockResponse("gpt-4", draw)[..|Response(0, draw)|]
    ensures Chat.NameInText(model) == "undefined"
  {
    assert Chat.ResponseSet(model) == 0 && Chat.ResponseSet("gpt-4") == 0;
  }

  class OracleRoom {
    var messages: seq<Chat.Message>
    var inputMessage: string
    var isTyping: bool
    var selectedModel: string

    constructor()
      ensures messages == [] && inputMessage == "" && !isTyping && selectedModel == "gpt-4"
    {
      messages := [];
      inputMessage := "";
      isTyping := false;
      selectedModel := "gpt-4";
    }

    method SetInput(text: string)
      modifies this
      ensures inputMessage == text
      ensures messages == old(messages) && isTyping == old(isTyping) && selectedModel == old(selectedModel)
    {
      inputMessage := text;
    }

    method SelectModel(model: string)
      modifies this
      ensures selectedModel == model
      ensures messages == old(messages) && inputMessage == old(inputMessage) && isTyping == old(isTyping)
    {
      selectedModel := model;
    }

    /** `handleSendMessage`, up to the reply: blank input is ignored; otherwise the
        input becomes a user message at the end, the box is cleared and typing starts. */
    method SendMessage(now: nat)
      modifies this
      ensures IsBlank(old(inputMessage)) ==>
                messages == old(messages) && inputMessage == old(inputMessage) && isTyping == old(isTyping)
      ensures !IsBlank(old(inputMessage)) ==>
                messages == old(messages) + [Chat.Message(NatToString(now), Chat.User, old(inputMessage), now, None)]
                && inputMessage == "" && isTyping
      ensures selectedModel == old(selectedModel)
    {
      if IsBlank(inputMessage) {
        return;
      }
      messages := messages + [Chat.Message(NatToString(now), Chat.User, inputMessage, now, None)];
      inputMessage := "";
      isTyping := true;
    }

    /** The timer of `handleSendMessage`: one reply from the selected model at the end
        of the conversation, and typing stops. */
    method DeliverReply(now: nat, draw: nat)
      requires draw < 3
      modifies this
      ensures messages == old(messages) +
                [Chat.Message(NatToString(now + 1), Chat.Assistant, MockResponse(old(selectedModel), draw), now,
                              Some(old(selectedModel)))]
      ensures !isTyping
      ensures inputMessage == old(inputMessage) && selectedModel == old(selectedModel)
    {
      messages := messages + [Chat.Message(NatToString(now + 1), Chat.Assistant, MockResponse(selectedModel, draw), now,
                                           Some(selectedModel))];
      isTyping := false;
    }

    /** `clearChat`. */
    method ClearChat()
      modifies this
      ensures messages == []
      ensures inputMessage == old(inputMessage) && isTyping == old(isTyping) && selectedModel == old(selectedModel)
    {
      messages := [];
    }
  }
}
