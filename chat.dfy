/** The chat page: a conversation with one of three simulated models, saved chat
    sessions with a current-session pointer, and the Markdown export of the
    conversation. */
module Chat {
  import opened Wrappers
  import opened Lists
  import opened Text

  datatype Sender = User | Assistant

  /** `Message`; `model` is set on replies only and the timestamp is in milliseconds. */
  datatype Message = Message(id: string, sender: Sender, content: string, timestamp: int, model: Option<string>)

  /** `ChatSession`. */
  datatype ChatSession = ChatSession(id: string, name: string, messages: seq<Message>, createdAt: int, lastUpdated: int)

  /** The model menu's ids. */
  const ModelIds: set<string> := {"gpt-4", "mistral", "ollama"}

  /** `models.find(m => m.id === id)?.name`: the display name of a known model. */
  function ModelName(id: string): (r: Option<string>)
    ensures r.None? <==> id !in ModelIds
    ensures r.Some? ==> |r.value| > 0
  {
    if id == "gpt-4" then Some("GPT-4")
    else if id == "mistral" then Some("Mistral")
    else if id == "ollama" then Some("Ollama")
    else None
  }

  /** The name as string concatenation writes it: a missing model reads "undefined". */
  function NameInText(id: string): (r: string)
    ensures ModelName(id).Some? ==> r == ModelName(id).value
    ensures ModelName(id).None? ==> r == "undefined"
  {
    match ModelName(id)
    case Some(n) => n
    case None => "undefined"
  }

  /** Which reply set a model draws from: an unknown model uses the GPT-4 set (0). */
  function ResponseSet(model: string): (k: nat)
    ensures k < 3
    ensures k == 0 <==> model != "mistral" && model != "ollama"
  {
    if model == "mistral" then 1 else if model == "ollama" then 2 else 0
  }

  function Response(k: nat, draw: nat): (s: string)
    requires k < 3 && draw < 3
    ensures |s| > 0
  {
    match k
    case 0 => (
      match draw
      case 0 => "Based on my comprehensive" + " analysis, this is a" + " multifaceted topic that" + " requires careful"
                + " consideration of various" + " interconnected factors. Let" + " me break this down"
                + " systematically for you..."
      case 1 => "I understand you're seeking" + " insights on this complex" + " matter. From a strategic"
                + " analytical perspective," + " there are several key" + " dimensions we should" + " explore..."
      case _ => "This is a fascinating" + " question that intersects" + " multiple domains of"
                + " knowledge. Allow me to" + " provide you with a" + " thorough, evidence-based" + " analysis...")
    case 1 => (
      match draw
      case 0 => "Here's a focused analysis of" + " your query. The key" + " considerations include"
                + " several important factors" + " that I'll outline" + " clearly..."
      case 1 => "I can help you with that" + " efficiently. Based on" + " current data patterns and"
                + " established frameworks..."
      case _ => "That's an excellent" + " question. Let me provide" + " you with a structured,"
                + " actionable response that" + " addresses your core" + " concerns...")
    case _ => (
      match draw
      case 0 => "Processing your request" + " using local inference" + " capabilities. Based on my"
                + " analysis of the available" + " information..."
      case 1 => "Using privacy-focused local" + " processing to analyze your" + " query. The results indicate"
                + " several important" + " insights..."
      case _ => "Local model analysis" + " complete. Here are the key" + " findings and"
                + " recommendations based on" + " your specific" + " requirements...")
  }

  /** The sentence every reply ends with, naming the model. */
  function Closing(name: string): string {
    " This demonstrates the" + " advanced capabilities of " + name
    + " in providing detailed," + " contextual responses to" + " complex research questions"
    + " and analytical challenges."
  }

  /** `generateMockResponse`: one of the model's three replies (`draw` is the scaled
      random pick), then the closing sentence naming the model. The user's words play
      no part. */
  function MockResponse(model: string, draw: nat): (r: string)
    requires draw < 3
    ensures |Response(ResponseSet(model), draw)| < |r|
    ensures r[..|Response(ResponseSet(model), draw)|] == Response(ResponseSet(model), draw)
    ensures |Closing(NameInText(model))| < |r|
    ensures r[|r| - |Closing(NameInText(model))|..] == Closing(NameInText(model))
    ensures |r| == |Response(ResponseSet(model), draw)| + |Closing(NameInText(model))|
  {
    var base, closing := Response(ResponseSet(model), draw), Closing(NameInText(model));
    assert (base + closing)[..|base|] == base;
    assert (base + closing)[|base|..] == closing;
    base + closing
  }

  /** A model the menu does not list answers with the GPT-4 texts, and its closing
      sentence names "undefined". */
  lemma UnknownModelFallsBack(model: string, draw: nat)
    requires draw < 3 && model !in ModelIds
    ensures MockResponse(model, draw)[..|Response(0, draw)|] == MockResponse("gpt-4", draw)[..|Response(0, draw)|]
    ensures NameInText(model) == "undefined"
  {
    assert ResponseSet(model) == 0 && ResponseSet("gpt-4") == 0;
  }

  /** The speaker of an exported message: "You", or the model's name, or "Assistant"
      for a reply whose model is not listed. */
  function SpeakerName(m: Message): (r: string)
    ensures m.sender == User ==> r == "You"
    ensures m.sender == Assistant && m.model.Some? && ModelName(m.model.value).Some? ==> r == ModelName(m.model.value).value
    ensures m.sender == Assistant && (m.model.None? || ModelName(m.model.value).None?) ==> r == "Assistant"
  {
    if m.sender == User then "You"
    else if m.model.Some? && ModelName(m.model.value).Some? then ModelName(m.model.value).value
    else "Assistant"
  }

  /** One exported message: the speaker in bold, the text, a blank line. */
  function Block(m: Message): string {
    "**" + SpeakerName(m) + "**: " + m.content + "\n\n"
  }

  function Blocks(ms: seq<Message>): (r: seq<string>)
    ensures |r| == |ms|
    ensures forall i :: 0 <= i < |ms| ==> r[i] == Block(ms[i])
  {
    seq(|ms|, i requires 0 <= i < |ms| => Block(ms[i]))
  }

  /** `exportChat`: nothing for an empty conversation, otherwise the blocks of all
      messages, joined with nothing between them. */
  function ExportText(ms: seq<Message>): (r: Option<string>)
    ensures r.None? <==> |ms| == 0
  {
    if |ms| == 0 then None else Some(Join(Blocks(ms), ""))
  }

  /** The export of one message is its block. */
  lemma ExportOne(m: Message)
    ensures ExportText([m]) == Some(Block(m))
  {
  }

  /** Exporting a longer conversation adds the new message's block at the end, so the
      export holds one block per message, in order. */
  lemma ExportSnoc(ms: seq<Message>, m: Message)
    requires |ms| > 0
    ensures ExportText(ms + [m]) == Some(ExportText(ms).value + Block(m))
  {
    assert Blocks(ms + [m]) == Blocks(ms) + [Block(m)];
    JoinSnoc(Blocks(ms), Block(m), "");
    assert Join(Blocks(ms), "") + "" == Join(Blocks(ms), "");
  }

  /** The sessions after `updateCurrentSession`: the session with the current id gets
      the messages and the time; every other session is kept as it was. */
  function WithMessages(sessions: seq<ChatSession>, id: string, ms: seq<Message>, now: int): (r: seq<ChatSession>)
    ensures |r| == |sessions|
    ensures forall i :: 0 <= i < |r| && sessions[i].id != id ==> r[i] == sessions[i]
    ensures forall i :: 0 <= i < |r| && sessions[i].id == id ==>
              r[i] == ChatSession(id, sessions[i].name, ms, sessions[i].createdAt, now)
  {
    seq(|sessions|, i requires 0 <= i < |sessions| =>
      if sessions[i].id == id then sessions[i].(messages := ms, lastUpdated := now) else sessions[i])
  }

  /** Updating never adds, removes or renames a session. */
  lemma WithMessagesKeepsSessions(sessions: seq<ChatSession>, id: string, ms: seq<Message>, now: int)
    ensures forall i :: 0 <= i < |sessions| ==>
              WithMessages(sessions, id, ms, now)[i].id == sessions[i].id &&
              WithMessages(sessions, id, ms, now)[i].name == sessions[i].name
  {
  }

  /** `deleteSession`'s filter: exactly the sessions with another id stay, in order. */
  function WithoutSession(sessions: seq<ChatSession>, id: string): (r: seq<ChatSession>)
    ensures forall s :: s in r <==> s in sessions && s.id != id
    ensures IsSubsequence(r, sessions)
  {
    var keep := (s: ChatSession) => s.id != id;
    forall s ensures s in Filter(sessions, keep) <==> s in sessions && keep(s) {
      FilterMembership(sessions, keep, s);
    }
    FilterIsSubsequence(sessions, keep);
    Filter(sessions, keep)
  }

  class ChatPage {
    var messages: seq<Message>
    var inputMessage: string
    var isTyping: bool
    var selectedModel: string
    var chatSessions: seq<ChatSession>
    var currentSessionId: Option<string>

    /** The page as mounted; `saved` is the session list found in local storage. */
    constructor(saved: Option<seq<ChatSession>>)
      ensures messages == [] && inputMessage == "" && !isTyping && selectedModel == "gpt-4"
      ensures chatSessions == (if saved.Some? then saved.value else []) && currentSessionId == None
    {
      messages := [];
      inputMessage := "";
      isTyping := false;
      selectedModel := "gpt-4";
      chatSessions := if saved.Some? then saved.value else [];
      currentSessionId := None;
    }

    method SetInput(text: string)
      modifies this
      ensures inputMessage == text
      ensures messages == old(messages) && isTyping == old(isTyping) && selectedModel == old(selectedModel)
      ensures chatSessions == old(chatSessions) && currentSessionId == old(currentSessionId)
    {
      inputMessage := text;
    }

    method SelectModel(model: string)
      modifies this
      ensures selectedModel == model
      ensures messages == old(messages) && inputMessage == old(inputMessage) && isTyping == old(isTyping)
      ensures chatSessions == old(chatSessions) && currentSessionId == old(currentSessionId)
    {
      selectedModel := model;
    }

    /** `handleSendMessage`, up to the reply: blank input is ignored; otherwise the
        input becomes a user message at the end, the box is cleared and the model
        starts typing. `now` is the clock. */
    method SendMessage(now: nat)
      modifies this
      ensures IsBlank(old(inputMessage)) ==>
                messages == old(messages) && inputMessage == old(inputMessage) && isTyping == old(isTyping)
      ensures !IsBlank(old(inputMessage)) ==>
                messages == old(messages) + [Message(NatToString(now), User, old(inputMessage), now, None)]
                && inputMessage == "" && isTyping
      ensures selectedModel == old(selectedModel)
      ensures chatSessions == old(chatSessions) && currentSessionId == old(currentSessionId)
    {
      if IsBlank(inputMessage) {
        return;
      }
      messages := messages + [Message(NatToString(now), User, inputMessage, now, None)];
      inputMessage := "";
      isTyping := true;
    }

    /** The timer of `handleSendMessage`: one reply from the selected model at the end,
        typing stops, and the conversation is saved into the current session if there
        is one. `draw` is the scaled random pick of the reply. */
    method DeliverReply(now: nat, draw: nat)
      requires draw < 3
      modifies this
      ensures messages == old(messages) +
                [Message(NatToString(now + 1), Assistant, MockResponse(old(selectedModel), draw), now, Some(old(selectedModel)))]
      ensures !isTyping
      ensures !Truthy(old(currentSessionId)) ==> chatSessions == old(chatSessions)
      ensures Truthy(old(currentSessionId)) ==>
                chatSessions == WithMessages(old(chatSessions), old(currentSessionId).value, messages, now)
      ensures inputMessage == old(inputMessage) && selectedModel == old(selectedModel)
      ensures currentSessionId == old(currentSessionId)
    {
      var reply := Message(NatToString(now + 1), Assistant, MockResponse(selectedModel, draw), now, Some(selectedModel));
      messages := messages + [reply];
      isTyping := false;
      if Truthy(currentSessionId) {
        UpdateCurrentSession(messages, now);
      }
    }

    /** `createNewSession`: an empty session named after the new count joins the list,
        becomes current, and the conversation on screen is cleared. */
    method CreateNewSession(now: nat)
      modifies this
      ensures chatSessions == old(chatSessions) +
                [ChatSession(NatToString(now), "Chat " + NatToString(|old(chatSessions)| + 1), [], now, now)]
      ensures currentSessionId == Some(NatToString(now)) && messages == []
      ensures inputMessage == old(inputMessage) && isTyping == old(isTyping) && selectedModel == old(selectedModel)
    {
      var session := ChatSession(NatToString(now), "Chat " + NatToString(|chatSessions| + 1), [], now, now);
      chatSessions := chatSessions + [session];
      currentSessionId := Some(session.id);
      messages := [];
    }

    /** `loadSession`: an unknown id changes nothing; otherwise the first session with
        that id becomes current and its messages are shown. */
    method LoadSession(id: string)
      modifies this
      ensures (forall i :: 0 <= i < |chatSessions| ==> chatSessions[i].id != id) ==>
                messages == old(messages) && currentSessionId == old(currentSessionId)
      ensures (exists i :: 0 <= i < |chatSessions| && chatSessions[i].id == id) ==>
                currentSessionId == Some(id) &&
                exists i :: 0 <= i < |chatSessions| && chatSessions[i].id == id && messages == chatSessions[i].messages &&
                            forall j :: 0 <= j < i ==> chatSessions[j].id != id
      ensures chatSessions == old(chatSessions)
      ensures inputMessage == old(inputMessage) && isTyping == old(isTyping) && selectedModel == old(selectedModel)
    {
      var found := FirstWhere(chatSessions, (s: ChatSession) => s.id == id);
      if found.Some? {
        currentSessionId := Some(id);
        messages := found.value.messages;
      }
    }

    /** `updateCurrentSession`: nothing without a current session (an empty id counts
        as none); otherwise only the current session takes the messages. */
    method UpdateCurrentSession(newMessages: seq<Message>, now: int)
      modifies this
      ensures !Truthy(currentSessionId) ==> chatSessions == old(chatSessions)
      ensures Truthy(currentSessionId) ==>
                chatSessions == WithMessages(old(chatSessions), currentSessionId.value, newMessages, now)
      ensures messages == old(messages) && currentSessionId == old(currentSessionId)
      ensures inputMessage == old(inputMessage) && isTyping == old(isTyping) && selectedModel == old(selectedModel)
    {
      if !Truthy(currentSessionId) {
        return;
      }
      chatSessions := WithMessages(chatSessions, currentSessionId.value, newMessages, now);
    }

    /** `deleteSession`: every session with the id goes; deleting the current session
        leaves none current and clears the conversation. */
    method DeleteSession(id: string)
      modifies this
      ensures chatSessions == WithoutSession(old(chatSessions), id)
      ensures old(currentSessionId) == Some(id) ==> currentSessionId == None && messages == []
      ensures old(currentSessionId) != Some(id) ==>
                currentSessionId == old(currentSessionId) && messages == old(messages)
      ensures inputMessage == old(inputMessage) && isTyping == old(isTyping) && selectedModel == old(selectedModel)
    {
      chatSessions := WithoutSession(chatSessions, id);
      if currentSessionId == Some(id) {
        currentSessionId := None;
        messages := [];
      }
    }

    /** `clearChat`: the conversation is emptied, in the current session too. */
    method ClearChat(now: int)
      modifies this
      ensures messages == []
      ensures !Truthy(old(currentSessionId)) ==> chatSessions == old(chatSessions)
      ensures Truthy(old(currentSessionId)) ==>
                chatSessions == WithMessages(old(chatSessions), old(currentSessionId).value, [], now)
      ensures currentSessionId == old(currentSessionId)
      ensures inputMessage == old(inputMessage) && isTyping == old(isTyping) && selectedModel == old(selectedModel)
    {
      messages := [];
      if Truthy(currentSessionId) {
        UpdateCurrentSession([], now);
      }
    }
  }
}
