/**
 * The application controller of src/App.tsx. The component's React state
 * (`conversations` and `currentConversation`) becomes the fields of a
 * `Controller`; the store it reads and writes is a `Storage.Store`.
 */
module App {
  import opened Wrappers
  import opened Types
  import opened Records
  import opened Storage
  import opened Chat

  /** The three prompts seeded on first run: general chat, image analysis, translation. */
  const GeneralChatName: string := "일반 대화"
  const GeneralChatContent: string := "친근하고 도움이 되는 AI 어시스턴트로서 사용자의 질문에 답변해주세요."
  const ImageAnalysisName: string := "이미지 분석"
  const ImageAnalysisContent: string :=
    "업로드된 이미지를 자세히 분석하고 설명해주세요. 이미지에서 보이는 객체, 색상, 구성, 분위기 등을 포함해서 설명해주세요."
  const TranslationName: string := "번역"
  const TranslationContent: string := "제공된 텍스트를 한국어로 번역해주세요. 자연스럽고 정확한 번역을 제공해주세요."

  /** The seeded prompt list, in the order the prompts are added, with ids `a`, `b`, `c`. */
  function DefaultPrompts(a: string, b: string, c: string, now: int): (r: seq<Prompt>)
    ensures |r| == 3 && r[0].id == a && r[1].id == b && r[2].id == c
    ensures r[0].name == GeneralChatName && r[1].name == ImageAnalysisName && r[2].name == TranslationName
    ensures forall i :: 0 <= i < |r| ==> r[i].createdAt == now && r[i].updatedAt == now
    ensures a != b && b != c && a != c ==> UniqueKeys(r, PromptKey)
  {
    [Prompt(a, GeneralChatName, GeneralChatContent, now, now),
     Prompt(b, ImageAnalysisName, ImageAnalysisContent, now, now),
     Prompt(c, TranslationName, TranslationContent, now, now)]
  }

  /** Which of the three start-up branches chooses the active conversation. */
  datatype Resolution =
    | FromCurrentId(active: Conversation)
    | FromFirst(active: Conversation)
    | CreateNew

  /**
   * The active conversation at start-up: the first stored conversation the current
   * id names; otherwise the first stored conversation; otherwise a new one.
   */
  function Resolve(stored: seq<Conversation>, selected: Option<string>): (r: Resolution)
    ensures r.FromCurrentId? <==> selected.Some? && HasKey(stored, ConversationKey, selected.value)
    ensures r.FromCurrentId? ==>
      (exists k :: 0 <= k < |stored| && stored[k] == r.active &&
         r.active.id == selected.value && forall j :: 0 <= j < k ==> stored[j].id != selected.value)
    ensures r.FromFirst? <==> !(selected.Some? && HasKey(stored, ConversationKey, selected.value)) && |stored| > 0
    ensures r.FromFirst? ==> r.active == stored[0]
    ensures r.CreateNew? <==> |stored| == 0
  {
    var found := if selected.Some? then FindIndex(stored, ConversationKey, selected.value) else None;
    if found.Some? then FromCurrentId(stored[found.value])
    else if |stored| > 0 then FromFirst(stored[0])
    else CreateNew
  }

  class Controller {
    const store: Store
    var conversations: seq<Conversation>
    var current: Option<Conversation>

    /** The component's initial state: no conversations loaded, none active. */
    constructor (store: Store)
      ensures this.store == store && conversations == [] && current == None
    {
      this.store := store;
      conversations, current := [], None;
    }

    /** The seeding half of `initializeApp`: the three defaults, added only to an empty list. */
    method SeedDefaultPrompts(a: string, b: string, c: string, now: int)
      requires a != b && a != c && b != c
      modifies store`prompts
      ensures old(store.PromptList()) == [] ==> store.prompts == Present(DefaultPrompts(a, b, c, now))
      ensures old(store.PromptList()) != [] ==> store.prompts == old(store.prompts)
    {
      var existing := store.GetPrompts();
      if |existing| == 0 {
        var general := store.AddPrompt(GeneralChatName, GeneralChatContent, a, now);
        var image := store.AddPrompt(ImageAnalysisName, ImageAnalysisContent, b, now);
        var translation := store.AddPrompt(TranslationName, TranslationContent, c, now);
        assert store.PromptList() == [general, image, translation];
      }
    }

    /**
     * `initializeApp`: seeds the three default prompts when no prompt is stored, then
     * loads the conversations and resolves the active one. Only the third branch writes
     * to the conversation record or the current id; the second leaves a dangling id
     * as it is.
     */
    method InitializeApp(a: string, b: string, c: string, newId: string, now: int)
      requires a != b && a != c && b != c
      modifies this, store
      ensures old(store.PromptList()) == [] ==> store.prompts == Present(DefaultPrompts(a, b, c, now))
      ensures old(store.PromptList()) != [] ==> store.prompts == old(store.prompts)
      ensures var r := Resolve(old(store.ConversationList()), old(store.currentId));
        if r.CreateNew? then
          var n := Conversation(newId, DefaultTitle(0), [], now, now);
          conversations == [n] && current == Some(n) &&
          store.conversations == Present([n]) && store.currentId == Some(newId)
        else
          conversations == old(store.ConversationList()) && current == Some(r.active) &&
          store.conversations == old(store.conversations) && store.currentId == old(store.currentId)
    {
      SeedDefaultPrompts(a, b, c, now);
      var stored := store.GetConversations();
      conversations := stored;
      var currentId := store.GetCurrentConversationId();
      var found: Option<Conversation> := None;
      if currentId.Some? {
        var index := FindIndex(stored, ConversationKey, currentId.value);
        if index.Some? {
          found := Some(stored[index.value]);
        }
      }
      if found.Some? {
        current := found;
      } else if |stored| > 0 {
        current := Some(stored[0]);
      } else {
        var created := store.CreateNewConversation(newId, now);
        assert [created] + stored == [created];
        conversations := [created];
        current := Some(created);
      }
    }

    /**
     * The body of `handleSendMessage` with the state it closes over made explicit:
     * `captured` and `capturedList` are the `currentConversation` and `conversations`
     * of the render that created the handler. Without an active conversation nothing
     * happens; otherwise the appended conversation becomes active, replaces its entry in
     * the in-memory list and is written through under the same id.
     */
    method SendFrom(
      captured: Option<Conversation>, capturedList: seq<Conversation>,
      data: MessageData, id: string, now: int)
      modifies this, store
      ensures captured.None? ==>
        conversations == old(conversations) && current == old(current) && unchanged(store)
      ensures captured.Some? ==>
        var u := AppendMessage(captured.value, data, id, now);
        current == Some(u) &&
        conversations == ReplaceKey(capturedList, ConversationKey, captured.value.id, u) &&
        store.conversations ==
          ConversationsAfterUpdate(old(store.conversations), captured.value.id, FullPatch(u), now) &&
        store.prompts == old(store.prompts) && store.currentId == old(store.currentId)
      ensures captured.Some? && HasKey(old(store.ConversationList()), ConversationKey, captured.value.id) ==>
        var k := FindIndex(old(store.ConversationList()), ConversationKey, captured.value.id).value;
        store.ConversationList() == old(store.ConversationList())[k := current.value]
    {
      if captured.None? {
        return;
      }
      var conv := captured.value;
      var updated := AppendMessage(conv, data, id, now);
      current := Some(updated);
      conversations := ReplaceKey(capturedList, ConversationKey, conv.id, updated);
      store.UpdateConversation(conv.id, FullPatch(updated), now);
      var index := FindIndex(old(store.ConversationList()), ConversationKey, conv.id);
      if index.Some? {
        MergeFullPatch(old(store.ConversationList())[index.value], updated, now);
      }
    }

    /** `handleSendMessage` called from the current render: it sees the live state. */
    method HandleSendMessage(data: MessageData, id: string, now: int)
      modifies this, store
      ensures old(current).None? ==>
        conversations == old(conversations) && current == old(current) && unchanged(store)
      ensures old(current).Some? ==>
        var u := AppendMessage(old(current).value, data, id, now);
        current == Some(u) &&
        conversations == ReplaceKey(old(conversations), ConversationKey, u.id, u) &&
        store.conversations == ConversationsAfterUpdate(old(store.conversations), u.id, FullPatch(u), now) &&
        store.prompts == old(store.prompts) && store.currentId == old(store.currentId)
      ensures old(current).Some? && HasKey(old(store.ConversationList()), ConversationKey, old(current).value.id) ==>
        var k := FindIndex(old(store.ConversationList()), ConversationKey, old(current).value.id).value;
        store.ConversationList() == old(store.ConversationList())[k := current.value]
    {
      SendFrom(current, conversations, data, id, now);
    }
  }

  /**
   * First start on an empty store: exactly the three default prompts, in order, and
   * exactly one conversation, which is empty, titled "대화 1", active and current.
   */
  method FreshStartScenario(a: string, b: string, c: string, newId: string, now: int)
    returns (prompts: seq<Prompt>, stored: seq<Conversation>, selected: Option<string>, active: Option<Conversation>)
    requires a != b && a != c && b != c
    ensures |prompts| == 3
    ensures [prompts[0].name, prompts[1].name, prompts[2].name] == ["일반 대화", "이미지 분석", "번역"]
    ensures |stored| == 1 && active == Some(stored[0]) && selected == Some(stored[0].id)
    ensures stored[0].id == newId && stored[0].messages == [] && stored[0].title == "대화 1"
  {
    var store := new Store();
    var app := new Controller(store);
    app.InitializeApp(a, b, c, newId, now);
    assert Decimal.NatToString(1) == "1";
    prompts, stored, selected, active := store.PromptList(), store.ConversationList(), store.currentId, app.current;
  }

  /**
   * The two writes of a captured-closure turn: the question's result and then the
   * reply's result, each built from `captured`, are written under the same id, and
   * the stored list is left holding `StaleExchange`, the reply's result alone.
   */
  lemma StaleWritesLeaveReply(captured: Conversation, question: Outgoing, answer: Outgoing)
    ensures
      var first := AppendMessage(captured, question.data, question.id, question.at);
      var second := AppendMessage(captured, answer.data, answer.id, answer.at);
      ConversationsAfterUpdate(
        ConversationsAfterUpdate(Present([captured]), captured.id, FullPatch(first), question.at),
        captured.id, FullPatch(second), answer.at)
      == Present([StaleExchange(captured, question, answer)])
  {
    var first := AppendMessage(captured, question.data, question.id, question.at);
    var second := AppendMessage(captured, answer.data, answer.id, answer.at);
    assert FindIndex([captured], ConversationKey, captured.id) == Some(0);
    assert [captured][0 := first] == [first];
    MergeFullPatch(captured, first, question.at);
    assert first.id == captured.id && first.updatedAt == question.at;
    var afterFirst := ConversationsAfterUpdate(Present([captured]), captured.id, FullPatch(first), question.at);
    assert afterFirst == Present([first]);
    assert FindIndex([first], ConversationKey, captured.id) == Some(0);
    assert [first][0 := second] == [second];
    MergeFullPatch(first, second, answer.at);
    assert second.updatedAt == answer.at;
  }

  /** The user's message as the chat screen sends it, with the selected prompt's name. */
  function Question(text: string, promptName: string): (d: MessageData)
    ensures d.content == text && d.kind == Text && d.promptUsed == Some(promptName) && d.imageUrl.None?
    ensures d.sender == User && forall conv: Conversation :: RenamesOnAppend(conv, d) <==> conv.messages == []
  {
    MessageData(text, Text, User, Some(promptName), None)
  }

  /** The assistant's reply, or the error message in its place, as the chat screen sends it. */
  function Reply(text: string): (d: MessageData)
    ensures d.content == text && d.kind == Text && d.promptUsed.None? && d.imageUrl.None?
    ensures d.sender == Assistant && forall conv: Conversation :: !RenamesOnAppend(conv, d)
  {
    MessageData(text, Text, Assistant, None, None)
  }

  /** The text the chat screen falls back to when a failed reply carries no error text. */
  const DefaultErrorText: string := "오류가 발생했습니다."

  /** The content of the assistant message for a reply: `response.error || DefaultErrorText` on failure. */
  function ReplyText(success: bool, data: Option<string>, error: Option<string>): (t: string)
    ensures success && data.Some? && data.value != "" ==> t == data.value
    ensures !(success && data.Some? && data.value != "") && error.Some? && error.value != "" ==> t == error.value
    ensures !(success && data.Some? && data.value != "") && (error.None? || error.value == "") ==>
      t == DefaultErrorText
    ensures t != ""
  {
    if success && data.Some? && data.value != "" then data.value
    else if error.Some? && error.value != "" then error.value
    else DefaultErrorText
  }

  /**
   * A first chat turn through one captured handler, as the chat screen does it: the
   * stored conversation ends up holding the reply alone, under its default title.
   */
  method StaleTurnScenario(
    a: string, b: string, c: string, newId: string, q: string, r: string,
    text: string, answer: string, t0: int, t1: int, t2: int)
    returns (stored: seq<Conversation>)
    requires a != b && a != c && b != c
    ensures |stored| == 1 && stored[0].messages == [ToMessage(Reply(answer), r, t2)]
    ensures stored[0].title == "대화 1"
  {
    var store := new Store();
    var app := new Controller(store);
    app.InitializeApp(a, b, c, newId, t0);
    var capturedConversation, capturedList := app.current, app.conversations;
    app.SendFrom(capturedConversation, capturedList, Question(text, GeneralChatName), q, t1);
    app.SendFrom(capturedConversation, capturedList, Reply(answer), r, t2);
    assert Decimal.NatToString(1) == "1";
    stored := store.ConversationList();
  }

  /**
   * The same turn with each call seeing the state the previous one left: both
   * messages are stored, in order, and the question titles the conversation.
   */
  method LiveTurnScenario(
    a: string, b: string, c: string, newId: string, q: string, r: string,
    text: string, answer: string, t0: int, t1: int, t2: int)
    returns (stored: seq<Conversation>)
    requires a != b && a != c && b != c
    ensures |stored| == 1
    ensures stored[0].messages == [ToMessage(Question(text, GeneralChatName), q, t1), ToMessage(Reply(answer), r, t2)]
    ensures stored[0].title == DerivedTitle(text)
  {
    var store := new Store();
    var app := new Controller(store);
    app.InitializeApp(a, b, c, newId, t0);
    app.HandleSendMessage(Question(text, GeneralChatName), q, t1);
    app.HandleSendMessage(Reply(answer), r, t2);
    stored := store.ConversationList();
  }
}
