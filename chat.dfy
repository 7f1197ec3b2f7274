/**
 * The pure part of `handleSendMessage` in src/App.tsx: building the new message,
 * appending it to a conversation and deriving the title from the first user
 * message. The conversation is an explicit argument, which is how the React
 * closure sees it: the value captured when the handler was created.
 */
module Chat {
  import opened Wrappers
  import opened Types

  /** How many characters of the first user message become the title. */
  const TitleLength: nat := 30

  /** Appended to a title cut from a longer message. */
  const Ellipsis: string := "..."

  function Min(a: int, b: int): int {
    if a <= b then a else b
  }

  function Max(a: int, b: int): int {
    if a <= b then b else a
  }

  /** JavaScript's `s.substring(start, end)`: both bounds clamped into [0, |s|] and put in order. */
  function Substring(s: string, start: int, end: int): (r: string)
    ensures |r| <= |s|
    ensures 0 <= start <= end ==> r == s[Min(start, |s|)..Min(end, |s|)]
  {
    var a, b := Min(Max(start, 0), |s|), Min(Max(end, 0), |s|);
    if a <= b then s[a..b] else s[b..a]
  }

  /** `content.substring(0, 30) + (content.length > 30 ? '...' : '')`. */
  function DerivedTitle(content: string): (t: string)
    ensures |content| <= TitleLength ==> t == content
    ensures |content| > TitleLength ==> t == content[..TitleLength] + Ellipsis
    ensures |t| == Min(|content|, TitleLength) + (if |content| > TitleLength then |Ellipsis| else 0)
  {
    Substring(content, 0, TitleLength) + (if |content| > TitleLength then Ellipsis else "")
  }

  /** The message `handleSendMessage` builds from `data`, the fresh id `id` and the time `now`. */
  function ToMessage(data: MessageData, id: string, now: int): (m: Message)
    ensures m.id == id && m.timestamp == now
    ensures MessageData(m.content, m.kind, m.sender, m.promptUsed, m.imageUrl) == data
  {
    Message(id, data.content, data.kind, data.sender, now, data.promptUsed, data.imageUrl)
  }

  /** Whether appending `data` to `conv` derives a new title: first message, sent by the user. */
  predicate RenamesOnAppend(conv: Conversation, data: MessageData) {
    |conv.messages| == 0 && data.sender == User
  }

  /**
   * The updated conversation of `handleSendMessage`: `conv` with one more message and
   * `updatedAt` refreshed, retitled only when `RenamesOnAppend` holds.
   */
  function AppendMessage(conv: Conversation, data: MessageData, id: string, now: int)
    : (r: Conversation)
    ensures r.id == conv.id && r.createdAt == conv.createdAt && r.updatedAt == now
    ensures r.messages == conv.messages + [ToMessage(data, id, now)]
    ensures r.title == if RenamesOnAppend(conv, data) then DerivedTitle(data.content) else conv.title
  {
    var appended := conv.(messages := conv.messages + [ToMessage(data, id, now)], updatedAt := now);
    if RenamesOnAppend(conv, data) then appended.(title := DerivedTitle(data.content)) else appended
  }

  /** One call of the send handler: what is sent, with its injected id and time. */
  datatype Outgoing = Outgoing(data: MessageData, id: string, at: int)

  function Sent(out: seq<Outgoing>): (ms: seq<Message>)
    ensures |ms| == |out|
    ensures forall i :: 0 <= i < |out| ==> ms[i] == ToMessage(out[i].data, out[i].id, out[i].at)
    decreases |out|
  {
    if |out| == 0 then [] else [ToMessage(out[0].data, out[0].id, out[0].at)] + Sent(out[1..])
  }

  /** The title a conversation has after a series of appends: set by the first message at most. */
  function TitleAfter(conv: Conversation, out: seq<Outgoing>): string {
    if |conv.messages| == 0 && |out| > 0 && out[0].data.sender == User
    then DerivedTitle(out[0].data.content)
    else conv.title
  }

  /**
   * Calls of the handler one after another, each seeing the conversation the previous
   * call produced: the messages accumulate in order, and the title is decided by the
   * very first message alone.
   */
  function AppendAll(conv: Conversation, out: seq<Outgoing>): (r: Conversation)
    ensures r.id == conv.id && r.createdAt == conv.createdAt
    ensures r.messages == conv.messages + Sent(out)
    ensures r.title == TitleAfter(conv, out)
    ensures |out| > 0 ==> r.updatedAt == out[|out| - 1].at
    ensures |out| == 0 ==> r == conv
    decreases |out|
  {
    if |out| == 0 then conv
    else
      var next := AppendMessage(conv, out[0].data, out[0].id, out[0].at);
      SentStep(conv, out);
      assert |out| > 1 ==> out[1..][|out[1..]| - 1] == out[|out| - 1];
      AppendAll(next, out[1..])
  }

  /** One step of `AppendAll`: the messages still to send follow the first one. */
  lemma SentStep(conv: Conversation, out: seq<Outgoing>)
    requires |out| > 0
    ensures conv.messages + Sent(out)
      == (conv.messages + [ToMessage(out[0].data, out[0].id, out[0].at)]) + Sent(out[1..])
  {
  }

  /** Appending never rewrites history and never retitles a conversation that has messages. */
  lemma AppendAllKeepsHistory(conv: Conversation, out: seq<Outgoing>, k: nat)
    requires k <= |out|
    ensures AppendAll(conv, out).messages[..|conv.messages| + k]
      == AppendAll(conv, out[..k]).messages
    ensures |conv.messages| > 0 ==> AppendAll(conv, out).title == conv.title
  {
  }

  /** A 45-character first user message gives its first 30 characters and an ellipsis. */
  lemma LongFirstMessageTitle(conv: Conversation, data: MessageData, id: string, now: int)
    requires conv.messages == [] && data.sender == User && |data.content| == 45
    ensures AppendMessage(conv, data, id, now).title == data.content[..30] + "..."
    ensures |AppendMessage(conv, data, id, now).title| == 33
  {
  }

  /** A 20-character first user message becomes the title as it is. */
  lemma ShortFirstMessageTitle(conv: Conversation, data: MessageData, id: string, now: int)
    requires conv.messages == [] && data.sender == User && |data.content| == 20
    ensures AppendMessage(conv, data, id, now).title == data.content
  {
  }

  /**
   * One chat turn as the chat screen runs it: the user's message and the reply both go
   * through the handler created before the user's message was added, so each is appended
   * to the same captured conversation; both results are written under the same id and
   * the reply's, written last, is what remains.
   */
  function StaleExchange(captured: Conversation, question: Outgoing, answer: Outgoing)
    : (r: Conversation)
    ensures r.id == captured.id && r.createdAt == captured.createdAt && r.updatedAt == answer.at
    ensures r.messages == captured.messages + [ToMessage(answer.data, answer.id, answer.at)]
  {
    AppendMessage(captured, answer.data, answer.id, answer.at)
  }

  /**
   * In the captured-closure turn the user's message is lost: the result holds the
   * captured messages and the reply only, and on a first turn the title derived from the
   * user's message is replaced by the old one again.
   */
  lemma StaleExchangeLosesQuestion(captured: Conversation, question: Outgoing, answer: Outgoing)
    requires question.data.sender == User && answer.data.sender == Assistant
    requires forall m :: m in captured.messages ==> m.id != question.id
    ensures StaleExchange(captured, question, answer).messages
      == captured.messages + [ToMessage(answer.data, answer.id, answer.at)]
    ensures ToMessage(question.data, question.id, question.at)
      !in StaleExchange(captured, question, answer).messages
    ensures StaleExchange(captured, question, answer).title == captured.title
  {
  }

  /** The turn as intended: the reply is appended to the conversation holding the question. */
  function Exchange(captured: Conversation, question: Outgoing, answer: Outgoing): Conversation {
    AppendAll(captured, [question, answer])
  }

  /** Two live calls of the handler, the second seeing the first's result, are `Exchange`. */
  lemma LiveCallsAreExchange(captured: Conversation, question: Outgoing, answer: Outgoing)
    ensures
      var first := AppendMessage(captured, question.data, question.id, question.at);
      AppendMessage(first, answer.data, answer.id, answer.at) == Exchange(captured, question, answer)
  {
    var first := AppendMessage(captured, question.data, question.id, question.at);
    assert [question, answer][1..] == [answer];
    assert [answer][1..] == [];
    assert AppendAll(captured, [question, answer]) == AppendAll(first, [answer]);
    assert AppendAll(first, [answer])
      == AppendAll(AppendMessage(first, answer.data, answer.id, answer.at), []);
  }

  /**
   * In the intended turn both messages are kept, question first, and a first user
   * message titles the conversation.
   */
  lemma ExchangeKeepsBoth(captured: Conversation, question: Outgoing, answer: Outgoing)
    requires question.data.sender == User
    ensures Exchange(captured, question, answer).messages
      == captured.messages + [ToMessage(question.data, question.id, question.at),
                              ToMessage(answer.data, answer.id, answer.at)]
    ensures captured.messages == [] ==>
      Exchange(captured, question, answer).title == DerivedTitle(question.data.content)
  {
    assert Sent([question, answer]) == [ToMessage(question.data, question.id, question.at),
                                        ToMessage(answer.data, answer.id, answer.at)];
  }
}
