/**
 * The persistence layer of src/utils/storage.ts: three localStorage records
 * (the prompt list under `gpt-prompts`, the conversation list under
 * `gpt-conversations`, the current-conversation id under
 * `current-conversation-id`) and the exported operations on them. Every
 * operation reads a whole list, changes it and writes it back. Fresh ids
 * (`crypto.randomUUID()`) and clock readings (`new Date()`) are parameters.
 */
module Storage {
  import opened Wrappers
  import opened Types
  import opened Records
  import Decimal

  /** What a list key holds: nothing, text that `JSON.parse` rejects, or a parsed list. */
  datatype Slot<T> = Absent | Unreadable | Present(value: T)

  /** The list a read yields: a missing or unparsable record reads as the empty list. */
  function Load<T>(slot: Slot<seq<T>>): (r: seq<T>)
    ensures slot.Present? ==> r == slot.value
    ensures |r| > 0 ==> slot.Present?
  {
    match slot
    case Present(v) => v
    case _ => []
  }

  /** The prefix of every default conversation title ("대화 " means "conversation "). */
  const TitlePrefix: string := "대화 "

  /** The title `createNewConversation` gives when `count` conversations are stored. */
  function DefaultTitle(count: nat): (r: string)
    ensures |r| > |TitlePrefix| && r[..|TitlePrefix|] == TitlePrefix
    ensures forall i :: |TitlePrefix| <= i < |r| ==> Decimal.IsDigit(r[i])
    ensures Decimal.DigitsValue(r[|TitlePrefix|..]) == count + 1
    ensures |r| > |TitlePrefix| + 1 ==> r[|TitlePrefix|] != '0'
  {
    var numeral := Decimal.NatToString(count + 1);
    Decimal.NatToStringRoundTrip(count + 1);
    assert (TitlePrefix + numeral)[|TitlePrefix|..] == numeral;
    TitlePrefix + numeral
  }

  /** Default titles are equal exactly when they come from equal counts. */
  lemma DefaultTitleInjective(m: nat, n: nat)
    ensures DefaultTitle(m) == DefaultTitle(n) <==> m == n
  {
    if DefaultTitle(m) == DefaultTitle(n) {
      assert Decimal.NatToString(m + 1) == DefaultTitle(m)[|TitlePrefix|..];
      assert Decimal.NatToString(n + 1) == DefaultTitle(n)[|TitlePrefix|..];
      Decimal.NatToStringInjective(m + 1, n + 1);
    }
  }

  /** `{...p, ...patch, updatedAt: now}` for a prompt. */
  function MergePrompt(p: Prompt, patch: PromptPatch, now: int): (r: Prompt)
    ensures r.id == p.id && r.createdAt == p.createdAt && r.updatedAt == now
    ensures r.name == (if patch.name.Some? then patch.name.value else p.name)
    ensures r.content == (if patch.content.Some? then patch.content.value else p.content)
  {
    p.(name := patch.name.GetOr(p.name), content := patch.content.GetOr(p.content), updatedAt := now)
  }

  /** `{...c, ...patch, updatedAt: now}` for a conversation: a patched `updatedAt` is overridden. */
  function MergeConversation(c: Conversation, patch: ConversationPatch, now: int): (r: Conversation)
    ensures r.updatedAt == now
    ensures r.id == (if patch.id.Some? then patch.id.value else c.id)
    ensures r.title == (if patch.title.Some? then patch.title.value else c.title)
    ensures r.messages == (if patch.messages.Some? then patch.messages.value else c.messages)
    ensures r.createdAt == (if patch.createdAt.Some? then patch.createdAt.value else c.createdAt)
  {
    Conversation(
      patch.id.GetOr(c.id),
      patch.title.GetOr(c.title),
      patch.messages.GetOr(c.messages),
      patch.createdAt.GetOr(c.createdAt),
      now)
  }

  /** A conversation passed whole as its own update. */
  function FullPatch(c: Conversation): ConversationPatch {
    ConversationPatch(Some(c.id), Some(c.title), Some(c.messages), Some(c.createdAt), Some(c.updatedAt))
  }

  /** Merging a whole conversation yields that conversation, stamped with the update time. */
  lemma MergeFullPatch(c: Conversation, x: Conversation, now: int)
    ensures MergeConversation(c, FullPatch(x), now) == x.(updatedAt := now)
  {
  }

  /** The prompt record after `updatePrompt(id, patch)` at time `now`. */
  function PromptsAfterUpdate(slot: Slot<seq<Prompt>>, id: string, patch: PromptPatch, now: int)
    : (r: Slot<seq<Prompt>>)
    ensures !HasKey(Load(slot), PromptKey, id) ==> r == slot
    ensures HasKey(Load(slot), PromptKey, id) ==>
      var before, k := Load(slot), FindIndex(Load(slot), PromptKey, id).value;
      r.Present? && |r.value| == |before| &&
      (forall i :: 0 <= i < |before| && i != k ==> r.value[i] == before[i]) &&
      r.value[k].id == id && r.value[k].createdAt == before[k].createdAt &&
      r.value[k].name == patch.name.GetOr(before[k].name) &&
      r.value[k].content == patch.content.GetOr(before[k].content) &&
      r.value[k].updatedAt == now
  {
    var before := Load(slot);
    match FindIndex(before, PromptKey, id)
    case None => slot
    case Some(k) => Present(before[k := MergePrompt(before[k], patch, now)])
  }

  /** The conversation record after `updateConversation(id, patch)` at time `now`. */
  function ConversationsAfterUpdate(
    slot: Slot<seq<Conversation>>, id: string, patch: ConversationPatch, now: int)
    : (r: Slot<seq<Conversation>>)
    ensures !HasKey(Load(slot), ConversationKey, id) ==> r == slot
    ensures HasKey(Load(slot), ConversationKey, id) ==>
      var before, k := Load(slot), FindIndex(Load(slot), ConversationKey, id).value;
      r.Present? && |r.value| == |before| &&
      (forall i :: 0 <= i < |before| && i != k ==> r.value[i] == before[i]) &&
      r.value[k] == MergeConversation(before[k], patch, now) &&
      r.value[k].updatedAt == now
  {
    var before := Load(slot);
    match FindIndex(before, ConversationKey, id)
    case None => slot
    case Some(k) => Present(before[k := MergeConversation(before[k], patch, now)])
  }

  /** Updating a prompt's fields keeps prompt ids unique. */
  lemma UpdatePromptKeepsUnique(ps: Slot<seq<Prompt>>, id: string, patch: PromptPatch, now: int)
    requires UniqueKeys(Load(ps), PromptKey)
    ensures UniqueKeys(Load(PromptsAfterUpdate(ps, id, patch, now)), PromptKey)
  {
    var p := FindIndex(Load(ps), PromptKey, id);
    if p.Some? {
      ReplaceAtUnique(Load(ps), PromptKey, p.value, MergePrompt(Load(ps)[p.value], patch, now));
    }
  }

  /** Updating a conversation with a patch that leaves `id` alone keeps conversation ids unique. */
  lemma UpdateConversationKeepsUnique(
    cs: Slot<seq<Conversation>>, id: string, patch: ConversationPatch, now: int)
    requires UniqueKeys(Load(cs), ConversationKey)
    requires patch.id.None? || patch.id == Some(id)
    ensures UniqueKeys(Load(ConversationsAfterUpdate(cs, id, patch, now)), ConversationKey)
  {
    var c := FindIndex(Load(cs), ConversationKey, id);
    if c.Some? {
      ReplaceAtUnique(Load(cs), ConversationKey, c.value, MergeConversation(Load(cs)[c.value], patch, now));
    }
  }

  /** The current-conversation id names a stored conversation, or is absent. */
  predicate PointsInto(selected: Option<string>, cs: seq<Conversation>) {
    selected.Some? ==> HasKey(cs, ConversationKey, selected.value)
  }

  /** The current-conversation id after conversation `id` was deleted, leaving `remaining`. */
  function CurrentIdAfterDelete(selected: Option<string>, id: string, remaining: seq<Conversation>)
    : (r: Option<string>)
    ensures selected != Some(id) ==> r == selected
    ensures selected == Some(id) ==> (r.Some? <==> |remaining| > 0) && PointsInto(r, remaining)
    ensures selected == Some(id) && |remaining| > 0 ==> r == Some(remaining[0].id)
  {
    if selected == Some(id) then
      if |remaining| > 0 then Some(remaining[0].id) else None
    else selected
  }

  /**
   * After deleting conversation `id`, the current id never names it any more; a current
   * id naming another conversation is kept; one naming the deleted one moves to the first
   * remaining conversation, and is cleared only when none remains; one that named
   * a stored conversation still does.
   */
  lemma DeleteKeepsCurrentIdIntegrity(selected: Option<string>, id: string, cs: seq<Conversation>)
    ensures var remaining := RemoveKey(cs, ConversationKey, id);
      var r := CurrentIdAfterDelete(selected, id, remaining);
      r != Some(id) &&
      (selected != Some(id) ==> r == selected) &&
      (selected == Some(id) ==> (r.None? <==> remaining == []) && PointsInto(r, remaining)) &&
      (selected == Some(id) && remaining != [] ==> r == Some(remaining[0].id)) &&
      (PointsInto(selected, cs) ==> PointsInto(r, remaining))
  {
    var remaining := RemoveKey(cs, ConversationKey, id);
    if |remaining| > 0 {
      assert ConversationKey(remaining[0]) != id;
    }
    if selected.Some? && selected != Some(id) && HasKey(cs, ConversationKey, selected.value) {
      var i :| 0 <= i < |cs| && ConversationKey(cs[i]) == selected.value;
      RemoveKeyMembers(cs, ConversationKey, id);
      assert cs[i] in remaining;
      var j :| 0 <= j < |remaining| && remaining[j] == cs[i];
    }
  }

  class Store {
    var prompts: Slot<seq<Prompt>>
    var conversations: Slot<seq<Conversation>>
    var currentId: Option<string>

    /** A browser profile in which none of the three keys has been written. */
    constructor ()
      ensures prompts == Absent && conversations == Absent && currentId == None
    {
      prompts, conversations, currentId := Absent, Absent, None;
    }

    /** The prompt list as `getPrompts` would return it. */
    function PromptList(): seq<Prompt>
      reads this
    {
      Load(prompts)
    }

    /** The conversation list as `getConversations` would return it. */
    function ConversationList(): seq<Conversation>
      reads this
    {
      Load(conversations)
    }

    /** `getPrompts`: never fails; a missing or unreadable record gives the empty list. */
    method GetPrompts() returns (ps: seq<Prompt>)
      ensures prompts.Present? ==> ps == prompts.value
      ensures !prompts.Present? ==> ps == []
    {
      match prompts {
        case Present(v) => ps := v;
        case _ => ps := [];
      }
    }

    /** `savePrompts`. */
    method SavePrompts(ps: seq<Prompt>)
      modifies this`prompts
      ensures prompts == Present(ps)
    {
      prompts := Present(ps);
    }

    /** `addPrompt`: appends a prompt with the fresh id `id`, created and updated at `now`. */
    method AddPrompt(name: string, content: string, id: string, now: int) returns (p: Prompt)
      requires !HasKey(PromptList(), PromptKey, id)
      modifies this`prompts
      ensures p == Prompt(id, name, content, now, now)
      ensures prompts == Present(old(PromptList()) + [p])
      ensures UniqueKeys(old(PromptList()), PromptKey) ==> UniqueKeys(PromptList(), PromptKey)
    {
      var ps := GetPrompts();
      p := Prompt(id, name, content, now, now);
      ps := ps + [p];
      SavePrompts(ps);
      if UniqueKeys(old(PromptList()), PromptKey) {
        AddFreshUnique(old(PromptList()), PromptKey, p);
      }
    }

    /** `updatePrompt`: merges `patch` into the first prompt with id `id`; an unknown id saves nothing. */
    method UpdatePrompt(id: string, patch: PromptPatch, now: int)
      modifies this`prompts
      ensures prompts == PromptsAfterUpdate(old(prompts), id, patch, now)
    {
      var ps := GetPrompts();
      var index := FindIndex(ps, PromptKey, id);
      if index.Some? {
        ps := ps[index.value := MergePrompt(ps[index.value], patch, now)];
        SavePrompts(ps);
      }
    }

    /** `deletePrompt`: keeps every prompt whose id differs, in order, and saves. */
    method DeletePrompt(id: string)
      modifies this`prompts
      ensures prompts == Present(RemoveKey(old(PromptList()), PromptKey, id))
      ensures UniqueKeys(old(PromptList()), PromptKey) ==>
        UniqueKeys(PromptList(), PromptKey) &&
        |PromptList()| == |old(PromptList())| - (if HasKey(old(PromptList()), PromptKey, id) then 1 else 0)
    {
      var ps := GetPrompts();
      var filtered := RemoveKey(ps, PromptKey, id);
      SavePrompts(filtered);
      if UniqueKeys(old(PromptList()), PromptKey) {
        RemoveKeyUnique(old(PromptList()), PromptKey, id);
        CountKeyUnique(old(PromptList()), PromptKey, id);
      }
    }

    /** `getConversations`: never fails; a missing or unreadable record gives the empty list. */
    method GetConversations() returns (cs: seq<Conversation>)
      ensures conversations.Present? ==> cs == conversations.value
      ensures !conversations.Present? ==> cs == []
    {
      match conversations {
        case Present(v) => cs := v;
        case _ => cs := [];
      }
    }

    /** `saveConversations`. */
    method SaveConversations(cs: seq<Conversation>)
      modifies this`conversations
      ensures conversations == Present(cs)
    {
      conversations := Present(cs);
    }

    /** `getCurrentConversationId`: the stored id, or `None` for a missing key. */
    method GetCurrentConversationId() returns (id: Option<string>)
      ensures id == currentId
    {
      id := currentId;
    }

    /** `setCurrentConversationId`: not checked against the conversation list. */
    method SetCurrentConversationId(id: string)
      modifies this`currentId
      ensures currentId == Some(id)
    {
      currentId := Some(id);
    }

    /**
     * `createNewConversation`: puts an empty conversation with the fresh id `id` at the
     * front, titled after the number of conversations stored before, and makes it current.
     */
    method CreateNewConversation(id: string, now: int) returns (c: Conversation)
      requires !HasKey(ConversationList(), ConversationKey, id)
      modifies this`conversations, this`currentId
      ensures c == Conversation(id, DefaultTitle(|old(ConversationList())|), [], now, now)
      ensures conversations == Present([c] + old(ConversationList()))
      ensures currentId == Some(id)
      ensures UniqueKeys(old(ConversationList()), ConversationKey) ==>
        UniqueKeys(ConversationList(), ConversationKey)
    {
      var cs := GetConversations();
      c := Conversation(id, DefaultTitle(|cs|), [], now, now);
      cs := [c] + cs;
      SaveConversations(cs);
      SetCurrentConversationId(c.id);
      if UniqueKeys(old(ConversationList()), ConversationKey) {
        AddFreshUnique(old(ConversationList()), ConversationKey, c);
      }
    }

    /** `updateConversation`: merges `patch` into the first conversation with id `id`; an unknown id saves nothing. */
    method UpdateConversation(id: string, patch: ConversationPatch, now: int)
      modifies this`conversations
      ensures conversations == ConversationsAfterUpdate(old(conversations), id, patch, now)
    {
      var cs := GetConversations();
      var index := FindIndex(cs, ConversationKey, id);
      if index.Some? {
        cs := cs[index.value := MergeConversation(cs[index.value], patch, now)];
        SaveConversations(cs);
      }
    }

    /**
     * `deleteConversation`: drops every conversation with id `id` and saves; when that id
     * was current, the first remaining conversation becomes current, or the key is removed.
     */
    method DeleteConversation(id: string)
      modifies this`conversations, this`currentId
      ensures conversations == Present(RemoveKey(old(ConversationList()), ConversationKey, id))
      ensures currentId == CurrentIdAfterDelete(old(currentId), id, ConversationList())
      ensures currentId != Some(id)
      ensures old(currentId) == Some(id) ==>
        currentId == (if ConversationList() == [] then None else Some(ConversationList()[0].id))
      ensures PointsInto(old(currentId), old(ConversationList())) ==>
        PointsInto(currentId, ConversationList())
      ensures UniqueKeys(old(ConversationList()), ConversationKey) ==>
        UniqueKeys(ConversationList(), ConversationKey) &&
        |ConversationList()| == |old(ConversationList())| -
          (if HasKey(old(ConversationList()), ConversationKey, id) then 1 else 0)
    {
      var cs := GetConversations();
      var filtered := RemoveKey(cs, ConversationKey, id);
      SaveConversations(filtered);
      var selected := GetCurrentConversationId();
      if selected == Some(id) {
        if |filtered| > 0 {
          SetCurrentConversationId(filtered[0].id);
        } else {
          currentId := None;
        }
      }
      DeleteKeepsCurrentIdIntegrity(old(currentId), id, old(ConversationList()));
      if UniqueKeys(old(ConversationList()), ConversationKey) {
        RemoveKeyUnique(old(ConversationList()), ConversationKey, id);
        CountKeyUnique(old(ConversationList()), ConversationKey, id);
      }
    }
  }

  /**
   * Two conversations, the second one in the list current; deleting it makes the
   * first one current.
   */
  method DeleteCurrentScenario(a: string, b: string, now: int) returns (first: string, selected: Option<string>, left: nat)
    requires a != b
    ensures first == b && selected == Some(b) && left == 1
  {
    var store := new Store();
    var ca := store.CreateNewConversation(a, now);
    var cb := store.CreateNewConversation(b, now);
    assert store.ConversationList() == [cb, ca];
    store.SetCurrentConversationId(ca.id);
    first := store.ConversationList()[0].id;
    store.DeleteConversation(a);
    assert store.ConversationList() == [cb] by {
      RemoveKeyAt([cb, ca], ConversationKey, 1);
    }
    selected := store.currentId;
    left := |store.ConversationList()|;
  }

  /**
   * Count-based default titles repeat: after creating two conversations and deleting
   * the older, a new conversation gets the same title as the one left.
   */
  method DefaultTitleRepeatScenario(a: string, b: string, c: string, now: int)
    returns (kept: Conversation, created: Conversation)
    requires a != b && a != c && b != c
    ensures kept.id == b && created.id == c
    ensures kept.title == created.title == "대화 2"
  {
    var store := new Store();
    var ca := store.CreateNewConversation(a, now);
    kept := store.CreateNewConversation(b, now);
    store.DeleteConversation(a);
    assert store.ConversationList() == [kept] by {
      RemoveKeyAt([kept, ca], ConversationKey, 1);
    }
    created := store.CreateNewConversation(c, now);
    assert Decimal.NatToString(2) == "2";
  }
}
