/**
  The reply graph both `ask` handlers walk: a fetched message with the
  message it replied to, the role-tagged turns handed to the language model,
  and the list operations the handlers apply to them.
 */
module ReplyChain {
  import opened Wrappers

  /**
    A message as returned by the fetch: its text, the id of its author and the
    message it replied to, already fetched. Being a value, the chain is finite.
   */
  datatype Msg = Msg(text: string, authorId: int, parent: Option<Msg>)

  datatype Role = System | User | Assistant

  /** One `{"role": ..., "content": ...}` entry of the prompt list. */
  datatype Turn = Turn(role: Role, content: string)

  /** The external completion call: the prompt list in, a text or the raised exception out. */
  type Completer = seq<Turn> -> Result<string, string>

  /**
    The messages the `while reply_to_message is not None` loop visits, in
    visiting order (newest first): each is the parent of the one before it,
    and the walk stops at the first message without a parent.
   */
  function Chain(head: Option<Msg>): (r: seq<Msg>)
    ensures head.None? <==> r == []
    ensures head.Some? ==> r[0] == head.value
    ensures |r| > 0 ==> r[|r| - 1].parent.None?
  {
    match head
    case None => []
    case Some(m) => [m] + Chain(m.parent)
  }

  /**
    The walk follows `reply_to_message` links: each visited message is the
    parent of the one visited before it, so no message is skipped.
   */
  lemma {:induction false} ChainFollowsParents(head: Option<Msg>)
    ensures forall i | 0 <= i < |Chain(head)| - 1 :: Chain(head)[i].parent == Some(Chain(head)[i + 1])
  {
    match head
    case None =>
    case Some(m) =>
      ChainFollowsParents(m.parent);
      var r := Chain(head);
      var rest := Chain(m.parent);
      assert r == [m] + rest;
      assert forall k | 0 <= k < |rest| - 1 :: rest[k].parent == Some(rest[k + 1]);
      forall i | 0 <= i < |r| - 1
        ensures r[i].parent == Some(r[i + 1])
      {
        if i > 0 {
          assert r[i] == rest[i - 1] && r[i + 1] == rest[i];
          assert rest[i - 1].parent == Some(rest[i]);
        } else {
          assert m.parent.Some?;
          assert rest[0] == m.parent.value;
          assert r[1] == rest[0];
        }
      }
  }

  /** A fetched message is the bot's own turn exactly when the bot wrote it. */
  function RoleOf(m: Msg, botId: int): (r: Role)
    ensures r != System
    ensures r == Assistant <==> m.authorId == botId
  {
    if m.authorId == botId then Assistant else User
  }

  /** `list.reverse()`: element `i` of the result is element `|s| - 1 - i` of `s`. */
  function Reverse<T>(s: seq<T>): (r: seq<T>)
    ensures |r| == |s|
    ensures forall i | 0 <= i < |s| :: r[i] == s[|s| - 1 - i]
  {
    if |s| == 0 then [] else Reverse(s[1..]) + [s[0]]
  }

  /** The roles of a prompt list, in order. */
  function Roles(turns: seq<Turn>): (r: seq<Role>)
    ensures |r| == |turns|
    ensures forall i | 0 <= i < |turns| :: r[i] == turns[i].role
  {
    if |turns| == 0 then [] else [turns[0].role] + Roles(turns[1..])
  }

  /**
    What the handlers hand to the model: one system turn first, no other
    system turn, and the newest user turn last. Nothing forces user and
    assistant turns to alternate.
   */
  predicate WellFormedConversation(conv: seq<Turn>) {
    && |conv| >= 2
    && conv[0].role == System
    && (forall i | 1 <= i < |conv| :: conv[i].role != System)
    && conv[|conv| - 1].role == User
  }

  /** `system_prompt + user_prompts`: one system turn in front of the prompt list. */
  function WithSystemTurn(systemPrompt: string, prompts: seq<Turn>): (r: seq<Turn>)
    ensures |r| == |prompts| + 1
    ensures r[0] == Turn(System, systemPrompt)
    ensures r[1..] == prompts
  {
    [Turn(System, systemPrompt)] + prompts
  }

  /**
    A system turn put in front of a prompt list without system turns that ends
    with a user turn makes a well-formed conversation.
   */
  lemma SystemFirstIsWellFormed(systemPrompt: string, prompts: seq<Turn>)
    requires |prompts| >= 1 && prompts[|prompts| - 1].role == User
    requires forall i | 0 <= i < |prompts| :: prompts[i].role != System
    ensures WellFormedConversation(WithSystemTurn(systemPrompt, prompts))
  {
    var conv := WithSystemTurn(systemPrompt, prompts);
    assert forall i | 1 <= i < |conv| :: conv[i] == prompts[i - 1];
  }

  /** The roles sent are `system` followed by the prompt list's roles. */
  lemma SystemTurnLeadsRoles(systemPrompt: string, prompts: seq<Turn>)
    ensures Roles(WithSystemTurn(systemPrompt, prompts)) == [System] + Roles(prompts)
  {
    var conv := WithSystemTurn(systemPrompt, prompts);
    assert forall k | 1 <= k < |conv| :: conv[k] == prompts[k - 1];
  }
}
