/**
 * The request value objects of the chat endpoint: the conversation-shape
 * check on the message list, the completion ID and the model ID.
 */
module ChatValidation {
  import opened Common
  import ChatGlue

  type Message = ChatGlue.Message

  /** The `InvalidParametersError` messages `val_messages` raises, one per kind. */
  datatype MessagesError =
    | EmptyMessages
    | BadRole(role: string)
    | FirstNotUser
    | NotAlternating
    | LastNotUser

  predicate ValidRole(role: string)
  {
    role == "user" || role == "assistant"
  }

  /** The check message `i` must pass, given the ones before it. */
  predicate StepOk(m: seq<Message>, i: nat)
    requires i < |m|
  {
    ValidRole(m[i].role) && if i == 0 then m[0].role == "user" else m[i].role != m[i - 1].role
  }

  /** Message `i` is the first to fail its check. */
  predicate FirstBadStep(m: seq<Message>, i: nat)
  {
    i < |m| && !StepOk(m, i) && forall j :: 0 <= j < i ==> StepOk(m, j)
  }

  /** Every message passes its check. */
  predicate AllStepsOk(m: seq<Message>)
  {
    forall j :: 0 <= j < |m| ==> StepOk(m, j)
  }

  /** `val_messages`: walks the list once, remembering the previous and the last message. */
  method ValMessages(messages: seq<Message>) returns (r: Result<seq<Message>, MessagesError>)
    ensures r.Ok? <==> messages != [] && AllStepsOk(messages) && messages[|messages| - 1].role == "user"
    ensures r.Ok? ==> r.value == messages
    ensures r == Err(EmptyMessages) <==> messages == []
    ensures r.Err? && r.error.BadRole? ==>
      exists i: nat :: FirstBadStep(messages, i) && !ValidRole(messages[i].role) && r.error.role == messages[i].role
    ensures r == Err(FirstNotUser) ==> FirstBadStep(messages, 0) && messages[0].role == "assistant"
    ensures r == Err(NotAlternating) ==>
      exists i: nat :: FirstBadStep(messages, i) && i > 0 && ValidRole(messages[i].role)
    ensures r == Err(LastNotUser) ==> messages != [] && AllStepsOk(messages) && messages[|messages| - 1].role != "user"
  {
    if |messages| == 0 {
      return Err(EmptyMessages);
    }
    var first := messages[0];
    if !ValidRole(first.role) {
      assert FirstBadStep(messages, 0);
      return Err(BadRole(first.role));
    }
    if first.role != "user" {
      assert FirstBadStep(messages, 0);
      return Err(FirstNotUser);
    }
    var prev := first;
    var last := first;
    var i := 1;
    while i < |messages|
      invariant 1 <= i <= |messages|
      invariant forall j :: 0 <= j < i ==> StepOk(messages, j)
      invariant prev == messages[i - 1] && last == messages[i - 1]
    {
      var curr := messages[i];
      if !ValidRole(curr.role) {
        assert FirstBadStep(messages, i);
        return Err(BadRole(curr.role));
      }
      if prev.role == curr.role {
        assert FirstBadStep(messages, i);
        return Err(NotAlternating);
      }
      prev := curr;
      last := curr;
      i := i + 1;
    }
    if last.role != "user" {
      return Err(LastNotUser);
    }
    return Ok(messages);
  }

  /** The role the alternation puts at position `i`. */
  function RoleAt(i: nat): string
  {
    if i % 2 == 0 then "user" else "assistant"
  }

  /** An accepted shape: odd length, user at even positions and assistant at odd ones. */
  predicate Alternating(m: seq<Message>)
  {
    |m| % 2 == 1 && forall i :: 0 <= i < |m| ==> m[i].role == RoleAt(i)
  }

  lemma {:induction false} StepsFixRoles(m: seq<Message>, i: nat)
    requires i < |m|
    requires forall j :: 0 <= j <= i ==> StepOk(m, j)
    ensures m[i].role == RoleAt(i)
  {
    if i > 0 {
      StepsFixRoles(m, i - 1);
      assert StepOk(m, i);
    }
  }

  /**
   * The checks accept exactly the strictly alternating lists that start and
   * end with the user: such lists have odd length.
   */
  lemma AcceptedIffAlternating(m: seq<Message>)
    ensures (m != [] && AllStepsOk(m) && m[|m| - 1].role == "user") <==> Alternating(m)
  {
    if m != [] && AllStepsOk(m) && m[|m| - 1].role == "user" {
      forall i | 0 <= i < |m|
        ensures m[i].role == RoleAt(i)
      {
        StepsFixRoles(m, i);
      }
      assert m[|m| - 1].role == RoleAt(|m| - 1);
    }
    if Alternating(m) {
      assert m != [];
      forall j | 0 <= j < |m|
        ensures StepOk(m, j)
      {
        assert m[j].role == RoleAt(j);
        if j > 0 {
          assert m[j - 1].role == RoleAt(j - 1);
        }
      }
    }
  }

  // ---------------------------------------------------------------------
  // ChatCompletionID and ModelID

  const ChatCmplPrefix: string := "chatcmpl-"

  datatype IdError = BadPrefix(id: string) | NotUuid

  /**
   * `ChatCompletionID(id)`: a missing or empty id is replaced by the
   * generated one; the result must start with `chatcmpl-` and carry exactly
   * 32 characters after it.
   */
  function ChatCompletionId(id: Option<string>, generated: string): (r: Result<string, IdError>)
    ensures r.Ok? <==> StartsWith(ChatGlue.ChatId(id, generated), ChatCmplPrefix) && |ChatGlue.ChatId(id, generated)| == |ChatCmplPrefix| + 32
    ensures r.Ok? ==> r.value == ChatGlue.ChatId(id, generated)
    ensures r.Err? && !StartsWith(ChatGlue.ChatId(id, generated), ChatCmplPrefix) ==> r == Err(BadPrefix(ChatGlue.ChatId(id, generated)))
  {
    var v := ChatGlue.ChatId(id, generated);
    if !StartsWith(v, ChatCmplPrefix) then Err(BadPrefix(v))
    else if |v[|ChatCmplPrefix|..]| != 32 then Err(NotUuid)
    else Ok(v)
  }

  /** A given id is kept when it validates, and the generated one is used only when none is given. */
  lemma ChatCompletionIdDefaults(id: Option<string>, hex: string)
    requires |hex| == 32
    ensures (id.None? || id == Some("")) ==> ChatCompletionId(id, ChatCmplPrefix + hex) == Ok(ChatCmplPrefix + hex)
    ensures id.Some? && id.value != "" ==> ChatCompletionId(id, ChatCmplPrefix + hex) == ChatCompletionId(id, "")
  {
    var g := ChatCmplPrefix + hex;
    assert g[..|ChatCmplPrefix|] == ChatCmplPrefix;
  }

  /** `ModelID`: between 1 and 100 characters. */
  predicate ValidModelId(id: string)
  {
    1 <= |id| <= 100
  }

  datatype ModelIdError = TooShort | TooLong

  function ModelId(id: string): (r: Result<string, ModelIdError>)
    ensures r.Ok? <==> ValidModelId(id)
    ensures r.Ok? ==> r.value == id
    ensures r == Err(TooShort) <==> id == []
  {
    if |id| < 1 then Err(TooShort) else if |id| > 100 then Err(TooLong) else Ok(id)
  }
}
