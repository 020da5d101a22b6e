/** Serialising a system prompt, a chat history and the new input into the
    single text a model is given. Every builder of the program does it the
    same way: an opening block holding the system prompt, one wrapped block per
    history message in order, then a block holding the input that leaves the
    assistant's turn open; only the fixed markup differs from one model family
    to the next (utils/PromptBuilder.ts:171-194, the identical lines of
    src/cortex/education/CortexInterpreter.ts, and
    src/cortex/runtime/CortexRuntime.ts:135-165). */
module PromptFormat {
  import opened Text

  datatype Role = User | Assistant

  datatype Message = Message(role: Role, content: string)

  /** The role as written into the markup (`msg.role`). */
  function RoleName(r: Role): string {
    match r
    case User => "user"
    case Assistant => "assistant"
  }

  /** The fixed text around each part of a serialised conversation. */
  datatype Markup = Markup(
    systemOpen: string, systemClose: string,
    userOpen: string, userClose: string,
    assistantOpen: string, assistantClose: string,
    inputOpen: string, inputClose: string)

  function Open(mk: Markup, r: Role): string {
    if r == User then mk.userOpen else mk.assistantOpen
  }

  function Close(mk: Markup, r: Role): string {
    if r == User then mk.userClose else mk.assistantClose
  }

  /** One history message, wrapped. */
  function Turn(mk: Markup, m: Message): string {
    Open(mk, m.role) + m.content + Close(mk, m.role)
  }

  /** The history, each message wrapped, in order. */
  function Turns(mk: Markup, h: seq<Message>): string {
    if |h| == 0 then "" else Turns(mk, h[..|h| - 1]) + Turn(mk, h[|h| - 1])
  }

  function Head(mk: Markup, system: string): string {
    mk.systemOpen + system + mk.systemClose
  }

  function Tail(mk: Markup, input: string): string {
    mk.inputOpen + input + mk.inputClose
  }

  /** The serialised conversation. */
  function Render(mk: Markup, system: string, h: seq<Message>, input: string): string {
    Head(mk, system) + Turns(mk, h) + Tail(mk, input)
  }

  /** The `prompt += ...` loop over the history: the text it builds is the
      rendering of the conversation. */
  method Serialize(mk: Markup, system: string, history: seq<Message>, input: string) returns (prompt: string)
    ensures prompt == Render(mk, system, history, input)
  {
    prompt := mk.systemOpen + system + mk.systemClose;
    for k := 0 to |history|
      invariant prompt == Head(mk, system) + Turns(mk, history[..k])
    {
      var msg := history[k];
      assert history[..k + 1][..k] == history[..k];
      prompt := prompt + (Open(mk, msg.role) + msg.content + Close(mk, msg.role));
    }
    assert history[..|history|] == history;
    prompt := prompt + (mk.inputOpen + input + mk.inputClose);
  }

  /** Serialising one more message appends its wrapped block. */
  lemma TurnsSnoc(mk: Markup, h: seq<Message>, k: nat)
    requires k < |h|
    ensures Turns(mk, h[..k + 1]) == Turns(mk, h[..k]) + Turn(mk, h[k])
  {
    assert h[..k + 1][..k] == h[..k];
  }

  /** Message `i`, wrapped, sits in the serialised history right after the
      messages before it. */
  lemma {:induction false} TurnInTurns(mk: Markup, h: seq<Message>, i: nat)
    requires i < |h|
    ensures OccursAt(Turns(mk, h), Turn(mk, h[i]), |Turns(mk, h[..i])|)
    ensures |Turns(mk, h[..i])| + |Turn(mk, h[i])| == |Turns(mk, h[..i + 1])|
    decreases |h|
  {
    assert h[..i + 1][..i] == h[..i];
    var init := h[..|h| - 1];
    if i == |h| - 1 {
      assert init == h[..i];
      assert OccursAt(Turn(mk, h[i]), Turn(mk, h[i]), 0);
      OccursAtPrepend(Turns(mk, init), Turn(mk, h[i]), Turn(mk, h[i]), 0);
    } else {
      TurnInTurns(mk, init, i);
      assert init[..i] == h[..i] && init[i] == h[i];
      OccursAtAppend(Turns(mk, init), Turn(mk, h[|h| - 1]), Turn(mk, h[i]), |Turns(mk, h[..i])|);
    }
  }

  /** Where message `i`'s content starts in the serialised conversation. */
  function ContentOffset(mk: Markup, system: string, h: seq<Message>, i: nat): nat
    requires i < |h|
  {
    |Head(mk, system)| + |Turns(mk, h[..i])| + |Open(mk, h[i].role)|
  }

  /** Every history message appears verbatim, wrapped in its role's markup,
      in history order and without overlapping the next one. */
  lemma MessageInRender(mk: Markup, system: string, h: seq<Message>, input: string, i: nat)
    requires i < |h|
    ensures OccursAt(Render(mk, system, h, input), Turn(mk, h[i]), |Head(mk, system)| + |Turns(mk, h[..i])|)
    ensures OccursAt(Render(mk, system, h, input), h[i].content, ContentOffset(mk, system, h, i))
    ensures i + 1 < |h| ==>
      ContentOffset(mk, system, h, i) + |h[i].content| <= ContentOffset(mk, system, h, i + 1)
  {
    TurnInRender(mk, system, h, input, i);
    ContentInRender(mk, system, h, input, i);
    if i + 1 < |h| {
      ContentsInOrder(mk, system, h, i);
    }
  }

  /** Message `i`'s content sits in the conversation right after its role's
      opening markup. */
  lemma ContentInRender(mk: Markup, system: string, h: seq<Message>, input: string, i: nat)
    requires i < |h|
    ensures OccursAt(Render(mk, system, h, input), h[i].content, ContentOffset(mk, system, h, i))
  {
    TurnInRender(mk, system, h, input, i);
    var at := |Head(mk, system)| + |Turns(mk, h[..i])|;
    OccursBetween(Open(mk, h[i].role), h[i].content, Close(mk, h[i].role));
    OccursWithin(Render(mk, system, h, input), Turn(mk, h[i]), at, h[i].content, |Open(mk, h[i].role)|);
  }

  /** Message `i`'s content ends before message `i + 1`'s begins. */
  lemma ContentsInOrder(mk: Markup, system: string, h: seq<Message>, i: nat)
    requires i + 1 < |h|
    ensures ContentOffset(mk, system, h, i) + |h[i].content| <= ContentOffset(mk, system, h, i + 1)
  {
    TurnInTurns(mk, h, i);
  }

  /** Message `i`, wrapped, sits in the conversation after the system block
      and the messages before it. */
  lemma TurnInRender(mk: Markup, system: string, h: seq<Message>, input: string, i: nat)
    requires i < |h|
    ensures OccursAt(Render(mk, system, h, input), Turn(mk, h[i]), |Head(mk, system)| + |Turns(mk, h[..i])|)
  {
    var head := Head(mk, system);
    var turn := Turn(mk, h[i]);
    TurnInTurns(mk, h, i);
    OccursAtPrepend(head, Turns(mk, h), turn, |Turns(mk, h[..i])|);
    OccursAtAppend(head + Turns(mk, h), Tail(mk, input), turn, |head| + |Turns(mk, h[..i])|);
  }

  /** The conversation opens with the system block and closes with the
      input block. */
  lemma RenderFrame(mk: Markup, system: string, h: seq<Message>, input: string)
    ensures var r := Render(mk, system, h, input);
      && StartsWith(r, mk.systemOpen)
      && OccursAt(r, system, |mk.systemOpen|)
      && EndsWith(r, mk.inputClose)
      && OccursAt(r, input, |r| - |mk.inputClose| - |input|)
  {
    var r := Render(mk, system, h, input);
    var head := Head(mk, system);
    var rest := Turns(mk, h) + Tail(mk, input);
    assert r == head + rest;
    OccursBetween(mk.systemOpen, system, mk.systemClose);
    OccursAtAppend(head, rest, system, |mk.systemOpen|);
    assert StartsWith(head, mk.systemOpen);
    StartsWithAppend(head, rest, mk.systemOpen);
    var front := head + Turns(mk, h);
    assert r == front + Tail(mk, input);
    OccursBetween(mk.inputOpen, input, mk.inputClose);
    OccursAtPrepend(front, Tail(mk, input), input, |mk.inputOpen|);
    assert EndsWith(Tail(mk, input), mk.inputClose);
    EndsWithPrepend(front, Tail(mk, input), mk.inputClose);
  }
}
