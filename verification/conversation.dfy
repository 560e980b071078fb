/** The pure part of the store: how one event's updater is folded into the
    conversation history (`updateAssistantMessage` in src/store/chatStore.ts,
    a `map` over `history`), and what a sequence of `chunk` events adds up to. */
module Conversation {
  import opened Types

  /** The updaters the store's five listeners (`trace`, `sources`, `chunk`,
      `error`, `done`) hand to `updateAssistantMessage`, grouped by the field
      they change. */
  datatype Patch =
    | SetTraceStep(step: Option<string>)   // `trace` (a label) and `done` (null)
    | SetSources(replacement: seq<Source>) // `sources`, replaced wholesale
    | AppendContent(text: string)          // `chunk` and the `error` event

  /** The guard of the `map`: same id as the captured assistant id, and an
      assistant turn. */
  predicate IsTarget(m: ChatMessage, target: string)
  {
    m.AssistantMessage? && m.id == target
  }

  /** One updater applied to one assistant turn: exactly the field the patch
      names changes; the id and the role are kept. */
  function ApplyPatch(m: ChatMessage, p: Patch): (r: ChatMessage)
    requires m.AssistantMessage?
    ensures r.AssistantMessage? && r.id == m.id
    ensures r.content == (if p.AppendContent? then m.content + p.text else m.content)
    ensures r.sources == (if p.SetSources? then p.replacement else m.sources)
    ensures r.traceStep == (if p.SetTraceStep? then p.step else m.traceStep)
  {
    match p
    case SetTraceStep(step) => m.(traceStep := step)
    case SetSources(replacement) => m.(sources := replacement)
    case AppendContent(text) => m.(content := m.content + text)
  }

  /** `history.map(msg => msg.id === target && msg.role === 'assistant' ? updater(msg) : msg)`:
      same length and order, every target entry patched, every other entry kept. */
  function UpdateAssistantMessage(history: seq<ChatMessage>, target: string, p: Patch): (r: seq<ChatMessage>)
    ensures |r| == |history|
    ensures forall i :: 0 <= i < |history| ==>
      r[i] == if IsTarget(history[i], target) then ApplyPatch(history[i], p) else history[i]
  {
    if history == [] then []
    else
      var head := if IsTarget(history[0], target) then ApplyPatch(history[0], p) else history[0];
      [head] + UpdateAssistantMessage(history[1..], target, p)
  }

  /** The ids of a history, in order. */
  function Ids(history: seq<ChatMessage>): (ids: seq<string>)
    ensures |ids| == |history|
  {
    if history == [] then [] else [history[0].id] + Ids(history[1..])
  }

  /** No update adds, removes, reorders or renames a turn. */
  lemma {:induction false} UpdateKeepsIds(history: seq<ChatMessage>, target: string, p: Patch)
    ensures Ids(UpdateAssistantMessage(history, target, p)) == Ids(history)
  {
    if history != [] {
      var r := UpdateAssistantMessage(history, target, p);
      UpdateKeepsIds(history[1..], target, p);
      assert r[1..] == UpdateAssistantMessage(history[1..], target, p);
    }
  }

  /** An event whose captured id matches no assistant turn leaves the history as it is. */
  lemma {:induction false} StaleTargetIsNoOp(history: seq<ChatMessage>, target: string, p: Patch)
    requires forall i :: 0 <= i < |history| ==> !IsTarget(history[i], target)
    ensures UpdateAssistantMessage(history, target, p) == history
  {
  }

  /** A freshly appended assistant turn whose id occurs nowhere before it is
      the only entry an update with that id can touch. */
  lemma {:induction false} FreshTargetIsUnique(history: seq<ChatMessage>, user: ChatMessage, assistant: ChatMessage)
    requires user.UserMessage? && assistant.AssistantMessage?
    requires assistant.id !in Ids(history)
    ensures var h := history + [user, assistant];
      forall i :: 0 <= i < |h| ==> (IsTarget(h[i], assistant.id) <==> i == |history| + 1)
  {
    var h := history + [user, assistant];
    forall i | 0 <= i < |history|
      ensures !IsTarget(h[i], assistant.id)
    {
      IdAt(history, i);
    }
  }

  /** Hence every event of the session fills that fresh turn and nothing else. */
  lemma {:induction false} UpdateFreshTurn(history: seq<ChatMessage>, user: ChatMessage, assistant: ChatMessage, p: Patch)
    requires user.UserMessage? && assistant.AssistantMessage?
    requires assistant.id !in Ids(history)
    ensures UpdateAssistantMessage(history + [user, assistant], assistant.id, p)
         == history + [user, ApplyPatch(assistant, p)]
  {
    var h := history + [user, assistant];
    var r := UpdateAssistantMessage(h, assistant.id, p);
    FreshTargetIsUnique(history, user, assistant);
    assert forall i :: 0 <= i < |h| ==> r[i] == (history + [user, ApplyPatch(assistant, p)])[i];
  }

  /** The i-th id of a history is the id of its i-th entry. */
  lemma {:induction false} IdAt(history: seq<ChatMessage>, i: nat)
    requires i < |history|
    ensures Ids(history)[i] == history[i].id
  {
    if i > 0 {
      IdAt(history[1..], i - 1);
    }
  }

  /** Two appends in a row are one append of the concatenation. */
  lemma {:induction false} AppendsCompose(history: seq<ChatMessage>, target: string, a: string, b: string)
    ensures UpdateAssistantMessage(UpdateAssistantMessage(history, target, AppendContent(a)), target, AppendContent(b))
         == UpdateAssistantMessage(history, target, AppendContent(a + b))
  {
    var mid := UpdateAssistantMessage(history, target, AppendContent(a));
    var lhs := UpdateAssistantMessage(mid, target, AppendContent(b));
    var rhs := UpdateAssistantMessage(history, target, AppendContent(a + b));
    forall i | 0 <= i < |history|
      ensures lhs[i] == rhs[i]
    {
      if IsTarget(history[i], target) {
        AppendsComposeAt(history[i], a, b);
      }
    }
  }

  /** The same for one turn. */
  lemma AppendsComposeAt(m: ChatMessage, a: string, b: string)
    requires m.AssistantMessage?
    ensures ApplyPatch(ApplyPatch(m, AppendContent(a)), AppendContent(b)) == ApplyPatch(m, AppendContent(a + b))
  {
  }

  /** A later `trace`/`done` overwrites an earlier one, and a later `sources`
      overwrites an earlier one: both are replacements, not accumulations. */
  lemma {:induction false} ReplacementsOverwrite(history: seq<ChatMessage>, target: string, p: Patch, q: Patch)
    requires (p.SetTraceStep? && q.SetTraceStep?) || (p.SetSources? && q.SetSources?)
    ensures UpdateAssistantMessage(UpdateAssistantMessage(history, target, p), target, q)
         == UpdateAssistantMessage(history, target, q)
  {
  }

  /** The text a `chunk` payload contributes: the sentinel "None" stands for nothing. */
  function ChunkText(data: string): string
  {
    if data == "None" then "" else data
  }

  /** What a run of chunk payloads contributes, in arrival order. */
  function Joined(chunks: seq<string>): string
  {
    if chunks == [] then "" else ChunkText(chunks[0]) + Joined(chunks[1..])
  }

  /** The history after the `chunk` listener has run once per payload, in order. */
  function ApplyChunks(history: seq<ChatMessage>, target: string, chunks: seq<string>): seq<ChatMessage>
    decreases |chunks|
  {
    if chunks == [] then history
    else ApplyChunks(UpdateAssistantMessage(history, target, AppendContent(ChunkText(chunks[0]))), target, chunks[1..])
  }

  /** Appending nothing changes nothing; in particular a "None" chunk is a no-op. */
  lemma {:induction false} AppendNothing(history: seq<ChatMessage>, target: string)
    ensures UpdateAssistantMessage(history, target, AppendContent("")) == history
    ensures UpdateAssistantMessage(history, target, AppendContent(ChunkText("None"))) == history
  {
    var r := UpdateAssistantMessage(history, target, AppendContent(""));
    forall i | 0 <= i < |history|
      ensures r[i] == history[i]
    {
      if IsTarget(history[i], target) {
        assert history[i].content + "" == history[i].content;
      }
    }
  }

  /** Chunks c1..cn applied in order are one append of c1 + ... + cn. */
  lemma {:induction false} ChunksAccumulate(history: seq<ChatMessage>, target: string, chunks: seq<string>)
    ensures ApplyChunks(history, target, chunks)
         == UpdateAssistantMessage(history, target, AppendContent(Joined(chunks)))
    decreases |chunks|
  {
    if chunks == [] {
      AppendNothing(history, target);
    } else {
      var first := ChunkText(chunks[0]);
      var mid := UpdateAssistantMessage(history, target, AppendContent(first));
      ChunksAccumulate(mid, target, chunks[1..]);
      AppendsCompose(history, target, first, Joined(chunks[1..]));
    }
  }

  /** Per turn: the target's content grows by exactly the joined chunks, its
      sources and trace step are untouched, and every other turn is kept. */
  lemma {:induction false} ChunkedTurn(history: seq<ChatMessage>, target: string, chunks: seq<string>, k: nat)
    requires k < |history|
    ensures |ApplyChunks(history, target, chunks)| == |history|
    ensures ApplyChunks(history, target, chunks)[k]
         == if IsTarget(history[k], target)
            then history[k].(content := history[k].content + Joined(chunks))
            else history[k]
  {
    ChunksAccumulate(history, target, chunks);
  }
}
