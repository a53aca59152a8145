/** The DuoChat event handlers: the model picker dialog, the key and input
    setters, and `send_prompt`, which sends one prompt to every open
    conversation in turn and streams each model's answer into it. */
module DuoChat {
  import opened Wrappers
  import opened Text
  import opened DataModel

  // ---------------------------------------------------------------------
  // Model picker dialog
  // ---------------------------------------------------------------------

  /** One checkbox of the picker: its key (also its label), whether it is
      shown checked and whether it is disabled. */
  datatype Checkbox = Checkbox(key: string, checked: bool, disabled: bool)

  /** The disabled rule: a model whose lower-cased member name starts with
      "gemini" needs a Gemini key, one starting with "claude" a Claude key. */
  function Disabled(m: Models, geminiApiKey: string, claudeApiKey: string): (disabled: bool)
    ensures disabled ==> geminiApiKey == "" || claudeApiKey == ""
  {
    var name := Lower(m.Name());
    if StartsWith(name, "gemini") then geminiApiKey == ""
    else if StartsWith(name, "claude") then claudeApiKey == ""
    else false
  }

  /** Every member of the enumeration is a Gemini model by name. */
  lemma MembersAreGemini()
    ensures forall m: Models :: StartsWith(Lower(m.Name()), "gemini")
  {
    forall m: Models ensures StartsWith(Lower(m.Name()), "gemini") {
      match m
      case Gemini20Flash => UpperGeminiLowers(m.Name());
      case Gemini15Flash => UpperGeminiLowers(m.Name());
      case Gemini15Pro => UpperGeminiLowers(m.Name());
    }
  }

  /** A name spelled "GEMINI..." lower-cases to one spelled "gemini...". */
  lemma UpperGeminiLowers(s: string)
    requires StartsWith(s, "GEMINI")
    ensures StartsWith(Lower(s), "gemini")
  {
    forall i | 0 <= i < 6 ensures Lower(s)[i] == "gemini"[i] {
      assert s[i] == "GEMINI"[i];
      LowerAt(s, i);
    }
  }

  lemma {:induction false} LowerAt(s: string, i: nat)
    requires i < |s|
    ensures Lower(s)[i] == LowerChar(s[i])
  {
    if i > 0 {
      LowerAt(s[1..], i - 1);
    }
  }

  /** The checkboxes the dialog shows, one per member in declaration order:
      checked when the member's value is in the committed selection (not the
      staging list), and disabled exactly when no Gemini key is set, whatever
      the Claude key. */
  function PickerOptions(models: seq<string>, geminiApiKey: string, claudeApiKey: string): (boxes: seq<Checkbox>)
    ensures |boxes| == |AllModels|
    ensures forall i :: 0 <= i < |boxes| ==> boxes[i].key == AllModels[i].Value()
    ensures forall i :: 0 <= i < |boxes| ==> (boxes[i].checked <==> AllModels[i].Value() in models)
    ensures forall i :: 0 <= i < |boxes| ==> (boxes[i].disabled <==> geminiApiKey == "")
  {
    MembersAreGemini();
    seq(|AllModels|, i requires 0 <= i < |AllModels| =>
      Checkbox(AllModels[i].Value(), AllModels[i].Value() in models, Disabled(AllModels[i], geminiApiKey, claudeApiKey)))
  }

  /** The index of the first occurrence of `k` in `s`. */
  function FirstIndex(s: seq<string>, k: string): (i: nat)
    requires k in s
    ensures i < |s| && s[i] == k && k !in s[..i]
  {
    if s[0] == k then 0 else 1 + FirstIndex(s[1..], k)
  }

  /** Python's `list.remove(k)`: drops the first occurrence of `k`, and
      fails (ValueError) when there is none. */
  function RemoveFirst(s: seq<string>, k: string): (r: Option<seq<string>>)
    ensures r.None? <==> k !in s
    ensures k in s ==> r == Some(s[..FirstIndex(s, k)] + s[FirstIndex(s, k) + 1..])
  {
    if s == [] then None
    else if s[0] == k then
      assert s[..0] + s[1..] == s[1..];
      Some(s[1..])
    else
      InTail(s, k);
      var rest := RemoveFirst(s[1..], k);
      if rest.None? then None
      else
        RemoveFirstCons(s, k);
        Some([s[0]] + rest.value)
  }

  lemma InTail(s: seq<string>, k: string)
    requires s != [] && s[0] != k
    ensures k in s <==> k in s[1..]
  {
    assert s == [s[0]] + s[1..];
  }

  lemma RemoveFirstCons(s: seq<string>, k: string)
    requires s != [] && s[0] != k && k in s[1..]
    ensures var i := FirstIndex(s, k);
      s[..i] + s[i + 1..] == [s[0]] + (s[1..][..i - 1] + s[1..][i..])
  {
  }

  /** The staging list after a checkbox change: appended to when checked,
      its first occurrence of the key removed when unchecked (None when the
      key is absent, the list then being left as it was). */
  function Toggled(staging: seq<string>, key: string, checked: bool): (r: Option<seq<string>>)
    ensures r.None? <==> !checked && key !in staging
    ensures r.Some? ==> |r.value| == |staging| + (if checked then 1 else -1)
  {
    if checked then Some(staging + [key]) else RemoveFirst(staging, key)
  }

  /** Unchecking removes exactly one copy of the key. */
  lemma UncheckRemovesOne(staging: seq<string>, key: string)
    requires key in staging
    ensures Toggled(staging, key, false).Some?
    ensures multiset(Toggled(staging, key, false).value) == multiset(staging) - multiset{key}
  {
    var i := FirstIndex(staging, key);
    assert staging == staging[..i] + [staging[i]] + staging[i + 1..];
  }

  /** Checking then unchecking a box gives back the same models; when the key
      was already staged, the order may change (the earlier copy goes). */
  lemma CheckThenUncheck(staging: seq<string>, key: string)
    ensures Toggled(staging + [key], key, false).Some?
    ensures multiset(Toggled(staging + [key], key, false).value) == multiset(staging)
    ensures key !in staging ==> Toggled(staging + [key], key, false) == Some(staging)
  {
    var s := staging + [key];
    UncheckRemovesOne(s, key);
    if key !in staging {
      assert key !in s[..|staging|] by { assert s[..|staging|] == staging; }
      assert FirstIndex(s, key) == |staging|;
      assert s[..|staging|] + s[|staging| + 1..] == staging;
    }
  }

  /** `change_model_option`: reports false when `list.remove` would raise. */
  method ChangeModelOption(dialog: ModelDialogState, key: string, checked: bool) returns (ok: bool)
    modifies dialog
    ensures ok == Toggled(old(dialog.selectedModels), key, checked).Some?
    ensures dialog.selectedModels ==
      if ok then Toggled(old(dialog.selectedModels), key, checked).value else old(dialog.selectedModels)
  {
    if checked {
      dialog.selectedModels := dialog.selectedModels + [key];
      ok := true;
    } else {
      var removed := RemoveFirst(dialog.selectedModels, key);
      ok := removed.Some?;
      if ok {
        dialog.selectedModels := removed.value;
      }
    }
  }

  /** `switch_model`: opens the dialog and stages a copy of the selection. */
  method SwitchModel(state: State, dialog: ModelDialogState)
    modifies state`isModelPickerDialogOpen, dialog
    ensures state.isModelPickerDialogOpen
    ensures dialog.selectedModels == state.models
  {
    state.isModelPickerDialogOpen := true;
    dialog.selectedModels := state.models[..];
  }

  /** `close_model_picker_dialog` (Cancel): the staging list is dropped. */
  method CloseModelPickerDialog(state: State)
    modifies state`isModelPickerDialogOpen
    ensures !state.isModelPickerDialogOpen
  {
    state.isModelPickerDialogOpen := false;
  }

  /** `confirm_model_picker_dialog`: the staging list becomes the selection. */
  method ConfirmModelPickerDialog(state: State, dialog: ModelDialogState)
    modifies state`isModelPickerDialogOpen, state`models
    ensures !state.isModelPickerDialogOpen
    ensures state.models == dialog.selectedModels
  {
    state.isModelPickerDialogOpen := false;
    state.models := dialog.selectedModels;
  }

  /** `set_gemini_api_key`. */
  method SetGeminiApiKey(state: State, value: string)
    modifies state`geminiApiKey
    ensures state.geminiApiKey == value
  {
    state.geminiApiKey := value;
  }

  /** `set_claude_api_key`. */
  method SetClaudeApiKey(state: State, value: string)
    modifies state`claudeApiKey
    ensures state.claudeApiKey == value
  {
    state.claudeApiKey := value;
  }

  /** `on_blur` of the prompt textarea. */
  method OnBlur(state: State, value: string)
    modifies state`input
    ensures state.input == value
  {
    state.input := value;
  }

  // ---------------------------------------------------------------------
  // Sending a prompt
  // ---------------------------------------------------------------------

  /** What a model's stream produced: its chunks in order, and whether it
      then finished (false: the iterator raised after those chunks). */
  datatype Reply = Reply(chunks: seq<string>, completes: bool)

  /** The model vendor, `gemini.send_prompt(model, prompt, history)`, as a
      function of the model name, the prompt and the history it is given. */
  type Vendor = (string, string, seq<ChatMessage>) -> Reply

  /** The exceptions that end `send_prompt`: a model id that is not one of
      the Gemini values, no Gemini key when the stream starts, or an error
      raised by the stream itself. */
  datatype Failure = UnknownModel(model: string) | MissingGeminiKey | StreamRaised(model: string)

  /** The model name the handler passes to the Gemini client for a
      conversation's model id; None when no branch matches. */
  function GeminiModelFor(model: string): (name: Option<string>)
    ensures name.Some? <==> ModelsOf(model).Some?
    ensures name.Some? ==> name.value == model
  {
    if model == Gemini15Flash.Value() then Some("gemini-1.5-flash")
    else if model == Gemini20Flash.Value() then Some("gemini-2.0-flash")
    else if model == Gemini15Pro.Value() then Some("gemini-1.5-pro")
    else None
  }

  /** The conversations a send works on: on the first send one empty
      conversation per selected model, afterwards the existing ones. */
  function OpenConversations(conversations: seq<Conversation>, models: seq<string>): (targets: seq<Conversation>)
    ensures targets != [] <==> conversations != [] || models != []
    ensures forall c :: c in targets ==> c in conversations || c.messages == []
  {
    if conversations == [] then seq(|models|, i requires 0 <= i < |models| => Conversation(model := models[i], messages := []))
    else conversations
  }

  /** One conversation after its turn, the exception that ended the turn if
      any, and the number of times the handler yielded during it. */
  datatype TurnResult = TurnResult(conversation: Conversation, failure: Option<Failure>, snapshots: nat)

  /** One turn of one conversation: the user message and a placeholder are
      appended, then the model's chunks are appended to the placeholder and
      it is marked done; an exception leaves the placeholder in progress. */
  function Turn(c: Conversation, prompt: string, geminiApiKey: string, vendor: Vendor): (t: TurnResult)
    ensures t.conversation.model == c.model && |t.conversation.messages| == |c.messages| + 2
    ensures t.snapshots >= if t.failure.None? then 2 else 1
  {
    var question := ChatMessage(role := User, content := prompt);
    var placeholder := ChatMessage(role := Model, inProgress := true);
    match GeminiModelFor(c.model)
    case None =>
      TurnResult(c.(messages := c.messages + [question, placeholder]), Some(UnknownModel(c.model)), 1)
    case Some(name) =>
      if geminiApiKey == "" then
        TurnResult(c.(messages := c.messages + [question, placeholder]), Some(MissingGeminiKey), 1)
      else
        var reply := vendor(name, prompt, c.messages);
        var answer := ChatMessage(role := Model, content := Concat(reply.chunks), inProgress := !reply.completes);
        if reply.completes then
          TurnResult(c.(messages := c.messages + [question, answer]), None, |reply.chunks| + 2)
        else
          TurnResult(c.(messages := c.messages + [question, answer]), Some(StreamRaised(name)), |reply.chunks| + 1)
  }

  /** The conversations after a send, the exception that ended it if any,
      and the number of times the handler yielded. */
  datatype Dispatch = Dispatch(conversations: seq<Conversation>, failure: Option<Failure>, snapshots: nat)

  /** The turns of `conversations`, taken one after the other in list order;
      the first exception ends the send and leaves the rest untouched. */
  function Dispatched(conversations: seq<Conversation>, prompt: string, geminiApiKey: string, vendor: Vendor): (d: Dispatch)
    ensures conversations != [] ==> d.snapshots >= 1
    ensures d.failure.None? ==> d.snapshots >= 2 * |conversations|
  {
    if conversations == [] then Dispatch([], None, 0)
    else
      var t := Turn(conversations[0], prompt, geminiApiKey, vendor);
      if t.failure.Some? then Dispatch([t.conversation] + conversations[1..], t.failure, t.snapshots)
      else Join([t.conversation], t.snapshots, Dispatched(conversations[1..], prompt, geminiApiKey, vendor))
  }

  /** Finished conversations and snapshots placed before the rest of a send. */
  function Join(done: seq<Conversation>, snapshots: nat, rest: Dispatch): (d: Dispatch)
    ensures |d.conversations| == |done| + |rest.conversations|
    ensures d.conversations[..|done|] == done && d.conversations[|done|..] == rest.conversations
    ensures d.failure == rest.failure && d.snapshots >= rest.snapshots
  {
    Dispatch(done + rest.conversations, rest.failure, snapshots + rest.snapshots)
  }

  /** The number of turns that end without an exception before the first
      that ends with one (the length of the list when none does). */
  function FirstFailure(conversations: seq<Conversation>, prompt: string, geminiApiKey: string, vendor: Vendor): (k: nat)
    ensures k <= |conversations|
    ensures forall i :: 0 <= i < k ==> Turn(conversations[i], prompt, geminiApiKey, vendor).failure.None?
    ensures k < |conversations| ==> Turn(conversations[k], prompt, geminiApiKey, vendor).failure.Some?
  {
    if conversations == [] then 0
    else if Turn(conversations[0], prompt, geminiApiKey, vendor).failure.Some? then 0
    else
      var k := FirstFailure(conversations[1..], prompt, geminiApiKey, vendor);
      TurnsOfTail(conversations, k, prompt, geminiApiKey, vendor);
      1 + k
  }

  /** What the turns of a list's tail do, read at the list's own indices. */
  lemma TurnsOfTail(conversations: seq<Conversation>, k: nat, prompt: string, geminiApiKey: string, vendor: Vendor)
    requires conversations != [] && k < |conversations|
    requires forall i :: 0 <= i < k ==> Turn(conversations[1..][i], prompt, geminiApiKey, vendor).failure.None?
    requires k < |conversations| - 1 ==> Turn(conversations[1..][k], prompt, geminiApiKey, vendor).failure.Some?
    ensures forall i :: 1 <= i <= k ==> Turn(conversations[i], prompt, geminiApiKey, vendor).failure.None?
    ensures k + 1 < |conversations| ==> Turn(conversations[k + 1], prompt, geminiApiKey, vendor).failure.Some?
  {
    forall i | 1 <= i <= k ensures Turn(conversations[i], prompt, geminiApiKey, vendor).failure.None? {
      assert conversations[i] == conversations[1..][i - 1];
    }
  }

  /** A turn appends exactly two messages and leaves the earlier ones as they
      were: the question, then the model's message, which holds the whole
      streamed answer and is done when the stream finishes, and is still in
      progress when the turn raises. The vendor is handed the messages from
      before the turn, without the new question and placeholder. */
  lemma TurnAppendsTwoMessages(c: Conversation, prompt: string, geminiApiKey: string, vendor: Vendor)
    ensures var t := Turn(c, prompt, geminiApiKey, vendor);
      t.conversation.model == c.model &&
      |t.conversation.messages| == |c.messages| + 2 &&
      t.conversation.messages[..|c.messages|] == c.messages &&
      t.conversation.messages[|c.messages|] == ChatMessage(role := User, content := prompt) &&
      t.conversation.messages[|c.messages| + 1].role == Model
    ensures var t := Turn(c, prompt, geminiApiKey, vendor);
      t.failure.None? <==> ModelsOf(c.model).Some? && geminiApiKey != "" && vendor(c.model, prompt, c.messages).completes
    ensures var t := Turn(c, prompt, geminiApiKey, vendor); var reply := vendor(c.model, prompt, c.messages);
      t.failure.None? ==>
        t.conversation.messages[|c.messages| + 1] == ChatMessage(role := Model, content := Concat(reply.chunks)) &&
        t.snapshots == |reply.chunks| + 2
    ensures var t := Turn(c, prompt, geminiApiKey, vendor);
      t.failure.Some? ==> t.conversation.messages[|c.messages| + 1].inProgress
  {
  }

  /** Once a Gemini call has started, the model's message holds every chunk
      that arrived, finished or not: a stream that raises leaves its partial
      text in the still-in-progress placeholder after one yield per chunk
      plus one, and the turn reports the stream's exception. */
  lemma StreamedTurn(c: Conversation, prompt: string, geminiApiKey: string, vendor: Vendor)
    requires ModelsOf(c.model).Some? && geminiApiKey != ""
    ensures var t := Turn(c, prompt, geminiApiKey, vendor); var reply := vendor(c.model, prompt, c.messages);
      t.conversation.messages[|c.messages| + 1] ==
        ChatMessage(role := Model, content := Concat(reply.chunks), inProgress := !reply.completes) &&
      t.snapshots == |reply.chunks| + (if reply.completes then 2 else 1) &&
      t.failure == (if reply.completes then None else Some(StreamRaised(c.model)))
  {
  }

  /** While a turn streams, the placeholder's text after any number of chunks
      is a prefix of the text the model's message ends with. */
  lemma PartialAnswerIsPrefix(c: Conversation, prompt: string, geminiApiKey: string, vendor: Vendor, j: nat)
    requires ModelsOf(c.model).Some? && geminiApiKey != ""
    requires j <= |vendor(c.model, prompt, c.messages).chunks|
    ensures var chunks := vendor(c.model, prompt, c.messages).chunks;
      StartsWith(Turn(c, prompt, geminiApiKey, vendor).conversation.messages[|c.messages| + 1].content, Concat(chunks[..j]))
  {
    StreamedTurn(c, prompt, geminiApiKey, vendor);
    ConcatPrefix(vendor(c.model, prompt, c.messages).chunks, j);
  }

  /** Which exception ends a turn: an id outside the enumeration raises
      before the key is looked at, and a missing key raises before any chunk
      arrives, so the placeholder stays empty. */
  lemma TurnFailures(c: Conversation, prompt: string, geminiApiKey: string, vendor: Vendor)
    ensures var t := Turn(c, prompt, geminiApiKey, vendor);
      (t.failure == Some(UnknownModel(c.model)) <==> ModelsOf(c.model).None?) &&
      (ModelsOf(c.model).Some? && geminiApiKey == "" ==>
        t.failure == Some(MissingGeminiKey) &&
        t.conversation.messages[|c.messages| + 1] == ChatMessage(role := Model, inProgress := true) &&
        t.snapshots == 1) &&
      (ModelsOf(c.model).None? ==>
        t.conversation.messages[|c.messages| + 1] == ChatMessage(role := Model, content := "", inProgress := true) &&
        t.snapshots == 1)
  {
  }

  lemma DispatchedFrom(conversations: seq<Conversation>, i: nat, prompt: string, geminiApiKey: string, vendor: Vendor)
    requires i < |conversations|
    ensures Dispatched(conversations[i..], prompt, geminiApiKey, vendor) ==
      var t := Turn(conversations[i], prompt, geminiApiKey, vendor);
      if t.failure.Some? then Dispatch([t.conversation] + conversations[i + 1..], t.failure, t.snapshots)
      else Join([t.conversation], t.snapshots, Dispatched(conversations[i + 1..], prompt, geminiApiKey, vendor))
  {
  }

  /** A turn that ends normally moves the loop of `send_prompt` one
      conversation on without changing where the send is heading. */
  lemma DispatchStep(targets: seq<Conversation>, i: nat, done: seq<Conversation>, snapshots: nat,
                     prompt: string, geminiApiKey: string, vendor: Vendor)
    requires i < |targets|
    requires Join(done, snapshots, Dispatched(targets[i..], prompt, geminiApiKey, vendor)) == Dispatched(targets, prompt, geminiApiKey, vendor)
    requires Turn(targets[i], prompt, geminiApiKey, vendor).failure.None?
    ensures var t := Turn(targets[i], prompt, geminiApiKey, vendor);
      Join(done + [t.conversation], snapshots + t.snapshots, Dispatched(targets[i + 1..], prompt, geminiApiKey, vendor))
      == Dispatched(targets, prompt, geminiApiKey, vendor)
  {
    DispatchedFrom(targets, i, prompt, geminiApiKey, vendor);
  }

  /** A turn that raises ends the send: what the loop has done, this
      conversation's turn, and the rest untouched. */
  lemma DispatchStop(targets: seq<Conversation>, i: nat, done: seq<Conversation>, snapshots: nat,
                     prompt: string, geminiApiKey: string, vendor: Vendor)
    requires i < |targets|
    requires Join(done, snapshots, Dispatched(targets[i..], prompt, geminiApiKey, vendor)) == Dispatched(targets, prompt, geminiApiKey, vendor)
    requires Turn(targets[i], prompt, geminiApiKey, vendor).failure.Some?
    ensures var t := Turn(targets[i], prompt, geminiApiKey, vendor);
      Dispatch(done + [t.conversation] + targets[i + 1..], t.failure, snapshots + t.snapshots)
      == Dispatched(targets, prompt, geminiApiKey, vendor)
  {
    DispatchedFrom(targets, i, prompt, geminiApiKey, vendor);
  }

  /** `send_prompt`, one conversation at a time: the body of its loop. */
  method TakeTurn(state: State, i: nat, prompt: string, vendor: Vendor) returns (failure: Option<Failure>, snapshots: nat)
    requires i < |state.conversations|
    modifies state`conversations
    ensures var t := Turn(old(state.conversations[i]), prompt, state.geminiApiKey, vendor);
      state.conversations == old(state.conversations)[i := t.conversation] && failure == t.failure && snapshots == t.snapshots
  {
    var conversation := state.conversations[i];
    var model := conversation.model;
    var history := conversation.messages;
    var question := ChatMessage(role := User, content := prompt);
    var placeholder := ChatMessage(role := Model, inProgress := true);
    state.conversations := state.conversations[i := conversation.(messages := history + [question])];
    state.conversations := state.conversations[i := state.conversations[i].(messages := state.conversations[i].messages + [placeholder])];
    assert state.conversations[i].messages == history + [question, placeholder];
    snapshots := 1;

    var name := GeminiModelFor(model);
    if name.None? {
      failure := Some(UnknownModel(model));
      return;
    }
    if state.geminiApiKey == "" {
      failure := Some(MissingGeminiKey);
      return;
    }
    var reply := vendor(name.value, prompt, history);
    ghost var before := old(state.conversations);
    var j := 0;
    while j < |reply.chunks|
      invariant j <= |reply.chunks|
      invariant state.conversations ==
        before[i := conversation.(messages := history + [question, placeholder.(content := Concat(reply.chunks[..j]))])]
      invariant snapshots == 1 + j
    {
      var messages := state.conversations[i].messages;
      var last := messages[|messages| - 1];
      state.conversations := state.conversations[i :=
        state.conversations[i].(messages := messages[|messages| - 1 := last.(content := last.content + reply.chunks[j])])];
      assert reply.chunks[..j + 1][..j] == reply.chunks[..j];
      assert Concat(reply.chunks[..j + 1]) == Concat(reply.chunks[..j]) + reply.chunks[j];
      assert messages[|messages| - 1 := last.(content := last.content + reply.chunks[j])]
          == history + [question, placeholder.(content := Concat(reply.chunks[..j + 1]))];
      snapshots := snapshots + 1;
      j := j + 1;
    }
    assert reply.chunks[..j] == reply.chunks;
    ghost var answer := placeholder.(content := Concat(reply.chunks), inProgress := !reply.completes);
    assert Turn(conversation, prompt, state.geminiApiKey, vendor).conversation == conversation.(messages := history + [question, answer]);
    if !reply.completes {
      failure := Some(StreamRaised(name.value));
      return;
    }
    var messages := state.conversations[i].messages;
    state.conversations := state.conversations[i :=
      state.conversations[i].(messages := messages[|messages| - 1 := messages[|messages| - 1].(inProgress := false)])];
    assert messages[|messages| - 1 := messages[|messages| - 1].(inProgress := false)] == history + [question, answer];
    snapshots := snapshots + 1;
    failure := None;
  }

  /** The first send's loop that appends one empty conversation per selected
      model, in selection order. */
  method StartConversations(state: State)
    requires state.conversations == []
    modifies state`conversations
    ensures state.conversations == OpenConversations([], state.models)
  {
    var j := 0;
    while j < |state.models|
      invariant j <= |state.models|
      invariant |state.conversations| == j
      invariant forall k :: 0 <= k < j ==> state.conversations[k] == Conversation(model := state.models[k], messages := [])
    {
      state.conversations := state.conversations + [Conversation(model := state.models[j], messages := [])];
      j := j + 1;
    }
  }

  /** One iteration of `send_prompt`'s loop, with the send it belongs to:
      the conversations already served, the ones still to serve, and what the
      whole send comes to. */
  method ServeNext(state: State, i: nat, prompt: string, vendor: Vendor, ghost targets: seq<Conversation>,
                   ghost done: seq<Conversation>, ghost snapshots: nat, ghost spec: Dispatch)
      returns (failure: Option<Failure>, n: nat)
    requires |done| == i < |targets|
    requires state.conversations == done + targets[i..]
    requires spec == Dispatched(targets, prompt, state.geminiApiKey, vendor)
    requires Join(done, snapshots, Dispatched(targets[i..], prompt, state.geminiApiKey, vendor)) == spec
    modifies state`conversations
    ensures |state.conversations| == |targets|
    ensures failure.Some? ==> Dispatch(state.conversations, failure, snapshots + n) == spec
    ensures failure.None? ==> state.conversations == done + [state.conversations[i]] + targets[i + 1..]
    ensures failure.None? ==>
      Join(done + [state.conversations[i]], snapshots + n, Dispatched(targets[i + 1..], prompt, state.geminiApiKey, vendor)) == spec
  {
    ghost var t := Turn(targets[i], prompt, state.geminiApiKey, vendor);
    ReplaceNext(done, targets, i, t.conversation);
    failure, n := TakeTurn(state, i, prompt, vendor);
    if failure.Some? {
      DispatchStop(targets, i, done, snapshots, prompt, state.geminiApiKey, vendor);
    } else {
      DispatchStep(targets, i, done, snapshots, prompt, state.geminiApiKey, vendor);
    }
  }

  /** `send_prompt`: opens the conversations on the first send, takes the
      prompt out of the input box, then runs every conversation's turn in
      list order until one raises. */
  method SendPrompt(state: State, vendor: Vendor) returns (failure: Option<Failure>, snapshots: nat)
    modifies state`conversations, state`input
    ensures var d := Dispatched(OpenConversations(old(state.conversations), old(state.models)),
                                old(state.input), old(state.geminiApiKey), vendor);
      state.conversations == d.conversations && failure == d.failure && snapshots == d.snapshots
    ensures state.input == ""
  {
    if state.conversations == [] {
      StartConversations(state);
    }
    ghost var targets := state.conversations;
    ghost var key := state.geminiApiKey;
    var prompt := state.input;
    ghost var spec := Dispatched(targets, prompt, key, vendor);
    state.input := "";

    failure, snapshots := None, 0;
    ghost var done: seq<Conversation> := [];
    var i := 0;
    while i < |state.conversations|
      invariant |done| == i <= |targets|
      invariant state.conversations == done + targets[i..]
      invariant Join(done, snapshots, Dispatched(targets[i..], prompt, key, vendor)) == spec
      invariant failure == None
      invariant state.input == ""
    {
      var f, n := ServeNext(state, i, prompt, vendor, targets, done, snapshots, spec);
      if f.Some? {
        failure, snapshots := f, snapshots + n;
        return;
      }
      done, snapshots := done + [state.conversations[i]], snapshots + n;
      i := i + 1;
    }
    assert targets[i..] == [];
  }

  // ---------------------------------------------------------------------
  // Properties of a send
  // ---------------------------------------------------------------------

  /** The first send opens one empty conversation per selected model, in
      selection order. */
  lemma FirstSendOpensOnePerModel(models: seq<string>)
    ensures |OpenConversations([], models)| == |models|
    ensures forall i :: 0 <= i < |models| ==>
      OpenConversations([], models)[i] == Conversation(model := models[i], messages := [])
  {
  }

  /** Later sends reuse the open conversations and ignore the selection, even
      when it has changed since. */
  lemma LaterSendsIgnoreSelection(conversations: seq<Conversation>, models: seq<string>)
    requires conversations != []
    ensures OpenConversations(conversations, models) == conversations
  {
  }

  /** Conversations are taken in list order: those before the first raising
      turn are finished, that one holds its own turn, the later ones are
      untouched, and the send reports that turn's exception, or none. */
  lemma {:induction false} DispatchInOrder(conversations: seq<Conversation>, prompt: string, geminiApiKey: string, vendor: Vendor)
    ensures var d := Dispatched(conversations, prompt, geminiApiKey, vendor);
      |d.conversations| == |conversations|
    ensures var d := Dispatched(conversations, prompt, geminiApiKey, vendor);
      var k := FirstFailure(conversations, prompt, geminiApiKey, vendor);
      forall i :: 0 <= i < |conversations| && i <= k ==>
        d.conversations[i] == Turn(conversations[i], prompt, geminiApiKey, vendor).conversation
    ensures var d := Dispatched(conversations, prompt, geminiApiKey, vendor);
      var k := FirstFailure(conversations, prompt, geminiApiKey, vendor);
      forall i :: k < i < |conversations| ==> d.conversations[i] == conversations[i]
    ensures var d := Dispatched(conversations, prompt, geminiApiKey, vendor);
      var k := FirstFailure(conversations, prompt, geminiApiKey, vendor);
      d.failure == if k < |conversations| then Turn(conversations[k], prompt, geminiApiKey, vendor).failure else None
  {
    DispatchKeepsLength(conversations, prompt, geminiApiKey, vendor);
    DispatchServesPrefix(conversations, prompt, geminiApiKey, vendor);
    DispatchLeavesRest(conversations, prompt, geminiApiKey, vendor);
    DispatchReportsFailure(conversations, prompt, geminiApiKey, vendor);
  }

  lemma {:induction false} DispatchKeepsLength(conversations: seq<Conversation>, prompt: string, geminiApiKey: string, vendor: Vendor)
    ensures |Dispatched(conversations, prompt, geminiApiKey, vendor).conversations| == |conversations|
  {
    if conversations != [] && Turn(conversations[0], prompt, geminiApiKey, vendor).failure.None? {
      DispatchKeepsLength(conversations[1..], prompt, geminiApiKey, vendor);
    }
  }

  lemma {:induction false} DispatchServesPrefix(conversations: seq<Conversation>, prompt: string, geminiApiKey: string, vendor: Vendor)
    ensures var d := Dispatched(conversations, prompt, geminiApiKey, vendor);
      var k := FirstFailure(conversations, prompt, geminiApiKey, vendor);
      forall i :: 0 <= i < |conversations| && i <= k && i < |d.conversations| ==>
        d.conversations[i] == Turn(conversations[i], prompt, geminiApiKey, vendor).conversation
  {
    if conversations != [] && Turn(conversations[0], prompt, geminiApiKey, vendor).failure.None? {
      var rest := conversations[1..];
      var d, dr := Dispatched(conversations, prompt, geminiApiKey, vendor), Dispatched(rest, prompt, geminiApiKey, vendor);
      var k := FirstFailure(conversations, prompt, geminiApiKey, vendor);
      DispatchServesPrefix(rest, prompt, geminiApiKey, vendor);
      assert d.conversations == [Turn(conversations[0], prompt, geminiApiKey, vendor).conversation] + dr.conversations;
      forall i | 0 <= i < |conversations| && i <= k && i < |d.conversations|
        ensures d.conversations[i] == Turn(conversations[i], prompt, geminiApiKey, vendor).conversation
      {
        if i > 0 {
          assert rest[i - 1] == conversations[i];
          assert d.conversations[i] == dr.conversations[i - 1];
        }
      }
    }
  }

  lemma {:induction false} DispatchLeavesRest(conversations: seq<Conversation>, prompt: string, geminiApiKey: string, vendor: Vendor)
    ensures var d := Dispatched(conversations, prompt, geminiApiKey, vendor);
      var k := FirstFailure(conversations, prompt, geminiApiKey, vendor);
      forall i :: k < i < |conversations| && i < |d.conversations| ==> d.conversations[i] == conversations[i]
  {
    if conversations != [] && Turn(conversations[0], prompt, geminiApiKey, vendor).failure.None? {
      DispatchLeavesRest(conversations[1..], prompt, geminiApiKey, vendor);
      var rest := conversations[1..];
      assert forall i :: 1 <= i < |conversations| ==> rest[i - 1] == conversations[i];
    }
  }

  lemma {:induction false} DispatchReportsFailure(conversations: seq<Conversation>, prompt: string, geminiApiKey: string, vendor: Vendor)
    ensures var d := Dispatched(conversations, prompt, geminiApiKey, vendor);
      var k := FirstFailure(conversations, prompt, geminiApiKey, vendor);
      d.failure == if k < |conversations| then Turn(conversations[k], prompt, geminiApiKey, vendor).failure else None
  {
    if conversations != [] && Turn(conversations[0], prompt, geminiApiKey, vendor).failure.None? {
      DispatchReportsFailure(conversations[1..], prompt, geminiApiKey, vendor);
    }
  }

  /** When no turn raises, every conversation has gained exactly the question
      and the model's finished answer, the concatenation of its chunks. */
  lemma EveryConversationAnswered(conversations: seq<Conversation>, prompt: string, geminiApiKey: string, vendor: Vendor)
    requires Dispatched(conversations, prompt, geminiApiKey, vendor).failure.None?
    ensures var d := Dispatched(conversations, prompt, geminiApiKey, vendor);
      |d.conversations| == |conversations| &&
      forall i :: 0 <= i < |conversations| ==>
        d.conversations[i].messages == conversations[i].messages + [
          ChatMessage(role := User, content := prompt),
          ChatMessage(role := Model, content := Concat(vendor(conversations[i].model, prompt, conversations[i].messages).chunks))]
  {
  }

  /** A model id outside the enumeration ends the whole send: no conversation
      after it is touched, whatever its model. */
  lemma UnknownModelStopsTheSend(conversations: seq<Conversation>, j: nat, prompt: string, geminiApiKey: string, vendor: Vendor)
    requires j < |conversations| && ModelsOf(conversations[j].model).None?
    ensures var d := Dispatched(conversations, prompt, geminiApiKey, vendor);
      |d.conversations| == |conversations| && d.failure.Some? &&
      forall i :: j < i < |conversations| ==> d.conversations[i] == conversations[i]
  {
    DispatchInOrder(conversations, prompt, geminiApiKey, vendor);
    TurnFailures(conversations[j], prompt, geminiApiKey, vendor);
    var k := FirstFailure(conversations, prompt, geminiApiKey, vendor);
    assert k <= j;
  }

  /** Messages alternate user, model, user, model, ... */
  ghost predicate Alternating(messages: seq<ChatMessage>)
  {
    |messages| % 2 == 0 &&
    forall i :: 0 <= i < |messages| ==> messages[i].role == if i % 2 == 0 then User else Model
  }

  /** Every turn, finished or not, keeps a conversation alternating. */
  lemma TurnKeepsAlternation(c: Conversation, prompt: string, geminiApiKey: string, vendor: Vendor)
    requires Alternating(c.messages)
    ensures Alternating(Turn(c, prompt, geminiApiKey, vendor).conversation.messages)
  {
  }

  /** A send keeps every conversation alternating. */
  lemma SendKeepsAlternation(conversations: seq<Conversation>, prompt: string, geminiApiKey: string, vendor: Vendor)
    requires forall i :: 0 <= i < |conversations| ==> Alternating(conversations[i].messages)
    ensures var d := Dispatched(conversations, prompt, geminiApiKey, vendor);
      forall i :: 0 <= i < |d.conversations| ==> Alternating(d.conversations[i].messages)
  {
    DispatchInOrder(conversations, prompt, geminiApiKey, vendor);
    forall i | 0 <= i < |conversations| {
      TurnKeepsAlternation(conversations[i], prompt, geminiApiKey, vendor);
    }
  }

  /** No message is in progress. */
  ghost predicate Settled(messages: seq<ChatMessage>)
  {
    forall i :: 0 <= i < |messages| ==> !messages[i].inProgress
  }

  /** From a settled conversation, a turn leaves it settled exactly when it
      does not raise; a raising turn leaves exactly its own placeholder in
      progress. */
  lemma TurnSettles(c: Conversation, prompt: string, geminiApiKey: string, vendor: Vendor)
    requires Settled(c.messages)
    ensures var m := Turn(c, prompt, geminiApiKey, vendor).conversation.messages;
      Turn(c, prompt, geminiApiKey, vendor).failure.None? <==> Settled(m)
    ensures var m := Turn(c, prompt, geminiApiKey, vendor).conversation.messages;
      forall i :: 0 <= i < |m| - 1 ==> !m[i].inProgress
  {
    var m := Turn(c, prompt, geminiApiKey, vendor).conversation.messages;
    TurnAppendsTwoMessages(c, prompt, geminiApiKey, vendor);
    forall i | 0 <= i < |c.messages| ensures !m[i].inProgress {
      assert m[i] == m[..|c.messages|][i];
    }
  }

  /** The placeholder of a raising turn is never finished: it is still in
      progress after the next send, so that conversation then holds two
      messages in progress when that turn raises as well. */
  lemma PlaceholderStaysInProgress(c: Conversation, first: string, second: string, geminiApiKey: string, vendor: Vendor)
    requires Turn(c, first, geminiApiKey, vendor).failure.Some?
    ensures var once := Turn(c, first, geminiApiKey, vendor).conversation;
      var twice := Turn(once, second, geminiApiKey, vendor);
      twice.conversation.messages[|c.messages| + 1].inProgress &&
      (twice.failure.Some? ==> twice.conversation.messages[|c.messages| + 3].inProgress)
  {
  }

  /** One Gemini model answering "Hi" with the chunks "Hel" and "lo": one
      snapshot for the placeholder, one per chunk, one when done. */
  lemma HelloExample(vendor: Vendor)
    requires vendor("gemini-2.0-flash", "Hi", []) == Reply(["Hel", "lo"], true)
    ensures Dispatched(OpenConversations([], ["gemini-2.0-flash"]), "Hi", "key", vendor) ==
      Dispatch([Conversation("gemini-2.0-flash", [ChatMessage(User, "Hi", false), ChatMessage(Model, "Hello", false)])], None, 4)
  {
    var chunks := ["Hel", "lo"];
    assert chunks[..1] == ["Hel"] && ["Hel"][..0] == [];
    assert Concat(chunks) == "Hello";
    var targets := OpenConversations([], ["gemini-2.0-flash"]);
    assert targets == [Conversation("gemini-2.0-flash", [])];
    assert targets[1..] == [];
    assert GeminiModelFor("gemini-2.0-flash") == Some("gemini-2.0-flash");
    var t := Turn(targets[0], "Hi", "key", vendor);
    assert t == TurnResult(Conversation("gemini-2.0-flash", [ChatMessage(User, "Hi", false), ChatMessage(Model, "Hello", false)]), None, 4);
    assert Dispatched(targets[1..], "Hi", "key", vendor) == Dispatch([], None, 0);
  }

  /** Two Gemini models: the first answers "a1", the second raises after
      "b1". The first is finished, the second keeps its partial text still in
      progress, and the send ends with the stream's exception. */
  lemma TwoModelsSecondRaises(vendor: Vendor)
    requires vendor("gemini-2.0-flash", "X", []) == Reply(["a1"], true)
    requires vendor("gemini-1.5-pro", "X", []) == Reply(["b1"], false)
    ensures Dispatched(OpenConversations([], ["gemini-2.0-flash", "gemini-1.5-pro"]), "X", "key", vendor) ==
      Dispatch([Conversation("gemini-2.0-flash", [ChatMessage(User, "X", false), ChatMessage(Model, "a1", false)]),
                Conversation("gemini-1.5-pro", [ChatMessage(User, "X", false), ChatMessage(Model, "b1", true)])],
               Some(StreamRaised("gemini-1.5-pro")), 5)
  {
    assert ["a1"][..0] == [] && ["b1"][..0] == [];
    assert Concat(["a1"]) == "a1" && Concat(["b1"]) == "b1";
    var targets := OpenConversations([], ["gemini-2.0-flash", "gemini-1.5-pro"]);
    assert targets == [Conversation("gemini-2.0-flash", []), Conversation("gemini-1.5-pro", [])];
    assert targets[1..] == [Conversation("gemini-1.5-pro", [])] && targets[1..][1..] == [];
    var first := Conversation("gemini-2.0-flash", [ChatMessage(User, "X", false), ChatMessage(Model, "a1", false)]);
    var second := Conversation("gemini-1.5-pro", [ChatMessage(User, "X", false), ChatMessage(Model, "b1", true)]);
    assert GeminiModelFor("gemini-2.0-flash") == Some("gemini-2.0-flash");
    assert GeminiModelFor("gemini-1.5-pro") == Some("gemini-1.5-pro");
    assert Turn(targets[0], "X", "key", vendor) == TurnResult(first, None, 3);
    assert Turn(targets[1], "X", "key", vendor) == TurnResult(second, Some(StreamRaised("gemini-1.5-pro")), 2);
    assert Dispatched(targets[1..], "X", "key", vendor) == Dispatch([second], Some(StreamRaised("gemini-1.5-pro")), 2);
  }

  /** Replacing the next element of a list the loop is working through. */
  lemma ReplaceNext<T>(done: seq<T>, targets: seq<T>, i: nat, x: T)
    requires |done| == i < |targets|
    ensures (done + targets[i..])[i] == targets[i]
    ensures (done + targets[i..])[i := x] == done + [x] + targets[i + 1..]
  {
    assert targets[i..] == [targets[i]] + targets[i + 1..];
  }
}
