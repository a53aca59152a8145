/** The starter kit page: example prompts, a prompt box, and a send button
    whose handler streams a canned answer into an output that only grows. */
module StarterKit {
  import opened Text

  /** The example prompts shown as clickable boxes; each box's key is its text. */
  const EXAMPLES: seq<string> := [
    "How to tie a shoe",
    "Make a brownie recipe",
    "Write an email asking for a sick day off"
  ]

  /** What the page shows: the prompt box, the output and the spinner. */
  datatype Page = Page(input: string, output: string, inProgress: bool)

  /** The page state; every field starts at its type's default. */
  class State {
    var input: string
    var output: string
    var inProgress: bool

    constructor ()
      ensures View() == Page("", "", false)
    {
      input, output, inProgress := "", "", false;
    }

    function View(): Page
      reads this
    {
      Page(input, output, inProgress)
    }
  }

  /** The stand-in for a model call: two fixed chunks, the second echoing
      the prompt. */
  function CallApi(input: string): (chunks: seq<string>)
    ensures |chunks| == 2 && |input| <= |chunks[1]|
    ensures chunks[1][|chunks[1]| - |input|..] == input
  {
    ["Example of streaming an output", "\n\nOutput: " + input]
  }

  /** The page seen after each chunk of a stream has been appended to
      `output`. */
  function Streaming(output: string, chunks: seq<string>): (pages: seq<Page>)
    ensures |pages| == |chunks|
    ensures forall i :: 0 <= i < |pages| ==>
      pages[i].input == "" && pages[i].inProgress && StartsWith(pages[i].output, output)
  {
    seq(|chunks|, i requires 0 <= i < |chunks| => Page("", output + Concat(chunks[..i + 1]), true))
  }

  lemma StreamingStep(output: string, chunks: seq<string>, i: nat)
    requires i < |chunks|
    ensures Concat(chunks[..i + 1]) == Concat(chunks[..i]) + chunks[i]
    ensures output + Concat(chunks[..i]) + chunks[i] == output + Concat(chunks[..i + 1])
    ensures Streaming(output, chunks[..i + 1]) == Streaming(output, chunks[..i]) + [Page("", output + Concat(chunks[..i + 1]), true)]
  {
    assert chunks[..i + 1][..i] == chunks[..i];
    var longer := Streaming(output, chunks[..i + 1]);
    var shorter := Streaming(output, chunks[..i]);
    forall k | 0 <= k < i ensures longer[k] == shorter[k] {
      assert chunks[..i + 1][..k + 1] == chunks[..i][..k + 1];
    }
    assert chunks[..i + 1][..i + 1] == chunks[..i + 1];
    assert longer == shorter + [longer[i]];
  }

  /** The pages `click_send` yields, one per `yield`: none for an empty
      prompt; otherwise the cleared prompt with the spinner on, one per
      chunk, and the final page with the spinner off. */
  function SendTrace(p: Page): (trace: seq<Page>)
    ensures |trace| == if p.input == "" then 0 else 4
  {
    if p.input == "" then []
    else
      var chunks := CallApi(p.input);
      [Page("", p.output, true)] + Streaming(p.output, chunks) + [Page("", p.output + Concat(chunks), false)]
  }

  /** An empty prompt yields nothing. Otherwise the spinner is on and the
      prompt box cleared before the first chunk, the spinner is on at every
      snapshot but the last and off at the last, and the output ends as the
      old output followed by both chunks. */
  lemma SendTraceShape(p: Page)
    ensures p.input == "" <==> SendTrace(p) == []
    ensures var trace := SendTrace(p);
      p.input != "" ==>
        |trace| == 4 &&
        trace[0] == Page("", p.output, true) &&
        trace[3] == Page("", p.output + "Example of streaming an output" + "\n\nOutput: " + p.input, false) &&
        (forall i :: 0 <= i < 3 ==> trace[i].inProgress) &&
        (forall i :: 0 <= i < 4 ==> trace[i].input == "")
  {
    if p.input != "" {
      OutputsOfSend(p);
    }
  }

  /** The outputs of the four snapshots of a non-empty send. */
  lemma OutputsOfSend(p: Page)
    requires p.input != ""
    ensures var trace, chunks := SendTrace(p), CallApi(p.input);
      |trace| == 4 &&
      trace[0] == Page("", p.output, true) &&
      trace[1] == Page("", p.output + chunks[0], true) &&
      trace[2] == Page("", p.output + chunks[0] + chunks[1], true) &&
      trace[3] == Page("", p.output + chunks[0] + chunks[1], false)
  {
    var chunks := CallApi(p.input);
    assert chunks[..1] == [chunks[0]] && [chunks[0]][..0] == [] && chunks[..2] == chunks;
    assert Concat([chunks[0]]) == chunks[0];
    assert Concat(chunks) == chunks[0] + chunks[1];
  }

  /** The output is only ever appended to: the first snapshot keeps the
      output the click found, and every snapshot's output extends the one
      before it. */
  lemma OutputOnlyGrows(p: Page)
    ensures var trace := SendTrace(p);
      (trace != [] ==> StartsWith(trace[0].output, p.output)) &&
      forall k :: 0 <= k < |trace| - 1 ==> StartsWith(trace[k + 1].output, trace[k].output)
  {
    if p.input != "" {
      OutputsOfSend(p);
      var trace, chunks := SendTrace(p), CallApi(p.input);
      assert (p.output + chunks[0])[..|p.output|] == p.output;
      assert (p.output + chunks[0] + chunks[1])[..|p.output + chunks[0]|] == p.output + chunks[0];
    }
  }

  /** Every example box holds a non-empty prompt, so a click on a box
      followed by a click on send streams the full four snapshots. */
  lemma ExamplesAreSendable(output: string, inProgress: bool)
    ensures |EXAMPLES| == 3
    ensures forall k :: k in EXAMPLES ==> |SendTrace(Page(k, output, inProgress))| == 4
  {
  }

  /** `click_send`: returns the snapshots it yields. */
  method ClickSend(state: State) returns (snapshots: seq<Page>)
    modifies state
    ensures snapshots == SendTrace(old(state.View()))
    ensures state.View() == if snapshots == [] then old(state.View()) else snapshots[|snapshots| - 1]
  {
    if state.input == "" {
      return [];
    }
    ghost var start := state.View();
    state.inProgress := true;
    var input := state.input;
    state.input := "";
    snapshots := [state.View()];

    var chunks := CallApi(input);
    ghost var output := state.output;
    for i := 0 to |chunks|
      invariant state.input == "" && state.inProgress
      invariant state.output == output + Concat(chunks[..i])
      invariant snapshots == [Page("", output, true)] + Streaming(output, chunks[..i])
    {
      StreamingStep(output, chunks, i);
      state.output := state.output + chunks[i];
      snapshots := snapshots + [state.View()];
    }
    assert chunks[..|chunks|] == chunks;
    state.inProgress := false;
    snapshots := snapshots + [state.View()];
    assert SendTrace(start) == [Page("", output, true)] + Streaming(output, chunks) + [Page("", output + Concat(chunks), false)];
  }

  /** `click_example_box`: the clicked box's example becomes the prompt. */
  method ClickExampleBox(state: State, key: string)
    requires key in EXAMPLES
    modifies state`input
    ensures state.input == key
  {
    state.input := key;
  }

  /** `textarea_on_blur`: the text in the box becomes the prompt. */
  method TextareaOnBlur(state: State, value: string)
    modifies state`input
    ensures state.input == value
  {
    state.input := value;
  }
}
