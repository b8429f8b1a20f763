/**
 * The chat page: a non-empty question is sent to the vector store's
 * similarity search; an empty result gives a warning and nothing more; any
 * other result is rendered into one grounding-context string, embedded in a
 * fixed system prompt, and sent with the raw question to the chat model,
 * whose first choice is shown.
 *
 * The vector store and the chat model are parameters: `search` stands for
 * `similarity_search` with the library's default top-K, and `complete` for
 * the chat-completions call.
 */
module Chat {
  import opened Documents

  const Separator := "\n\n\n"
  const Missing := "N/A"
  const ContentTag := "Page Content: "
  const LabelTag := "Page Number: "
  const SourceTag := "File Location: "
  const ChatModel := "gpt-4.1"
  const NoContextWarning := "No relevant context found in the PDF."

  // ---------------------------------------------------------------------------
  // Rendering the search results into the grounding context
  // ---------------------------------------------------------------------------

  /** The page label shown for a result; "N/A" when the metadata has none. */
  function PageLabel(d: Document): (shown: string)
    ensures "page_label" in d.metadata ==> shown == d.metadata["page_label"]
    ensures "page_label" !in d.metadata ==> shown == Missing
  {
    Get(d.metadata, "page_label", Missing)
  }

  /** The file location shown for a result; "N/A" when the metadata has none. */
  function SourceOf(d: Document): (source: string)
    ensures "source" in d.metadata ==> source == d.metadata["source"]
    ensures "source" !in d.metadata ==> source == Missing
  {
    Get(d.metadata, "source", Missing)
  }

  /**
   * The three-line block one search result becomes: it opens with the content
   * tag and the content, the label line comes next, it closes with the source
   * line, and it adds nothing but the three tags and two line breaks to the
   * three fields.
   */
  function Block(d: Document): (b: string)
    ensures |b| == |ContentTag| + |d.pageContent| + |LabelTag| + |PageLabel(d)| + |SourceTag| + |SourceOf(d)| + 2
    ensures HasPrefix(b, ContentTag) && b[|ContentTag|..|ContentTag| + |d.pageContent|] == d.pageContent
    ensures b[|ContentTag| + |d.pageContent|..|ContentTag| + |d.pageContent| + 1 + |LabelTag| + |PageLabel(d)|]
            == "\n" + LabelTag + PageLabel(d)
    ensures b[|b| - |SourceOf(d)| - |SourceTag| - 1..] == "\n" + SourceTag + SourceOf(d)
  {
    var contentLine := ContentTag + d.pageContent;
    var labelLine := "\n" + LabelTag + PageLabel(d);
    var sourceLine := "\n" + SourceTag + SourceOf(d);
    assert (contentLine + labelLine + sourceLine)[..|contentLine|] == contentLine;
    assert (contentLine + labelLine + sourceLine)[|contentLine|..|contentLine| + |labelLine|] == labelLine;
    assert contentLine[|ContentTag|..] == d.pageContent;
    contentLine + labelLine + sourceLine
  }

  /** The list comprehension: one block per result, in ranking order. */
  function Blocks(results: seq<Document>): (blocks: seq<string>)
    ensures |blocks| == |results|
    ensures forall i :: 0 <= i < |results| ==> blocks[i] == Block(results[i])
  {
    seq(|results|, i requires 0 <= i < |results| => Block(results[i]))
  }

  /** Python's `sep.join(parts)`: the parts plus exactly one separator between each neighbouring pair. */
  function Join(sep: string, parts: seq<string>): (r: string)
    ensures parts == [] ==> r == ""
    ensures parts != [] ==> |r| == TotalLength(parts) + SeparatorLength(sep, |parts| - 1)
  {
    if |parts| == 0 then ""
    else if |parts| == 1 then parts[0]
    else parts[0] + sep + Join(sep, parts[1..])
  }

  /**
   * The grounding context: the blocks joined by three newlines. No results
   * give the empty context, and only no results do; otherwise the context is
   * the blocks plus one three-character separator between each neighbouring
   * pair, so n results carry n - 1 separators and one result carries none.
   */
  function Context(results: seq<Document>): (c: string)
    ensures c == "" <==> results == []
    ensures results != [] ==> |c| == TotalLength(Blocks(results)) + 3 * (|results| - 1)
  {
    SeparatorLengthIsProduct(Separator, if results == [] then 0 else |results| - 1);
    Join(Separator, Blocks(results))
  }

  /** The position at which `parts[i]` starts in `Join(sep, parts)`. */
  function Offset(sep: string, parts: seq<string>, i: nat): nat
    requires i < |parts|
  {
    if i == 0 then 0 else |parts[0]| + |sep| + Offset(sep, parts[1..], i - 1)
  }

  /** The length of `gaps` copies of `sep`. */
  function SeparatorLength(sep: string, gaps: nat): nat
  {
    if gaps == 0 then 0 else |sep| + SeparatorLength(sep, gaps - 1)
  }

  /** `gaps` separators are `gaps` times as long as one. */
  lemma {:induction false} SeparatorLengthIsProduct(sep: string, gaps: nat)
    ensures SeparatorLength(sep, gaps) == |sep| * gaps
  {
    if gaps > 0 {
      SeparatorLengthIsProduct(sep, gaps - 1);
    }
  }

  /** The summed length of all parts. */
  function TotalLength(parts: seq<string>): nat
  {
    if parts == [] then 0 else |parts[0]| + TotalLength(parts[1..])
  }

  /** A slice that lies in the second half of a concatenation is a slice of that half. */
  lemma SliceOfSecond(x: string, y: string, lo: nat, hi: nat)
    requires |x| <= lo <= hi <= |x| + |y|
    ensures (x + y)[lo..hi] == y[lo - |x|..hi - |x|]
  {
  }

  /** A slice that lies in the first half of a concatenation is a slice of that half. */
  lemma SliceOfFirst(x: string, y: string, lo: nat, hi: nat)
    requires lo <= hi <= |x|
    ensures (x + y)[lo..hi] == x[lo..hi]
  {
  }

  /** Part `i` sits verbatim at its offset. */
  lemma {:induction false} JoinPartAt(sep: string, parts: seq<string>, i: nat)
    requires i < |parts|
    ensures Offset(sep, parts, i) + |parts[i]| <= |Join(sep, parts)|
    ensures Join(sep, parts)[Offset(sep, parts, i)..Offset(sep, parts, i) + |parts[i]|] == parts[i]
  {
    if i == 0 {
      JoinStartsWithFirst(sep, parts);
    } else {
      var rest := parts[1..];
      var head := parts[0] + sep;
      var tail := Join(sep, rest);
      var o := Offset(sep, rest, i - 1);
      var n := |parts[i]|;
      assert Join(sep, parts) == head + tail;
      assert Offset(sep, parts, i) == |head| + o;
      assert o + n <= |tail| && tail[o..o + n] == parts[i] by {
        JoinPartAt(sep, rest, i - 1);
        assert rest[i - 1] == parts[i];
      }
      SliceOfSecond(head, tail, |head| + o, |head| + o + n);
    }
  }

  /** The joined text starts with the first part. */
  lemma JoinStartsWithFirst(sep: string, parts: seq<string>)
    requires parts != []
    ensures |parts[0]| <= |Join(sep, parts)| && Join(sep, parts)[..|parts[0]|] == parts[0]
  {
    if |parts| > 1 {
      assert Join(sep, parts) == parts[0] + (sep + Join(sep, parts[1..]));
    }
  }

  /** Every part but the first comes right after a separator. */
  lemma {:induction false} JoinSeparatorBefore(sep: string, parts: seq<string>, i: nat)
    requires 0 < i < |parts|
    ensures |sep| <= Offset(sep, parts, i) <= |Join(sep, parts)|
    ensures Join(sep, parts)[Offset(sep, parts, i) - |sep|..Offset(sep, parts, i)] == sep
  {
    var rest := parts[1..];
    var head := parts[0] + sep;
    var tail := Join(sep, rest);
    assert Join(sep, parts) == head + tail;
    if i > 1 {
      var o := Offset(sep, rest, i - 1);
      assert Offset(sep, parts, i) == |head| + o;
      assert |sep| <= o <= |tail| && tail[o - |sep|..o] == sep by {
        JoinSeparatorBefore(sep, rest, i - 1);
      }
      SliceOfSecond(head, tail, |head| + o - |sep|, |head| + o);
    } else {
      assert Offset(sep, parts, i) == |head|;
      assert head[|parts[0]|..|head|] == sep;
      SliceOfFirst(head, tail, |parts[0]|, |head|);
    }
  }

  /** Joining one more part appends one separator and that part. */
  lemma {:induction false} JoinAppend(sep: string, parts: seq<string>, p: string)
    ensures Join(sep, parts + [p]) == if parts == [] then p else Join(sep, parts) + sep + p
  {
    if |parts| > 1 {
      assert (parts + [p])[1..] == parts[1..] + [p];
      JoinAppend(sep, parts[1..], p);
    } else if |parts| == 1 {
      assert (parts + [p])[1..] == [p];
    }
  }

  /** Where the block of result `i` starts in the context. */
  function BlockOffset(results: seq<Document>, i: nat): nat
    requires i < |results|
  {
    Offset(Separator, Blocks(results), i)
  }

  /**
   * The context holds the block of every result, verbatim, in ranking order:
   * result `i`'s block sits at `BlockOffset(results, i)`, right after a
   * separator unless `i` is 0; offsets grow with the rank.
   */
  lemma ContextLayout(results: seq<Document>, i: nat)
    requires i < |results|
    ensures BlockOffset(results, i) + |Block(results[i])| <= |Context(results)|
    ensures Context(results)[BlockOffset(results, i)..BlockOffset(results, i) + |Block(results[i])|] == Block(results[i])
    ensures i > 0 ==> |Separator| <= BlockOffset(results, i)
    ensures i > 0 ==> Context(results)[BlockOffset(results, i) - |Separator|..BlockOffset(results, i)] == Separator
    ensures i > 0 ==> BlockOffset(results, i - 1) + |Block(results[i - 1])| + |Separator| == BlockOffset(results, i)
  {
    var parts := Blocks(results);
    assert Context(results) == Join(Separator, parts);
    assert BlockOffset(results, i) == Offset(Separator, parts, i);
    assert parts[i] == Block(results[i]);
    JoinLayout(Separator, parts, i);
    if i > 0 {
      assert BlockOffset(results, i - 1) == Offset(Separator, parts, i - 1);
      assert parts[i - 1] == Block(results[i - 1]);
    }
  }

  /** The layout facts about `Join` that the context inherits. */
  lemma JoinLayout(sep: string, parts: seq<string>, i: nat)
    requires i < |parts|
    ensures Offset(sep, parts, i) + |parts[i]| <= |Join(sep, parts)|
    ensures Join(sep, parts)[Offset(sep, parts, i)..Offset(sep, parts, i) + |parts[i]|] == parts[i]
    ensures i > 0 ==> |sep| <= Offset(sep, parts, i)
    ensures i > 0 ==> Join(sep, parts)[Offset(sep, parts, i) - |sep|..Offset(sep, parts, i)] == sep
    ensures i > 0 ==> Offset(sep, parts, i - 1) + |parts[i - 1]| + |sep| == Offset(sep, parts, i)
  {
    JoinPartAt(sep, parts, i);
    if i > 0 {
      JoinSeparatorBefore(sep, parts, i);
      OffsetStep(sep, parts, i);
    }
  }

  /** Consecutive offsets differ by the earlier part's length and one separator. */
  lemma {:induction false} OffsetStep(sep: string, parts: seq<string>, i: nat)
    requires 0 < i < |parts|
    ensures Offset(sep, parts, i) == Offset(sep, parts, i - 1) + |parts[i - 1]| + |sep|
  {
    if i > 1 {
      OffsetStep(sep, parts[1..], i - 1);
    }
  }

  /**
   * The context of a longer result list extends the context of the shorter
   * one: a single result renders as its block alone, and each further result
   * adds a separator and its block at the end.
   */
  lemma ContextAppend(results: seq<Document>, d: Document)
    ensures Context(results + [d]) == if results == [] then Block(d) else Context(results) + Separator + Block(d)
  {
    assert Blocks(results + [d]) == Blocks(results) + [Block(d)];
    JoinAppend(Separator, Blocks(results), Block(d));
  }

  // ---------------------------------------------------------------------------
  // Reading a block back
  // ---------------------------------------------------------------------------

  /** The three fields a block shows. */
  datatype BlockFields = BlockFields(content: string, pageLabel: string, source: string)

  /** The index of the last `c` in `s`, if any. */
  function LastIndexOf(s: string, c: char): (r: Option<nat>)
    ensures r.Some? ==> r.value < |s| && s[r.value] == c && c !in s[r.value + 1..]
    ensures r.None? ==> c !in s
  {
    if s == [] then None
    else if s[|s| - 1] == c then Some(|s| - 1)
    else
      var r := LastIndexOf(s[..|s| - 1], c);
      assert r.Some? ==> s[r.value + 1..] == s[..|s| - 1][r.value + 1..] + [s[|s| - 1]];
      assert s == s[..|s| - 1] + [s[|s| - 1]];
      r
  }

  /** Splits a block at its last two line breaks and strips the three tags. */
  function ParseBlock(b: string): Option<BlockFields>
  {
    match LastIndexOf(b, '\n')
    case None => None
    case Some(j) =>
      var head, last := b[..j], b[j + 1..];
      match LastIndexOf(head, '\n')
      case None => None
      case Some(k) =>
        var first, mid := head[..k], head[k + 1..];
        if HasPrefix(first, ContentTag) && HasPrefix(mid, LabelTag) && HasPrefix(last, SourceTag)
        then Some(BlockFields(first[|ContentTag|..], mid[|LabelTag|..], last[|SourceTag|..]))
        else None
  }

  /** A line break followed by text without one is the last line break. */
  lemma {:induction false} LastLineBreak(a: string, b: string)
    requires '\n' !in b
    ensures LastIndexOf(a + "\n" + b, '\n') == Some(|a|)
    decreases |b|
  {
    var s := a + "\n" + b;
    if b != [] {
      assert s[..|s| - 1] == a + "\n" + b[..|b| - 1];
      assert s[|s| - 1] == b[|b| - 1];
      LastLineBreak(a, b[..|b| - 1]);
    }
  }

  /** A text with no line break stays free of them behind a tag without one. */
  lemma SingleLine(tag: string, text: string)
    requires '\n' !in tag && '\n' !in text
    ensures '\n' !in tag + text
  {
  }

  /** How ParseBlock reads three lines whose last two have no line break. */
  lemma ParseLines(first: string, mid: string, last: string)
    requires '\n' !in mid && '\n' !in last
    ensures ParseBlock(first + "\n" + mid + "\n" + last) ==
              if HasPrefix(first, ContentTag) && HasPrefix(mid, LabelTag) && HasPrefix(last, SourceTag)
              then Some(BlockFields(first[|ContentTag|..], mid[|LabelTag|..], last[|SourceTag|..]))
              else None
  {
    var head := first + "\n" + mid;
    var b := head + "\n" + last;
    LastLineBreak(head, last);
    assert b[..|head|] == head && b[|head| + 1..] == last;
    LastLineBreak(first, mid);
    assert head[..|first|] == first && head[|first| + 1..] == mid;
  }

  /** A block is its three lines joined by line breaks. */
  lemma BlockLines(d: Document)
    ensures Block(d) == (ContentTag + d.pageContent) + "\n" + (LabelTag + PageLabel(d)) + "\n" + (SourceTag + SourceOf(d))
  {
    var contentLine := ContentTag + d.pageContent;
    var labelLine := "\n" + LabelTag + PageLabel(d);
    var sourceLine := "\n" + SourceTag + SourceOf(d);
    assert Block(d) == contentLine + labelLine + sourceLine;
  }

  /**
   * A block reads back as the result's content, its page label ("N/A" when
   * the metadata has no `page_label`) and its source ("N/A" when the metadata
   * has no `source`), provided the label and the source are single lines.
   */
  lemma BlockRoundTrip(d: Document)
    requires '\n' !in PageLabel(d) && '\n' !in SourceOf(d)
    ensures ParseBlock(Block(d)) == Some(BlockFields(d.pageContent, PageLabel(d), SourceOf(d)))
    ensures "page_label" !in d.metadata ==> ParseBlock(Block(d)).value.pageLabel == Missing
    ensures "page_label" in d.metadata ==> ParseBlock(Block(d)).value.pageLabel == d.metadata["page_label"]
    ensures "source" !in d.metadata ==> ParseBlock(Block(d)).value.source == Missing
    ensures "source" in d.metadata ==> ParseBlock(Block(d)).value.source == d.metadata["source"]
  {
    var first := ContentTag + d.pageContent;
    var mid := LabelTag + PageLabel(d);
    var last := SourceTag + SourceOf(d);
    BlockLines(d);
    SingleLine(LabelTag, PageLabel(d));
    SingleLine(SourceTag, SourceOf(d));
    ParseLines(first, mid, last);
    assert first[..|ContentTag|] == ContentTag && first[|ContentTag|..] == d.pageContent;
    assert mid[..|LabelTag|] == LabelTag && mid[|LabelTag|..] == PageLabel(d);
    assert last[..|SourceTag|] == SourceTag && last[|SourceTag|..] == SourceOf(d);
  }

  // ---------------------------------------------------------------------------
  // The system prompt
  // ---------------------------------------------------------------------------

  const Indent := "                "

  /** The template text before the context, with its line breaks and indentation. */
  const PromptHead :=
    "\n"
    + Indent + "You are a helpfull AI Assistant who asnweres user query based on the available context\n"
    + Indent + "retrieved from a PDF file along with page_contents and page number.\n"
    + "\n"
    + Indent + "You should only ans the user based on the following context and navigate the user\n"
    + Indent + "to open the right page number to know more.\n"
    + "\n"
    + Indent + "Context:\n"
    + Indent

  /** The template text after the context. */
  const PromptTail := "\n            "

  /** The system prompt: the fixed template with the context embedded verbatim. */
  function SystemPrompt(context: string): (p: string)
    ensures |p| == |PromptHead| + |context| + |PromptTail|
    ensures HasPrefix(p, PromptHead)
    ensures p[|PromptHead|..|PromptHead| + |context|] == context
    ensures p[|PromptHead| + |context|..] == PromptTail
  {
    PromptHead + context + PromptTail
  }

  /** Reads the context back out of a system prompt, if `p` has the template's shape. */
  function PromptContext(p: string): Option<string>
  {
    if |PromptHead| + |PromptTail| <= |p| && HasPrefix(p, PromptHead) && p[|p| - |PromptTail|..] == PromptTail
    then Some(p[|PromptHead|..|p| - |PromptTail|])
    else None
  }

  /** The context can be read back from the prompt, so different contexts give different prompts. */
  lemma PromptRoundTrip(context: string)
    ensures PromptContext(SystemPrompt(context)) == Some(context)
    ensures forall other :: SystemPrompt(other) == SystemPrompt(context) ==> other == context
  {
  }

  // ---------------------------------------------------------------------------
  // Asking a question
  // ---------------------------------------------------------------------------

  datatype Role = System | User
  datatype Message = Message(role: Role, content: string)
  datatype CompletionRequest = CompletionRequest(model: string, messages: seq<Message>)

  /** What the chat model returns: the content of each choice's message. */
  datatype Completion = Completion(choices: seq<string>)

  /** A call to an outside service. */
  datatype Call = SimilaritySearch(query: string) | ChatCompletion(request: CompletionRequest)

  /** What the page shows after a question. */
  datatype QueryOutcome =
    | Idle                         // empty question: nothing happens
    | NoContext(warning: string)   // the search found nothing
    | Answered(answer: string)     // the model's first choice
    | NoChoice                     // the model returned no choice: `choices[0]` raises

  /** The calls one run of the page makes, in order, and what it shows. */
  datatype Turn = Turn(calls: seq<Call>, outcome: QueryOutcome)

  /** The requests of the chat-completion calls in `calls`, in order. */
  function Generations(calls: seq<Call>): seq<CompletionRequest>
  {
    if calls == [] then []
    else (if calls[0].ChatCompletion? then [calls[0].request] else []) + Generations(calls[1..])
  }

  /**
   * The chat-completion request for a question and its search results: the
   * system turn holds the rendered context verbatim inside the template, the
   * user turn is the question unchanged.
   */
  function Request(query: string, results: seq<Document>): (req: CompletionRequest)
    ensures req.model == ChatModel
    ensures |req.messages| == 2
    ensures req.messages[0].role == System
    ensures PromptContext(req.messages[0].content) == Some(Context(results))
    ensures req.messages[1] == Message(User, query)
  {
    PromptRoundTrip(Context(results));
    CompletionRequest(ChatModel, [Message(System, SystemPrompt(Context(results))), Message(User, query)])
  }

  /**
   * One run of the chat page. An empty question makes no call; otherwise the
   * question is searched once; no results give the warning and no chat call;
   * results give exactly one chat call, with the request built from them, and
   * the answer shown is that call's first choice, unmodified.
   */
  function Ask(query: string, search: string -> seq<Document>, complete: CompletionRequest -> Completion): (t: Turn)
    ensures |t.calls| == if query == "" then 0 else if search(query) == [] then 1 else 2
    ensures t.outcome == Idle <==> query == ""
    ensures query != "" ==> t.calls[0] == SimilaritySearch(query)
    ensures t.outcome.NoContext? <==> query != "" && search(query) == []
    ensures t.outcome.NoContext? ==> t.outcome.warning == NoContextWarning
    ensures Generations(t.calls) == if query != "" && search(query) != [] then [Request(query, search(query))] else []
    ensures t.outcome.Answered? ==>
              var choices := complete(Request(query, search(query))).choices;
              choices != [] && t.outcome.answer == choices[0]
    ensures t.outcome.NoChoice? ==> complete(Request(query, search(query))).choices == []
    ensures query != "" && search(query) != [] ==>
              var choices := complete(Request(query, search(query))).choices;
              t.outcome == if choices == [] then NoChoice else Answered(choices[0])
  {
    if query == "" then Turn([], Idle)
    else
      var results := search(query);
      if results == [] then
        Turn([SimilaritySearch(query)], NoContext(NoContextWarning))
      else
        var request := Request(query, results);
        var completion := complete(request);
        var calls := [SimilaritySearch(query), ChatCompletion(request)];
        assert Generations(calls[1..]) == [request];
        Turn(calls, if completion.choices == [] then NoChoice else Answered(completion.choices[0]))
  }
}
