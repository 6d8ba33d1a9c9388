/** Token accounting and the recursive binary content splitter of the second
    generation (openai_utilities/tokenutils.py). A text that is over the
    message limit is cut in two on the first delimiter of a priority list
    that splits it, each half is split again, and a text that no delimiter
    splits is truncated to the limit. */
module UtilTokens {
  import opened Wrappers
  import opened Text
  import opened Messages

  /** Framing tokens added to every message (none in this generation). */
  const ChatMessagePaddingTokens: nat := 0

  /** Token limit of a whole thread, per model. */
  const ContextWindow: map<string, nat> := map[
    "mistralai/Mixtral-8x7B-Instruct-v0.1" := 32768,
    "mistralai/Mistral-7B-Instruct-v0.1" := 16384,
    "HuggingFaceH4/zephyr-7b-beta" := 16384,
    "codellama/CodeLlama-34b-Instruct-hf" := 16384,
    "meta-llama/Llama-2-13b-chat-hf" := 4096,
    "gpt-4-1106-preview" := 128000,
    "gpt-3.5-turbo-1106" := 16385
  ]

  /** Token limit of one message, per model. */
  const MessageTokenLimit: map<string, nat> := map[
    "mistralai/Mixtral-8x7B-Instruct-v0.1" := 2048,
    "mistralai/Mistral-7B-Instruct-v0.1" := 2048,
    "HuggingFaceH4/zephyr-7b-beta" := 512,
    "codellama/CodeLlama-34b-Instruct-hf" := 1024,
    "meta-llama/Llama-2-13b-chat-hf" := 512,
    "thenlper/gte-large" := 512,
    "gpt-4-1106-preview" := 4096,
    "gpt-3.5-turbo-1106" := 4096,
    "text-embedding-ada-002" := 1024
  ]

  /** Paragraph, line, and the three sentence ends, tried in this order. */
  const NaturalLanguageDelimiters: seq<string> := ["\n\n", "\n", ". ", "? ", "! "]

  predicate Separators(delims: seq<string>) {
    forall k :: 0 <= k < |delims| ==> delims[k] != ""
  }

  /** `count_tokens_for_message`: the padding (0) plus the count of every
      field value of the message. */
  function MessageCost(tk: Tokenizer, m: Message): (r: nat)
    ensures r == tk.count(m.role.Name()) + tk.count(m.content)
                 + (if m.name.Some? then tk.count(m.name.value) else 0)
  {
    Messages.MessageCost(tk, ChatMessagePaddingTokens, m)
  }

  /** `count_tokens_for_messages`: a single message costs what it costs
      alone, an empty thread makes `reduce` fail; `ThreadCostAppend` gives
      the rest. */
  function ThreadCost(tk: Tokenizer, ms: seq<Message>): (r: Result<nat, Error>)
    ensures r.Failure? <==> ms == []
    ensures ms == [] ==> r.error == EmptyReduce
    ensures |ms| == 1 ==> r == Success(MessageCost(tk, ms[0]))
  {
    if |ms| == 1 then
      assert TotalCost(tk, ChatMessagePaddingTokens, ms[1..]) == 0;
      Messages.ThreadCost(tk, ChatMessagePaddingTokens, ms)
    else Messages.ThreadCost(tk, ChatMessagePaddingTokens, ms)
  }

  /** The cost of a thread is additive: the cost of two non-empty runs of
      messages put together is the sum of their costs. */
  lemma ThreadCostAppend(tk: Tokenizer, a: seq<Message>, b: seq<Message>)
    requires a != [] && b != []
    ensures ThreadCost(tk, a + b) == Success(ThreadCost(tk, a).value + ThreadCost(tk, b).value)
  {
    TotalCostAppend(tk, ChatMessagePaddingTokens, a, b);
  }

  /** `truncate_text`: the first `limit` tokens of the text. */
  function TruncateText(tk: Tokenizer, text: string, limit: nat): string {
    tk.truncate(text, limit)
  }

  lemma TruncateWithinLimit(tk: Tokenizer, text: string, limit: nat)
    requires Sound(tk)
    ensures tk.count(TruncateText(tk, text, limit)) <= limit
    ensures tk.count(text) <= limit ==> TruncateText(tk, text, limit) == text
  {
  }

  /** The split index of `_split_in_half`: the smallest `j` from `i` on whose
      left part `chunks[..j]` reaches `half` tokens, or the last index when
      none below it does. */
  function HalfIndex(tk: Tokenizer, d: string, chunks: seq<string>, half: nat, i: nat): (r: nat)
    requires 1 <= i <= |chunks| - 1
    ensures i <= r <= |chunks| - 1
    ensures r < |chunks| - 1 ==> tk.count(Join(d, chunks[..r])) >= half
    ensures forall j :: i <= j < r ==> tk.count(Join(d, chunks[..j])) < half
    decreases |chunks| - i
  {
    if i == |chunks| - 1 || tk.count(Join(d, chunks[..i])) >= half then i
    else HalfIndex(tk, d, chunks, half, i + 1)
  }

  /** A proper part of the non-empty pieces of a split, joined back, is
      strictly shorter than the text. */
  lemma {:induction false} PartShorter(text: string, d: string, chunks: seq<string>, a: nat, b: nat)
    requires d != "" && chunks == NonEmpty(Split(text, d))
    requires a < b <= |chunks| && b - a < |chunks|
    ensures |Join(d, chunks[a..b])| < |text|
  {
    JoinSplit(text, d);
    JoinLength(d, Split(text, d));
    NonEmptyWeight(d, Split(text, d));
    JoinLength(d, chunks[a..b]);
    assert chunks == chunks[..a] + chunks[a..b] + chunks[b..];
    WeightAppend(d, chunks[..a] + chunks[a..b], chunks[b..]);
    WeightAppend(d, chunks[..a], chunks[a..b]);
    if a > 0 {
      assert chunks[..a][0] == chunks[0];
    } else {
      assert chunks[b..][0] == chunks[b];
    }
  }

  /** `_split_in_half`: the non-empty pieces of the text split on `d`, as they
      are when there are at most two, otherwise joined back into two halves
      around `HalfIndex` with half the text's count as the target. Every piece
      is non-empty, rejoining the result gives the text without its empty
      pieces, and when there are two pieces each is strictly shorter than the
      text, which is what makes `SplitContent` terminate. */
  function SplitInHalf(tk: Tokenizer, text: string, d: string): (r: seq<string>)
    requires d != ""
    ensures |r| <= 2
    ensures forall k :: 0 <= k < |r| ==> r[k] != ""
    ensures |r| == 2 ==> |r[0]| < |text| && |r[1]| < |text|
    ensures r != [] ==> Join(d, r) == Join(d, NonEmpty(Split(text, d)))
    ensures var chunks := NonEmpty(Split(text, d));
      && (|chunks| <= 2 ==> r == chunks)
      && (|chunks| > 2 ==>
            var i := HalfIndex(tk, d, chunks, tk.count(text) / 2, 1);
            r == [Join(d, chunks[..i]), Join(d, chunks[i..])])
  {
    var chunks := NonEmpty(Split(text, d));
    if |chunks| <= 2 then
      if |chunks| == 2 then
        PartShorter(text, d, chunks, 0, 1);
        PartShorter(text, d, chunks, 1, 2);
        assert chunks[0..1] == [chunks[0]] && chunks[1..2] == [chunks[1]];
        chunks
      else chunks
    else
      var n := |chunks|;
      var i := HalfIndex(tk, d, chunks, tk.count(text) / 2, 1);
      var left, right := Join(d, chunks[..i]), Join(d, chunks[i..]);
      PartShorter(text, d, chunks, 0, i);
      PartShorter(text, d, chunks, i, n);
      assert chunks[0..i] == chunks[..i] && chunks[i..n] == chunks[i..];
      TakeDrop(chunks, i);
      JoinAppend(d, chunks[..i], chunks[i..]);
      assert chunks[..i][0] == chunks[0] && chunks[i..][0] == chunks[i];
      assert |left| >= |chunks[0]| && |right| >= |chunks[i]| by {
        JoinLength(d, chunks[..i]);
        JoinLength(d, chunks[i..]);
        SliceCons(chunks, 0, i);
        SliceCons(chunks, i, n);
      }
      [left, right]
  }

  /** `split_content`: strip the text; nothing is left for a blank text; a
      text whose wrapped form fits the limit gives that form, truncated;
      otherwise the delimiters are tried in order. `wrap` is the metadata
      function (the identity when it is None). */
  function SplitContent(tk: Tokenizer, text: string, limit: nat, delims: seq<string>,
                        wrap: string -> string): seq<string>
    requires Separators(delims)
    decreases |text|, |delims| + 1
  {
    var t := Strip(text);
    if t == "" then []
    else
      var content := wrap(t);
      if tk.count(content) > limit then TryDelimiters(tk, t, content, limit, delims, wrap, delims)
      else [TruncateText(tk, content, limit)]
  }

  /** The loop over the remaining delimiters `rest`: the first that cuts the
      text in two decides, and the two halves are split recursively and their
      chunks concatenated in order; when none does, the wrapped content is
      truncated. */
  function TryDelimiters(tk: Tokenizer, t: string, content: string, limit: nat, delims: seq<string>,
                         wrap: string -> string, rest: seq<string>): seq<string>
    requires Separators(delims) && Separators(rest)
    decreases |t|, |rest|
  {
    if rest == [] then [TruncateText(tk, content, limit)]
    else
      var halves := SplitInHalf(tk, t, rest[0]);
      if |halves| > 1 then
        SplitContent(tk, halves[0], limit, delims, wrap) + SplitContent(tk, halves[1], limit, delims, wrap)
      else TryDelimiters(tk, t, content, limit, delims, wrap, rest[1..])
  }

  /** Every chunk is within the message limit: each one went through the
      truncation at that limit. */
  lemma {:induction false} SplitContentWithinLimit(tk: Tokenizer, text: string, limit: nat,
                                                   delims: seq<string>, wrap: string -> string)
    requires Sound(tk) && Separators(delims)
    ensures forall c <- SplitContent(tk, text, limit, delims, wrap) :: tk.count(c) <= limit
    decreases |text|, |delims| + 1
  {
    var t := Strip(text);
    if t != "" {
      var content := wrap(t);
      TruncateWithinLimit(tk, content, limit);
      if tk.count(content) > limit {
        TryDelimitersWithinLimit(tk, t, content, limit, delims, wrap, delims);
      }
    }
  }

  lemma {:induction false} TryDelimitersWithinLimit(tk: Tokenizer, t: string, content: string, limit: nat,
                                                    delims: seq<string>, wrap: string -> string, rest: seq<string>)
    requires Sound(tk) && Separators(delims) && Separators(rest)
    ensures forall c <- TryDelimiters(tk, t, content, limit, delims, wrap, rest) :: tk.count(c) <= limit
    decreases |t|, |rest|
  {
    if rest == [] {
      TruncateWithinLimit(tk, content, limit);
    } else {
      var halves := SplitInHalf(tk, t, rest[0]);
      if |halves| > 1 {
        SplitContentWithinLimit(tk, halves[0], limit, delims, wrap);
        SplitContentWithinLimit(tk, halves[1], limit, delims, wrap);
      } else {
        TryDelimitersWithinLimit(tk, t, content, limit, delims, wrap, rest[1..]);
      }
    }
  }

  /** Blank text (empty or whitespace only) gives no chunk at all. */
  lemma SplitContentBlank(tk: Tokenizer, text: string, limit: nat, delims: seq<string>, wrap: string -> string)
    requires Separators(delims) && AllSpace(text)
    ensures SplitContent(tk, text, limit, delims, wrap) == []
  {
  }

  /** A text whose wrapped form is within the limit (exactly at the limit
      included) is not split: the result is that one wrapped text, unchanged. */
  lemma SplitContentFits(tk: Tokenizer, text: string, limit: nat, delims: seq<string>, wrap: string -> string)
    requires Sound(tk) && Separators(delims)
    requires !AllSpace(text) && tk.count(wrap(Strip(text))) <= limit
    ensures SplitContent(tk, text, limit, delims, wrap) == [wrap(Strip(text))]
  {
    TruncateWithinLimit(tk, wrap(Strip(text)), limit);
  }

  lemma {:induction false} TryDelimitersPicksFirst(tk: Tokenizer, t: string, content: string, limit: nat,
                                                   delims: seq<string>, wrap: string -> string,
                                                   rest: seq<string>, k: nat)
    requires Separators(delims) && Separators(rest)
    requires k < |rest| && |SplitInHalf(tk, t, rest[k])| > 1
    requires forall j :: 0 <= j < k ==> |SplitInHalf(tk, t, rest[j])| <= 1
    ensures var halves := SplitInHalf(tk, t, rest[k]);
            TryDelimiters(tk, t, content, limit, delims, wrap, rest)
            == SplitContent(tk, halves[0], limit, delims, wrap) + SplitContent(tk, halves[1], limit, delims, wrap)
    decreases k
  {
    if k > 0 {
      assert |SplitInHalf(tk, t, rest[0])| <= 1;
      TryDelimitersPicksFirst(tk, t, content, limit, delims, wrap, rest[1..], k - 1);
    }
  }

  /** Delimiters are tried in list order: for an over-limit text, when
      `delims[k]` is the first delimiter that cuts it in two, the result is
      the chunks of the first half followed by the chunks of the second. */
  lemma SplitContentFirstDelimiter(tk: Tokenizer, text: string, limit: nat, delims: seq<string>,
                                   wrap: string -> string, k: nat)
    requires Separators(delims) && !AllSpace(text) && tk.count(wrap(Strip(text))) > limit
    requires k < |delims| && |SplitInHalf(tk, Strip(text), delims[k])| > 1
    requires forall j :: 0 <= j < k ==> |SplitInHalf(tk, Strip(text), delims[j])| <= 1
    ensures var halves := SplitInHalf(tk, Strip(text), delims[k]);
            SplitContent(tk, text, limit, delims, wrap)
            == SplitContent(tk, halves[0], limit, delims, wrap) + SplitContent(tk, halves[1], limit, delims, wrap)
  {
    TryDelimitersPicksFirst(tk, Strip(text), wrap(Strip(text)), limit, delims, wrap, delims, k);
  }

  lemma {:induction false} TryDelimitersFallBack(tk: Tokenizer, t: string, content: string, limit: nat,
                                                 delims: seq<string>, wrap: string -> string, rest: seq<string>)
    requires Separators(delims) && Separators(rest)
    requires forall j :: 0 <= j < |rest| ==> |SplitInHalf(tk, t, rest[j])| <= 1
    ensures TryDelimiters(tk, t, content, limit, delims, wrap, rest) == [TruncateText(tk, content, limit)]
    decreases |rest|
  {
    if rest != [] {
      assert |SplitInHalf(tk, t, rest[0])| <= 1;
      TryDelimitersFallBack(tk, t, content, limit, delims, wrap, rest[1..]);
    }
  }

  /** An over-limit text that no delimiter cuts in two (one atomic blob) is
      truncated: the single chunk is the wrapped text cut to the limit. */
  lemma SplitContentTruncates(tk: Tokenizer, text: string, limit: nat, delims: seq<string>, wrap: string -> string)
    requires Separators(delims) && !AllSpace(text) && tk.count(wrap(Strip(text))) > limit
    requires forall j :: 0 <= j < |delims| ==> |SplitInHalf(tk, Strip(text), delims[j])| <= 1
    ensures SplitContent(tk, text, limit, delims, wrap) == [TruncateText(tk, wrap(Strip(text)), limit)]
  {
    TryDelimitersFallBack(tk, Strip(text), wrap(Strip(text)), limit, delims, wrap, delims);
  }
}
