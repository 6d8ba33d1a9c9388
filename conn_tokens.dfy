/** The token accounting of the first generation
    (openai_connectors/tokenutils.py): message and thread costs with a fixed
    padding of four tokens, and a splitter that cuts oversized content into
    equal runs of whitespace-separated words. */
module ConnTokens {
  import opened Wrappers
  import opened Text
  import opened Messages

  /** Tokens reserved per message for the chat format's framing. */
  const MessagePaddingTokens: nat := 4

  /** The token limit of an entire thread, per model. */
  const ContextWindow: map<string, nat> := map[
    "mistralai/Mixtral-8x7B-Instruct-v0.1" := 32768,
    "mistralai/Mistral-7B-Instruct-v0.1" := 16384,
    "HuggingFaceH4/zephyr-7b-beta" := 16384,
    "codellama/CodeLlama-34b-Instruct-hf" := 16384,
    "meta-llama/Llama-2-13b-chat-hf" := 4096,
    "thenlper/gte-large" := 512,
    "gpt-4-1106-preview" := 128000,
    "gpt-3.5-turbo-1106" := 16385,
    "text-embedding-ada-002" := 8192
  ]

  /** The token limit of one message, per model. */
  const MessageTokenLimit: map<string, nat> := map[
    "mistralai/Mixtral-8x7B-Instruct-v0.1" := 1024,
    "mistralai/Mistral-7B-Instruct-v0.1" := 1024,
    "HuggingFaceH4/zephyr-7b-beta" := 512,
    "codellama/CodeLlama-34b-Instruct-hf" := 1024,
    "meta-llama/Llama-2-13b-chat-hf" := 512,
    "thenlper/gte-large" := 512,
    "gpt-4-1106-preview" := 4096,
    "gpt-3.5-turbo-1106" := 4096,
    "text-embedding-ada-002" := 2047
  ]

  /** `count_tokens_for_message`: four plus the count of every field value. */
  function MessageCost(tk: Tokenizer, m: Message): (r: nat)
    ensures r == 4 + tk.count(m.role.Name()) + tk.count(m.content)
                 + (if m.name.Some? then tk.count(m.name.value) else 0)
    ensures r >= MessagePaddingTokens
  {
    Messages.MessageCost(tk, MessagePaddingTokens, m)
  }

  /** `count_tokens_for_messages`: the sum of the message costs, which
      `reduce` refuses to compute for an empty thread. */
  function ThreadCost(tk: Tokenizer, ms: seq<Message>): (r: Result<nat, Error>)
    ensures r.Failure? <==> ms == []
    ensures ms == [] ==> r.error == EmptyReduce
    ensures |ms| == 1 ==> r == Success(MessageCost(tk, ms[0]))
    ensures r.Success? ==> r.value >= MessagePaddingTokens * |ms|
  {
    if ms == [] then Failure(EmptyReduce)
    else
      TotalCostAtLeast(tk, ms);
      if |ms| == 1 then
        assert TotalCost(tk, MessagePaddingTokens, ms[1..]) == 0;
        Success(MessageCost(tk, ms[0]))
      else Success(TotalCost(tk, MessagePaddingTokens, ms))
  }

  lemma {:induction false} TotalCostAtLeast(tk: Tokenizer, ms: seq<Message>)
    ensures TotalCost(tk, MessagePaddingTokens, ms) >= MessagePaddingTokens * |ms|
    decreases |ms|
  {
    if ms != [] {
      TotalCostAtLeast(tk, ms[1..]);
    }
  }

  /** The thread cost is additive over concatenation. */
  lemma ThreadCostAppend(tk: Tokenizer, a: seq<Message>, b: seq<Message>)
    requires a != [] && b != []
    ensures ThreadCost(tk, a + b).value == ThreadCost(tk, a).value + ThreadCost(tk, b).value
  {
    TotalCostAppend(tk, MessagePaddingTokens, a, b);
  }

  /** The number of pieces the splitter aims for: the padded count divided
      by the limit, plus one. */
  function SplitCount(tokenCount: nat, limit: nat): (r: nat)
    requires limit > 0
    ensures tokenCount + MessagePaddingTokens >= limit ==> r >= 2
  {
    DivIsZero(tokenCount + MessagePaddingTokens, limit);
    (tokenCount + MessagePaddingTokens) / limit + 1
  }

  /** `split_count` is the least count of `limit`-sized parts that holds
      strictly more than the padded token count. */
  lemma SplitCountBounds(tokenCount: nat, limit: nat)
    requires limit > 0
    ensures var r := SplitCount(tokenCount, limit);
      (r - 1) * limit <= tokenCount + MessagePaddingTokens < r * limit
  {
    var n := tokenCount + MessagePaddingTokens;
    var q := n / limit;
    assert n == q * limit + n % limit;
    assert (q + 1) * limit == q * limit + limit;
  }

  /** A quotient times its divisor does not exceed the dividend. */
  lemma DivMulLe(n: nat, c: nat)
    requires c > 0
    ensures (n / c) * c <= n
  {
    assert n == (n / c) * c + n % c;
  }

  function Min(a: int, b: int): int {
    if a < b then a else b
  }

  /** The runs `words[i:i+width]` for `i` in `range(0, len(words), width)`:
      each holds between one and `width` words, all but the last exactly
      `width`. */
  function Runs(words: seq<string>, width: nat): (r: seq<seq<string>>)
    requires width > 0
    ensures r == [] <==> words == []
    ensures forall k :: 0 <= k < |r| ==> 1 <= |r[k]| <= width
    ensures forall k :: 0 <= k < |r| - 1 ==> |r[k]| == width
    decreases |words|
  {
    if words == [] then []
    else if |words| <= width then [words]
    else [words[..width]] + Runs(words[width..], width)
  }

  /** `k` groups of `w` are `k - 1` groups and one more. */
  lemma MulStep(k: nat, w: nat)
    requires k >= 1
    ensures k * w == (k - 1) * w + w
  {
  }

  /** A slice of the words after the first `w` is a slice of the words. */
  lemma SliceOfDrop<T>(s: seq<T>, w: nat, a: nat, b: nat)
    requires w <= |s| && a <= b <= |s| - w
    ensures s[w..][a..b] == s[w + a..w + b]
  {
  }

  /** Run `k` is the slice `words[k * width:(k + 1) * width]`. */
  lemma {:induction false} RunsAt(words: seq<string>, width: nat, k: nat)
    requires width > 0 && k < |Runs(words, width)|
    ensures k * width < |words|
    ensures Runs(words, width)[k] == words[k * width..Min((k + 1) * width, |words|)]
    decreases |words|
  {
    var runs := Runs(words, width);
    if |words| <= width {
      assert runs == [words] && k == 0;
      assert words[0..|words|] == words;
    } else if k == 0 {
      assert runs[0] == words[..width];
    } else {
      var rest := words[width..];
      assert runs == [words[..width]] + Runs(rest, width);
      assert runs[k] == Runs(rest, width)[k - 1];
      RunsAt(rest, width, k - 1);
      MulStep(k, width);
      MulStep(k + 1, width);
      SliceOfDrop(words, width, (k - 1) * width, Min(k * width, |rest|));
    }
  }

  /** There are enough runs to hold every word, and no more. */
  lemma {:induction false} RunsCount(words: seq<string>, width: nat)
    requires width > 0
    ensures |words| <= |Runs(words, width)| * width
    ensures words != [] ==> (|Runs(words, width)| - 1) * width < |words|
    decreases |words|
  {
    if |words| > width {
      var m := |Runs(words[width..], width)|;
      RunsCount(words[width..], width);
      assert (m + 1) * width == m * width + width;
      assert m * width == (m - 1) * width + width;
    }
  }

  /** The words of the runs, concatenated in order. */
  function Flatten(runs: seq<seq<string>>): seq<string> {
    if runs == [] then [] else runs[0] + Flatten(runs[1..])
  }

  /** The runs hold every word exactly once, in order. */
  lemma {:induction false} RunsFlatten(words: seq<string>, width: nat)
    requires width > 0
    ensures Flatten(Runs(words, width)) == words
    decreases |words|
  {
    if |words| > width {
      RunsFlatten(words[width..], width);
      var r := Runs(words, width);
      assert r[1..] == Runs(words[width..], width);
      assert words == words[..width] + words[width..];
    } else if words != [] {
      assert Runs(words, width) == [words];
      assert Flatten([words]) == words + Flatten([]);
    }
  }

  /** Each run joined with single spaces. */
  function JoinRuns(runs: seq<seq<string>>): (r: seq<string>)
    ensures |r| == |runs|
    ensures forall k :: 0 <= k < |r| ==> r[k] == Join(" ", runs[k])
  {
    seq(|runs|, k requires 0 <= k < |runs| => Join(" ", runs[k]))
  }

  /** Joining the joined runs with a space is joining all their words with a
      space. */
  lemma {:induction false} JoinRunsFlatten(runs: seq<seq<string>>)
    requires forall k :: 0 <= k < |runs| ==> |runs[k]| >= 1
    ensures Join(" ", JoinRuns(runs)) == Join(" ", Flatten(runs))
    decreases |runs|
  {
    if |runs| == 1 {
      assert JoinRuns(runs) == [Join(" ", runs[0])];
      assert runs[1..] == [];
      assert Flatten(runs) == runs[0];
    } else if |runs| > 1 {
      JoinRunsFlatten(runs[1..]);
      assert JoinRuns(runs)[1..] == JoinRuns(runs[1..]);
      assert |Flatten(runs[1..])| >= 1 by {
        assert Flatten(runs[1..]) == runs[1] + Flatten(runs[2..]);
      }
      JoinAppend(" ", runs[0], Flatten(runs[1..]));
    }
  }

  /** The splitter once the model's limit is known. Content whose padded
      count stays under the limit is returned as it is; otherwise its words
      are cut into consecutive runs of `len(words) // split_count` words,
      each joined with single spaces. A limit of 0 divides by zero, and fewer
      words than `split_count` make the run width 0, which `range` rejects. */
  function SplitWithin(tk: Tokenizer, content: string, limit: nat): (r: Result<seq<string>, Error>)
    ensures tk.count(content) + MessagePaddingTokens < limit ==> r == Success([content])
  {
    var tokenCount := tk.count(content);
    if tokenCount + MessagePaddingTokens < limit then Success([content])
    else if limit == 0 then Failure(DivisionByZero)
    else
      var words := Words(content);
      var width := |words| / SplitCount(tokenCount, limit);
      if width == 0 then Failure(ZeroRangeStep)
      else Success(JoinRuns(Runs(words, width)))
  }

  /** `split_content(content, model)`: the count first, then the model's
      message limit, which must be in the table. */
  function SplitContent(tk: Tokenizer, content: string, model: string): (r: Result<seq<string>, Error>)
    ensures model !in MessageTokenLimit ==> r == Failure(UnknownModel(model))
    ensures model in MessageTokenLimit ==> r == SplitWithin(tk, content, MessageTokenLimit[model])
  {
    if model !in MessageTokenLimit then Failure(UnknownModel(model))
    else SplitWithin(tk, content, MessageTokenLimit[model])
  }

  lemma MulAtLeast(q: nat, c: nat)
    requires q >= 1
    ensures q * c >= c
  {
    assert q * c == (q - 1) * c + c;
  }

  lemma DivIsZero(n: nat, c: nat)
    requires c > 0
    ensures n / c == 0 <==> n < c
  {
    var q, r := n / c, n % c;
    assert n == q * c + r && 0 <= r < c;
    if q >= 1 {
      MulAtLeast(q, c);
    }
  }

  /** The errors of an oversized split: division by a zero limit, or a run
      width of zero exactly when there are fewer words than `split_count`. */
  lemma SplitWithinErrors(tk: Tokenizer, content: string, limit: nat)
    requires tk.count(content) + MessagePaddingTokens >= limit
    ensures limit == 0 ==> SplitWithin(tk, content, limit) == Failure(DivisionByZero)
    ensures limit > 0 ==>
      ((SplitWithin(tk, content, limit) == Failure(ZeroRangeStep))
        <==> |Words(content)| < SplitCount(tk.count(content), limit))
    ensures SplitWithin(tk, content, limit).Success? <==>
      limit > 0 && |Words(content)| >= SplitCount(tk.count(content), limit)
  {
    if limit > 0 {
      DivIsZero(|Words(content)|, SplitCount(tk.count(content), limit));
    }
  }

  lemma MulLess(a: nat, b: nat, w: nat)
    requires w > 0 && a * w >= b * w
    ensures a >= b
  {
  }

  /** The chunks made from runs of words, joined with spaces, give the words
      joined with spaces. */
  lemma JoinedRunsKeepWords(words: seq<string>, width: nat)
    requires width > 0
    ensures Join(" ", JoinRuns(Runs(words, width))) == Join(" ", words)
  {
    RunsFlatten(words, width);
    JoinRunsFlatten(Runs(words, width));
  }

  /** When `count` runs of `width` words fit in the words, there are at
      least `count` runs. */
  lemma RunsAtLeast(words: seq<string>, width: nat, count: nat)
    requires width > 0 && width * count <= |words|
    ensures |Runs(words, width)| >= count
  {
    RunsCount(words, width);
    MulLess(|Runs(words, width)|, count, width);
  }

  /** Chunk `k` is the `k`-th run of `width` words, joined with spaces. */
  lemma JoinedRunsAt(words: seq<string>, width: nat)
    requires width > 0
    ensures var chunks := JoinRuns(Runs(words, width));
      forall k :: 0 <= k < |chunks| ==>
        k * width < |words| && chunks[k] == Join(" ", words[k * width..Min((k + 1) * width, |words|)])
  {
    var runs := Runs(words, width);
    forall k | 0 <= k < |runs|
      ensures k * width < |words| && JoinRuns(runs)[k] == Join(" ", words[k * width..Min((k + 1) * width, |words|)])
    {
      RunsAt(words, width, k);
    }
  }

  /** An oversized split loses, duplicates and reorders no word: the chunks
      joined with spaces are the words joined with spaces. Chunk `k` is the
      `k`-th run of `len(words) // split_count` words, every run but the last
      is full, and there are at least `split_count` chunks, so at least two. */
  lemma SplitWithinWords(tk: Tokenizer, content: string, limit: nat)
    requires tk.count(content) + MessagePaddingTokens >= limit
    requires SplitWithin(tk, content, limit).Success?
    ensures var chunks := SplitWithin(tk, content, limit).value;
      var words := Words(content);
      var count := SplitCount(tk.count(content), limit);
      var width := |words| / count;
      && width >= 1
      && chunks == JoinRuns(Runs(words, width))
      && Join(" ", chunks) == Join(" ", words)
      && |chunks| >= count >= 2
      && (forall k :: 0 <= k < |chunks| ==>
            k * width < |words| && chunks[k] == Join(" ", words[k * width..Min((k + 1) * width, |words|)]))
  {
    var words := Words(content);
    var count := SplitCount(tk.count(content), limit);
    var width := |words| / count;
    DivMulLe(|words|, count);
    JoinedRunsKeepWords(words, width);
    RunsAtLeast(words, width, count);
    JoinedRunsAt(words, width);
  }
}
