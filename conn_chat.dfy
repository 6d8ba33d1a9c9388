/** The chat session of the first generation
    (openai_connectors/chat_connector.py): a thread seeded with one optional
    system instruction, user content appended in word-split chunks, and a
    compaction that, once the thread's cost reaches the context window minus
    one message limit, folds the conversation into a summary message followed
    by the latest message. */
module ConnChat {
  import opened Wrappers
  import opened Text
  import opened Messages
  import opened ConnTokens

  /** The instruction `create_summary_message` appends, naming the model's
      message limit in decimal. */
  function SummaryInstruction(limit: nat): string {
    SummaryPromptHead + NatToString(limit) + SummaryPromptTail
  }

  /** The words of the summary instruction before and after the limit. */
  const SummaryPromptHead := "create a summary of this conversation in less than "
  const SummaryPromptTail := " tokens. Prefix the response with the word CONTEXT SUMMARY:"

  /** The messages sent to obtain a summary: the group, then exactly one user
      message holding the instruction. */
  function SummaryRequest(group: seq<Message>, limit: nat): (r: seq<Message>)
    ensures |r| == |group| + 1 && r[..|group|] == group
    ensures r[|group|] == CreateMessage(User, SummaryInstruction(limit), None)
  {
    group + [CreateMessage(User, SummaryInstruction(limit), None)]
  }

  /** The summary obtained with the message limit `limit`: the reply to the
      summary request, as an assistant message without a name. */
  function SummaryWith(complete: Completion, group: seq<Message>, limit: nat): (r: Result<Message, Error>)
    ensures var reply := complete(SummaryRequest(group, limit));
      && (reply.Failure? ==> r == Failure(reply.error))
      && (reply.Success? ==> r.Success? && r.value.role == Assistant && r.value.name.None?
                              && r.value.content == reply.value.content)
  {
    match complete(SummaryRequest(group, limit))
    case Failure(e) => Failure(e)
    case Success(reply) => Success(CreateMessage(Assistant, reply.content, None))
  }

  /** `create_summary_message`: the model's message limit is looked up
      first, for the instruction; an unknown model fails before any call. */
  function SummaryMessage(complete: Completion, group: seq<Message>, model: string): (r: Result<Message, Error>)
    ensures model !in MessageTokenLimit ==> r == Failure(UnknownModel(model))
    ensures model in MessageTokenLimit ==> r == SummaryWith(complete, group, MessageTokenLimit[model])
  {
    if model !in MessageTokenLimit then Failure(UnknownModel(model))
    else SummaryWith(complete, group, MessageTokenLimit[model])
  }

  /** The state of `create_summerized_thread`'s loop: the group and its
      running token count. */
  datatype Group = Group(msgs: seq<Message>, count: nat)

  /** One iteration of the loop for `msg`: when the message would bring the
      running count to `budget`, the group is replaced by a summary of it and
      the summary's cost is added to the count; the message is then appended
      and its cost added. */
  function Step(tk: Tokenizer, complete: Completion, limit: nat, budget: int, g: Group, msg: Message)
    : Result<Group, Error>
  {
    var cost := ConnTokens.MessageCost(tk, msg);
    if cost + g.count >= budget then
      match SummaryWith(complete, g.msgs, limit)
      case Failure(e) => Failure(e)
      case Success(summary) => Success(Group([summary, msg], g.count + ConnTokens.MessageCost(tk, summary) + cost))
    else Success(Group(g.msgs + [msg], g.count + cost))
  }

  /** A message that keeps the count under the budget is appended. */
  lemma StepUnder(tk: Tokenizer, complete: Completion, limit: nat, budget: int, g: Group, msg: Message)
    requires ConnTokens.MessageCost(tk, msg) + g.count < budget
    ensures Step(tk, complete, limit, budget, g, msg)
         == Success(Group(g.msgs + [msg], g.count + ConnTokens.MessageCost(tk, msg)))
  {
  }

  /** A message that brings the count to the budget replaces the group by its
      summary, or fails with the summary's failure. */
  lemma StepOver(tk: Tokenizer, complete: Completion, limit: nat, budget: int, g: Group, msg: Message)
    requires ConnTokens.MessageCost(tk, msg) + g.count >= budget
    ensures var summary := SummaryWith(complete, g.msgs, limit);
      && (summary.Failure? ==> Step(tk, complete, limit, budget, g, msg) == Failure(summary.error))
      && (summary.Success? ==>
            var next := Group([summary.value, msg],
                              g.count + ConnTokens.MessageCost(tk, summary.value) + ConnTokens.MessageCost(tk, msg));
            Step(tk, complete, limit, budget, g, msg) == Success(next))
  {
  }

  /** A step that succeeds adds at least the message's cost to the count and
      ends the group with the message. */
  lemma StepGrows(tk: Tokenizer, complete: Completion, limit: nat, budget: int, g: Group, msg: Message)
    requires Step(tk, complete, limit, budget, g, msg).Success?
    ensures var next := Step(tk, complete, limit, budget, g, msg).value;
      && next.count >= g.count + ConnTokens.MessageCost(tk, msg)
      && |next.msgs| >= 1 && next.msgs[|next.msgs| - 1] == msg
  {
  }

  /** The loop over `msgs` from the state `g`. */
  function Fold(tk: Tokenizer, complete: Completion, limit: nat, budget: int, g: Group, msgs: seq<Message>)
    : Result<Group, Error>
    decreases |msgs|
  {
    if msgs == [] then Success(g)
    else
      match Step(tk, complete, limit, budget, g, msgs[0])
      case Failure(e) => Failure(e)
      case Success(next) => Fold(tk, complete, limit, budget, next, msgs[1..])
  }

  /** The summarized thread for the message limit `limit` and the budget
      `budget`: the group the loop ends with. */
  function SummarizeWithin(tk: Tokenizer, complete: Completion, limit: nat, budget: int, messages: seq<Message>)
    : Result<seq<Message>, Error>
  {
    match Fold(tk, complete, limit, budget, Group([], 0), messages)
    case Failure(e) => Failure(e)
    case Success(g) => Success(g.msgs)
  }

  /** The loop over a non-empty list takes one step, then loops over the
      rest. */
  lemma FoldCons(tk: Tokenizer, complete: Completion, limit: nat, budget: int, g: Group, next: Group,
                 msgs: seq<Message>)
    requires msgs != [] && Step(tk, complete, limit, budget, g, msgs[0]) == Success(next)
    ensures Fold(tk, complete, limit, budget, g, msgs) == Fold(tk, complete, limit, budget, next, msgs[1..])
  {
  }

  /** `create_summerized_thread(messages)`: the budget is the model's
      context window minus its message limit, looked up before the loop. */
  function SummarizedThread(tk: Tokenizer, complete: Completion, model: string, messages: seq<Message>)
    : (r: Result<seq<Message>, Error>)
    ensures model !in ContextWindow || model !in MessageTokenLimit ==> r == Failure(UnknownModel(model))
    ensures model in ContextWindow && model in MessageTokenLimit ==>
      r == SummarizeWithin(tk, complete, MessageTokenLimit[model],
                           ContextWindow[model] - MessageTokenLimit[model], messages)
  {
    if model !in ContextWindow || model !in MessageTokenLimit then Failure(UnknownModel(model))
    else
      SummarizeWithin(tk, complete, MessageTokenLimit[model], ContextWindow[model] - MessageTokenLimit[model], messages)
  }

  /** A loop that never reaches the budget appends every message and adds up
      their costs. */
  lemma {:induction false} FoldUnderBudget(tk: Tokenizer, complete: Completion, limit: nat, budget: int,
                                           g: Group, msgs: seq<Message>)
    requires g.count + TotalCost(tk, MessagePaddingTokens, msgs) < budget
    ensures Fold(tk, complete, limit, budget, g, msgs)
         == Success(Group(g.msgs + msgs, g.count + TotalCost(tk, MessagePaddingTokens, msgs)))
    decreases |msgs|
  {
    if msgs != [] {
      var next := Group(g.msgs + [msgs[0]], g.count + ConnTokens.MessageCost(tk, msgs[0]));
      assert TotalCost(tk, MessagePaddingTokens, msgs)
          == ConnTokens.MessageCost(tk, msgs[0]) + TotalCost(tk, MessagePaddingTokens, msgs[1..]);
      assert Step(tk, complete, limit, budget, g, msgs[0]) == Success(next);
      FoldUnderBudget(tk, complete, limit, budget, next, msgs[1..]);
      assert next.msgs + msgs[1..] == g.msgs + msgs;
    } else {
      assert g.msgs + msgs == g.msgs;
    }
  }

  /** A loop that reaches the budget ends, when it succeeds, with a summary
      followed by the last message: the count never decreases, so once a
      summary fires every later message fires one too. */
  lemma {:induction false} FoldOverBudget(tk: Tokenizer, complete: Completion, limit: nat, budget: int,
                                          g: Group, msgs: seq<Message>)
    requires msgs != [] && g.count + TotalCost(tk, MessagePaddingTokens, msgs) >= budget
    requires Fold(tk, complete, limit, budget, g, msgs).Success?
    ensures var r := Fold(tk, complete, limit, budget, g, msgs).value;
      && r.count >= budget
      && |r.msgs| == 2 && r.msgs[0].role == Assistant && r.msgs[0].name.None?
      && r.msgs[1] == msgs[|msgs| - 1]
    decreases |msgs|
  {
    StepGrows(tk, complete, limit, budget, g, msgs[0]);
    var next := Step(tk, complete, limit, budget, g, msgs[0]).value;
    if |msgs| > 1 {
      FoldOverBudget(tk, complete, limit, budget, next, msgs[1..]);
    } else {
      StepOver(tk, complete, limit, budget, g, msgs[0]);
    }
  }

  /** An empty thread summarizes to an empty thread. */
  lemma SummarizedEmpty(tk: Tokenizer, complete: Completion, limit: nat, budget: int)
    ensures SummarizeWithin(tk, complete, limit, budget, []) == Success([])
  {
  }

  /** The two outcomes of `create_summerized_thread`: a thread whose cost
      stays under the budget comes back unchanged; otherwise the result is one
      assistant summary followed by the last input message. */
  lemma SummarizedShape(tk: Tokenizer, complete: Completion, limit: nat, budget: int, messages: seq<Message>)
    ensures var r := SummarizeWithin(tk, complete, limit, budget, messages);
      && (TotalCost(tk, MessagePaddingTokens, messages) < budget ==> r == Success(messages))
      && (TotalCost(tk, MessagePaddingTokens, messages) >= budget && messages != [] && r.Success? ==>
            |r.value| == 2 && r.value[0].role == Assistant && r.value[0].name.None?
            && r.value[1] == messages[|messages| - 1])
  {
    var total := TotalCost(tk, MessagePaddingTokens, messages);
    if total < budget {
      FoldUnderBudget(tk, complete, limit, budget, Group([], 0), messages);
      assert [] + messages == messages;
    } else if messages != [] && SummarizeWithin(tk, complete, limit, budget, messages).Success? {
      FoldOverBudget(tk, complete, limit, budget, Group([], 0), messages);
    }
  }

  /** A completion that always answers makes the loop succeed. */
  lemma {:induction false} FoldSucceeds(tk: Tokenizer, complete: Completion, limit: nat, budget: int,
                                        g: Group, msgs: seq<Message>)
    requires forall ms :: complete(ms).Success?
    ensures Fold(tk, complete, limit, budget, g, msgs).Success?
    decreases |msgs|
  {
    if msgs != [] {
      var next := Step(tk, complete, limit, budget, g, msgs[0]);
      assert next.Success?;
      FoldSucceeds(tk, complete, limit, budget, next.value, msgs[1..]);
    }
  }

  /** `reset_window`: the instruction as a system message when there is one,
      followed by the external thread when there is one. */
  function ResetThread(instruction: Option<string>, ext: Option<seq<Message>>): (r: seq<Message>)
    ensures instruction.None? ==> r == ext.GetOr([])
    ensures instruction.Some? ==>
      |r| >= 1 && r[0] == CreateMessage(System, instruction.value, None) && r[1..] == ext.GetOr([])
  {
    (if instruction.Some? then [CreateMessage(System, instruction.value, None)] else []) + ext.GetOr([])
  }

  /** The thread `run_thread` sends: unchanged while its cost is under the
      context window minus one message limit, otherwise the summarized thread
      behind the instruction. The cost is taken first (an empty thread fails),
      then the model's limits. */
  function Compacted(tk: Tokenizer, complete: Completion, model: string, instruction: Option<string>,
                     thread: seq<Message>): Result<seq<Message>, Error>
  {
    var cost := ConnTokens.ThreadCost(tk, thread);
    if cost.Failure? then Failure(cost.error)
    else if model !in ContextWindow || model !in MessageTokenLimit then Failure(UnknownModel(model))
    else if cost.value < ContextWindow[model] - MessageTokenLimit[model] then Success(thread)
    else
      match SummarizedThread(tk, complete, model, thread)
      case Failure(e) => Failure(e)
      case Success(summarized) => Success(ResetThread(instruction, Some(summarized)))
  }

  /** A compaction that fires leaves the instruction, one summary and the
      latest message; one that does not fire leaves the thread as it is. */
  lemma CompactedShape(tk: Tokenizer, complete: Completion, model: string, instruction: Option<string>,
                       thread: seq<Message>)
    requires thread != [] && model in ContextWindow && model in MessageTokenLimit
    requires Compacted(tk, complete, model, instruction, thread).Success?
    ensures var r := Compacted(tk, complete, model, instruction, thread).value;
      var prefix := if instruction.Some? then [CreateMessage(System, instruction.value, None)] else [];
      && (ConnTokens.ThreadCost(tk, thread).value < ContextWindow[model] - MessageTokenLimit[model] ==> r == thread)
      && (ConnTokens.ThreadCost(tk, thread).value >= ContextWindow[model] - MessageTokenLimit[model] ==>
            |r| == |prefix| + 2 && r[..|prefix|] == prefix
            && r[|prefix|].role == Assistant && r[|prefix| + 1] == thread[|thread| - 1])
  {
    SummarizedShape(tk, complete, MessageTokenLimit[model], ContextWindow[model] - MessageTokenLimit[model], thread);
  }

  class ChatSession {
    const tk: Tokenizer
    const model: string
    const instruction: Option<string>
    var thread: seq<Message>

    /** `__init__`: the client settings are left out; the thread starts as
        `reset_window()` makes it. */
    constructor (tk: Tokenizer, model: string, instruction: Option<string>)
      ensures this.tk == tk && this.model == model && this.instruction == instruction
      ensures thread == ResetThread(instruction, None)
    {
      this.tk := tk;
      this.model := model;
      this.instruction := instruction;
      thread := ResetThread(instruction, None);
    }

    /** `reset_window(ext_thread)`. */
    method ResetWindow(ext: Option<seq<Message>>) returns (r: seq<Message>)
      modifies this
      ensures thread == ResetThread(instruction, ext) && r == thread
    {
      thread := [];
      if instruction.Some? {
        thread := [CreateMessage(System, instruction.value, None)];
      }
      if ext.Some? {
        thread := thread + ext.value;
      }
      r := thread;
    }

    /** `create_summary_message(messages)`: the model's message limit is
        looked up, then the summary is requested with it. */
    method CreateSummaryMessage(complete: Completion, messages: seq<Message>) returns (r: Result<Message, Error>)
      ensures r == SummaryMessage(complete, messages, model)
    {
      if model !in MessageTokenLimit {
        return Failure(UnknownModel(model));
      }
      r := SummaryWith(complete, messages, MessageTokenLimit[model]);
    }

    /** `create_summerized_thread(messages)`: the limits are looked up, then
        the loop runs. */
    method CreateSummarizedThread(complete: Completion, messages: seq<Message>) returns (r: Result<seq<Message>, Error>)
      ensures r == SummarizedThread(tk, complete, model, messages)
    {
      if model !in ContextWindow || model !in MessageTokenLimit {
        return Failure(UnknownModel(model));
      }
      r := SummarizeLoop(complete, messages, MessageTokenLimit[model], ContextWindow[model] - MessageTokenLimit[model]);
    }

    /** The loop of `create_summerized_thread` over the messages, keeping a
        group and its running token count; each summary asks for at most
        `limit` tokens. */
    method SummarizeLoop(complete: Completion, messages: seq<Message>, limit: nat, budget: int)
      returns (r: Result<seq<Message>, Error>)
      ensures r == SummarizeWithin(tk, complete, limit, budget, messages)
    {
      var group: seq<Message> := [];
      var groupCount: nat := 0;
      for i := 0 to |messages|
        invariant Fold(tk, complete, limit, budget, Group([], 0), messages)
               == Fold(tk, complete, limit, budget, Group(group, groupCount), messages[i..])
      {
        var msg := messages[i];
        ghost var g := Group(group, groupCount);
        assert messages[i..][0] == msg && messages[i..][1..] == messages[i + 1..];
        var msgCount := ConnTokens.MessageCost(tk, msg);
        if msgCount + groupCount >= budget {
          var summary := SummaryWith(complete, group, limit);
          StepOver(tk, complete, limit, budget, g, msg);
          if summary.Failure? {
            return Failure(summary.error);
          }
          ghost var next := Group([summary.value, msg], groupCount + ConnTokens.MessageCost(tk, summary.value) + msgCount);
          FoldCons(tk, complete, limit, budget, g, next, messages[i..]);
          group := [summary.value, msg];
          groupCount := groupCount + ConnTokens.MessageCost(tk, summary.value) + msgCount;
        } else {
          StepUnder(tk, complete, limit, budget, g, msg);
          FoldCons(tk, complete, limit, budget, g, Group(group + [msg], groupCount + msgCount), messages[i..]);
          group := group + [msg];
          groupCount := groupCount + msgCount;
        }
      }
      assert messages[|messages|..] == [];
      assert Fold(tk, complete, limit, budget, Group([], 0), messages) == Success(Group(group, groupCount));
      r := Success(group);
    }

    /** `add_to_thread`: the old thread stays as a prefix, followed by one user
        message per chunk of the word splitter, in order, all with `name`. */
    method AddToThread(content: string, name: Option<string>) returns (r: Result<seq<Message>, Error>)
      modifies this
      ensures var chunks := SplitContent(tk, content, model);
        && (chunks.Failure? ==> r == Failure(chunks.error) && thread == old(thread))
        && (chunks.Success? ==> thread == old(thread) + UserMessages(chunks.value, name) && r == Success(thread))
    {
      var chunks := SplitContent(tk, content, model);
      if chunks.Failure? {
        return Failure(chunks.error);
      }
      thread := thread + UserMessages(chunks.value, name);
      r := Success(thread);
    }

    /** `run_thread`: the thread is compacted when its cost reaches the
        context window minus one message limit, then sent; the reply is
        appended as one message and its content returned. A failure of the
        final call leaves the thread compacted. */
    method RunThread(complete: Completion) returns (r: Result<string, Error>)
      modifies this
      ensures var pre := Compacted(tk, complete, model, instruction, old(thread));
        && (pre.Failure? ==> r == Failure(pre.error) && thread == old(thread))
        && (pre.Success? && complete(pre.value).Failure? ==>
              r == Failure(complete(pre.value).error) && thread == pre.value)
        && (pre.Success? && complete(pre.value).Success? ==>
              r == Success(complete(pre.value).value.content)
              && thread == pre.value + [ReplyMessage(complete(pre.value).value)])
    {
      var cost := ConnTokens.ThreadCost(tk, thread);
      if cost.Failure? {
        return Failure(cost.error);
      }
      if model !in ContextWindow || model !in MessageTokenLimit {
        return Failure(UnknownModel(model));
      }
      if cost.value >= ContextWindow[model] - MessageTokenLimit[model] {
        var summarized := CreateSummarizedThread(complete, thread);
        if summarized.Failure? {
          return Failure(summarized.error);
        }
        var _ := ResetWindow(Some(summarized.value));
      }
      var reply := complete(thread);
      if reply.Failure? {
        return Failure(reply.error);
      }
      thread := thread + [ReplyMessage(reply.value)];
      r := Success(reply.value.content);
    }
  }
}
