/** The chat agent of the second generation (openai_utilities/chat.py): two
    context-window policies over a role-tagged thread, and `ChatAgent`, which
    seeds its thread with system instructions, appends split user content,
    and around each remote call applies an optional pre-call and post-call
    cleanup to the thread. */
module UtilChat {
  import opened Wrappers
  import opened Text
  import opened Messages
  import UtilTokens

  predicate IsSystem(m: Message) {
    m.role == System
  }

  /** `empty_context_window`: the system messages of the thread and nothing
      else. Every message kept is a system message, and every system message
      is kept. */
  function EmptyContextWindow(thread: seq<Message>): (r: seq<Message>)
    ensures forall k :: 0 <= k < |r| ==> IsSystem(r[k])
    ensures forall k :: 0 <= k < |thread| && IsSystem(thread[k]) ==> thread[k] in r
    ensures |r| <= |thread|
  {
    if thread == [] then []
    else
      var rest := EmptyContextWindow(thread[1..]);
      assert forall k :: 1 <= k < |thread| ==> thread[k] == thread[1..][k - 1];
      (if IsSystem(thread[0]) then [thread[0]] else []) + rest
  }

  /** The order of the system messages is kept: the policy distributes over
      concatenation. */
  lemma {:induction false} EmptyContextAppend(a: seq<Message>, b: seq<Message>)
    ensures EmptyContextWindow(a + b) == EmptyContextWindow(a) + EmptyContextWindow(b)
    decreases |a|
  {
    if a == [] {
      assert a + b == b;
    } else {
      EmptyContextAppend(a[1..], b);
      assert (a + b)[1..] == a[1..] + b;
    }
  }

  /** Applying the policy twice is applying it once. */
  lemma {:induction false} EmptyContextIdempotent(thread: seq<Message>)
    ensures EmptyContextWindow(EmptyContextWindow(thread)) == EmptyContextWindow(thread)
    decreases |thread|
  {
    if thread != [] {
      EmptyContextIdempotent(thread[1..]);
      var head := if IsSystem(thread[0]) then [thread[0]] else [];
      EmptyContextAppend(head, EmptyContextWindow(thread[1..]));
      if head != [] {
        assert head[1..] == [];
      }
    }
  }

  /** On a thread of system messages followed by conversation, the policy
      keeps exactly the leading system messages. */
  lemma EmptyContextOfSystemPrefix(system: seq<Message>, rest: seq<Message>)
    requires forall k :: 0 <= k < |system| ==> IsSystem(system[k])
    requires forall k :: 0 <= k < |rest| ==> !IsSystem(rest[k])
    ensures EmptyContextWindow(system + rest) == system
  {
    EmptyContextAppend(system, rest);
    OnlySystem(system);
    NoSystem(rest);
  }

  lemma {:induction false} OnlySystem(ms: seq<Message>)
    requires forall k :: 0 <= k < |ms| ==> IsSystem(ms[k])
    ensures EmptyContextWindow(ms) == ms
    decreases |ms|
  {
    if ms != [] {
      OnlySystem(ms[1..]);
    }
  }

  lemma {:induction false} NoSystem(ms: seq<Message>)
    requires forall k :: 0 <= k < |ms| ==> !IsSystem(ms[k])
    ensures EmptyContextWindow(ms) == []
    decreases |ms|
  {
    if ms != [] {
      NoSystem(ms[1..]);
    }
  }

  /** The summed cost of the non-system messages. */
  function NonSystemCost(tk: Tokenizer, ms: seq<Message>): nat {
    if ms == [] then 0
    else
      var last := ms[|ms| - 1];
      NonSystemCost(tk, ms[..|ms| - 1]) + if IsSystem(last) then 0 else UtilTokens.MessageCost(tk, last)
  }

  /** Index `j` is where the running non-system cost first may reach the
      limit: a non-system message whose inclusion brings the non-system cost
      of `thread[..j + 1]` to `limit` or more. */
  predicate Crosses(tk: Tokenizer, thread: seq<Message>, limit: nat, j: nat)
    requires j < |thread|
  {
    !IsSystem(thread[j]) && NonSystemCost(tk, thread[..j + 1]) >= limit
  }

  /** The cut of `slide_context_window`, searched from `j` on: the first
      crossing index, or the last index when there is none before it. */
  function CutFrom(tk: Tokenizer, thread: seq<Message>, limit: nat, j: nat): (r: nat)
    requires j < |thread|
    ensures j <= r < |thread|
    ensures r < |thread| - 1 ==> Crosses(tk, thread, limit, r)
    ensures forall k :: j <= k < r ==> !Crosses(tk, thread, limit, k)
    decreases |thread| - j
  {
    if Crosses(tk, thread, limit, j) || j == |thread| - 1 then j
    else CutFrom(tk, thread, limit, j + 1)
  }

  /** The sliding-window policy once the limits are known: a thread within
      `window - limit` is kept as it is; otherwise the system messages, then
      the thread from the cut on. */
  function SlideWithin(tk: Tokenizer, thread: seq<Message>, window: nat, limit: nat): (r: Result<seq<Message>, Error>)
    requires thread != []
  {
    if UtilTokens.ThreadCost(tk, thread).value <= window - limit then Success(thread)
    else Success(EmptyContextWindow(thread) + thread[CutFrom(tk, thread, limit, 0)..])
  }

  /** `slide_context_window(thread, model)`: the cost of the thread first (an
      empty thread fails), then both limits of the model. */
  function Slide(tk: Tokenizer, thread: seq<Message>, model: string): Result<seq<Message>, Error> {
    if thread == [] then Failure(EmptyReduce)
    else if model !in UtilTokens.ContextWindow || model !in UtilTokens.MessageTokenLimit then
      Failure(UnknownModel(model))
    else SlideWithin(tk, thread, UtilTokens.ContextWindow[model], UtilTokens.MessageTokenLimit[model])
  }

  /** `slide_context_window`, with its loop that walks the thread adding up
      the cost of the non-system messages and stops at the first that brings
      the sum to the message limit. */
  method SlideContextWindow(tk: Tokenizer, thread: seq<Message>, model: string)
    returns (r: Result<seq<Message>, Error>)
    ensures r == Slide(tk, thread, model)
  {
    var total := UtilTokens.ThreadCost(tk, thread);
    if total.Failure? {
      return Failure(total.error);
    }
    if model !in UtilTokens.ContextWindow || model !in UtilTokens.MessageTokenLimit {
      return Failure(UnknownModel(model));
    }
    var window, limit := UtilTokens.ContextWindow[model], UtilTokens.MessageTokenLimit[model];
    if total.value <= window - limit {
      return Success(thread);
    }
    var system := EmptyContextWindow(thread);
    var tokenCount := 0;
    var i := 0;
    while true
      invariant 0 <= i < |thread|
      invariant tokenCount == NonSystemCost(tk, thread[..i])
      invariant forall k :: 0 <= k < i ==> !Crosses(tk, thread, limit, k)
      decreases |thread| - i
    {
      assert thread[..i + 1][..i] == thread[..i];
      if !IsSystem(thread[i]) {
        tokenCount := tokenCount + UtilTokens.MessageCost(tk, thread[i]);
        if tokenCount >= limit {
          break;
        }
      }
      if i == |thread| - 1 {
        break;
      }
      i := i + 1;
    }
    CutUnique(tk, thread, limit, i);
    r := Success(system + thread[i..]);
  }

  /** A thread within budget is returned unchanged. */
  lemma SlideUnderBudget(tk: Tokenizer, thread: seq<Message>, window: nat, limit: nat)
    requires thread != [] && UtilTokens.ThreadCost(tk, thread).value <= window - limit
    ensures SlideWithin(tk, thread, window, limit) == Success(thread)
  {
  }

  /** The cut is the only index with its two defining properties: no
      crossing before it, and a crossing at it unless it is the last index. */
  lemma CutUnique(tk: Tokenizer, thread: seq<Message>, limit: nat, i: nat)
    requires i < |thread|
    requires forall k :: 0 <= k < i ==> !Crosses(tk, thread, limit, k)
    requires Crosses(tk, thread, limit, i) || i == |thread| - 1
    ensures CutFrom(tk, thread, limit, 0) == i
  {
  }

  lemma {:induction false} NonSystemCostBelow(tk: Tokenizer, thread: seq<Message>, limit: nat, i: nat)
    requires 0 < limit && i <= |thread|
    requires forall k :: 0 <= k < i ==> !Crosses(tk, thread, limit, k)
    ensures NonSystemCost(tk, thread[..i]) < limit
    decreases i
  {
    if i > 0 {
      NonSystemCostBelow(tk, thread, limit, i - 1);
      assert thread[..i][..i - 1] == thread[..i - 1];
      assert !Crosses(tk, thread, limit, i - 1);
    }
  }

  /** Over budget, the result is every system message in order followed by
      `thread[i..]`, where `i` is the first non-system index at which the
      running non-system cost reaches the limit (that message is kept), or
      the last index when the cost never reaches it. The window therefore
      slides by less than one message limit: the non-system messages it
      drops cost strictly less than `limit` in total. */
  lemma SlideOverBudget(tk: Tokenizer, thread: seq<Message>, window: nat, limit: nat)
    requires thread != [] && 0 < limit && UtilTokens.ThreadCost(tk, thread).value > window - limit
    ensures var i := CutFrom(tk, thread, limit, 0);
            && (forall k :: 0 <= k < i ==> !Crosses(tk, thread, limit, k))
            && (Crosses(tk, thread, limit, i) || i == |thread| - 1)
            && SlideWithin(tk, thread, window, limit) == Success(EmptyContextWindow(thread) + thread[i..])
            && NonSystemCost(tk, thread[..i]) < limit
  {
    NonSystemCostBelow(tk, thread, limit, CutFrom(tk, thread, limit, 0));
  }

  /** When the system messages form a prefix and a conversation follows, the
      slid thread is that prefix followed by a contiguous tail of the
      conversation: it is the input with one contiguous run removed, so no
      message is duplicated. */
  lemma SlideSystemPrefix(tk: Tokenizer, system: seq<Message>, rest: seq<Message>, window: nat, limit: nat)
    requires forall k :: 0 <= k < |system| ==> IsSystem(system[k])
    requires forall k :: 0 <= k < |rest| ==> !IsSystem(rest[k])
    requires rest != [] && UtilTokens.ThreadCost(tk, system + rest).value > window - limit
    ensures var i := CutFrom(tk, system + rest, limit, 0);
      && |system| <= i
      && SlideWithin(tk, system + rest, window, limit) == Success(system + (system + rest)[i..])
  {
    var thread := system + rest;
    var i := CutFrom(tk, thread, limit, 0);
    EmptyContextOfSystemPrefix(system, rest);
    if i < |system| {
      assert false;
    }
  }

  /** The edge the prefix assumption hides: an over-budget thread of system
      messages only comes back with its last message twice. */
  lemma SlideAllSystemDuplicatesLast(tk: Tokenizer, thread: seq<Message>, window: nat, limit: nat)
    requires thread != [] && forall k :: 0 <= k < |thread| ==> IsSystem(thread[k])
    requires UtilTokens.ThreadCost(tk, thread).value > window - limit
    ensures SlideWithin(tk, thread, window, limit) == Success(thread + [thread[|thread| - 1]])
  {
    OnlySystem(thread);
    var i := CutFrom(tk, thread, limit, 0);
    if i < |thread| - 1 {
      assert false;
    }
    assert thread[i..] == [thread[|thread| - 1]];
  }

  /** The instructions given to the agent: a string, a list of strings, or
      anything else (None included). */
  datatype Instructions = Single(text: string) | Many(items: seq<string>) | Other

  /** `_init_window`: one system message per instruction, in order. */
  function InitialThread(instructions: Instructions): (r: seq<Message>)
    ensures instructions.Single? ==> r == [CreateMessage(System, instructions.text, None)]
    ensures instructions.Many? ==>
      (|r| == |instructions.items|
       && forall k :: 0 <= k < |r| ==> r[k] == CreateMessage(System, instructions.items[k], None))
    ensures instructions.Other? ==> r == []
  {
    match instructions
    case Single(text) => [CreateMessage(System, text, None)]
    case Many(items) => seq(|items|, k requires 0 <= k < |items| => CreateMessage(System, items[k], None))
    case Other => []
  }

  /** The chunks `add_message` appends for `content`: blank content gives
      none before the model's limit is looked up; otherwise the model must
      be in the limits table. */
  function Chunks(tk: Tokenizer, content: string, model: string): (r: Result<seq<string>, Error>)
    ensures r.Failure? <==> !AllSpace(content) && model !in UtilTokens.MessageTokenLimit
  {
    if AllSpace(content) then Success([])
    else if model !in UtilTokens.MessageTokenLimit then Failure(UnknownModel(model))
    else Success(UtilTokens.SplitContent(tk, content, UtilTokens.MessageTokenLimit[model],
                                         UtilTokens.NaturalLanguageDelimiters, s => s))
  }

  /** Every chunk `add_message` appends is within the model's message limit. */
  lemma ChunksWithinLimit(tk: Tokenizer, content: string, model: string)
    requires Sound(tk) && Chunks(tk, content, model).Success?
    ensures forall c <- Chunks(tk, content, model).value :: tk.count(c) <= UtilTokens.MessageTokenLimit[model]
  {
    if !AllSpace(content) {
      UtilTokens.SplitContentWithinLimit(tk, content, UtilTokens.MessageTokenLimit[model],
                                         UtilTokens.NaturalLanguageDelimiters, s => s);
    }
  }

  /** A context-window policy the agent applies around a call: one of the two
      above, or any other function of the thread and the model, which may
      raise. */
  datatype Cleanup =
    | EmptyContext
    | SlideContext
    | Custom(apply: (seq<Message>, string) -> Result<seq<Message>, Error>)

  /** `run_cleanup`: the thread itself when no policy is configured. */
  function CleanupResult(tk: Tokenizer, model: string, cleanup: Option<Cleanup>, thread: seq<Message>)
    : Result<seq<Message>, Error>
  {
    match cleanup
    case None => Success(thread)
    case Some(EmptyContext) => Success(EmptyContextWindow(thread))
    case Some(SlideContext) => Slide(tk, thread, model)
    case Some(Custom(f)) => f(thread, model)
  }

  /** `get_response` on a given thread: the pre-call cleanup, the remote call
      on the cleaned thread, the reply appended as one message and the
      post-call cleanup, as the pair of the result and the thread left
      behind; an exception at a step ends the call with the thread as the
      earlier steps made it. Without cleanups a successful call adds exactly
      the reply to the thread. */
  function Respond(tk: Tokenizer, model: string, preRunCleanup: Option<Cleanup>, postRunCleanup: Option<Cleanup>,
                   complete: Completion, thread: seq<Message>): (r: (Result<string, Error>, seq<Message>))
    ensures preRunCleanup.None? && postRunCleanup.None? && r.0.Success? ==>
      complete(thread).Success? && r.0.value == complete(thread).value.content
      && r.1 == thread + [ReplyMessage(complete(thread).value)]
  {
    var pre := CleanupResult(tk, model, preRunCleanup, thread);
    if pre.Failure? then (Failure(pre.error), thread)
    else
      var reply := complete(pre.value);
      if reply.Failure? then (Failure(reply.error), pre.value)
      else
        var grown := pre.value + [ReplyMessage(reply.value)];
        var post := CleanupResult(tk, model, postRunCleanup, grown);
        if post.Failure? then (Failure(post.error), grown)
        else (Success(reply.value.content), post.value)
  }

  class ChatAgent {
    const tk: Tokenizer
    const model: string
    const instructions: Instructions
    const preRunCleanup: Option<Cleanup>
    const postRunCleanup: Option<Cleanup>
    var thread: seq<Message>

    /** `__init__`: the client settings are left out; the thread starts as
        `_init_window` makes it. */
    constructor (tk: Tokenizer, model: string, instructions: Instructions,
                 preRunCleanup: Option<Cleanup>, postRunCleanup: Option<Cleanup>)
      ensures this.tk == tk && this.model == model && this.instructions == instructions
      ensures this.preRunCleanup == preRunCleanup && this.postRunCleanup == postRunCleanup
      ensures thread == InitialThread(instructions)
    {
      this.tk := tk;
      this.model := model;
      this.instructions := instructions;
      this.preRunCleanup := preRunCleanup;
      this.postRunCleanup := postRunCleanup;
      thread := InitialThread(instructions);
    }

    /** `_init_window`: resets the thread to the instructions as system messages. */
    method InitWindow() returns (r: seq<Message>)
      modifies this
      ensures thread == InitialThread(instructions) && r == thread
    {
      thread := InitialThread(instructions);
      r := thread;
    }

    /** `add_message`: the old thread stays as a prefix, followed by one user
        message per chunk of the split content, in order, all with `name`. */
    method AddMessage(content: string, name: Option<string>) returns (r: Result<seq<Message>, Error>)
      modifies this
      ensures var chunks := Chunks(tk, content, model);
        && (chunks.Failure? ==> r == Failure(chunks.error) && thread == old(thread))
        && (chunks.Success? ==> thread == old(thread) + UserMessages(chunks.value, name) && r == Success(thread))
    {
      var chunks := Chunks(tk, content, model);
      if chunks.Failure? {
        return Failure(chunks.error);
      }
      thread := thread + UserMessages(chunks.value, name);
      r := Success(thread);
    }

    /** `run_cleanup` applied to the current thread. */
    method RunCleanup(cleanup: Option<Cleanup>) returns (r: Result<seq<Message>, Error>)
      ensures r == CleanupResult(tk, model, cleanup, thread)
    {
      match cleanup
      case None =>
        r := Success(thread);
      case Some(EmptyContext) =>
        r := Success(EmptyContextWindow(thread));
      case Some(SlideContext) =>
        r := SlideContextWindow(tk, thread, model);
      case Some(Custom(f)) =>
        r := f(thread, model);
    }

    /** `get_response`: the pre-call cleanup replaces the thread, the remote
        call sees that thread, its reply is appended as one message, the
        post-call cleanup replaces the thread, and the reply's content is
        returned. An exception at any step ends the call there, leaving the
        thread as the earlier steps made it. */
    method GetResponse(complete: Completion) returns (r: Result<string, Error>)
      modifies this
      ensures var pre := CleanupResult(tk, model, preRunCleanup, old(thread));
        && (pre.Failure? ==> r == Failure(pre.error) && thread == old(thread))
        && (pre.Success? && complete(pre.value).Failure? ==>
              r == Failure(complete(pre.value).error) && thread == pre.value)
        && (pre.Success? && complete(pre.value).Success? ==>
              var grown := pre.value + [ReplyMessage(complete(pre.value).value)];
              var post := CleanupResult(tk, model, postRunCleanup, grown);
              && (post.Failure? ==> r == Failure(post.error) && thread == grown)
              && (post.Success? ==> r == Success(complete(pre.value).value.content) && thread == post.value))
      ensures preRunCleanup.None? && postRunCleanup.None? && r.Success? ==>
        |thread| == |old(thread)| + 1 && thread[..|old(thread)|] == old(thread)
      ensures (r, thread) == Respond(tk, model, preRunCleanup, postRunCleanup, complete, old(thread))
    {
      var pre := RunCleanup(preRunCleanup);
      if pre.Failure? {
        return Failure(pre.error);
      }
      thread := pre.value;
      var reply := complete(thread);
      if reply.Failure? {
        return Failure(reply.error);
      }
      thread := thread + [ReplyMessage(reply.value)];
      var post := RunCleanup(postRunCleanup);
      if post.Failure? {
        return Failure(post.error);
      }
      thread := post.value;
      r := Success(reply.value.content);
    }

    /** `__call__`: add the message when there is one, with no name, then get
        a response on the thread as the add left it; a failed add ends the
        call with the thread unchanged. */
    method Call(message: Option<string>, complete: Completion) returns (r: Result<string, Error>)
      modifies this
      ensures message.None? ==>
        (r, thread) == Respond(tk, model, preRunCleanup, postRunCleanup, complete, old(thread))
      ensures message.Some? && Chunks(tk, message.value, model).Failure? ==>
        r == Failure(Chunks(tk, message.value, model).error) && thread == old(thread)
      ensures message.Some? && Chunks(tk, message.value, model).Success? ==>
        var added := old(thread) + UserMessages(Chunks(tk, message.value, model).value, None);
        (r, thread) == Respond(tk, model, preRunCleanup, postRunCleanup, complete, added)
      ensures message.Some? && Chunks(tk, message.value, model).Success? &&
              preRunCleanup.None? && postRunCleanup.None? && r.Success? ==>
        var added := old(thread) + UserMessages(Chunks(tk, message.value, model).value, None);
        thread == added + [ReplyMessage(complete(added).value)]
    {
      if message.Some? {
        var added := AddMessage(message.value, None);
        if added.Failure? {
          return Failure(added.error);
        }
      }
      r := GetResponse(complete);
    }
  }
}
