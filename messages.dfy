/** What both generations of the chat code share: role-tagged messages, the
    errors the code raises, the remote completion call seen from outside, and
    the tokenizer, which is a foreign library and is given here only by the two
    facts the budget logic relies on. */
module Messages {
  import opened Wrappers

  /** The exceptions the chat code raises, as values. */
  datatype Error =
    | EmptyReduce                  // `reduce` over an empty list without an initial value (TypeError)
    | UnknownModel(model: string)  // a model missing from a limits table (KeyError)
    | DivisionByZero               // `//` by a message limit of 0 (ZeroDivisionError)
    | ZeroRangeStep                // `range` with a step of 0 (ValueError)
    | Remote(reason: string)       // whatever the remote completion call raises

  datatype Role = System | User | Assistant {
    /** The string the message dictionary holds under "role". */
    function Name(): string {
      match this
      case System => "system"
      case User => "user"
      case Assistant => "assistant"
    }
  }

  /** A chat message: the dictionary `{"role": ..., "content": ..., "name": ...}`
      whose "name" key is present only when a name was given. */
  datatype Message = Message(role: Role, content: string, name: Option<string>)

  /** The values of the message dictionary, in insertion order (`message.values()`). */
  function FieldValues(m: Message): seq<string> {
    [m.role.Name(), m.content] + if m.name.Some? then [m.name.value] else []
  }

  /** `create_message(role, msg, name)`: role and content are always present,
      and the "name" key only when a name is given, after the other two. */
  function CreateMessage(role: Role, content: string, name: Option<string>): (m: Message)
    ensures m.role == role && m.content == content && m.name == name
    ensures |FieldValues(m)| == if name.Some? then 3 else 2
    ensures FieldValues(m)[..2] == [role.Name(), content]
    ensures name.Some? ==> FieldValues(m)[2] == name.value
  {
    Message(role, content, name)
  }

  /** One user message per chunk, in order, all with the same name. */
  function UserMessages(chunks: seq<string>, name: Option<string>): (r: seq<Message>)
    ensures |r| == |chunks|
    ensures forall i :: 0 <= i < |r| ==> r[i] == CreateMessage(User, chunks[i], name)
  {
    seq(|chunks|, i requires 0 <= i < |chunks| => CreateMessage(User, chunks[i], name))
  }

  /** `resp.choices[0].message` as returned by the completion endpoint. */
  datatype Reply = Reply(role: Role, content: string)

  /** The message appended to a thread for a reply: its role and content,
      no name. */
  function ReplyMessage(reply: Reply): (m: Message)
    ensures m.role == reply.role && m.content == reply.content && m.name.None?
  {
    CreateMessage(reply.role, reply.content, None)
  }

  /** The remote completion call (network I/O): any function of the thread it
      is sent, which either answers or raises. */
  type Completion = seq<Message> -> Result<Reply, Error>

  /** The tokenizer bound to one model: `count` is the number of tokens of a
      text, `truncate(t, n)` decodes the first `n` tokens of `t`. */
  datatype Tokenizer = Tokenizer(count: string -> nat, truncate: (string, nat) -> string)

  /** The two facts about the tokenizer the budget logic relies on: a
      truncation to `n` tokens holds at most `n` tokens, and it leaves a text
      that already fits unchanged. */
  ghost predicate Sound(tk: Tokenizer) {
    && (forall t, n :: tk.count(tk.truncate(t, n)) <= n)
    && (forall t, n :: tk.count(t) <= n ==> tk.truncate(t, n) == t)
  }

  /** The sum of the token counts of some strings. */
  function CountAll(tk: Tokenizer, values: seq<string>): nat {
    if values == [] then 0 else tk.count(values[0]) + CountAll(tk, values[1..])
  }

  /** The cost of one message: a fixed padding plus the count of each field value. */
  function MessageCost(tk: Tokenizer, padding: nat, m: Message): (r: nat)
    ensures r == padding + tk.count(m.role.Name()) + tk.count(m.content)
                 + (if m.name.Some? then tk.count(m.name.value) else 0)
  {
    var vs := FieldValues(m);
    var extra := if m.name.Some? then [m.name.value] else [];
    assert vs[1..][1..] == extra;
    assert CountAll(tk, extra) == if m.name.Some? then tk.count(m.name.value) else 0 by {
      if m.name.Some? { assert extra[1..] == []; }
    }
    assert CountAll(tk, vs[1..]) == tk.count(m.content) + CountAll(tk, extra);
    padding + CountAll(tk, vs)
  }

  /** The cost of a list of messages: the sum of the message costs. */
  function TotalCost(tk: Tokenizer, padding: nat, ms: seq<Message>): nat {
    if ms == [] then 0 else MessageCost(tk, padding, ms[0]) + TotalCost(tk, padding, ms[1..])
  }

  lemma {:induction false} TotalCostAppend(tk: Tokenizer, padding: nat, a: seq<Message>, b: seq<Message>)
    ensures TotalCost(tk, padding, a + b) == TotalCost(tk, padding, a) + TotalCost(tk, padding, b)
    decreases |a|
  {
    if a == [] {
      assert a + b == b;
    } else {
      TotalCostAppend(tk, padding, a[1..], b);
      assert (a + b)[1..] == a[1..] + b;
    }
  }

  /** `reduce(add, [cost(msg) for msg in messages])`: the sum of the message
      costs, and the error `reduce` raises on an empty thread. */
  function ThreadCost(tk: Tokenizer, padding: nat, ms: seq<Message>): (r: Result<nat, Error>)
    ensures r.Failure? <==> ms == []
    ensures r.Failure? ==> r.error == EmptyReduce
    ensures r.Success? ==> r.value == TotalCost(tk, padding, ms)
  {
    if ms == [] then Failure(EmptyReduce) else Success(TotalCost(tk, padding, ms))
  }
}
