/**
  The chat component of the frontend: a transcript of turns, the text box and
  a loading flag, and the submission handler that sends the prompt, reads the
  streamed reply chunk by chunk into an assistant turn, and reports failures
  with a fixed error turn.

  The HTTP call is a function from the request to a scripted response, and the
  browser's TextDecoder is an arbitrary function applied to each chunk on its
  own (the component decodes without carrying bytes across chunks).
*/
module Chat {
  import opened Wrappers

  type Byte = bv8
  type Bytes = seq<Byte>

  /** TextDecoder.decode applied to one chunk. */
  type Decoder = Bytes -> string

  datatype Role = User | Assistant
  datatype Message = Message(role: Role, content: string)

  /** The model identifier the component always sends. */
  const ModelId: string := "us.anthropic.claude-sonnet-4-5-20250929-v1:0"
  const ErrorText: string := "Error: Failed to get response."
  const ErrorTurn: Message := Message(Assistant, ErrorText)

  /** The JSON body of the POST to /chat. */
  datatype Request = Request(prompt: string, modelId: string)

  /** How the body stream ends after its chunks: end of data, or a read that fails. */
  datatype StreamEnd = Done | ReadFailed

  /** What the call to fetch produces: it rejects, it resolves without a body,
      or it resolves with a body that yields `chunks` and then ends as `end`. */
  datatype Response = FetchFailed | NoBody | Body(chunks: seq<Bytes>, end: StreamEnd)

  // ---------------------------------------------------------------------------
  // The input guard: String.prototype.trim

  /** The characters trim removes: ECMAScript WhiteSpace and LineTerminator. */
  predicate IsJsWhitespace(c: char) {
    var n := c as int;
    n == 0x09 || n == 0x0A || n == 0x0B || n == 0x0C || n == 0x0D || n == 0x20
    || n == 0xA0 || n == 0x1680 || (0x2000 <= n <= 0x200A) || n == 0x2028
    || n == 0x2029 || n == 0x202F || n == 0x205F || n == 0x3000 || n == 0xFEFF
  }

  predicate IsBlank(s: string) {
    forall i :: 0 <= i < |s| ==> IsJsWhitespace(s[i])
  }

  /** Drops leading whitespace: the result is a suffix of `s`, what was dropped
      is all whitespace, and the result does not start with whitespace. */
  function TrimStart(s: string): (r: string)
    ensures |r| <= |s| && r == s[|s| - |r|..]
    ensures IsBlank(s[..|s| - |r|])
    ensures r == [] || !IsJsWhitespace(r[0])
  {
    if s != [] && IsJsWhitespace(s[0]) then
      var r := TrimStart(s[1..]);
      assert s[..|s| - |r|] == [s[0]] + s[1..][..|s| - 1 - |r|];
      r
    else
      s
  }

  /** Drops trailing whitespace: the result is a prefix of `s`, what was
      dropped is all whitespace, and the result does not end with whitespace. */
  function TrimEnd(s: string): (r: string)
    ensures |r| <= |s| && r == s[..|r|]
    ensures IsBlank(s[|r|..])
    ensures r == [] || !IsJsWhitespace(r[|r| - 1])
  {
    if s != [] && IsJsWhitespace(s[|s| - 1]) then
      var r := TrimEnd(s[..|s| - 1]);
      assert s[|r|..] == s[..|s| - 1][|r|..] + [s[|s| - 1]];
      r
    else
      s
  }

  function Trim(s: string): (r: string)
    ensures r == [] || (!IsJsWhitespace(r[0]) && !IsJsWhitespace(r[|r| - 1]))
  {
    TrimEnd(TrimStart(s))
  }

  /** The guard `!input.trim()` holds exactly for inputs made only of whitespace
      (the empty input included). */
  lemma TrimEmptyIffBlank(s: string)
    ensures Trim(s) == [] <==> IsBlank(s)
  {
  }

  // ---------------------------------------------------------------------------
  // Specification of one submission

  /** The text the reply's chunks decode to, each chunk decoded on its own and
      the pieces joined in arrival order. */
  function DecodeAll(decode: Decoder, chunks: seq<Bytes>): string {
    if chunks == [] then "" else DecodeAll(decode, chunks[..|chunks| - 1]) + decode(chunks[|chunks| - 1])
  }

  lemma {:induction false} DecodeAllAppend(decode: Decoder, a: seq<Bytes>, b: seq<Bytes>)
    ensures DecodeAll(decode, a + b) == DecodeAll(decode, a) + DecodeAll(decode, b)
    decreases |b|
  {
    if b == [] {
      assert a + b == a;
    } else {
      var b' := b[..|b| - 1];
      assert (a + b)[..|a + b| - 1] == a + b';
      DecodeAllAppend(decode, a, b');
    }
  }

  /** Decoding chunk by chunk agrees with decoding the first chunk and then the rest. */
  lemma DecodeAllFromFront(decode: Decoder, c: Bytes, rest: seq<Bytes>)
    ensures DecodeAll(decode, [c] + rest) == decode(c) + DecodeAll(decode, rest)
  {
    DecodeAllAppend(decode, [c], rest);
    assert [c][..0] == [];
  }

  /** The text shown after more chunks extends the text shown after fewer. */
  lemma DecodeAllGrows(decode: Decoder, chunks: seq<Bytes>, i: nat, j: nat)
    requires i <= j <= |chunks|
    ensures DecodeAll(decode, chunks[..i]) <= DecodeAll(decode, chunks[..j])
  {
    assert chunks[..j] == chunks[..i] + chunks[i..j];
    DecodeAllAppend(decode, chunks[..i], chunks[i..j]);
  }

  /** Three chunks that decode to "Hel", "lo, " and "world" give "Hello, world". */
  lemma DecodeAllExample(decode: Decoder, c0: Bytes, c1: Bytes, c2: Bytes)
    requires decode(c0) == "Hel" && decode(c1) == "lo, " && decode(c2) == "world"
    ensures DecodeAll(decode, [c0, c1, c2]) == "Hello, world"
  {
    assert [c0, c1, c2] == [c0] + ([c1] + [c2]);
    DecodeAllFromFront(decode, c0, [c1] + [c2]);
    DecodeAllFromFront(decode, c1, [c2]);
    DecodeAllFromFront(decode, c2, []);
    assert [c2] + [] == [c2];
  }

  /** The transcript once the reply has been handled, starting from the
      transcript that ends with the user turn: the error turn on a failed call;
      otherwise the assistant turn holding the decoded chunks, and the error
      turn after it if a read failed. */
  function Answered(withUser: seq<Message>, response: Response, decode: Decoder): (a: seq<Message>)
    ensures |a| == |withUser| + (if response.Body? && response.end == ReadFailed then 2 else 1)
    ensures a[..|withUser|] == withUser
    ensures response.Body? ==> a[|withUser|] == Message(Assistant, DecodeAll(decode, response.chunks))
    ensures a[|a| - 1] == ErrorTurn <== !response.Body? || response.end == ReadFailed
  {
    match response
    case Body(chunks, end) =>
      withUser + [Message(Assistant, DecodeAll(decode, chunks))] + (if end == ReadFailed then [ErrorTurn] else [])
    case _ =>
      withUser + [ErrorTurn]
  }

  /** The transcript when the submission of `text` has finished. */
  function Settled(prev: seq<Message>, text: string, response: Response, decode: Decoder): (t: seq<Message>)
    ensures |t| == |prev| + (if response.Body? && response.end == ReadFailed then 3 else 2)
    ensures t[..|prev|] == prev && t[|prev|] == Message(User, text)
    ensures response.Body? ==> t[|prev| + 1] == Message(Assistant, DecodeAll(decode, response.chunks))
    ensures t[|t| - 1] == ErrorTurn <== !response.Body? || response.end == ReadFailed
  {
    Answered(prev + [Message(User, text)], response, decode)
  }

  /** The snapshots the read loop publishes: the empty placeholder, then one
      per chunk, each holding the text of the chunks read so far. */
  function StreamFrames(withUser: seq<Message>, decode: Decoder, chunks: seq<Bytes>): (fs: seq<seq<Message>>)
    ensures |fs| == |chunks| + 1
    ensures fs[0] == withUser + [Message(Assistant, "")]
  {
    seq(|chunks| + 1, k requires 0 <= k <= |chunks| => withUser + [Message(Assistant, DecodeAll(decode, chunks[..k]))])
  }

  /** The snapshots published while the reply is handled: the error turn on a
      failed call; otherwise the read loop's snapshots, and the error turn if a
      read failed. */
  function ReplyFrames(withUser: seq<Message>, response: Response, decode: Decoder): (fs: seq<seq<Message>>)
    ensures |fs| == match response
                    case Body(chunks, end) => |chunks| + (if end == ReadFailed then 2 else 1)
                    case _ => 1
    ensures fs[|fs| - 1] == Answered(withUser, response, decode)
  {
    assert response.Body? ==> response.chunks[..|response.chunks|] == response.chunks;
    match response
    case Body(chunks, end) =>
      StreamFrames(withUser, decode, chunks) + (if end == ReadFailed then [Answered(withUser, response, decode)] else [])
    case _ =>
      [Answered(withUser, response, decode)]
  }

  /** Every transcript the submission publishes, in order: the one with the
      user turn, then those of the reply. */
  function Frames(prev: seq<Message>, text: string, response: Response, decode: Decoder): (fs: seq<seq<Message>>)
    ensures |fs| == match response
                    case Body(chunks, end) => |chunks| + (if end == ReadFailed then 3 else 2)
                    case _ => 2
    ensures fs[0] == prev + [Message(User, text)]
    ensures response.Body? ==> fs[1] == prev + [Message(User, text), Message(Assistant, "")]
    ensures fs[|fs| - 1] == Settled(prev, text, response, decode)
  {
    var withUser := prev + [Message(User, text)];
    assert response.Body? ==> response.chunks[..|response.chunks|] == response.chunks;
    [withUser] + ReplyFrames(withUser, response, decode)
  }

  // ---------------------------------------------------------------------------
  // The transcript only grows

  /** `b` is `a` with one more turn at the end. */
  predicate Appends(a: seq<Message>, b: seq<Message>) {
    |b| == |a| + 1 && b[..|a|] == a
  }

  /** `b` is `a` with only its last turn replaced by one of the same role whose
      content extends the old content. */
  predicate Grows(a: seq<Message>, b: seq<Message>) {
    && |a| == |b| > 0
    && a[..|a| - 1] == b[..|b| - 1]
    && a[|a| - 1].role == b[|b| - 1].role
    && a[|a| - 1].content <= b[|b| - 1].content
  }

  predicate Publishes(a: seq<Message>, b: seq<Message>) {
    Appends(a, b) || Grows(a, b)
  }

  /** Each transcript of `ts` follows from the one before it by appending a
      turn or growing the last one. */
  predicate Chain(ts: seq<seq<Message>>) {
    forall i :: 0 < i < |ts| ==> Publishes(ts[i - 1], ts[i])
  }

  /** Every turn of `a` is still in `b` at its place, unchanged, except that
      the content of `a`'s last turn may have grown. */
  predicate Extends(a: seq<Message>, b: seq<Message>) {
    && |a| <= |b|
    && (|a| > 0 ==>
          && a[..|a| - 1] == b[..|a| - 1]
          && a[|a| - 1].role == b[|a| - 1].role
          && a[|a| - 1].content <= b[|a| - 1].content)
  }

  lemma ExtendsThenPublishes(a: seq<Message>, b: seq<Message>, c: seq<Message>)
    requires Extends(a, b) && Publishes(b, c)
    ensures Extends(a, c)
  {
  }

  /** However many snapshots a chain publishes, the last one keeps every turn
      of the first in place and only lets the first's last turn grow. */
  lemma {:induction false} ChainExtends(ts: seq<seq<Message>>)
    requires ts != [] && Chain(ts)
    ensures Extends(ts[0], ts[|ts| - 1])
    decreases |ts|
  {
    if |ts| > 1 {
      var ts' := ts[..|ts| - 1];
      assert Chain(ts') by {
        forall i | 0 < i < |ts'| ensures Publishes(ts'[i - 1], ts'[i]) {
          assert ts'[i - 1] == ts[i - 1] && ts'[i] == ts[i];
        }
      }
      ChainExtends(ts');
      assert Publishes(ts[|ts| - 2], ts[|ts| - 1]);
      ExtendsThenPublishes(ts[0], ts[|ts| - 2], ts[|ts| - 1]);
    }
  }

  /** Each snapshot of the read loop keeps the length of the previous one and
      every turn but the last, and grows the text of the open assistant turn. */
  lemma StreamFramesGrow(withUser: seq<Message>, decode: Decoder, chunks: seq<Bytes>)
    ensures var sf := StreamFrames(withUser, decode, chunks);
            forall k :: 0 < k < |sf| ==> Grows(sf[k - 1], sf[k])
    ensures Chain(StreamFrames(withUser, decode, chunks))
  {
    var sf := StreamFrames(withUser, decode, chunks);
    forall k | 0 < k < |sf| ensures Grows(sf[k - 1], sf[k]) {
      DecodeAllGrows(decode, chunks, k - 1, k);
      assert sf[k - 1][..|withUser|] == withUser == sf[k][..|withUser|];
    }
  }

  /** Two chains joined where the first's last transcript publishes the
      second's first make one chain. */
  lemma ChainJoin(xs: seq<seq<Message>>, ys: seq<seq<Message>>)
    requires xs != [] && ys != []
    requires Chain(xs) && Chain(ys) && Publishes(xs[|xs| - 1], ys[0])
    ensures Chain(xs + ys)
  {
  }

  /** The snapshots published while the reply is handled continue the chain
      from the transcript with the user turn. */
  lemma ReplyFramesAppendOnly(withUser: seq<Message>, response: Response, decode: Decoder)
    ensures Chain([withUser] + ReplyFrames(withUser, response, decode))
  {
    var closing := Answered(withUser, response, decode);
    match response
    case Body(chunks, end) =>
      var sf := StreamFrames(withUser, decode, chunks);
      StreamFramesGrow(withUser, decode, chunks);
      assert Appends(withUser, sf[0]) by {
        assert sf[0][..|withUser|] == withUser;
      }
      ChainJoin([withUser], sf);
      if end == ReadFailed {
        assert chunks[..|chunks|] == chunks;
        assert Appends(sf[|sf| - 1], closing) by {
          assert closing[..|sf[|sf| - 1]|] == sf[|sf| - 1];
        }
        ChainJoin([withUser] + sf, [closing]);
        assert [withUser] + ReplyFrames(withUser, response, decode) == [withUser] + sf + [closing];
      } else {
        assert [withUser] + ReplyFrames(withUser, response, decode) == [withUser] + sf;
      }
    case _ =>
      assert Appends(withUser, closing) by {
        assert closing[..|withUser|] == withUser;
      }
  }

  /** The snapshots one submission publishes, starting from the transcript
      before it, form a chain: each appends one turn or grows the open
      assistant turn, so streaming never shortens, rewrites or reorders what is
      already shown. */
  lemma FramesAppendOnly(prev: seq<Message>, text: string, response: Response, decode: Decoder)
    ensures Chain([prev] + Frames(prev, text, response, decode))
  {
    var withUser := prev + [Message(User, text)];
    assert Appends(prev, withUser);
    ReplyFramesAppendOnly(withUser, response, decode);
    ChainJoin([prev], [withUser] + ReplyFrames(withUser, response, decode));
    assert [prev] + Frames(prev, text, response, decode) == [prev] + ([withUser] + ReplyFrames(withUser, response, decode));
  }

  /** Every snapshot a submission publishes, the final one included, starts
      with the transcript from before the submission and the user turn, both
      unchanged: only turns after the user turn are added or grown. */
  lemma FramesKeepEarlierTurns(prev: seq<Message>, text: string, response: Response, decode: Decoder)
    ensures var fs := Frames(prev, text, response, decode);
            forall k :: 0 <= k < |fs| ==> fs[k][..|prev| + 1] == prev + [Message(User, text)]
  {
    var withUser := prev + [Message(User, text)];
    var fs := Frames(prev, text, response, decode);
    var rf := ReplyFrames(withUser, response, decode);
    assert fs == [withUser] + rf;
    forall k | 0 <= k < |fs| ensures fs[k][..|withUser|] == withUser {
      if k > 0 && k < |fs| - 1 {
        assert response.Body?;
        assert fs[k] == StreamFrames(withUser, decode, response.chunks)[k - 1];
      }
    }
  }

  /** The end-to-end run: "Hi" answered by two chunks "He" and "llo". */
  lemma HelloScenario(decode: Decoder, c0: Bytes, c1: Bytes)
    requires decode(c0) == "He" && decode(c1) == "llo"
    ensures Frames([], "Hi", Body([c0, c1], Done), decode)
         == [ [Message(User, "Hi")],
              [Message(User, "Hi"), Message(Assistant, "")],
              [Message(User, "Hi"), Message(Assistant, "He")],
              [Message(User, "Hi"), Message(Assistant, "Hello")] ]
  {
    var chunks := [c0, c1];
    var withUser := [Message(User, "Hi")];
    assert chunks[..0] == [] && chunks[..1] == [c0] && chunks[..2] == chunks;
    assert [c0][..0] == [];
    assert DecodeAll(decode, [c0]) == "He";
    assert DecodeAll(decode, chunks) == "Hello";
    var sf := StreamFrames(withUser, decode, chunks);
    assert sf[1] == [Message(User, "Hi"), Message(Assistant, "He")];
    assert sf[2] == [Message(User, "Hi"), Message(Assistant, "Hello")];
    var fs := Frames([], "Hi", Body(chunks, Done), decode);
    assert [] + withUser == withUser;
    assert fs == [withUser] + sf + [];
    assert |fs| == 4 && fs[2] == sf[1] && fs[3] == sf[2];
    assert fs[0] == [Message(User, "Hi")];
    assert fs[1] == [Message(User, "Hi"), Message(Assistant, "")];
    assert fs == [fs[0], fs[1], fs[2], fs[3]];
  }

  // ---------------------------------------------------------------------------
  // The component's state

  /** The setMessages updater of the read loop: a copy of the transcript with
      its last turn replaced. */
  function WithLastReplaced(prev: seq<Message>, m: Message): (next: seq<Message>)
    requires prev != []
    ensures |next| == |prev| && next[..|prev| - 1] == prev[..|prev| - 1] && next[|next| - 1] == m
  {
    prev[..|prev| - 1] + [m]
  }

  class ChatSession {
    var messages: seq<Message>
    var input: string
    var isLoading: bool

    constructor ()
      ensures messages == [] && input == "" && !isLoading
    {
      messages := [];
      input := "";
      isLoading := false;
    }

    /** The text box's change handler. */
    method SetInput(text: string)
      modifies this
      ensures input == text && messages == old(messages) && isLoading == old(isLoading)
    {
      input := text;
    }

    /** The body-reading part of handleSubmit: append the empty assistant
        placeholder, then for each chunk decode it, add it to the accumulated
        text and replace the last turn with a copy of the grown turn.
        `published` is every transcript it hands to setMessages, in order. */
    method ReadStream(chunks: seq<Bytes>, decode: Decoder) returns (ghost published: seq<seq<Message>>)
      requires isLoading && input == ""
      modifies this`messages
      ensures messages == old(messages) + [Message(Assistant, DecodeAll(decode, chunks))]
      ensures published == StreamFrames(old(messages), decode, chunks)
    {
      ghost var withUser := messages;
      ghost var expected := StreamFrames(withUser, decode, chunks);
      var content := "";
      messages := messages + [Message(Assistant, content)];
      published := [messages];
      var i := 0;
      while i < |chunks|
        invariant 0 <= i <= |chunks|
        invariant content == DecodeAll(decode, chunks[..i])
        invariant messages == withUser + [Message(Assistant, content)]
        invariant published == expected[..i + 1]
      {
        assert chunks[..i + 1][..i] == chunks[..i];
        content := content + decode(chunks[i]);
        messages := WithLastReplaced(messages, Message(Assistant, content));
        published := published + [messages];
        assert expected[..i + 2] == expected[..i + 1] + [expected[i + 1]];
        i := i + 1;
      }
      assert chunks[..i] == chunks;
    }

    /** The try/catch of handleSubmit once the request is sent: a failed
        call or a missing body appends the error turn; otherwise the read loop
        runs, and the error turn follows it if a read fails. `published` is
        every transcript handed to setMessages, in order. */
    method Receive(response: Response, decode: Decoder) returns (ghost published: seq<seq<Message>>)
      requires isLoading && input == ""
      modifies this`messages
      ensures messages == Answered(old(messages), response, decode)
      ensures published == ReplyFrames(old(messages), response, decode)
    {
      match response {
        case Body(chunks, end) =>
          published := ReadStream(chunks, decode);
          if end == ReadFailed {
            messages := messages + [ErrorTurn];
            published := published + [messages];
          }
        case _ =>
          messages := messages + [ErrorTurn];
          published := [messages];
      }
    }

    /** The body of handleSubmit past its guard: the raw input is sent as the
        prompt with the fixed model id, and the session goes through the
        snapshots of Frames to the transcript of Settled, with the input
        cleared and the loading flag down at the end whichever way the reply
        ended. `frames` is every transcript the handler publishes, in order. */
    method Send(server: Request -> Response, decode: Decoder)
      returns (sent: Request, ghost frames: seq<seq<Message>>)
      modifies this
      ensures sent == Request(old(input), ModelId)
      ensures frames == Frames(old(messages), old(input), server(sent), decode)
      ensures messages == Settled(old(messages), old(input), server(sent), decode)
      ensures input == "" && !isLoading
    {
      var prompt := input;
      ghost var prev := messages;
      messages := messages + [Message(User, prompt)];
      frames := [messages];
      input := "";
      isLoading := true;

      sent := Request(prompt, ModelId);
      var response := server(sent);
      var published := Receive(response, decode);
      frames := frames + published;
      isLoading := false;
    }

    /** handleSubmit. A blank input, or a submission while a reply is still
        loading, changes nothing and sends nothing; any other submission is
        a Send. */
    method Submit(server: Request -> Response, decode: Decoder)
      returns (sent: Option<Request>, ghost frames: seq<seq<Message>>)
      modifies this
      ensures old(IsBlank(input) || isLoading) ==>
        && sent == None && frames == []
        && messages == old(messages) && input == old(input) && isLoading == old(isLoading)
      ensures !old(IsBlank(input) || isLoading) ==>
        && sent == Some(Request(old(input), ModelId))
        && frames == Frames(old(messages), old(input), server(sent.value), decode)
        && messages == Settled(old(messages), old(input), server(sent.value), decode)
        && input == "" && !isLoading
    {
      TrimEmptyIffBlank(input);
      if Trim(input) == [] || isLoading {
        return None, [];
      }
      var request;
      request, frames := Send(server, decode);
      sent := Some(request);
    }
  }
}
