/**
  The client side of the streaming send (frontend/src/hooks/queries/chatQueries.js,
  `sendMessageToChat`): argument guards, the HTTP status check, and the fold over the
  decoded values of the response body. Each read is split on "\n"; only lines that start
  with "data: " are parsed; chunk payloads are accumulated, the first done payload ends
  the call, and everything else is skipped.

  `fetch`, the body reader and `TextDecoder` are abstracted as an `HttpResponse` value
  whose values are already-decoded strings; `JSON.parse` is the parameter `parse`, which
  maps a payload string to the fields of the parsed object the client looks at.
*/
module SseClient {
  import opened ChatTypes

  /** What the client sees of `JSON.parse(line.slice(6))`. */
  datatype Payload =
    /** `JSON.parse` threw, or produced a value whose fields cannot be read (`null`). */
    | Malformed
    /** A parsed value: whether `data.error` and `data.done` are truthy, `data.message`,
        and `data.chunk` ("" when absent or empty, both falsy). */
    | Object(error: bool, done: bool, message: Option<string>, chunk: string)

  /** The effect of one line of a read on the fold. */
  datatype Step = Skip | Append(text: string) | Finish(message: Option<string>)

  /** The errors `sendMessageToChat` throws to its caller. */
  datatype SendError = SessionIdRequired | MessageRequired | HttpStatus(status: int)

  /** A call either throws one of the errors above or resolves to `{ message }`. */
  datatype Outcome = Raised(error: SendError) | Returned(message: Option<string>)

  /** The arguments of one `onChunk(data.chunk, fullMessage)` call. */
  datatype ChunkCall = ChunkCall(chunk: string, fullMessage: string)

  /** The response of `fetch`: its `ok` flag, its status and the decoded values of its body. */
  datatype HttpResponse = HttpResponse(ok: bool, status: int, values: seq<string>)

  const DataPrefix: string := "data: "

  // ---------------------------------------------------------------------------
  // Splitting a read into lines, as `chunk.split("\n")`

  /** `s.split("\n")`: the pieces between newlines, in order; "" splits to [""]. */
  function Split(s: string): (r: seq<string>)
    ensures |r| >= 1
    ensures forall k :: 0 <= k < |r| ==> '\n' !in r[k]
  {
    if |s| == 0 then [""]
    else
      var rest := Split(s[1..]);
      if s[0] == '\n' then [""] + rest
      else [[s[0]] + rest[0]] + rest[1..]
  }

  /** `lines.join("\n")`, the inverse of `Split`. */
  function Join(lines: seq<string>): string
    requires |lines| >= 1
  {
    if |lines| == 1 then lines[0] else lines[0] + "\n" + Join(lines[1..])
  }

  lemma {:induction false} JoinSplit(s: string)
    ensures Join(Split(s)) == s
  {
    if |s| > 0 {
      JoinSplit(s[1..]);
      var rest := Split(s[1..]);
      if s[0] == '\n' {
        assert Split(s)[1..] == rest;
        assert s == "\n" + s[1..];
      } else {
        if |rest| == 1 {
          assert s == [s[0]] + rest[0];
        } else {
          assert Split(s)[1..] == rest[1..];
          assert s == [s[0]] + (rest[0] + "\n" + Join(rest[1..]));
        }
      }
    }
  }

  /** Splitting a newline-free prefix glued to the first piece. */
  lemma {:induction false} SplitPrefix(a: string, t: string)
    requires '\n' !in a
    ensures Split(a + t) == [a + Split(t)[0]] + Split(t)[1..]
  {
    if |a| > 0 {
      assert (a + t)[1..] == a[1..] + t;
      assert '\n' !in a[1..] by {
        forall c | c in a[1..] ensures c in a { }
      }
      SplitPrefix(a[1..], t);
      assert a + Split(t)[0] == [a[0]] + (a[1..] + Split(t)[0]);
    } else {
      assert a + t == t;
      assert a + Split(t)[0] == Split(t)[0];
      assert Split(t) == [Split(t)[0]] + Split(t)[1..];
    }
  }

  /** A newline-free string is one line. */
  lemma SplitNoNewline(s: string)
    requires '\n' !in s
    ensures Split(s) == [s]
  {
    SplitPrefix(s, "");
    assert s + "" == s;
  }

  lemma {:induction false} SplitJoin(lines: seq<string>)
    requires |lines| >= 1
    requires forall k :: 0 <= k < |lines| ==> '\n' !in lines[k]
    ensures Split(Join(lines)) == lines
  {
    if |lines| == 1 {
      SplitPrefix(lines[0], "");
      assert lines[0] + "" == lines[0];
    } else {
      var t := Join(lines[1..]);
      SplitJoin(lines[1..]);
      assert lines[0] + "\n" + t == lines[0] + ("\n" + t);
      SplitPrefix(lines[0], "\n" + t);
      assert ("\n" + t)[1..] == t;
      assert Split("\n" + t) == [""] + lines[1..];
      assert lines[0] + "" == lines[0];
    }
  }

  // ---------------------------------------------------------------------------
  // The meaning of one line, one read, and a whole response body

  /** Whether the line starts with "data: ". */
  predicate IsDataLine(line: string)
  {
    |line| >= |DataPrefix| && line[..|DataPrefix|] == DataPrefix
  }

  /** The effect of one parsed payload. An error payload throws inside the `try` whose
      `catch` only logs, so it is skipped like a malformed one. */
  function Classify(p: Payload): Step
  {
    match p
    case Malformed => Skip
    case Object(error, done, message, chunk) =>
      if error then Skip
      else if done then Finish(message)
      else if chunk != "" then Append(chunk)
      else Skip
  }

  /** The effect of one line: a data line's payload is the line without its first six
      characters; every other line is skipped. */
  function LineStep(line: string, parse: string -> Payload): Step
  {
    if IsDataLine(line) then Classify(parse(line[|DataPrefix|..])) else Skip
  }

  function LineSteps(lines: seq<string>, parse: string -> Payload): (r: seq<Step>)
    ensures |r| == |lines|
  {
    seq(|lines|, k requires 0 <= k < |lines| => LineStep(lines[k], parse))
  }

  /** The steps of one read, split on its own. */
  function ReadSteps(read: string, parse: string -> Payload): seq<Step>
  {
    LineSteps(Split(read), parse)
  }

  /** The steps of a sequence of values, read after read. */
  function StreamSteps(values: seq<string>, parse: string -> Payload): seq<Step>
  {
    if values == [] then []
    else StreamSteps(values[..|values| - 1], parse) + ReadSteps(values[|values| - 1], parse)
  }

  predicate NoFinish(steps: seq<Step>)
  {
    forall k :: 0 <= k < |steps| ==> !steps[k].Finish?
  }

  /** The text of every Append step, concatenated in order. */
  function Accumulate(steps: seq<Step>): string
  {
    if steps == [] then ""
    else (if steps[0].Append? then steps[0].text else "") + Accumulate(steps[1..])
  }

  /** The message the client returns after the given steps, starting from `acc`. */
  function Fold(steps: seq<Step>, acc: string): Option<string>
  {
    if steps == [] then Some(acc)
    else match steps[0]
      case Skip => Fold(steps[1..], acc)
      case Append(t) => Fold(steps[1..], acc + t)
      case Finish(m) => m
  }

  /** The `onChunk` calls made during the given steps, starting from `acc`. */
  function Calls(steps: seq<Step>, acc: string): seq<ChunkCall>
  {
    if steps == [] then []
    else match steps[0]
      case Skip => Calls(steps[1..], acc)
      case Append(t) => [ChunkCall(t, acc + t)] + Calls(steps[1..], acc + t)
      case Finish(_) => []
  }

  /** How many values are taken from the body: up to and including the first read that
      holds a done payload, or all of them. */
  function Consumed(values: seq<string>, parse: string -> Payload): nat
  {
    if values == [] then 0
    else if NoFinish(ReadSteps(values[0], parse)) then 1 + Consumed(values[1..], parse)
    else 1
  }

  /** The guards at the top of `sendMessageToChat`. */
  function Guard(sessionId: Option<string>, message: Option<string>): Option<SendError>
  {
    if !Truthy(sessionId) then Some(SessionIdRequired)
    else if !Truthy(message) then Some(MessageRequired)
    else None
  }

  // ---------------------------------------------------------------------------
  // Lemmas about the spec functions

  lemma {:induction false} AccumulateConcat(a: seq<Step>, b: seq<Step>)
    ensures Accumulate(a + b) == Accumulate(a) + Accumulate(b)
  {
    if a != [] {
      assert (a + b)[1..] == a[1..] + b;
      AccumulateConcat(a[1..], b);
    } else {
      assert a + b == b;
    }
  }

  /** Finish-free steps leave the fold where the accumulation has got to. */
  lemma {:induction false} FoldConcat(a: seq<Step>, b: seq<Step>, acc: string)
    requires NoFinish(a)
    ensures Fold(a + b, acc) == Fold(b, acc + Accumulate(a))
    ensures Calls(a + b, acc) == Calls(a, acc) + Calls(b, acc + Accumulate(a))
  {
    if a == [] {
      assert a + b == b;
      assert Accumulate(a) == "";
      assert acc + "" == acc;
      assert Calls(a, acc) + Calls(b, acc) == Calls(b, acc);
    } else {
      assert (a + b)[1..] == a[1..] + b;
      assert (a + b)[0] == a[0];
      assert !a[0].Finish?;
      assert NoFinish(a[1..]) by {
        forall k | 0 <= k < |a[1..]| ensures !a[1..][k].Finish? { assert a[1..][k] == a[k + 1]; }
      }
      match a[0]
      case Skip =>
        FoldConcat(a[1..], b, acc);
        assert Accumulate(a) == "" + Accumulate(a[1..]) == Accumulate(a[1..]);
      case Append(t) =>
        FoldConcat(a[1..], b, acc + t);
        assert acc + t + Accumulate(a[1..]) == acc + Accumulate(a);
    }
  }

  /** Without a done payload the returned message is the concatenation of every chunk. */
  lemma NoDoneReturnsAccumulation(steps: seq<Step>)
    requires NoFinish(steps)
    ensures Fold(steps, "") == Some(Accumulate(steps))
  {
    FoldConcat(steps, [], "");
    assert steps + [] == steps;
    assert "" + Accumulate(steps) == Accumulate(steps);
  }

  /** The first done payload decides the result; nothing after it is looked at and no
      `onChunk` call follows it. */
  lemma FirstDoneWins(pre: seq<Step>, m: Option<string>, post: seq<Step>)
    requires NoFinish(pre)
    ensures Fold(pre + [Finish(m)] + post, "") == m
    ensures Calls(pre + [Finish(m)] + post, "") == Calls(pre, "")
  {
    assert pre + [Finish(m)] + post == pre + ([Finish(m)] + post);
    FoldConcat(pre, [Finish(m)] + post, "");
  }

  /** A skipped step can be dropped anywhere without changing the result or the calls. */
  lemma {:induction false} SkipIsNeutral(pre: seq<Step>, post: seq<Step>, acc: string)
    ensures Fold(pre + [Skip] + post, acc) == Fold(pre + post, acc)
    ensures Calls(pre + [Skip] + post, acc) == Calls(pre + post, acc)
  {
    if pre == [] {
      assert pre + [Skip] + post == [Skip] + post;
      assert ([Skip] + post)[1..] == post;
      assert pre + post == post;
    } else {
      assert (pre + [Skip] + post)[1..] == pre[1..] + [Skip] + post;
      assert (pre + post)[1..] == pre[1..] + post;
      assert (pre + [Skip] + post)[0] == pre[0] == (pre + post)[0];
      match pre[0]
      case Skip => SkipIsNeutral(pre[1..], post, acc);
      case Append(t) => SkipIsNeutral(pre[1..], post, acc + t);
      case Finish(_) =>
    }
  }

  /** The lines that cannot affect the result: non-data lines, and data lines whose
      payload is malformed or carries an error. */
  predicate Ignored(line: string, parse: string -> Payload)
  {
    !IsDataLine(line)
    || parse(line[|DataPrefix|..]).Malformed?
    || parse(line[|DataPrefix|..]).error
  }

  lemma LineStepsConcat(a: seq<string>, b: seq<string>, parse: string -> Payload)
    ensures LineSteps(a + b, parse) == LineSteps(a, parse) + LineSteps(b, parse)
  {
  }

  /** Removing an ignored line from a read changes neither the result nor the calls. */
  lemma IgnoredLineDoesNotMatter(pre: seq<string>, line: string, post: seq<string>,
                                 parse: string -> Payload, acc: string)
    requires Ignored(line, parse)
    ensures Fold(LineSteps(pre + [line] + post, parse), acc) == Fold(LineSteps(pre + post, parse), acc)
    ensures Calls(LineSteps(pre + [line] + post, parse), acc) == Calls(LineSteps(pre + post, parse), acc)
  {
    LineStepsConcat(pre + [line], post, parse);
    LineStepsConcat(pre, [line], parse);
    LineStepsConcat(pre, post, parse);
    assert LineSteps([line], parse) == [Skip];
    SkipIsNeutral(LineSteps(pre, parse), LineSteps(post, parse), acc);
  }

  /** Every Append step carries a non-empty text. */
  predicate AppendsNonEmpty(steps: seq<Step>)
  {
    forall k :: 0 <= k < |steps| && steps[k].Append? ==> steps[k].text != ""
  }

  /** A falsy chunk (absent or "") never produces an Append step. */
  lemma {:induction false} StreamAppendsNonEmpty(values: seq<string>, parse: string -> Payload)
    ensures AppendsNonEmpty(StreamSteps(values, parse))
  {
    if values != [] {
      var a: seq<Step> := StreamSteps(values[..|values| - 1], parse);
      var b: seq<Step> := ReadSteps(values[|values| - 1], parse);
      StreamAppendsNonEmpty(values[..|values| - 1], parse);
      forall k | 0 <= k < |a + b| && (a + b)[k].Append? ensures (a + b)[k].text != "" {
        if k >= |a| { assert (a + b)[k] == b[k - |a|]; }
      }
    }
  }

  /** Each `onChunk` call gets a chunk and the accumulation including it, so successive
      accumulations extend one another; when chunks are non-empty, each call's
      accumulation is strictly longer than the previous one. */
  lemma {:induction false} CallsExtend(steps: seq<Step>, acc: string)
    ensures var c := Calls(steps, acc);
      && (|c| > 0 ==> c[0].fullMessage == acc + c[0].chunk)
      && (forall k :: 0 < k < |c| ==> c[k].fullMessage == c[k - 1].fullMessage + c[k].chunk)
    ensures AppendsNonEmpty(steps) ==>
      var c := Calls(steps, acc); forall k :: 0 <= k < |c| ==> c[k].chunk != ""
  {
    if steps != [] {
      assert AppendsNonEmpty(steps) ==> AppendsNonEmpty(steps[1..]) by {
        if AppendsNonEmpty(steps) {
          forall k | 0 <= k < |steps[1..]| && steps[1..][k].Append? ensures steps[1..][k].text != "" {
            assert steps[1..][k] == steps[k + 1];
          }
        }
      }
      match steps[0]
      case Skip => CallsExtend(steps[1..], acc);
      case Append(t) =>
        CallsExtend(steps[1..], acc + t);
        var rest := Calls(steps[1..], acc + t);
        var c := Calls(steps, acc);
        assert c == [ChunkCall(t, acc + t)] + rest;
        forall k | 0 < k < |c| ensures c[k].fullMessage == c[k - 1].fullMessage + c[k].chunk {
          assert c[k] == rest[k - 1];
          if k > 1 { assert c[k - 1] == rest[k - 2]; }
        }
        if AppendsNonEmpty(steps) {
          forall k | 0 <= k < |c| ensures c[k].chunk != "" {
            if k > 0 { assert c[k] == rest[k - 1]; }
          }
        }
      case Finish(_) =>
    }
  }

  /** Without a done payload, the last `onChunk` accumulation is the returned message. */
  lemma {:induction false} LastCallIsResult(steps: seq<Step>, acc: string)
    requires NoFinish(steps)
    requires |Calls(steps, acc)| > 0
    ensures Calls(steps, acc)[|Calls(steps, acc)| - 1].fullMessage == acc + Accumulate(steps)
  {
    var tail := steps[1..];
    assert NoFinish(tail) by {
      forall k | 0 <= k < |tail| ensures !tail[k].Finish? { assert tail[k] == steps[k + 1]; }
    }
    var c := Calls(steps, acc);
    if steps[0].Skip? {
      assert c == Calls(tail, acc);
      assert Accumulate(steps) == "" + Accumulate(tail) == Accumulate(tail);
      LastCallIsResult(tail, acc);
    } else {
      var t := steps[0].text;
      var rest := Calls(tail, acc + t);
      assert c == [ChunkCall(t, acc + t)] + rest;
      assert Accumulate(steps) == t + Accumulate(tail);
      if |rest| > 0 {
        LastCallIsResult(tail, acc + t);
        assert c[|c| - 1] == rest[|rest| - 1];
        assert acc + t + Accumulate(tail) == acc + (t + Accumulate(tail));
      } else {
        LastCallEmptyTail(tail, acc + t);
        assert acc + t + "" == acc + t;
      }
    }
  }

  /** Finish-free steps that make no call add nothing to the accumulation. */
  lemma {:induction false} LastCallEmptyTail(steps: seq<Step>, acc: string)
    requires NoFinish(steps)
    requires Calls(steps, acc) == []
    ensures Accumulate(steps) == ""
  {
    if steps != [] {
      assert !steps[0].Append?;
      LastCallEmptyTail(steps[1..], acc);
    }
  }

  /** Reads are processed one after another, with no state carried between them except
      the accumulation. */
  lemma {:induction false} StreamStepsConcat(a: seq<string>, b: seq<string>, parse: string -> Payload)
    ensures StreamSteps(a + b, parse) == StreamSteps(a, parse) + StreamSteps(b, parse)
  {
    if b == [] {
      assert a + b == a;
    } else {
      var b' := b[..|b| - 1];
      assert (a + b)[..|a + b| - 1] == a + b';
      assert (a + b)[|a + b| - 1] == b[|b| - 1];
      StreamStepsConcat(a, b', parse);
    }
  }

  lemma StreamStepsSingle(r: string, parse: string -> Payload)
    ensures StreamSteps([r], parse) == ReadSteps(r, parse)
  {
  }

  /** A read without a newline is one line. */
  lemma OneLineRead(r: string, parse: string -> Payload)
    requires '\n' !in r
    ensures StreamSteps([r], parse) == [LineStep(r, parse)]
  {
    StreamStepsSingle(r, parse);
    SplitNoNewline(r);
  }

  /** A data line split across two values is lost: neither half starts with "data: " as a
      whole line, so both are skipped, while the same text in one read is parsed. */
  lemma SplitLineAcrossReadsIsLost(parse: string -> Payload)
    ensures StreamSteps(["da", "ta: x"], parse) == [Skip, Skip]
    ensures StreamSteps(["data: x"], parse) == [Classify(parse("x"))]
  {
    assert ["da", "ta: x"] == ["da"] + ["ta: x"];
    StreamStepsConcat(["da"], ["ta: x"], parse);
    OneLineRead("da", parse);
    OneLineRead("ta: x", parse);
    assert !IsDataLine("da") && !IsDataLine("ta: x");
    OneLineRead("data: x", parse);
    assert IsDataLine("data: x") && "data: x"[6..] == "x";
  }

  lemma {:induction false} NoFinishConcat(a: seq<Step>, b: seq<Step>)
    ensures NoFinish(a + b) <==> NoFinish(a) && NoFinish(b)
  {
    if NoFinish(a) && NoFinish(b) {
      forall k | 0 <= k < |a + b| ensures !(a + b)[k].Finish? {
        if k < |a| { assert (a + b)[k] == a[k]; } else { assert (a + b)[k] == b[k - |a|]; }
      }
    }
    if NoFinish(a + b) {
      forall k | 0 <= k < |a| ensures !a[k].Finish? { assert (a + b)[k] == a[k]; }
      forall k | 0 <= k < |b| ensures !b[k].Finish? { assert (a + b)[k + |a|] == b[k]; }
    }
  }

  /** When no read holds a done payload every read is consumed. */
  lemma {:induction false} ConsumedAll(values: seq<string>, parse: string -> Payload)
    requires NoFinish(StreamSteps(values, parse))
    ensures Consumed(values, parse) == |values|
  {
    if values != [] {
      assert values == [values[0]] + values[1..];
      StreamStepsConcat([values[0]], values[1..], parse);
      StreamStepsSingle(values[0], parse);
      NoFinishConcat(ReadSteps(values[0], parse), StreamSteps(values[1..], parse));
      ConsumedAll(values[1..], parse);
    }
  }

  /** The read holding the first done payload is the last one consumed. */
  lemma {:induction false} ConsumedUpTo(values: seq<string>, i: nat, parse: string -> Payload)
    requires i < |values|
    requires NoFinish(StreamSteps(values[..i], parse))
    requires !NoFinish(ReadSteps(values[i], parse))
    ensures Consumed(values, parse) == i + 1
  {
    if i > 0 {
      assert values[..i] == [values[0]] + values[1..][..i - 1];
      StreamStepsConcat([values[0]], values[1..][..i - 1], parse);
      StreamStepsSingle(values[0], parse);
      NoFinishConcat(ReadSteps(values[0], parse), StreamSteps(values[1..][..i - 1], parse));
      ConsumedUpTo(values[1..], i - 1, parse);
    }
  }

  /** The steps of a non-empty body: those of its first value, then those of the rest. */
  lemma StreamStepsCons(values: seq<string>, parse: string -> Payload)
    requires values != []
    ensures StreamSteps(values, parse) == ReadSteps(values[0], parse) + StreamSteps(values[1..], parse)
  {
    assert values == [values[0]] + values[1..];
    StreamStepsConcat([values[0]], values[1..], parse);
    StreamStepsSingle(values[0], parse);
  }

  /** The whole body's steps, cut around value `i`. */
  lemma StreamStepsAt(values: seq<string>, i: nat, parse: string -> Payload)
    requires i < |values|
    ensures StreamSteps(values, parse)
      == StreamSteps(values[..i], parse) + (ReadSteps(values[i], parse) + StreamSteps(values[i + 1..], parse))
  {
    var tail := values[i..];
    assert values == values[..i] + tail;
    StreamStepsConcat(values[..i], tail, parse);
    StreamStepsCons(tail, parse);
    assert tail[0] == values[i] && tail[1..] == values[i + 1..];
  }

  lemma StreamStepsSnoc(values: seq<string>, i: nat, parse: string -> Payload)
    requires i < |values|
    ensures StreamSteps(values[..i + 1], parse) == StreamSteps(values[..i], parse) + ReadSteps(values[i], parse)
  {
    assert values[..i + 1][..i] == values[..i];
  }

  /** A done payload on line `j` of value `i`, after finish-free steps, decides the
      result, the calls and the number of values taken. */
  lemma DoneAt(values: seq<string>, i: nat, j: nat, parse: string -> Payload, m: Option<string>)
    requires i < |values| && j < |ReadSteps(values[i], parse)|
    requires ReadSteps(values[i], parse)[j] == Finish(m)
    requires NoFinish(StreamSteps(values[..i], parse) + ReadSteps(values[i], parse)[..j])
    ensures Fold(StreamSteps(values, parse), "") == m
    ensures Calls(StreamSteps(values, parse), "")
         == Calls(StreamSteps(values[..i], parse) + ReadSteps(values[i], parse)[..j], "")
    ensures Consumed(values, parse) == i + 1
  {
    StreamStepsAt(values, i, parse);
    FinishInside(StreamSteps(values[..i], parse), ReadSteps(values[i], parse),
                 StreamSteps(values[i + 1..], parse), j, m);
    ConsumedUpTo(values, i, parse);
  }

  lemma FinishInside(before: seq<Step>, r: seq<Step>, after: seq<Step>, j: nat, m: Option<string>)
    requires j < |r| && r[j] == Finish(m)
    requires NoFinish(before + r[..j])
    ensures Fold(before + (r + after), "") == m
    ensures Calls(before + (r + after), "") == Calls(before + r[..j], "")
    ensures NoFinish(before) && !NoFinish(r)
  {
    assert r == r[..j] + [Finish(m)] + r[j + 1..];
    assert before + (r + after) == (before + r[..j]) + [Finish(m)] + (r[j + 1..] + after);
    FirstDoneWins(before + r[..j], m, r[j + 1..] + after);
    NoFinishConcat(before, r[..j]);
  }

  /** One more finish-free step extends the accumulation and the calls. */
  lemma StepAfter(seen: seq<Step>, st: Step)
    requires NoFinish(seen) && !st.Finish?
    ensures NoFinish(seen + [st])
    ensures Accumulate(seen + [st]) == Accumulate(seen) + (if st.Append? then st.text else "")
    ensures Calls(seen + [st], "")
         == Calls(seen, "") + (if st.Append? then [ChunkCall(st.text, Accumulate(seen) + st.text)] else [])
  {
    NoFinishConcat(seen, [st]);
    AccumulateConcat(seen, [st]);
    FoldConcat(seen, [st], "");
    assert [st][1..] == [];
    assert "" + Accumulate(seen) == Accumulate(seen);
    if st.Append? {
      assert Accumulate([st]) == st.text + "" == st.text;
    } else {
      assert Accumulate([st]) == "" + "" == "";
    }
  }

  /** Steps that are all skipped return the accumulation as it is and make no call. */
  lemma {:induction false} AllSkipped(steps: seq<Step>, acc: string)
    requires forall k :: 0 <= k < |steps| ==> steps[k] == Skip
    ensures Fold(steps, acc) == Some(acc) && Calls(steps, acc) == []
  {
    if steps != [] {
      assert steps[0] == Skip;
      AllSkipped(steps[1..], acc);
    }
  }

  /** A body with no "data: " line at all, such as the single JSON object the backend
      controller sends, resolves to the empty message with no `onChunk` call. */
  lemma {:induction false} NoDataLineGivesEmptyMessage(values: seq<string>, parse: string -> Payload)
    requires forall i, k :: 0 <= i < |values| && 0 <= k < |Split(values[i])| ==> !IsDataLine(Split(values[i])[k])
    ensures Fold(StreamSteps(values, parse), "") == Some("")
    ensures Calls(StreamSteps(values, parse), "") == []
  {
    NoDataLineSkips(values, parse);
    AllSkipped(StreamSteps(values, parse), "");
  }

  lemma {:induction false} NoDataLineSkips(values: seq<string>, parse: string -> Payload)
    requires forall i, k :: 0 <= i < |values| && 0 <= k < |Split(values[i])| ==> !IsDataLine(Split(values[i])[k])
    ensures forall k :: 0 <= k < |StreamSteps(values, parse)| ==> StreamSteps(values, parse)[k] == Skip
  {
    if values != [] {
      var init := values[..|values| - 1];
      assert forall i :: 0 <= i < |init| ==> init[i] == values[i];
      NoDataLineSkips(init, parse);
      var a := StreamSteps(init, parse);
      var b := ReadSteps(values[|values| - 1], parse);
      forall k | 0 <= k < |a + b| ensures (a + b)[k] == Skip {
        if k >= |a| { assert (a + b)[k] == b[k - |a|]; }
      }
    }
  }

  // ---------------------------------------------------------------------------
  // The client operation

  /** `sendMessageToChat({ sessionId, message, onChunk })` against the given response.
      `fetched` says whether the request was made, `consumed` how many values were taken
      from the body, `calls` the `onChunk` calls in order (none when `onChunk` is absent). */
  method SendMessageToChat(sessionId: Option<string>, message: Option<string>, response: HttpResponse,
                           parse: string -> Payload, hasOnChunk: bool)
    returns (outcome: Outcome, fetched: bool, consumed: nat, calls: seq<ChunkCall>)
    ensures fetched <==> Guard(sessionId, message) == None
    ensures Guard(sessionId, message).Some? ==> outcome == Raised(Guard(sessionId, message).value)
    ensures fetched && !response.ok ==> outcome == Raised(HttpStatus(response.status))
    ensures !(fetched && response.ok) ==> consumed == 0 && calls == []
    ensures fetched && response.ok ==>
      var steps := StreamSteps(response.values, parse);
      && outcome == Returned(Fold(steps, ""))
      && consumed == Consumed(response.values, parse)
      && calls == (if hasOnChunk then Calls(steps, "") else [])
  {
    consumed, calls := 0, [];
    if !Truthy(sessionId) {
      return Raised(SessionIdRequired), false, consumed, calls;
    }
    if !Truthy(message) {
      return Raised(MessageRequired), false, consumed, calls;
    }
    fetched := true;
    if !response.ok {
      return Raised(HttpStatus(response.status)), fetched, consumed, calls;
    }
    var reply;
    reply, consumed, calls := ReadBody(response.values, parse, hasOnChunk);
    outcome := Returned(reply);
  }

  /** The read loop of `sendMessageToChat`: values are taken one after another until the
      reader is done, and the first done payload returns at once. */
  method ReadBody(values: seq<string>, parse: string -> Payload, hasOnChunk: bool)
    returns (reply: Option<string>, consumed: nat, calls: seq<ChunkCall>)
    ensures reply == Fold(StreamSteps(values, parse), "")
    ensures consumed == Consumed(values, parse)
    ensures calls == if hasOnChunk then Calls(StreamSteps(values, parse), "") else []
  {
    consumed, calls := 0, [];
    var fullMessage := "";
    var i := 0;
    while i < |values|
      invariant 0 <= i <= |values|
      invariant consumed == i
      invariant NoFinish(StreamSteps(values[..i], parse))
      invariant fullMessage == Accumulate(StreamSteps(values[..i], parse))
      invariant calls == if hasOnChunk then Calls(StreamSteps(values[..i], parse), "") else []
    {
      var done, message;
      done, message, fullMessage, calls := ReadValue(values, i, parse, hasOnChunk, fullMessage, calls);
      consumed := consumed + 1;
      if done {
        return message, consumed, calls;
      }
      i := i + 1;
    }
    assert values[..i] == values;
    NoDoneReturnsAccumulation(StreamSteps(values, parse));
    ConsumedAll(values, parse);
    reply := Some(fullMessage);
  }

  /** One pass of the read loop, on value `i`: its lines are processed in order; a data
      line's payload is parsed and, being inside a `try` whose `catch` only logs, a
      malformed or error payload is skipped; a chunk is accumulated and reported; a done
      payload ends the whole call (`done`). */
  method ReadValue(values: seq<string>, i: nat, parse: string -> Payload, hasOnChunk: bool,
                   fullMessage0: string, calls0: seq<ChunkCall>)
    returns (done: bool, message: Option<string>, fullMessage: string, calls: seq<ChunkCall>)
    requires i < |values|
    requires NoFinish(StreamSteps(values[..i], parse))
    requires fullMessage0 == Accumulate(StreamSteps(values[..i], parse))
    requires calls0 == if hasOnChunk then Calls(StreamSteps(values[..i], parse), "") else []
    ensures done ==>
      && message == Fold(StreamSteps(values, parse), "")
      && Consumed(values, parse) == i + 1
      && calls == if hasOnChunk then Calls(StreamSteps(values, parse), "") else []
    ensures !done ==>
      && NoFinish(StreamSteps(values[..i + 1], parse))
      && fullMessage == Accumulate(StreamSteps(values[..i + 1], parse))
      && calls == if hasOnChunk then Calls(StreamSteps(values[..i + 1], parse), "") else []
  {
    fullMessage, calls := fullMessage0, calls0;
    var lines := Split(values[i]);
    ghost var before := StreamSteps(values[..i], parse);
    ghost var r := ReadSteps(values[i], parse);
    var j := 0;
    assert before + r[..0] == before;
    while j < |lines|
      invariant 0 <= j <= |lines|
      invariant NoFinish(before + r[..j])
      invariant fullMessage == Accumulate(before + r[..j])
      invariant calls == if hasOnChunk then Calls(before + r[..j], "") else []
    {
      var line := lines[j];
      ghost var seen := before + r[..j];
      assert seen + [r[j]] == before + r[..j + 1];
      if IsDataLine(line) {
        var data := parse(line[|DataPrefix|..]);
        match data {
          case Malformed =>
          case Object(error, isDone, msg, chunk) =>
            if error {
            } else if isDone {
              DoneAt(values, i, j, parse, msg);
              return true, msg, fullMessage, calls;
            } else if chunk != "" {
              fullMessage := fullMessage + chunk;
              if hasOnChunk {
                calls := calls + [ChunkCall(chunk, fullMessage)];
              }
            }
        }
      }
      StepAfter(seen, r[j]);
      j := j + 1;
    }
    assert r[..|lines|] == r;
    StreamStepsSnoc(values, i, parse);
    done, message := false, None;
  }
}
