/** The batching loop of a container log tail (run in internal/agent/logs.go). */
module Logs {

  const LogBatchMax: nat := 200

  datatype LogLine = LogLine(stream: string, ts: string, text: string)

  /** What the loop can be woken by. A script that runs out has been cancelled. */
  datatype Signal = Line(line: LogLine) | FlushTick | Closed | Cancelled

  predicate Ends(s: Signal) {
    s.Closed? || s.Cancelled?
  }

  /** The lines a tail takes from the container before it ends. */
  function Received(script: seq<Signal>): seq<LogLine> {
    if script == [] || Ends(script[0]) then []
    else (if script[0].Line? then [script[0].line] else []) + Received(script[1..])
  }

  function Flatten(batches: seq<seq<LogLine>>): seq<LogLine> {
    if batches == [] then [] else Flatten(batches[..|batches| - 1]) + batches[|batches| - 1]
  }

  /** Non-empty, and no larger than the buffer. */
  predicate Sized(batch: seq<LogLine>) {
    0 < |batch| <= LogBatchMax
  }

  lemma {:induction false} ReceivedSoFar(script: seq<Signal>, i: nat)
    requires i < |script| && forall j :: 0 <= j < i ==> !Ends(script[j])
    ensures Ends(script[i]) ==> Received(script) == Received(script[..i])
    ensures script[i].Line? ==> Received(script[..i + 1]) == Received(script[..i]) + [script[i].line]
    ensures script[i].FlushTick? ==> Received(script[..i + 1]) == Received(script[..i])
  {
    if i == 0 {
      assert script[..1] == [script[0]] && script[..1][1..] == [];
    } else {
      ReceivedSoFar(script[1..], i - 1);
      assert script[..i][1..] == script[1..][..i - 1];
      assert script[..i + 1][1..] == script[1..][..i];
    }
  }

  /** The connection to cloud, with every batch that was passed to it. */
  class Uplink {
    ghost var pushed: seq<seq<LogLine>>

    constructor ()
      ensures pushed == []
    {
      pushed := [];
    }

    /** A push that fails is logged and not repeated. */
    method PushLogs(batch: seq<LogLine>) returns (ok: bool)
      requires Sized(batch)
      modifies this
      ensures pushed == old(pushed) + [batch]
    {
      pushed := pushed + [batch];
      ok := *;
    }
  }

  /** Further batches, each of a proper size. */
  ghost predicate Further(before: seq<seq<LogLine>>, after: seq<seq<LogLine>>) {
    before <= after && forall k :: |before| <= k < |after| ==> Sized(after[k])
  }

  /** Hands the buffered lines over, if there are any; the buffer is used again from its start. */
  method Flush(up: Uplink, buffer: array<LogLine>, count: nat)
    requires count <= buffer.Length == LogBatchMax
    modifies up
    ensures up.pushed == old(up.pushed) + (if count == 0 then [] else [buffer[..count]])
    ensures Flatten(up.pushed) == old(Flatten(up.pushed)) + buffer[..count]
    ensures Further(old(up.pushed), up.pushed)
  {
    if count == 0 {
      return;
    }
    var _ := up.PushLogs(buffer[..count]);
    assert up.pushed[..|up.pushed| - 1] == old(up.pushed);
  }

  /** Buffers one more line, and hands the buffer over once it is full. */
  method Append(up: Uplink, buffer: array<LogLine>, count: nat, line: LogLine) returns (count': nat)
    requires count < buffer.Length == LogBatchMax
    modifies up, buffer
    ensures count' < LogBatchMax
    ensures Flatten(up.pushed) + buffer[..count'] == old(Flatten(up.pushed) + buffer[..count]) + [line]
    ensures Further(old(up.pushed), up.pushed)
  {
    buffer[count] := line;
    count' := count + 1;
    assert buffer[..count'] == old(buffer[..count]) + [line];
    if count' >= LogBatchMax {
      Flush(up, buffer, count');
      count' := 0;
    }
  }

  /**
   * Whatever the interleaving of lines, ticks and the end: what is pushed is, in order, exactly the lines received,
   * in non-empty batches of at most `LogBatchMax`.
   */
  method Tail(up: Uplink, script: seq<Signal>)
    modifies up
    ensures Flatten(up.pushed) == old(Flatten(up.pushed)) + Received(script)
    ensures Further(old(up.pushed), up.pushed)
  {
    var buffer := new LogLine[LogBatchMax](_ => LogLine("", "", ""));
    var count: nat, i: nat := 0, 0;
    ghost var sent := Flatten(up.pushed);
    while i < |script| && !Ends(script[i])
      invariant i <= |script| && count < LogBatchMax
      invariant forall j :: 0 <= j < i ==> !Ends(script[j])
      invariant Flatten(up.pushed) + buffer[..count] == sent + Received(script[..i])
      invariant Further(old(up.pushed), up.pushed)
    {
      ReceivedSoFar(script, i);
      if script[i].Line? {
        count := Append(up, buffer, count, script[i].line);
      } else {
        Flush(up, buffer, count);
        count := 0;
      }
      i := i + 1;
    }
    if i < |script| {
      ReceivedSoFar(script, i);
    } else {
      assert script[..i] == script;
    }
    Flush(up, buffer, count);
  }
}
