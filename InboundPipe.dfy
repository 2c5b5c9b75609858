/**
 * The router's reader of the inbound pipe, between passes of its loop. Each
 * pass starts a fresh `read_line` into a fresh line buffer inside `select!`;
 * when another branch completes first, that read is dropped together with the
 * bytes it had already taken from the pipe. `StepAsWritten` models that;
 * `StepKeepingPartial` models a reader that keeps a partial line across passes
 * (a cancellation-safe line stream), which delivers exactly the host's lines.
 */
module InboundPipe {
  import opened Wrappers

  /** What happens at the inbound pipe between two observations. */
  datatype ReadOp =
    /** The host writes `bytes` into the pipe. */
    | HostWrites(bytes: string)
    /** The pending line read is polled: it takes the available bytes up to and including a newline. */
    | PollRead
    /** Another branch of the select completes first, so this pass's line read is dropped. */
    | OtherBranchWins

  /**
   * `pending`: bytes in the pipe not yet taken; `partial`: bytes the line read
   * has taken without meeting a newline; `lines`: the lines handed to the router.
   */
  datatype Reader = Reader(pending: string, partial: string, lines: seq<string>)

  /** The position of the first newline in `s`, if any. */
  function NewlineIndex(s: string): (r: Option<nat>)
    ensures r.Some? ==> r.value < |s| && s[r.value] == '\n'
    ensures r.Some? ==> forall j :: 0 <= j < r.value ==> s[j] != '\n'
    ensures r.None? ==> forall j :: 0 <= j < |s| ==> s[j] != '\n'
  {
    if s == [] then None
    else if s[0] == '\n' then Some(0)
    else
      match NewlineIndex(s[1..])
      case None => None
      case Some(i) => Some(i + 1)
  }

  /** The lines of `ls` joined back into one string. */
  function Concat(ls: seq<string>): string {
    if ls == [] then [] else Concat(ls[..|ls| - 1]) + ls[|ls| - 1]
  }

  /** Every byte the reader holds, in pipe order: delivered lines, the partial line, the untaken bytes. */
  function Held(r: Reader): string {
    Concat(r.lines) + r.partial + r.pending
  }

  /** Every byte the host writes in `ops`, in order. */
  function Written(ops: seq<ReadOp>): string {
    if ops == [] then []
    else
      var last := ops[|ops| - 1];
      Written(ops[..|ops| - 1]) + (if last.HostWrites? then last.bytes else [])
  }

  /**
   * One poll of the line read: with a newline among the untaken bytes it
   * completes the line through that newline; otherwise it takes every untaken
   * byte into the partial line and stays pending. No byte is lost.
   */
  function Poll(r: Reader): (r': Reader)
    ensures Held(r') == Held(r)
    ensures r.lines <= r'.lines && |r'.lines| <= |r.lines| + 1
    ensures |r'.lines| > |r.lines| ==>
      var line := r'.lines[|r.lines|]; |line| > 0 && line[|line| - 1] == '\n'
  {
    match NewlineIndex(r.pending)
    case Some(i) =>
      var line := r.partial + r.pending[..i + 1];
      assert r.pending == r.pending[..i + 1] + r.pending[i + 1..];
      assert Concat(r.lines + [line]) == Concat(r.lines) + line by {
        assert (r.lines + [line])[..|r.lines|] == r.lines;
      }
      Reader(r.pending[i + 1..], [], r.lines + [line])
    case None => Reader([], r.partial + r.pending, r.lines)
  }

  /** A reader that keeps its partial line when another branch wins. */
  function StepKeepingPartial(r: Reader, op: ReadOp): (r': Reader)
    ensures Held(r') == Held(r) + (if op.HostWrites? then op.bytes else [])
  {
    match op
    case HostWrites(bytes) => r.(pending := r.pending + bytes)
    case PollRead => Poll(r)
    case OtherBranchWins => r
  }

  /** The reader as written: a dropped read loses the bytes it had taken. */
  function StepAsWritten(r: Reader, op: ReadOp): (r': Reader)
    ensures !op.OtherBranchWins? ==> r' == StepKeepingPartial(r, op)
    ensures op.OtherBranchWins? ==> r'.lines == r.lines && Held(r') == Concat(r.lines) + r.pending
  {
    match op
    case HostWrites(bytes) => r.(pending := r.pending + bytes)
    case PollRead => Poll(r)
    case OtherBranchWins => r.(partial := [])
  }

  function RunAsWritten(r: Reader, ops: seq<ReadOp>): Reader {
    if ops == [] then r else StepAsWritten(RunAsWritten(r, ops[..|ops| - 1]), ops[|ops| - 1])
  }

  function RunKeepingPartial(r: Reader, ops: seq<ReadOp>): Reader {
    if ops == [] then r else StepKeepingPartial(RunKeepingPartial(r, ops[..|ops| - 1]), ops[|ops| - 1])
  }

  /**
   * The reader that keeps its partial line loses nothing and reorders nothing:
   * whatever the interleaving of writes, polls and other branches winning, it
   * holds exactly the bytes the host wrote, in order.
   */
  lemma {:induction false} KeepingPartialLosesNothing(r: Reader, ops: seq<ReadOp>)
    ensures Held(RunKeepingPartial(r, ops)) == Held(r) + Written(ops)
    decreases |ops|
  {
    if ops != [] {
      var init := ops[..|ops| - 1];
      KeepingPartialLosesNothing(r, init);
      var last := ops[|ops| - 1];
      var before := RunKeepingPartial(r, init);
      assert Held(StepKeepingPartial(before, last))
          == Held(before) + (if last.HostWrites? then last.bytes else []);
    }
  }

  /** The delivered lines come first among the bytes a reader holds. */
  lemma DeliveredComeFirst(x: Reader, w: string)
    requires Held(x) == w
    ensures Concat(x.lines) <= w
  {
    var delivered := Concat(x.lines);
    assert w == delivered + (x.partial + x.pending);
    assert w[..|delivered|] == delivered;
  }

  /** From an empty pipe, the lines delivered are a prefix of what the host wrote. */
  lemma {:induction false} DeliveredLinesArePrefix(ops: seq<ReadOp>)
    ensures Concat(RunKeepingPartial(Reader([], [], []), ops).lines) <= Written(ops)
  {
    var empty := Reader([], [], []);
    KeepingPartialLosesNothing(empty, ops);
    assert Held(empty) + Written(ops) == Written(ops) by {
      assert Held(empty) == [];
    }
    DeliveredComeFirst(RunKeepingPartial(empty, ops), Written(ops));
  }

  /**
   * The reader as written: the host writes one line in two pieces while a
   * message arrives from the kernel between them. The router is then handed
   * only the second piece, and the first is lost; the reader that keeps its
   * partial line hands over the whole line.
   */
  lemma AsWrittenLosesPartialLine()
    ensures var ops := [HostWrites("ab"), PollRead, OtherBranchWins, HostWrites("c\n"), PollRead];
      && RunAsWritten(Reader([], [], []), ops).lines == ["c\n"]
      && RunKeepingPartial(Reader([], [], []), ops).lines == ["abc\n"]
  {
    var ops := [HostWrites("ab"), PollRead, OtherBranchWins, HostWrites("c\n"), PollRead];
    var ops1, ops2 := [HostWrites("ab")], [HostWrites("ab"), PollRead];
    var ops3 := [HostWrites("ab"), PollRead, OtherBranchWins];
    var ops4 := [HostWrites("ab"), PollRead, OtherBranchWins, HostWrites("c\n")];
    assert ops[..4] == ops4 && ops4[..3] == ops3 && ops3[..2] == ops2 && ops2[..1] == ops1 && ops1[..0] == [];
    var empty := Reader([], [], []);
    assert NewlineIndex("ab") == None by {
      assert "ab"[1..] == "b";
      assert "b"[1..] == [];
    }
    assert NewlineIndex("c\n") == Some(1) by {
      assert "c\n"[1..] == "\n";
    }
    assert "c\n"[..2] == "c\n" && "c\n"[2..] == [];
    assert RunAsWritten(empty, ops1) == Reader("ab", [], []);
    assert RunAsWritten(empty, ops2) == Reader([], "ab", []);
    assert RunAsWritten(empty, ops3) == Reader([], [], []);
    assert RunAsWritten(empty, ops4) == Reader("c\n", [], []);
    assert RunKeepingPartial(empty, ops1) == Reader("ab", [], []);
    assert RunKeepingPartial(empty, ops2) == Reader([], "ab", []);
    assert RunKeepingPartial(empty, ops3) == Reader([], "ab", []);
    assert RunKeepingPartial(empty, ops4) == Reader("c\n", "ab", []);
    assert "ab" + "c\n" == "abc\n";
  }
}
