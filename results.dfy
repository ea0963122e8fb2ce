/** The result stream of code/Results.cpp (and of its older copies
    sql/Results.cpp and sql/ResultSet.cpp, which run the same code): a state
    bitmask, a column cursor and the reads that move them. Every call into
    the driver is an input: the return code of `SQLFetch` or `SQLGetData`,
    and for text columns the sequence of replies the chunked reads receive. */
module ResultStream {

  import opened Units
  import opened ResultState
  import Strings

  /** The part of a `Results` object the reads change. */
  datatype Cursor = Cursor(state: State, column: Uint16)

  /** A new `Results`: column 0, good state. */
  const Initial := Cursor(Good, 0)

  /** What one `SQLGetData` call of a text read gives back: a return code and
      the 32-unit buffer the driver filled, or a structured exception raised
      during the call (only the narrow read catches one). */
  datatype Reply = Chunk(code: ReturnCode, buffer: seq<char>) | Faulted

  /** A reply that ends the `do ... while (result == SQL_SUCCESS_WITH_INFO)` loop. */
  predicate Ends(reply: Reply) {
    reply.Faulted? || reply.code != SuccessWithInfo
  }

  /** What the reads require of the driver's replies: the loop ends, and
      every filled buffer is 32 units holding a terminator. */
  predicate TextReplies(replies: seq<Reply>) {
    Halts(replies) && forall i :: 0 <= i < |replies| ==> Filled(replies[i])
  }

  /** Some reply ends the loop. */
  predicate Halts(replies: seq<Reply>)
    decreases |replies|
  {
    |replies| > 0 && (Ends(replies[0]) || Halts(replies[1..]))
  }

  /** A filled buffer is 32 units holding a terminator. */
  predicate Filled(reply: Reply) {
    reply.Chunk? ==> |reply.buffer| == 32 && NUL in reply.buffer
  }

  /** The index of the reply that ends the loop. */
  function Stop(replies: seq<Reply>): (k: nat)
    requires Halts(replies)
    ensures k < |replies| && Ends(replies[k])
    ensures forall j :: 0 <= j < k ==> !Ends(replies[j])
  {
    if Ends(replies[0]) then 0
    else
      var k := 1 + Stop(replies[1..]);
      assert forall j :: 1 <= j <= k ==> replies[j] == replies[1..][j - 1];
      k
  }

  /** What `value += buffer` appends for one reply: the buffer's C string.
      An exception appends nothing; a buffer without a terminator, which
      the replies of a read never hold, is taken whole. */
  function ChunkText(reply: Reply): string {
    match reply
    case Faulted => []
    case Chunk(_, buffer) => if NUL in buffer then CString(buffer) else buffer
  }

  /** The text the appends collect over the first `n` replies, in order. */
  function Collected(replies: seq<Reply>, n: nat): string
    requires n <= |replies|
  {
    if n == 0 then [] else Collected(replies, n - 1) + ChunkText(replies[n - 1])
  }

  /** What is collected depends only on the replies collected. */
  lemma {:induction false} CollectedPrefix(replies: seq<Reply>, more: seq<Reply>, n: nat)
    requires n <= |replies|
    ensures Collected(replies + more, n) == Collected(replies, n)
    decreases n
  {
    if n > 0 {
      CollectedPrefix(replies, more, n - 1);
      assert (replies + more)[n - 1] == replies[n - 1];
    }
  }

  /** At most 31 units come from each 32-unit buffer. */
  lemma {:induction false} CollectedLength(replies: seq<Reply>, n: nat)
    requires n <= |replies|
    requires forall i :: 0 <= i < |replies| ==> Filled(replies[i])
    ensures |Collected(replies, n)| <= 31 * n
    decreases n
  {
    if n > 0 {
      CollectedLength(replies, n - 1);
      ChunkBound(replies[n - 1]);
    }
  }

  /** A filled 32-unit buffer contributes at most 31 units. */
  lemma ChunkBound(reply: Reply)
    requires Filled(reply)
    ensures |ChunkText(reply)| <= 31
  {
    if reply.Chunk? {
      assert |CString(reply.buffer)| < |reply.buffer|;
    }
  }

  /** A reply that does not end the loop comes before the one that does. */
  lemma Continues(replies: seq<Reply>, i: nat)
    requires TextReplies(replies) && i <= Stop(replies) && i < |replies| && !Ends(replies[i])
    ensures i < Stop(replies)
  {
  }

  /** The reply that ends the loop is the first that can. */
  lemma StopAt(replies: seq<Reply>, i: nat)
    requires TextReplies(replies) && i <= Stop(replies) && i < |replies| && Ends(replies[i])
    ensures i == Stop(replies)
  {
  }

  /** `operator>>(const Row&)`: while good, fetch; any result but success
      raises `fail`; the column restarts at 1. */
  function FetchRow(c: Cursor, result: ReturnCode): (r: Cursor)
    ensures !c.state.IsGood() ==> r == c
    ensures c.state.IsGood() ==> r.column == 1 && (r.state.IsGood() <==> result == Success)
    ensures c.state.IsGood() ==> (r.state.Get(Fail) <==> result != Success)
  {
    if !c.state.IsGood() then c
    else Cursor(if result == Success then c.state else c.state.Set(Fail), 1)
  }

  /** Every fixed-size column read (`Null`, the integers, floating point,
      `Date`, `Guid`, `Numeric`, `Time`, `Timestamp`): while good, one
      `SQLGetData` call; any result but success raises `fail`; the column
      moves on by one, wrapping as the 16-bit `myColumn` does. */
  function ReadColumn(c: Cursor, result: ReturnCode): (r: Cursor)
    ensures !c.state.IsGood() ==> r == c
    ensures c.state.IsGood() ==> r.column == Increment16(c.column)
    ensures c.state.IsGood() ==> (r.state.IsGood() <==> result == Success)
    ensures c.state.IsGood() ==> (r.state.Get(Fail) <==> result != Success)
  {
    if !c.state.IsGood() then c
    else Cursor(if result == Success then c.state else c.state.Set(Fail), Increment16(c.column))
  }

  /** The string and wide-string reads: while good, chunks until a reply
      other than success-with-info. An exception raises `fail` and leaves
      the column; otherwise `fail` is raised unless the last call succeeded,
      and the column moves on by one. */
  function ReadText(c: Cursor, replies: seq<Reply>): (r: Cursor)
    requires TextReplies(replies)
    ensures !c.state.IsGood() ==> r == c
    ensures c.state.IsGood() && replies[Stop(replies)].Faulted? ==>
      r == Cursor(c.state.Set(Fail), c.column) && !r.state.IsGood()
    ensures c.state.IsGood() && replies[Stop(replies)].Chunk? ==>
      r.column == Increment16(c.column) &&
      (r.state.IsGood() <==> replies[Stop(replies)].code == Success)
  {
    if !c.state.IsGood() then c
    else
      var last := replies[Stop(replies)];
      if last.Faulted? then Cursor(c.state.Set(Fail), c.column)
      else Cursor(if last.code == Success then c.state else c.state.Set(Fail), Increment16(c.column))
  }

  /** The text a read leaves in its target: the target is emptied first,
      so it is empty when the stream was not good. */
  function TextOf(c: Cursor, replies: seq<Reply>): (text: string)
    requires TextReplies(replies)
    ensures !c.state.IsGood() ==> text == []
    ensures c.state.IsGood() ==> text == Collected(replies, Stop(replies)) + ChunkText(replies[Stop(replies)])
  {
    if !c.state.IsGood() then []
    else
      var k := Stop(replies);
      assert Collected(replies, k + 1) == Collected(replies, k) + ChunkText(replies[k]);
      Collected(replies, k + 1)
  }

  lemma ReadTextGood(c: Cursor, replies: seq<Reply>)
    requires TextReplies(replies) && c.state.IsGood()
    ensures replies[Stop(replies)].Faulted? ==> ReadText(c, replies) == Cursor(c.state.Set(Fail), c.column)
    ensures replies[Stop(replies)].Chunk? ==> ReadText(c, replies) == ReadColumn(c, replies[Stop(replies)].code)
  {
  }

  lemma TextOfGood(c: Cursor, replies: seq<Reply>)
    requires TextReplies(replies) && c.state.IsGood()
    ensures TextOf(c, replies) == [] + Collected(replies, Stop(replies) + 1)
  {
  }

  /** Judging the reply that ended the loop gives the read's cursor. */
  lemma Concluded(c: Cursor, replies: seq<Reply>, after: Cursor)
    requires TextReplies(replies) && c.state.IsGood()
    requires replies[Stop(replies)].Faulted? ==> after == Cursor(c.state.Set(Fail), c.column)
    requires replies[Stop(replies)].Chunk? ==> after == ReadColumn(c, replies[Stop(replies)].code)
    ensures after == ReadText(c, replies)
  {
    ReadTextGood(c, replies);
  }

  /** What the loop collected from an emptied target is the read's text. */
  lemma ChunkedText(c: Cursor, replies: seq<Reply>, text: seq<char>)
    requires TextReplies(replies) && c.state.IsGood()
    requires text == [] + Collected(replies, Stop(replies) + 1)
    ensures text == TextOf(c, replies)
  {
    TextOfGood(c, replies);
  }

  /** A one-call read of a short value yields the buffer's text. */
  lemma SingleChunk(c: Cursor, buffer: seq<char>)
    requires c.state.IsGood() && |buffer| == 32 && NUL in buffer
    ensures TextReplies([Chunk(Success, buffer)])
    ensures TextOf(c, [Chunk(Success, buffer)]) == CString(buffer)
    ensures ReadText(c, [Chunk(Success, buffer)]) == Cursor(c.state, Increment16(c.column))
  {
    var rs := [Chunk(Success, buffer)];
    assert Ends(rs[0]);
    assert Stop(rs) == 0;
  }

  /** One operation on the stream. */
  datatype Op = Row(fetched: ReturnCode) | Column(result: ReturnCode) | Text(replies: seq<Reply>)

  predicate Runnable(ops: seq<Op>) {
    forall i :: 0 <= i < |ops| && ops[i].Text? ==> TextReplies(ops[i].replies)
  }

  function Step(c: Cursor, op: Op): (r: Cursor)
    requires op.Text? ==> TextReplies(op.replies)
  {
    match op
    case Row(result) => FetchRow(c, result)
    case Column(result) => ReadColumn(c, result)
    case Text(replies) => ReadText(c, replies)
  }

  function Run(c: Cursor, ops: seq<Op>): Cursor
    requires Runnable(ops)
    decreases |ops|
  {
    if ops == [] then c else Run(Step(c, ops[0]), ops[1..])
  }

  /** The operation's driver calls all succeeded. */
  predicate Succeeds(op: Op)
    requires op.Text? ==> TextReplies(op.replies)
  {
    match op
    case Row(result) => result == Success
    case Column(result) => result == Success
    case Text(replies) => replies[Stop(replies)].Chunk? && replies[Stop(replies)].code == Success
  }

  /** Once the stream is not good, no read changes anything. */
  lemma {:induction false} NotGoodIsFrozen(c: Cursor, ops: seq<Op>)
    requires Runnable(ops) && !c.state.IsGood()
    ensures Run(c, ops) == c
    decreases |ops|
  {
    if ops != [] {
      assert Step(c, ops[0]) == c;
      NotGoodIsFrozen(c, ops[1..]);
    }
  }

  /** No read lowers a flag: in particular `fail` is a latch. */
  lemma {:induction false} FlagsOnlyRise(c: Cursor, ops: seq<Op>, probe: State)
    requires Runnable(ops) && c.state.Get(probe)
    ensures Run(c, ops).state.Get(probe)
    decreases |ops|
  {
    if ops != [] {
      var next := Step(c, ops[0]);
      SetKeeps(c.state, Fail, probe);
      assert next.state == c.state || next.state == c.state.Set(Fail);
      FlagsOnlyRise(next, ops[1..], probe);
    }
  }

  /** A good stream stays good exactly as long as every driver call succeeds. */
  lemma {:induction false} GoodIffAllSucceed(c: Cursor, ops: seq<Op>)
    requires Runnable(ops) && c.state.IsGood()
    ensures Run(c, ops).state.IsGood() <==> forall i :: 0 <= i < |ops| ==> Succeeds(ops[i])
    decreases |ops|
  {
    if ops != [] {
      var next := Step(c, ops[0]);
      StepGood(c, ops[0]);
      AllSucceedSplit(ops);
      if Succeeds(ops[0]) {
        GoodIffAllSucceed(next, ops[1..]);
      } else {
        NotGoodIsFrozen(next, ops[1..]);
      }
    }
  }

  /** From a good state, one operation keeps the state exactly when its
      driver calls succeeded, and raises a flag otherwise. */
  lemma StepGood(c: Cursor, op: Op)
    requires (op.Text? ==> TextReplies(op.replies)) && c.state.IsGood()
    ensures Succeeds(op) ==> Step(c, op).state == c.state
    ensures !Succeeds(op) ==> !Step(c, op).state.IsGood()
  {
  }

  /** Every operation succeeds exactly when the first and all the rest do. */
  lemma AllSucceedSplit(ops: seq<Op>)
    requires Runnable(ops) && ops != []
    ensures Runnable(ops[1..])
    ensures (forall i :: 0 <= i < |ops| ==> Succeeds(ops[i])) <==>
      Succeeds(ops[0]) && forall i :: 0 <= i < |ops[1..]| ==> Succeeds(ops[1..][i])
  {
    assert forall i :: 1 <= i < |ops| ==> ops[1..][i - 1] == ops[i];
  }

  /** After a successful fetch, `n` successful column reads leave the
      cursor on column `n + 1`. */
  lemma {:induction false} ReadsAdvance(c: Cursor, n: nat)
    requires c.state.IsGood() && c.column + n < 0x1_0000
    ensures Runnable(seq(n, _ => Column(Success)))
    ensures Run(c, seq(n, _ => Column(Success))) == Cursor(c.state, c.column + n)
    decreases n
  {
    var ops := seq(n, _ => Column(Success));
    if n > 0 {
      assert ops[0] == Column(Success);
      assert ops[1..] == seq(n - 1, _ => Column(Success));
      ReadsAdvance(Cursor(c.state, c.column + 1), n - 1);
    }
  }

  lemma RowThenColumns(c: Cursor, n: nat)
    requires c.state.IsGood() && n < 0xFFFF
    ensures Runnable([Row(Success)] + seq(n, _ => Column(Success)))
    ensures Run(c, [Row(Success)] + seq(n, _ => Column(Success))) == Cursor(c.state, n + 1)
  {
    var ops := [Row(Success)] + seq(n, _ => Column(Success));
    assert ops[1..] == seq(n, _ => Column(Success));
    ReadsAdvance(Cursor(c.state, 1), n);
  }

  /** One more chunk appended to what the loop has collected so far. */
  lemma Extended(before: string, replies: seq<Reply>, i: nat, sofar: string, now: string)
    requires i < |replies| && sofar == before + Collected(replies, i)
    requires now == sofar + ChunkText(replies[i])
    ensures now == before + Collected(replies, i + 1)
  {
    Associative(before, Collected(replies, i), ChunkText(replies[i]));
  }

  /** `value += buffer` for one reply; nothing is appended when the call
      raised an exception. */
  method AppendReply(value: Strings.BasicString, reply: Reply)
    requires value.Valid() && (reply.Chunk? ==> NUL in reply.buffer)
    modifies value, value.data
    ensures value.Valid() && value.Contents() == old(value.Contents()) + ChunkText(reply)
    ensures value.data == old(value.data) || fresh(value.data)
  {
    if reply.Chunk? {
      value.AppendCString(Some(reply.buffer));
    } else {
      assert value.Contents() + [] == value.Contents();
    }
  }

  /** The `do ... while (result == SQL_SUCCESS_WITH_INFO)` loop of the text
      reads: `value += buffer` after every call, until a call returns other
      than success-with-info or raises an exception. Returns the index of
      that last reply. */
  method AppendChunks(value: Strings.BasicString, replies: seq<Reply>) returns (last: nat)
    requires value.Valid() && TextReplies(replies)
    modifies value, value.data
    ensures last == Stop(replies)
    ensures value.Valid() && value.Contents() == old(value.Contents()) + Collected(replies, last + 1)
    ensures value.data == old(value.data) || fresh(value.data)
  {
    ghost var before := value.Contents();
    last := 0;
    while true
      invariant last <= Stop(replies)
      invariant value.Valid() && value.Contents() == before + Collected(replies, last)
      invariant value.data == old(value.data) || fresh(value.data)
      decreases Stop(replies) - last
    {
      var reply := replies[last];
      ghost var sofar := value.Contents();
      AppendReply(value, reply);
      Extended(before, replies, last, sofar, value.Contents());
      if Ends(reply) {
        break;
      }
      Continues(replies, last);
      last := last + 1;
    }
    StopAt(replies, last);
  }

  /** `Results` (and the older `ResultSet`): the object the reads mutate. */
  class Results {

    var state: State
    var column: Uint16

    function Snapshot(): Cursor
      reads this
    {
      Cursor(state, column)
    }

    /** `Results(statement)`: column 0, good state. */
    constructor ()
      ensures Snapshot() == Initial
    {
      state, column := Good, 0;
    }

    /** `Results::operator bool`: the state's `operator bool`. */
    function Ok(): (ok: bool)
      reads this
      ensures ok <==> !state.Get(Null) && !state.Get(Fail) && state.bits == 0
    {
      state.IsGood()
    }

    method Fetch(result: ReturnCode)
      modifies this
      ensures Snapshot() == FetchRow(old(Snapshot()), result)
    {
      if !state.IsGood() {
        return;
      }
      if result != Success {
        state := state.Set(Fail);
      }
      column := 1;
    }

    /** A fixed-size read: the driver writes `written` into the target only
        when the call is made. */
    method ReadValue<T>(target: T, result: ReturnCode, written: T) returns (value: T)
      modifies this
      ensures Snapshot() == ReadColumn(old(Snapshot()), result)
      ensures value == if old(state.IsGood()) then written else target
    {
      value := target;
      if !state.IsGood() {
        return;
      }
      value := written;
      if result != Success {
        state := state.Set(Fail);
      }
      column := Increment16(column);
    }

    /** `operator>>(string&)`: clear the target, then, while good, take
        the chunks; an exception raises `fail` and ends the read at once,
        otherwise `fail` is raised unless the last call succeeded and the
        column moves on. */
    method ReadString(value: Strings.BasicString, replies: seq<Reply>)
      requires value.Valid() && TextReplies(replies)
      modifies this, value, value.data
      ensures value.Valid()
      ensures Snapshot() == ReadText(old(Snapshot()), replies)
      ensures value.Contents() == TextOf(old(Snapshot()), replies)
    {
      ghost var start := Snapshot();
      value.Clear();
      if !state.IsGood() {
        return;
      }
      Chunks(value, replies);
    }

    /** The loop and its verdict, on a good stream and an emptied target. */
    method Chunks(value: Strings.BasicString, replies: seq<Reply>)
      requires value.Valid() && value.Contents() == [] && TextReplies(replies) && state.IsGood()
      modifies this, value, value.data
      ensures value.Valid()
      ensures Snapshot() == ReadText(old(Snapshot()), replies)
      ensures value.Contents() == TextOf(old(Snapshot()), replies)
    {
      ghost var start := Snapshot();
      var last := AppendChunks(value, replies);
      ghost var text, units := value.Contents(), value.data[..];
      ChunkedText(start, replies, text);
      Conclude(replies[last]);
      Concluded(start, replies, Snapshot());
      assert value.data[..] == units;
    }

    /** After the loop of a text read: an exception raises `fail` and leaves
        the column; otherwise the last return code is judged as a column
        read's is. */
    method Conclude(last: Reply)
      requires state.IsGood()
      modifies this
      ensures last.Faulted? ==> Snapshot() == Cursor(old(state).Set(Fail), old(column))
      ensures last.Chunk? ==> Snapshot() == ReadColumn(old(Snapshot()), last.code)
    {
      if last.Faulted? {
        state := state.Set(Fail);
        return;
      }
      if last.code != Success {
        state := state.Set(Fail);
      }
      column := Increment16(column);
    }

    /** `operator>>(wstring&)`: the same loop without the exception guard. */
    method ReadWString(value: Strings.BasicString, replies: seq<Reply>)
      requires value.Valid() && TextReplies(replies)
      requires forall i :: 0 <= i < |replies| ==> replies[i].Chunk?
      modifies this, value, value.data
      ensures value.Valid()
      ensures Snapshot() == ReadText(old(Snapshot()), replies)
      ensures value.Contents() == TextOf(old(Snapshot()), replies)
    {
      ReadString(value, replies);
    }
  }
}
