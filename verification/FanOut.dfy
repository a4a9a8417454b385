/**
 The parallel writer of per-recipient entries (rust/protocol/src/sealed_sender.rs:1534-1590).

 The recipient groups are cut into chunks; the first chunk is written by the current thread, every other chunk by a task
 with a buffer of its own, and the buffers are joined in order. `WriteAll` is the plain sequential pass that the
 whole must equal.
 */
module FanOut {
  import opened Prelude

  /** The sequential pass: the outputs of all groups in order, or the first error. */
  function WriteAll<G, B, E>(write: G -> Result<seq<B>, E>, gs: seq<G>): Result<seq<B>, E> {
    if gs == [] then Ok([])
    else
      var head :- write(gs[0]);
      var tail :- WriteAll(write, gs[1..]);
      Ok(head + tail)
  }

  /** Puts already written bytes in front of an outcome. */
  function After<B, E>(written: seq<B>, r: Result<seq<B>, E>): Result<seq<B>, E> {
    match r
    case Ok(bytes) => Ok(written + bytes)
    case Err(e) => Err(e)
  }

  /** One pass over a concatenation is a pass over its first part, then over its second. */
  lemma {:induction false} WriteAllSplits<G, B, E>(write: G -> Result<seq<B>, E>, xs: seq<G>, ys: seq<G>)
    ensures WriteAll(write, xs + ys)
         == var first := WriteAll(write, xs);
            if first.Ok? then After(first.value, WriteAll(write, ys)) else first
    decreases |xs|
  {
    if xs == [] {
      assert xs + ys == ys;
      var rest := WriteAll(write, ys);
      assert rest.Ok? ==> [] + rest.value == rest.value;
    } else {
      assert (xs + ys)[0] == xs[0] && (xs + ys)[1..] == xs[1..] + ys;
      WriteAllSplits(write, xs[1..], ys);
      var head, middle, last := write(xs[0]), WriteAll(write, xs[1..]), WriteAll(write, ys);
      if head.Ok? && middle.Ok? && last.Ok? {
        assert head.value + (middle.value + last.value) == (head.value + middle.value) + last.value;
      }
    }
  }

  lemma WriteAllSnoc<G, B, E>(write: G -> Result<seq<B>, E>, xs: seq<G>, g: G)
    ensures WriteAll(write, xs + [g])
         == var first := WriteAll(write, xs);
            if first.Err? then first else After(first.value, write(g))
  {
    WriteAllSplits(write, xs, [g]);
    var r := write(g);
    assert [g][1..] == [];
    assert WriteAll(write, [g][1..]) == Ok([]);
    assert r.Ok? ==> r.value + [] == r.value;
  }

  /** `process_chunk`: appends one group after another to the buffer. */
  method ProcessChunk<G, B, E>(write: G -> Result<seq<B>, E>, serialized: seq<B>, chunk: seq<G>)
    returns (r: Result<seq<B>, E>)
    ensures r == After(serialized, WriteAll(write, chunk))
  {
    var buffer, i := serialized, 0;
    while i < |chunk|
      invariant 0 <= i <= |chunk|
      invariant After(serialized, WriteAll(write, chunk)) == After(buffer, WriteAll(write, chunk[i..]))
    {
      match write(chunk[i]) {
        case Err(e) => return Err(e);
        case Ok(bytes) =>
          ghost var rest := WriteAll(write, chunk[i + 1..]);
          assert chunk[i..][0] == chunk[i] && chunk[i..][1..] == chunk[i + 1..];
          assert rest.Ok? ==> buffer + (bytes + rest.value) == (buffer + bytes) + rest.value;
          buffer := buffer + bytes;
      }
      i := i + 1;
    }
    assert chunk[i..] == [];
    assert WriteAll(write, chunk[i..]) == Ok([]);
    assert buffer + [] == buffer;
    return Ok(buffer);
  }

  // ---------------------------------------------------------------------------------------------
  // Chunks

  const MIN_CHUNK := 6

  function ChunkSize(n: nat, parallelism: nat): nat
    requires parallelism > 0
  {
    Max(MIN_CHUNK, DivCeil(n, parallelism))
  }

  /** Consecutive chunks of `size` groups, the last possibly shorter. */
  function Chunks<G>(gs: seq<G>, size: nat): (cs: seq<seq<G>>)
    requires size > 0
    ensures Flatten(cs) == gs
    ensures forall c :: c in cs ==> 0 < |c| <= size
    decreases |gs|
  {
    if gs == [] then [] else if |gs| <= size then [gs] else [gs[..size]] + Chunks(gs[size..], size)
  }

  /** Joining the outputs in order, stopping at the first error. */
  function Join<B, E>(outputs: seq<Result<seq<B>, E>>): Result<seq<B>, E> {
    if outputs == [] then Ok([])
    else
      var head :- outputs[0];
      var tail :- Join(outputs[1..]);
      Ok(head + tail)
  }

  /** The joined outputs of all chunks are the output of one pass over all groups. */
  lemma {:induction false} JoinIsOnePass<G, B, E>(write: G -> Result<seq<B>, E>, cs: seq<seq<G>>,
                                                  outputs: seq<Result<seq<B>, E>>)
    requires |outputs| == |cs| && forall i :: 0 <= i < |cs| ==> outputs[i] == WriteAll(write, cs[i])
    ensures Join(outputs) == WriteAll(write, Flatten(cs))
    decreases |cs|
  {
    if cs != [] {
      JoinIsOnePass(write, cs[1..], outputs[1..]);
      WriteAllSplits(write, cs[0], Flatten(cs[1..]));
    }
  }

  // ---------------------------------------------------------------------------------------------
  // Tasks

  /** A spawned task: how many groups of its chunk it has written, and its own buffer or error. */
  datatype Task<+B, +E> = Task(next: nat, output: Result<seq<B>, E>)

  predicate TaskInv<G, B(==), E(==)>(write: G -> Result<seq<B>, E>, chunk: seq<G>, t: Task<B, E>) {
    t.next <= |chunk| && t.output == WriteAll(write, chunk[..t.next])
  }

  predicate Finished<G, B, E>(chunk: seq<G>, t: Task<B, E>) {
    t.next >= |chunk| || t.output.Err?
  }

  function StepTask<G, B, E>(write: G -> Result<seq<B>, E>, chunk: seq<G>, t: Task<B, E>): Task<B, E>
    requires !Finished(chunk, t)
  {
    Task(t.next + 1, After(t.output.value, write(chunk[t.next])))
  }

  lemma StepKeepsTask<G, B, E>(write: G -> Result<seq<B>, E>, chunk: seq<G>, t: Task<B, E>)
    requires TaskInv(write, chunk, t) && !Finished(chunk, t)
    ensures TaskInv(write, chunk, StepTask(write, chunk, t))
  {
    assert chunk[..t.next + 1] == chunk[..t.next] + [chunk[t.next]];
    WriteAllSnoc(write, chunk[..t.next], chunk[t.next]);
  }

  lemma FinishedIsWhole<G, B, E>(write: G -> Result<seq<B>, E>, chunk: seq<G>, t: Task<B, E>)
    requires TaskInv(write, chunk, t) && Finished(chunk, t)
    ensures t.output == WriteAll(write, chunk)
  {
    assert chunk == chunk[..t.next] + chunk[t.next..];
    if t.next == |chunk| {
      assert chunk[..t.next] == chunk;
    } else {
      WriteAllSplits(write, chunk[..t.next], chunk[t.next..]);
    }
  }

  /** Groups not written yet, over all tasks. */
  function Remaining<G, B, E>(cs: seq<seq<G>>, tasks: seq<Task<B, E>>): nat
    requires |cs| == |tasks| && forall i :: 0 <= i < |cs| ==> tasks[i].next <= |cs[i]|
  {
    if cs == [] then 0 else |cs[0]| - tasks[0].next + Remaining(cs[1..], tasks[1..])
  }

  lemma {:induction false} StepRemains<G, B, E>(cs: seq<seq<G>>, tasks: seq<Task<B, E>>, t: nat, step: Task<B, E>)
    requires |cs| == |tasks| && forall i :: 0 <= i < |cs| ==> tasks[i].next <= |cs[i]|
    requires t < |cs| && tasks[t].next < step.next <= |cs[t]|
    ensures Remaining(cs, tasks[t := step]) < Remaining(cs, tasks)
  {
    if t == 0 {
      assert tasks[t := step][1..] == tasks[1..];
    } else {
      assert tasks[t := step][1..] == tasks[1..][t - 1 := step];
      StepRemains(cs[1..], tasks[1..], t - 1, step);
    }
  }

  /**
   Runs one task per chunk to completion. The scheduler picks any unfinished task at each step, so the contract holds
   for every interleaving: each slot ends up with what a lone pass over its chunk gives.
   */
  method RunTasks<G, B, E>(write: G -> Result<seq<B>, E>, cs: seq<seq<G>>) returns (outputs: seq<Result<seq<B>, E>>)
    ensures |outputs| == |cs| && forall i :: 0 <= i < |cs| ==> outputs[i] == WriteAll(write, cs[i])
  {
    var tasks: seq<Task<B, E>> := seq(|cs|, i => Task(0, Ok([])));
    assert forall i :: 0 <= i < |cs| ==> cs[i][..0] == [];
    while exists t :: 0 <= t < |cs| && !Finished(cs[t], tasks[t])
      invariant |tasks| == |cs|
      invariant forall i :: 0 <= i < |cs| ==> TaskInv(write, cs[i], tasks[i])
      decreases Remaining(cs, tasks)
    {
      var t :| 0 <= t < |cs| && !Finished(cs[t], tasks[t]);
      StepKeepsTask(write, cs[t], tasks[t]);
      StepRemains(cs, tasks, t, StepTask(write, cs[t], tasks[t]));
      tasks := tasks[t := StepTask(write, cs[t], tasks[t])];
    }
    forall i | 0 <= i < |cs| ensures tasks[i].output == WriteAll(write, cs[i]) {
      FinishedIsWhole(write, cs[i], tasks[i]);
    }
    outputs := seq(|cs|, i requires 0 <= i < |cs| => tasks[i].output);
  }

  /**
   Writes every group, in chunks when it pays; for every parallelism and interleaving the result is the one-pass result.
   */
  method WriteGroups<G, B, E>(write: G -> Result<seq<B>, E>, serialized: seq<B>, gs: seq<G>, parallelism: nat)
    returns (r: Result<seq<B>, E>)
    requires parallelism > 0
    ensures r == After(serialized, WriteAll(write, gs))
  {
    var size := ChunkSize(|gs|, parallelism);
    if parallelism == 1 || size >= |gs| {
      r := ProcessChunk(write, serialized, gs);
    } else {
      var first, others := gs[..size], Chunks(gs[size..], size);
      assert gs == first + gs[size..];
      WriteAllSplits(write, first, gs[size..]);
      var outputs := RunTasks(write, others);
      JoinIsOnePass(write, others, outputs);
      var start := ProcessChunk(write, serialized, first);
      if start.Err? {
        return start;
      }
      r := Append(start.value, outputs);
      AfterBoth(serialized, WriteAll(write, first), WriteAll(write, gs[size..]));
    }
  }

  /** Writing one result and then another is writing what they make together. */
  lemma AfterBoth<B, E>(serialized: seq<B>, head: Result<seq<B>, E>, rest: Result<seq<B>, E>)
    requires head.Ok?
    ensures After(serialized + head.value, rest)
         == After(serialized, if rest.Ok? then Ok(head.value + rest.value) else rest)
  {
    assert rest.Ok? ==> (serialized + head.value) + rest.value == serialized + (head.value + rest.value);
  }

  method Append<B, E>(serialized: seq<B>, outputs: seq<Result<seq<B>, E>>) returns (r: Result<seq<B>, E>)
    ensures r == After(serialized, Join(outputs))
  {
    var buffer, i := serialized, 0;
    while i < |outputs|
      invariant 0 <= i <= |outputs|
      invariant After(serialized, Join(outputs)) == After(buffer, Join(outputs[i..]))
    {
      if outputs[i].Err? {
        return outputs[i];
      }
      ghost var rest := Join(outputs[i + 1..]);
      assert outputs[i..][1..] == outputs[i + 1..];
      assert rest.Ok? ==> buffer + (outputs[i].value + rest.value) == (buffer + outputs[i].value) + rest.value;
      buffer := buffer + outputs[i].value;
      i := i + 1;
    }
    assert outputs[i..] == [];
    assert buffer + [] == buffer;
    return Ok(buffer);
  }
}
