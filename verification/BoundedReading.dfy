// Reading a command's two output pipes, and an HTTP body, within limits.
module BoundedReading {
  import opened Wrappers

  type Byte = b: int | 0 <= b < 256

  const CHUNK := 65536

  function Min(a: nat, b: nat): nat {
    if a <= b then a else b
  }

  datatype Stream = Stdout | Stderr

  datatype CommandResult =
    | Succeeded(stdout: seq<Byte>, stderr: seq<Byte>)
    | Exited(code: int, stdout: seq<Byte>, stderr: seq<Byte>)
    | OutputExceeded(stream: Stream, stdout: seq<Byte>, stderr: seq<Byte>)
    | TimedOut(stdout: seq<Byte>, stderr: seq<Byte>)

  // A pipe, with all the bytes that will ever come out of it, in chunks of any
  // sizes, and the bytes kept so far.
  class Pipe {
    const content: seq<Byte>
    const limit: nat
    const sizes: nat -> nat
    var position: nat
    var turn: nat
    var buffer: seq<Byte>
    var open: bool

    // What is kept is always the part read so far, cut at the limit.
    ghost predicate Valid()
      reads this
    {
      && position <= |content|
      && buffer == content[..Min(position, limit)]
      && (!open ==> position == |content|)
    }

    constructor (content: seq<Byte>, limit: nat, sizes: nat -> nat)
      ensures this.content == content && this.limit == limit && this.sizes == sizes
      ensures Valid() && position == 0 && open && buffer == []
    {
      this.content, this.limit, this.sizes := content, limit, sizes;
      position, turn, buffer, open := 0, 0, [], true;
    }

    // Between one byte and a chunk, or nothing at the end.
    method Read() returns (chunk: seq<Byte>)
      requires Valid() && open
      modifies `position, `turn
      ensures position == old(position) + |chunk| <= |content| && chunk == content[old(position)..position]
      ensures |chunk| <= CHUNK && (chunk == [] <==> old(position) == |content|)
    {
      var size := Min(Min(if sizes(turn) == 0 then 1 else sizes(turn), CHUNK), |content| - position);
      chunk := content[position..position + size];
      position := position + size;
      turn := turn + 1;
    }

    // Appends what fits of a chunk that was just read.
    method Extend(chunk: seq<Byte>)
      requires |chunk| <= position <= |content| && chunk == content[position - |chunk|..position]
      requires buffer == content[..Min(position - |chunk|, limit)]
      modifies `buffer
      ensures buffer == content[..Min(position, limit)]
    {
      var available := limit - |buffer|;
      buffer := buffer + chunk[..Min(available, |chunk|)];
    }
  }

  // How the outside world behaves: which pipes are readable in each round of
  // collecting and of draining, how many rounds pass before each deadline, and how
  // the process ends.
  datatype World = World(
    readable: nat -> seq<Stream>, deadline: nat, drainReadable: nat -> seq<Stream>, drainDeadline: nat,
    expiredAtEnd: bool, exitCode: Option<int>)

  ghost predicate Faithful(stdout: Pipe, stderr: Pipe, r: CommandResult) {
    && r.stdout <= stdout.content && |r.stdout| <= stdout.limit
    && r.stderr <= stderr.content && |r.stderr| <= stderr.limit
  }

  // One readable pipe is read; the result says whether it gave more than fits.
  method ReadPipe(pipe: Pipe) returns (exceeded: bool)
    requires pipe.Valid() && pipe.open
    modifies pipe
    ensures pipe.Valid()
    ensures exceeded <==> old(|pipe.buffer|) + pipe.position - old(pipe.position) > pipe.limit
    ensures pipe.open <==> pipe.position > old(pipe.position)
    ensures old(pipe.position) <= pipe.limit && !exceeded ==> pipe.position <= pipe.limit
    ensures exceeded ==> |pipe.content| > pipe.limit && pipe.buffer == pipe.content[..pipe.limit]
    ensures pipe.open ==> |pipe.content| - pipe.position < old(|pipe.content| - pipe.position)
  {
    var chunk := pipe.Read();
    if chunk == [] {
      pipe.open := false;
      return false;
    }
    var available := pipe.limit - |pipe.buffer|;
    pipe.Extend(chunk);
    exceeded := |chunk| > available;
  }

  // In how many of the first rounds a pipe was readable.
  ghost function Turns(readable: nat -> seq<Stream>, stream: Stream, rounds: nat): nat {
    if rounds == 0 then 0
    else Turns(readable, stream, rounds - 1) + if stream in readable(rounds - 1) then 1 else 0
  }

  // After a stop, what still comes out is read for a while; the limits hold on. A pipe
  // that is readable often enough is read to its end.
  method Drain(stdout: Pipe, stderr: Pipe, world: World)
    requires stdout != stderr && stdout.Valid() && stderr.Valid()
    modifies stdout, stderr
    ensures stdout.Valid() && stderr.Valid()
    ensures old(stdout.buffer) <= stdout.buffer && old(stderr.buffer) <= stderr.buffer
    ensures stdout.open ==> Turns(world.drainReadable, Stdout, world.drainDeadline) <= stdout.position
    ensures stderr.open ==> Turns(world.drainReadable, Stderr, world.drainDeadline) <= stderr.position
  {
    var round := 0;
    while (stdout.open || stderr.open) && round < world.drainDeadline
      invariant stdout.Valid() && stderr.Valid() && round <= world.drainDeadline
      invariant old(stdout.position) <= stdout.position && old(stderr.position) <= stderr.position
      invariant stdout.open ==> Turns(world.drainReadable, Stdout, round) <= stdout.position
      invariant stderr.open ==> Turns(world.drainReadable, Stderr, round) <= stderr.position
      decreases world.drainDeadline - round
    {
      DrainRound(stdout, stderr, world.drainReadable(round));
      round := round + 1;
    }
  }

  method DrainRound(stdout: Pipe, stderr: Pipe, readable: seq<Stream>)
    requires stdout != stderr && stdout.Valid() && stderr.Valid()
    modifies stdout, stderr
    ensures stdout.Valid() && stderr.Valid()
    ensures old(stdout.position) <= stdout.position && old(stderr.position) <= stderr.position
    ensures stdout.open ==> old(stdout.open) && (Stdout in readable ==> old(stdout.position) < stdout.position)
    ensures stderr.open ==> old(stderr.open) && (Stderr in readable ==> old(stderr.position) < stderr.position)
  {
    var i := 0;
    while i < |readable|
      invariant 0 <= i <= |readable| && stdout.Valid() && stderr.Valid()
      invariant old(stdout.position) <= stdout.position && old(stderr.position) <= stderr.position
      invariant stdout.open ==> old(stdout.open) && (Stdout in readable[..i] ==> old(stdout.position) < stdout.position)
      invariant stderr.open ==> old(stderr.open) && (Stderr in readable[..i] ==> old(stderr.position) < stderr.position)
    {
      assert readable[..i + 1] == readable[..i] + [readable[i]];
      var pipe := if readable[i].Stdout? then stdout else stderr;
      if pipe.open {
        var exceeded := ReadPipe(pipe);
      }
      i := i + 1;
    }
    assert readable[..|readable|] == readable;
  }

  // A round of reads, which stops at the first pipe that gives more than fits.
  method ReadRound(stdout: Pipe, stderr: Pipe, readable: seq<Stream>) returns (exceeded: Option<Stream>)
    requires stdout != stderr && stdout.Valid() && stderr.Valid()
    requires stdout.position <= stdout.limit && stderr.position <= stderr.limit
    modifies stdout, stderr
    ensures stdout.Valid() && stderr.Valid()
    ensures exceeded.None? ==> stdout.position <= stdout.limit && stderr.position <= stderr.limit
    ensures exceeded == Some(Stdout) ==> |stdout.content| > stdout.limit && stdout.buffer == stdout.content[..stdout.limit]
    ensures exceeded == Some(Stderr) ==> |stderr.content| > stderr.limit && stderr.buffer == stderr.content[..stderr.limit]
    ensures stdout.open ==> old(stdout.open) && old(stdout.position) <= stdout.position
    ensures stderr.open ==> old(stderr.open) && old(stderr.position) <= stderr.position
    ensures exceeded.None? && Stdout in readable && stdout.open ==> old(stdout.position) < stdout.position
    ensures exceeded.None? && Stderr in readable && stderr.open ==> old(stderr.position) < stderr.position
  {
    exceeded := None;
    var i := 0;
    while i < |readable| && exceeded.None?
      invariant stdout.Valid() && stderr.Valid()
      invariant exceeded.None? ==> stdout.position <= stdout.limit && stderr.position <= stderr.limit
      invariant exceeded == Some(Stdout) ==> |stdout.content| > stdout.limit && stdout.buffer == stdout.content[..stdout.limit]
      invariant exceeded == Some(Stderr) ==> |stderr.content| > stderr.limit && stderr.buffer == stderr.content[..stderr.limit]
      invariant 0 <= i <= |readable|
      invariant stdout.open ==> old(stdout.open) && old(stdout.position) <= stdout.position
      invariant stderr.open ==> old(stderr.open) && old(stderr.position) <= stderr.position
      invariant exceeded.None? && Stdout in readable[..i] && stdout.open ==> old(stdout.position) < stdout.position
      invariant exceeded.None? && Stderr in readable[..i] && stderr.open ==> old(stderr.position) < stderr.position
    {
      assert readable[..i + 1] == readable[..i] + [readable[i]];
      var pipe := if readable[i].Stdout? then stdout else stderr;
      if pipe.open {
        var more := ReadPipe(pipe);
        if more {
          exceeded := Some(readable[i]);
        }
      }
      i := i + 1;
    }
    assert readable[..|readable|] == readable || exceeded.Some?;
  }

  // Both buffers are always prefixes within their limits; an end by the process's own
  // exit has both streams whole, and an overflow is real. A timeout comes only when the
  // deadline has passed or the process has not ended by itself, and a stream that is
  // readable often enough after the stop is still kept as far as it fits; when both streams fit and
  // are readable often enough before the deadline, the process's exit decides.
  method Collect(stdout: Pipe, stderr: Pipe, world: World) returns (r: CommandResult, ghost rounds: nat)
    requires stdout != stderr && stdout.Valid() && stderr.Valid()
    requires stdout.position == stderr.position == 0
    modifies stdout, stderr
    ensures Faithful(stdout, stderr, r)
    ensures r.Succeeded? || r.Exited? ==> r.stdout == stdout.content && r.stderr == stderr.content
    ensures r.OutputExceeded? && r.stream.Stdout? ==> |stdout.content| > stdout.limit && r.stdout == stdout.content[..stdout.limit]
    ensures r.OutputExceeded? && r.stream.Stderr? ==> |stderr.content| > stderr.limit && r.stderr == stderr.content[..stderr.limit]
    ensures r.Succeeded? ==> world.exitCode == Some(0)
    ensures r.Exited? ==> world.exitCode == Some(r.code) && r.code != 0
    ensures rounds <= world.deadline
    ensures r.TimedOut? ==>
              || rounds == world.deadline
              || ((world.expiredAtEnd || world.exitCode.None?) && r.stdout == stdout.content && r.stderr == stderr.content)
    ensures r.TimedOut? || r.OutputExceeded? ==>
              && (|stdout.content| < Turns(world.drainReadable, Stdout, world.drainDeadline) ==>
                    r.stdout == stdout.content[..Min(|stdout.content|, stdout.limit)])
              && (|stderr.content| < Turns(world.drainReadable, Stderr, world.drainDeadline) ==>
                    r.stderr == stderr.content[..Min(|stderr.content|, stderr.limit)])
    ensures |stdout.content| <= stdout.limit && |stderr.content| <= stderr.limit
            && |stdout.content| < Turns(world.readable, Stdout, world.deadline)
            && |stderr.content| < Turns(world.readable, Stderr, world.deadline) ==>
              if world.expiredAtEnd || world.exitCode.None? then r == TimedOut(stdout.content, stderr.content)
              else if world.exitCode.value == 0 then r == Succeeded(stdout.content, stderr.content)
              else r == Exited(world.exitCode.value, stdout.content, stderr.content)
  {
    var round := 0;
    rounds := 0;
    while stdout.open || stderr.open
      invariant stdout.Valid() && stderr.Valid()
      invariant stdout.position <= stdout.limit && stderr.position <= stderr.limit
      invariant rounds == round <= world.deadline
      invariant stdout.open ==> Turns(world.readable, Stdout, round) <= stdout.position
      invariant stderr.open ==> Turns(world.readable, Stderr, round) <= stderr.position
      decreases world.deadline - round
    {
      if round >= world.deadline {
        Drain(stdout, stderr, world);
        return TimedOut(stdout.buffer, stderr.buffer), rounds;
      }
      var exceeded := ReadRound(stdout, stderr, world.readable(round));
      if exceeded.Some? {
        Drain(stdout, stderr, world);
        return OutputExceeded(exceeded.value, stdout.buffer, stderr.buffer), rounds;
      }
      round := round + 1;
      rounds := round;
    }
    if world.expiredAtEnd || world.exitCode.None? { return TimedOut(stdout.buffer, stderr.buffer), rounds; }
    if world.exitCode.value == 0 { return Succeeded(stdout.buffer, stderr.buffer), rounds; }
    return Exited(world.exitCode.value, stdout.buffer, stderr.buffer), rounds;
  }

  // An HTTP response body that gives up to as many bytes as it is asked for.
  class Body {
    const content: seq<Byte>
    const sizes: nat -> nat
    var position: nat
    var turn: nat

    ghost predicate Valid()
      reads this
    {
      position <= |content|
    }

    constructor (content: seq<Byte>, sizes: nat -> nat)
      ensures this.content == content && this.sizes == sizes && position == 0 && Valid()
    {
      this.content, this.sizes := content, sizes;
      position, turn := 0, 0;
    }

    method Read(most: nat) returns (chunk: seq<Byte>)
      requires Valid() && most > 0
      modifies this
      ensures Valid() && position == old(position) + |chunk| && chunk == content[old(position)..position]
      ensures |chunk| <= most && (chunk == [] <==> old(position) == |content|)
    {
      var size := Min(Min(if sizes(turn) == 0 then 1 else sizes(turn), most), |content| - position);
      chunk := content[position..position + size];
      position := position + size;
      turn := turn + 1;
    }
  }

  // The whole body exactly when it fits, and never more than one byte beyond the limit is taken.
  method ReadBody(response: Body, limit: nat) returns (body: Option<seq<Byte>>)
    requires response.Valid() && response.position == 0
    modifies response
    ensures response.Valid() && response.position <= limit + 1
    ensures body == if |response.content| <= limit then Some(response.content) else None
  {
    var chunks: seq<Byte> := [];
    var remaining := limit;
    while true
      invariant response.Valid() && chunks == response.content[..response.position]
      invariant 0 <= remaining == limit - response.position
      decreases |response.content| - response.position
    {
      var chunk := response.Read(Min(CHUNK, remaining + 1));
      if chunk == [] {
        assert chunks == response.content;
        return Some(chunks);
      }
      if |chunk| > remaining { return None; }
      chunks := chunks + chunk;
      remaining := remaining - |chunk|;
    }
  }
}
