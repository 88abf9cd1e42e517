/** Reading the output of a remote command (remote_cmd/core/ssh_client.py, _read_output):
    both streams of an SSH channel are polled in turn until the exit status is there and
    nothing is left to read. The channel has a window: the remote side can send only while
    the unread data of both streams together leave room. */
module Drain {
  import opened Options
  import opened Sequences
  import opened Octets

  const CHUNK_SIZE := 32 * 1024

  datatype Event = Out(data: seq<Byte>) | Err(data: seq<Byte>) | Exit(code: int)

  function OutOf(events: seq<Event>): seq<Byte> {
    if events == [] then [] else (if events[0].Out? then events[0].data else []) + OutOf(events[1..])
  }

  function ErrOf(events: seq<Event>): seq<Byte> {
    if events == [] then [] else (if events[0].Err? then events[0].data else []) + ErrOf(events[1..])
  }

  function Bytes(events: seq<Event>): nat {
    if events == [] then 0 else (if events[0].Exit? then 0 else |events[0].data|) + Bytes(events[1..])
  }

  /** What the remote side still has to send: packets that are not empty and fit into the
      window, then the exit status. */
  predicate Script(events: seq<Event>, window: nat) {
    && events != []
    && events[|events| - 1].Exit?
    && forall i :: 0 <= i < |events| - 1 ==> !events[i].Exit? && 0 < |events[i].data| <= window
  }

  class Channel {
    const window: nat
    var out: seq<Byte>
    var err: seq<Byte>
    var exit: Option<int>
    var pending: seq<Event>

    ghost predicate Valid()
      reads this
    {
      |out| + |err| <= window && if exit.Some? then pending == [] else Script(pending, window)
    }

    /** Everything the command has written and will write that has not been read. */
    ghost function RestOut(): seq<Byte>
      reads this
    {
      out + OutOf(pending)
    }

    ghost function RestErr(): seq<Byte>
      reads this
    {
      err + ErrOf(pending)
    }

    ghost function Code(): int
      requires Valid()
      reads this
    {
      if exit.Some? then exit.value else pending[|pending| - 1].code
    }

    /** An upper bound of the polling rounds that are left. */
    ghost function RoundsLeft(): nat
      reads this
    {
      |out| + |err| + Bytes(pending) + |pending|
    }

    ghost predicate Same(restOut: seq<Byte>, restErr: seq<Byte>, code: int)
      reads this
    {
      Valid() && RestOut() == restOut && RestErr() == restErr && Code() == code
    }

    constructor (window: nat, script: seq<Event>)
      requires Script(script, window)
      ensures Valid() && RestOut() == OutOf(script) && RestErr() == ErrOf(script)
      ensures Code() == script[|script| - 1].code && RoundsLeft() == Bytes(script) + |script|
    {
      this.window := window;
      out, err, exit, pending := [], [], None, script;
      new;
      assert [] + OutOf(script) == OutOf(script) && [] + ErrOf(script) == ErrOf(script);
    }

    predicate NextFits()
      reads this
    {
      pending != [] && (pending[0].Exit? || |out| + |err| + |pending[0].data| <= window)
    }

    /** One packet arrives. */
    method Arrive()
      requires Valid() && NextFits()
      modifies this
      ensures Same(old(RestOut()), old(RestErr()), old(Code()))
      ensures |pending| < |old(pending)| && RoundsLeft() < old(RoundsLeft())
      ensures |out| >= |old(out)| && |err| >= |old(err)|
    {
      match pending[0] {
        case Out(data) => out := out + data;
        case Err(data) => err := err + data;
        case Exit(code) => exit := Some(code);
      }
      pending := pending[1..];
    }

    /** Any number of packets that fit arrive, at least one if `waits` and one fits. */
    method Deliver(waits: bool)
      requires Valid()
      modifies this
      ensures Same(old(RestOut()), old(RestErr()), old(Code()))
      ensures |out| >= |old(out)| && |err| >= |old(err)|
      ensures RoundsLeft() <= old(RoundsLeft())
      ensures RoundsLeft() == old(RoundsLeft()) ==>
                out == old(out) && err == old(err) && exit == old(exit) && pending == old(pending)
      ensures waits && old(NextFits()) ==> RoundsLeft() < old(RoundsLeft())
    {
      var n: nat :| n <= |pending| && (waits && NextFits() ==> n > 0);
      while n > 0 && NextFits()
        invariant Same(old(RestOut()), old(RestErr()), old(Code()))
        invariant |out| >= |old(out)| && |err| >= |old(err)|
        invariant RoundsLeft() <= old(RoundsLeft())
        invariant RoundsLeft() == old(RoundsLeft()) ==>
                    out == old(out) && err == old(err) && exit == old(exit) && pending == old(pending)
        invariant waits && old(NextFits()) ==> RoundsLeft() < old(RoundsLeft()) || (n > 0 && NextFits())
        decreases n
      {
        Arrive();
        n := n - 1;
      }
    }

    /** channel.recv: some bytes of what is ready, at most `limit`. */
    method Receive(limit: nat) returns (chunk: seq<Byte>)
      requires Valid() && limit > 0
      modifies this`out
      ensures old(RestOut()) == chunk + RestOut() && Valid() && Code() == old(Code())
      ensures |chunk| > 0 <==> old(out) != []
      ensures RoundsLeft() + |chunk| == old(RoundsLeft())
    {
      chunk := if |out| <= limit then out else out[..limit];
      out := out[|chunk|..];
      assert old(out) == chunk + out;
      Regroup(chunk, out, OutOf(pending));
    }

    method ReceiveStderr(limit: nat) returns (chunk: seq<Byte>)
      requires Valid() && limit > 0
      modifies this`err
      ensures old(RestErr()) == chunk + RestErr() && Valid() && Code() == old(Code())
      ensures |chunk| > 0 <==> old(err) != []
      ensures RoundsLeft() + |chunk| == old(RoundsLeft())
    {
      chunk := if |err| <= limit then err else err[..limit];
      err := err[|chunk|..];
      assert old(err) == chunk + err;
      Regroup(chunk, err, ErrOf(pending));
    }
  }

  datatype Reading = Completed(code: int, out: seq<Byte>, err: seq<Byte>) | TimedOut

  /** The standard output is read once if it is ready. */
  method PollStdout(channel: Channel) returns (chunk: seq<Byte>)
    requires channel.Valid()
    modifies channel
    ensures channel.Valid() && channel.Code() == old(channel.Code())
    ensures chunk + channel.RestOut() == old(channel.RestOut()) && channel.RestErr() == old(channel.RestErr())
    ensures (old(channel.out) != [] ==> chunk != []) && |channel.err| >= |old(channel.err)|
    ensures channel.RoundsLeft() + |chunk| <= old(channel.RoundsLeft())
    ensures channel.RoundsLeft() == old(channel.RoundsLeft()) ==>
              channel.out == [] && channel.err == old(channel.err) && channel.exit == old(channel.exit)
  {
    channel.Deliver(false);
    chunk := [];
    if channel.out != [] {
      chunk := channel.Receive(CHUNK_SIZE);
    }
  }

  method PollStderr(channel: Channel) returns (chunk: seq<Byte>)
    requires channel.Valid()
    modifies channel
    ensures channel.Valid() && channel.Code() == old(channel.Code())
    ensures chunk + channel.RestErr() == old(channel.RestErr()) && channel.RestOut() == old(channel.RestOut())
    ensures (old(channel.err) != [] ==> chunk != []) && |channel.out| >= |old(channel.out)|
    ensures channel.RoundsLeft() + |chunk| <= old(channel.RoundsLeft())
    ensures channel.RoundsLeft() == old(channel.RoundsLeft()) ==>
              channel.err == [] && channel.out == old(channel.out) && channel.exit == old(channel.exit)
  {
    channel.Deliver(false);
    chunk := [];
    if channel.err != [] {
      chunk := channel.ReceiveStderr(CHUNK_SIZE);
    }
  }

  /** The exit status is looked at; unless the command is done, a client that has read
      nothing waits. */
  method PollExit(channel: Channel, progress: bool) returns (done: bool)
    requires channel.Valid()
    modifies channel
    ensures channel.Same(old(channel.RestOut()), old(channel.RestErr()), old(channel.Code()))
    ensures done ==> channel.exit.Some? && channel.out == [] && channel.err == []
    ensures channel.RoundsLeft() <= old(channel.RoundsLeft())
    ensures !done && !progress && old(channel.out == [] && channel.err == []) ==>
              channel.RoundsLeft() < old(channel.RoundsLeft())
  {
    ghost var before := channel.RoundsLeft();
    channel.Deliver(false);
    done := channel.exit.Some? && channel.out == [] && channel.err == [];
    if !done && !progress {
      assert channel.RoundsLeft() == before && channel.out == [] && channel.err == [] ==> channel.NextFits();
      channel.Deliver(true);
    }
  }

  /** One polling round: each stream that is ready is read once. */
  method Poll(channel: Channel) returns (chunkOut: seq<Byte>, chunkErr: seq<Byte>, done: bool)
    requires channel.Valid()
    modifies channel
    ensures channel.Valid() && channel.Code() == old(channel.Code())
    ensures chunkOut + channel.RestOut() == old(channel.RestOut())
    ensures chunkErr + channel.RestErr() == old(channel.RestErr())
    ensures (old(channel.out) != [] ==> chunkOut != []) && (old(channel.err) != [] ==> chunkErr != [])
    ensures done ==> channel.exit.Some? && channel.out == [] && channel.err == []
    ensures !done ==> channel.RoundsLeft() < old(channel.RoundsLeft())
  {
    chunkOut := PollStdout(channel);
    chunkErr := PollStderr(channel);
    done := PollExit(channel, chunkOut != [] || chunkErr != []);
  }

  /** _read_output. `rounds` says after how many polling rounds the deadline has passed.
      However the packets of the two streams are mixed and however late they arrive, what
      is returned is everything the command wrote, in order, with its exit status; and the
      command times out only if the deadline comes before everything can have been read. */
  method ReadOutput(channel: Channel, rounds: nat) returns (r: Reading)
    requires channel.Valid()
    modifies channel
    ensures r.Completed? ==>
              r.out == old(channel.RestOut()) && r.err == old(channel.RestErr()) && r.code == old(channel.Code())
    ensures r.TimedOut? ==> rounds <= old(channel.RoundsLeft())
  {
    var stdout, stderr: seq<Byte> := [], [];
    var left := rounds;
    while left > 0
      invariant left <= rounds && channel.Valid()
      invariant stdout + channel.RestOut() == old(channel.RestOut())
      invariant stderr + channel.RestErr() == old(channel.RestErr())
      invariant channel.Code() == old(channel.Code())
      invariant (rounds - left) + channel.RoundsLeft() <= old(channel.RoundsLeft())
      decreases left
    {
      var chunkOut, chunkErr, done := Poll(channel);
      Regroup(stdout, chunkOut, channel.RestOut());
      Regroup(stderr, chunkErr, channel.RestErr());
      stdout, stderr := stdout + chunkOut, stderr + chunkErr;
      if done {
        return Completed(channel.exit.value, stdout, stderr);
      }
      left := left - 1;
    }
    r := TimedOut;
  }
}
