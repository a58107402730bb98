/** Copying bytes between two asynchronous streams in both directions
    (src/util/copy_buffer.rs, src/util/copy_bidirectional.rs). */
module Copy {
  import opened Options

  newtype byte = x: int | 0 <= x < 256

  datatype IoError = WriteZero | Other(code: int)

  datatype Result<T> = Ok(value: T) | Err(error: IoError)

  /** What a Pending poll is waiting for. */
  datatype Call = OnRead | OnWrite | OnFlush | OnClose

  datatype Poll<T> = Ready(result: Result<T>) | Pending(on: Call)

  datatype ReadAnswer = Bytes(bytes: seq<byte>) | ReadError(error: IoError) | ReadPending

  datatype WriteAnswer = Count(n: nat) | WriteError(error: IoError) | WritePending

  datatype Answer = Yes | No(error: IoError) | NotYet

  /** An answer that stops a copy. */
  datatype Stop = Fault(error: IoError) | Wait(on: Call)

  /** What an answer other than success stops the copy with. */
  function Told<T>(p: Poll<T>): seq<Stop> {
    match p
    case Pending(on) => [Wait(on)]
    case Ready(Err(e)) => [Fault(e)]
    case Ready(Ok(_)) => []
  }

  /** A stream that answers polls from an arbitrary script, Pending once it is used up; a
      count is cut to the length of the slice, the contract of readers and writers. */
  class Endpoint {
    var readScript: seq<ReadAnswer>
    var writes: seq<WriteAnswer>
    var flushes: seq<Answer>
    var closes: seq<Answer>

    // History: bytes handed to readers and whether end of file was reported; bytes taken
    // from writers, how many of them are flushed, and how often the stream was closed; the
    // answers that stopped a copy, among them WriteZero for a write none of which was taken;
    // and how often a flush was asked for with nothing unflushed.
    var delivered: seq<byte>
    var eof: bool
    var accepted: seq<byte>
    var flushed: nat
    var closed: nat
    var stops: seq<Stop>
    var redundant: nat

    constructor (readScript: seq<ReadAnswer>, writes: seq<WriteAnswer>, flushes: seq<Answer>, closes: seq<Answer>)
      ensures this.readScript == readScript && this.writes == writes && this.flushes == flushes && this.closes == closes
      ensures delivered == [] && !eof && accepted == [] && flushed == 0 && closed == 0 && stops == [] && redundant == 0
    {
      this.readScript, this.writes, this.flushes, this.closes := readScript, writes, flushes, closes;
      delivered, eof, accepted, flushed, closed, stops, redundant := [], false, [], 0, 0, [], 0;
    }

    method PollRead(buf: array<byte>) returns (r: Poll<nat>)
      modifies this`readScript, this`delivered, this`eof, this`stops, buf
      ensures match r
              case Ready(Ok(n)) =>
                && n <= buf.Length && delivered == old(delivered) + buf[..n] && |readScript| < |old(readScript)|
                && eof == (old(eof) || n == 0)
              case Ready(Err(_)) => delivered == old(delivered) && eof == old(eof)
              case Pending(on) => on == OnRead && delivered == old(delivered) && eof == old(eof)
      ensures |readScript| <= |old(readScript)| && stops == old(stops) + Told(r)
    {
      if readScript == [] {
        stops := stops + [Wait(OnRead)];
        return Pending(OnRead);
      }
      var answer := readScript[0];
      readScript := readScript[1..];
      match answer {
        case ReadPending =>
          stops := stops + [Wait(OnRead)];
          return Pending(OnRead);
        case ReadError(e) =>
          stops := stops + [Fault(e)];
          return Ready(Err(e));
        case Bytes(bytes) =>
          var n := if |bytes| <= buf.Length then |bytes| else buf.Length;
          forall i | 0 <= i < n {
            buf[i] := bytes[i];
          }
          delivered := delivered + buf[..n];
          eof := eof || n == 0;
          return Ready(Ok(n));
      }
    }

    method PollWrite(data: seq<byte>) returns (r: Poll<nat>)
      modifies this`writes, this`accepted, this`stops
      ensures match r
              case Ready(Ok(n)) => n <= |data| && accepted == old(accepted) + data[..n]
              case Ready(Err(_)) => accepted == old(accepted)
              case Pending(on) => on == OnWrite && accepted == old(accepted)
      ensures stops == old(stops) + (if r == Ready(Ok(0)) && data != [] then [Fault(WriteZero)] else Told(r))
    {
      if writes == [] {
        stops := stops + [Wait(OnWrite)];
        return Pending(OnWrite);
      }
      var answer := writes[0];
      writes := writes[1..];
      match answer {
        case WritePending =>
          stops := stops + [Wait(OnWrite)];
          return Pending(OnWrite);
        case WriteError(e) =>
          stops := stops + [Fault(e)];
          return Ready(Err(e));
        case Count(k) =>
          var n := if k <= |data| then k else |data|;
          accepted := accepted + data[..n];
          stops := stops + if n == 0 && data != [] then [Fault(WriteZero)] else [];
          return Ready(Ok(n));
      }
    }

    method PollFlush() returns (r: Poll<()>)
      modifies this`flushes, this`flushed, this`stops, this`redundant
      ensures redundant == old(redundant) + if old(flushed == |accepted|) then 1 else 0
      ensures flushed == if r.Ready? && r.result.Ok? then |accepted| else old(flushed)
      ensures (r.Pending? ==> r.on == OnFlush) && stops == old(stops) + Told(r)
    {
      redundant := redundant + if flushed == |accepted| then 1 else 0;
      if flushes == [] {
        stops := stops + [Wait(OnFlush)];
        return Pending(OnFlush);
      }
      var answer := flushes[0];
      flushes := flushes[1..];
      match answer {
        case NotYet =>
          stops := stops + [Wait(OnFlush)];
          return Pending(OnFlush);
        case No(e) =>
          stops := stops + [Fault(e)];
          return Ready(Err(e));
        case Yes =>
          flushed := |accepted|;
          return Ready(Ok(()));
      }
    }

    method PollClose() returns (r: Poll<()>)
      modifies this`closes, this`closed, this`stops
      ensures closed == if r.Ready? && r.result.Ok? then old(closed) + 1 else old(closed)
      ensures (r.Pending? ==> r.on == OnClose) && stops == old(stops) + Told(r)
    {
      if closes == [] {
        stops := stops + [Wait(OnClose)];
        return Pending(OnClose);
      }
      var answer := closes[0];
      closes := closes[1..];
      match answer {
        case NotYet =>
          stops := stops + [Wait(OnClose)];
          return Pending(OnClose);
        case No(e) =>
          stops := stops + [Fault(e)];
          return Ready(Err(e));
        case Yes =>
          closed := closed + 1;
          return Ready(Ok(()));
      }
    }
  }

  /** The copy from a reader to a writer ended in `res` because of what the streams
      answered last: the reader's last answer or the writer's, the latter perhaps asked to
      flush because the reader had nothing yet. `r0` to `w1` are their stops before and after. */
  predicate Answered(res: Poll<nat>, r0: seq<Stop>, r1: seq<Stop>, w0: seq<Stop>, w1: seq<Stop>) {
    if res.Ready? && res.result.Ok? then r1 == r0 && w1 == w0
    else
      || (r1 == r0 + Told(res) && w1 == w0 && (res.Pending? ==> res.on == OnRead))
      || (w1 == w0 + Told(res) && (r1 == r0 || r1 == r0 + [Wait(OnRead)]) && (res.Pending? ==> res.on != OnRead))
  }

  /** An error, or waiting for the writer to take bytes. */
  predicate WriterStopped(p: Poll<nat>) {
    p == Pending(OnWrite) || (p.Ready? && p.result.Err?)
  }

  class CopyBuffer {
    var readDone: bool
    var pos: nat
    var cap: nat
    var amt: nat
    const buf: array<byte>
    var needFlush: bool

    /** The buffer holds exactly the bytes read from `r` and not yet written to `w`. */
    ghost predicate Valid(r: Endpoint, w: Endpoint)
      reads this, buf, r, w
    {
      && pos <= cap <= buf.Length && buf.Length == 2048
      && r.delivered == w.accepted + buf[pos..cap]
      && amt == |w.accepted|
      && w.flushed <= |w.accepted|
      && (!needFlush ==> w.flushed == |w.accepted|)
      && (needFlush && !readDone ==> w.flushed < |w.accepted|)
      && (readDone <==> r.eof)
    }

    constructor ()
      ensures !readDone && pos == cap == amt == 0 && !needFlush && buf.Length == 2048 && fresh(buf)
    {
      readDone, pos, cap, amt, needFlush := false, 0, 0, 0, false;
      buf := new byte[2048];
    }

    method PollCopy(r: Endpoint, w: Endpoint) returns (res: Poll<nat>)
      requires Valid(r, w) && r != w
      modifies this, buf, r`readScript, r`delivered, r`eof, r`stops, w`writes, w`accepted, w`flushes, w`flushed,
          w`redundant, w`stops
      ensures Valid(r, w)
      // it ends with the answer that stopped it, and no other answer is passed over
      ensures Answered(res, old(r.stops), r.stops, old(w.stops), w.stops)
      // finished: everything read up to the end of file is written and flushed
      ensures res.Ready? && res.result.Ok? ==>
                r.eof && w.accepted == r.delivered && w.flushed == |w.accepted| == res.result.value
      // waiting for the reader: nothing is left unwritten or unflushed
      ensures res == Pending(OnRead) ==> w.accepted == r.delivered && w.flushed == |w.accepted|
      // waiting for the writer to take bytes: there are bytes to take
      ensures res == Pending(OnWrite) ==> |w.accepted| < |r.delivered|
      ensures res.Pending? ==> res.on != OnClose
      // a flush is asked for only with something unflushed, or at the end; nothing is read past it
      ensures r.eof || w.redundant == old(w.redundant)
      ensures old(r.eof) ==> r.eof && r.readScript == old(r.readScript)
      // nothing written is taken back
      ensures old(w.accepted) <= w.accepted && old(r.delivered) <= r.delivered
    {
      while true
        invariant Valid(r, w) && old(w.accepted) <= w.accepted && old(r.delivered) <= r.delivered
        invariant r.stops == old(r.stops) && w.stops == old(w.stops) && w.redundant == old(w.redundant)
        invariant old(r.eof) ==> r.eof && r.readScript == old(r.readScript)
        decreases |r.readScript|, !readDone, cap - pos
      {
        if pos == cap && !readDone {
          var stop := Fill(r, w);
          if stop.Some? {
            return stop.value;
          }
        }
        var stop := Drain(r, w);
        if stop.Some? {
          return stop.value;
        }
        if pos == cap && readDone {
          assert buf[pos..cap] == [];
          var f := w.PollFlush();
          match f {
            case Pending(on) => return Pending(on);
            case Ready(Err(e)) => return Ready(Err(e));
            case Ready(Ok(_)) =>
          }
          return Ready(Ok(amt));
        }
      }
    }

    /** The buffer is empty: read into it, flushing first if the reader has nothing yet. */
    method Fill(r: Endpoint, w: Endpoint) returns (stop: Option<Poll<nat>>)
      requires Valid(r, w) && r != w && pos == cap && !readDone
      modifies this, buf, r`readScript, r`delivered, r`eof, r`stops, w`flushes, w`flushed, w`redundant, w`stops
      ensures Valid(r, w) && old(r.delivered) <= r.delivered
      ensures if stop.None? then r.stops == old(r.stops) && w.stops == old(w.stops)
              else Answered(stop.value, old(r.stops), r.stops, old(w.stops), w.stops)
      ensures stop.None? ==> |r.readScript| < |old(r.readScript)| && (readDone <==> pos == cap)
      ensures stop.Some? ==> if stop.value.Ready? then stop.value.result.Err? else stop.value.on in {OnRead, OnFlush}
      ensures stop == Some(Pending(OnRead)) ==> w.accepted == r.delivered && w.flushed == |w.accepted|
      ensures w.redundant == old(w.redundant)
    {
      assert buf[pos..cap] == [];
      var p := r.PollRead(buf);
      assert buf[pos..cap] == [];
      match p {
        case Ready(Err(e)) => return Some(Ready(Err(e)));
        case Pending(on) =>
          if needFlush {
            var f := w.PollFlush();
            match f {
              case Pending(on) => return Some(Pending(on));
              case Ready(Err(e)) => return Some(Ready(Err(e)));
              case Ready(Ok(_)) =>
            }
            needFlush := false;
          }
          return Some(Pending(on));
        case Ready(Ok(n)) =>
          if n == 0 {
            readDone := true;
          } else {
            pos := 0;
            cap := n;
            assert buf[pos..cap] == buf[..n];
          }
          return None;
      }
    }

    /** Write out what the buffer holds. */
    method Drain(r: Endpoint, w: Endpoint) returns (stop: Option<Poll<nat>>)
      requires Valid(r, w) && r != w
      modifies this`pos, this`amt, this`needFlush, w`writes, w`accepted, w`stops
      ensures Valid(r, w) && old(w.accepted) <= w.accepted
      ensures w.stops == old(w.stops) + if stop.None? then [] else Told(stop.value)
      ensures stop.None? ==> pos == cap && (old(pos) == cap ==> pos == old(pos))
      ensures stop.Some? ==> WriterStopped(stop.value) && pos < cap
    {
      while pos < cap
        invariant Valid(r, w) && old(w.accepted) <= w.accepted && old(pos) <= pos && w.stops == old(w.stops)
      {
        stop := WriteSome(r, w);
        if stop.Some? {
          return;
        }
      }
      return None;
    }

    /** One write of what is left in the buffer. */
    method WriteSome(r: Endpoint, w: Endpoint) returns (stop: Option<Poll<nat>>)
      requires Valid(r, w) && r != w && pos < cap
      modifies this`pos, this`amt, this`needFlush, w`writes, w`accepted, w`stops
      ensures Valid(r, w) && old(w.accepted) <= w.accepted
      ensures w.stops == old(w.stops) + if stop.None? then [] else Told(stop.value)
      ensures if stop.None? then old(pos) < pos else WriterStopped(stop.value) && pos == old(pos)
    {
      ghost var rest := buf[pos..cap];
      var q := w.PollWrite(buf[pos..cap]);
      match q {
        case Pending(on) => return Some(Pending(on));
        case Ready(Err(e)) => return Some(Ready(Err(e)));
        case Ready(Ok(i)) =>
          if i == 0 {
            assert w.accepted == old(w.accepted);
            return Some(Ready(Err(WriteZero)));
          }
          assert rest == rest[..i] + rest[i..];
          pos := pos + i;
          amt := amt + i;
          needFlush := true;
          assert buf[pos..cap] == rest[i..];
          return None;
      }
    }
  }

  datatype TransferState = Running(buffer: CopyBuffer) | Close(count: nat) | Done(count: nat)

  /** All of `r` has been read, written to `w` and flushed. */
  ghost predicate Complete(r: Endpoint, w: Endpoint, count: nat)
    reads r, w
  {
    r.eof && w.accepted == r.delivered && w.flushed == |w.accepted| == count
  }

  /** The writer is closed once, after all its bytes were written and flushed, or not yet. */
  ghost predicate DirectionOk(state: TransferState, r: Endpoint, w: Endpoint)
    reads r, w, if state.Running? then {state.buffer, state.buffer.buf} else {}
  {
    match state
    case Running(buffer) => buffer.Valid(r, w) && w.closed == 0
    case Close(count) => Complete(r, w, count) && w.closed == 0
    case Done(count) => Complete(r, w, count) && w.closed == 1
  }

  function Footprint(state: TransferState): set<object> {
    if state.Running? then {state.buffer, state.buffer.buf} else {}
  }

  method TransferOneDirection(state: TransferState, r: Endpoint, w: Endpoint) returns (state': TransferState,
      res: Poll<nat>)
    requires DirectionOk(state, r, w) && r != w
    modifies Footprint(state), r`readScript, r`delivered, r`eof, r`stops, w`writes, w`accepted, w`flushes, w`flushed,
        w`redundant, w`closes, w`closed, w`stops
    ensures DirectionOk(state', r, w) && Footprint(state') <= Footprint(state)
    ensures state.Done? ==> state' == state
    ensures res.Ready? && res.result.Ok? <==> state'.Done?
    ensures state'.Done? ==> res == Ready(Ok(state'.count))
    ensures Answered(res, old(r.stops), r.stops, old(w.stops), w.stops)
    ensures r.eof || w.redundant == old(w.redundant)
    ensures old(r.eof) ==> r.eof && r.readScript == old(r.readScript)
    ensures res == Pending(OnRead) ==> w.accepted == r.delivered && w.flushed == |w.accepted|
    ensures res == Pending(OnClose) ==> state'.Close?
    ensures old(w.accepted) <= w.accepted && old(r.delivered) <= r.delivered
  {
    state' := state;
    while true
      invariant DirectionOk(state', r, w) && Footprint(state') <= Footprint(state)
      invariant state.Done? ==> state' == state
      invariant old(w.accepted) <= w.accepted && old(r.delivered) <= r.delivered
      invariant r.stops == old(r.stops) && w.stops == old(w.stops)
      invariant r.eof || w.redundant == old(w.redundant)
      invariant old(r.eof) ==> r.eof && r.readScript == old(r.readScript)
      decreases match state' case Running(_) => 2 case Close(_) => 1 case Done(_) => 0
    {
      match state' {
        case Running(buffer) =>
          var p := buffer.PollCopy(r, w);
          match p {
            case Pending(on) => return state', Pending(on);
            case Ready(Err(e)) => return state', Ready(Err(e));
            case Ready(Ok(count)) => state' := Close(count);
          }
        case Close(count) =>
          var p := w.PollClose();
          match p {
            case Pending(on) => return state', Pending(on);
            case Ready(Err(e)) => return state', Ready(Err(e));
            case Ready(Ok(_)) => state' := Done(count);
          }
        case Done(count) => return state', Ready(Ok(count));
      }
    }
  }

  predicate Reported(e: IoError, reader: seq<Stop>, writer: seq<Stop>) {
    Fault(e) in reader || Fault(e) in writer
  }

  ghost predicate HasFault(reader: seq<Stop>, writer: seq<Stop>) {
    exists e :: Reported(e, reader, writer)
  }

  /** Among these answers of a reader and a writer one says to wait. */
  predicate Waits(reader: seq<Stop>, writer: seq<Stop>) {
    Wait(OnRead) in reader || Wait(OnWrite) in writer || Wait(OnFlush) in writer || Wait(OnClose) in writer
  }

  /** The stops recorded since `before`. */
  function New(before: seq<Stop>, now: seq<Stop>): seq<Stop> {
    if |before| <= |now| then now[|before|..] else []
  }

  predicate Failed(p: Poll<nat>) {
    p.Ready? && p.result.Err?
  }

  /** What one direction records. */
  lemma OneAnswered(p: Poll<nat>, r0: seq<Stop>, r1: seq<Stop>, w0: seq<Stop>, w1: seq<Stop>)
    requires Answered(p, r0, r1, w0, w1)
    ensures r1 == r0 + New(r0, r1) && w1 == w0 + New(w0, w1)
    ensures if Failed(p) then Reported(p.result.error, New(r0, r1), New(w0, w1))
            else !HasFault(New(r0, r1), New(w0, w1))
    ensures p.Pending? ==> Waits(New(r0, r1), New(w0, w1))
  {
  }

  /** What is recorded when `a` to `b` is driven, without an error, and then `b` to `a`. */
  lemma BothAnswered(p: Poll<nat>, q: Poll<nat>, a0: seq<Stop>, a1: seq<Stop>, a2: seq<Stop>, b0: seq<Stop>,
      b1: seq<Stop>, b2: seq<Stop>)
    requires Answered(p, a0, a1, b0, b1) && !Failed(p) && Answered(q, b1, b2, a1, a2)
    ensures a0 <= a2 && b0 <= b2
    ensures if Failed(q) then Reported(q.result.error, New(a0, a2), New(b0, b2))
            else !HasFault(New(a0, a2), New(b0, b2))
    ensures p.Pending? ==> Waits(New(a0, a2), New(b0, b2))
    ensures q.Pending? ==> Waits(New(b0, b2), New(a0, a2))
  {
    OneAnswered(p, a0, a1, b0, b1);
    OneAnswered(q, b1, b2, a1, a2);
    NewAdds(a0, a1, a2);
    NewAdds(b0, b1, b2);
    Merge(New(a0, a1), New(a1, a2), New(b0, b1), New(b1, b2));
  }

  lemma NewAdds(s0: seq<Stop>, s1: seq<Stop>, s2: seq<Stop>)
    requires s1 == s0 + New(s0, s1) && s2 == s1 + New(s1, s2)
    ensures s0 <= s2 && New(s0, s2) == New(s0, s1) + New(s1, s2)
  {
    var x, y := New(s0, s1), New(s1, s2);
    assert s2 == s0 + (x + y);
  }

  lemma Merge(x: seq<Stop>, u: seq<Stop>, y: seq<Stop>, v: seq<Stop>)
    ensures forall e :: Reported(e, x + u, y + v) <==> Reported(e, x, y) || Reported(e, v, u)
    ensures Waits(x, y) ==> Waits(x + u, y + v)
    ensures Waits(v, u) ==> Waits(y + v, x + u)
  {
  }

  /** What the writer has accepted is a prefix of what the reader delivered, and all of it
      once done. */
  lemma WrittenSoFar(state: TransferState, r: Endpoint, w: Endpoint)
    requires DirectionOk(state, r, w)
    ensures w.accepted <= r.delivered
    ensures state.Done? ==> r.eof && w.accepted == r.delivered && state.count == |r.delivered| && w.closed == 1
  {
  }

  /** What the streams have recorded when `a` to `b` answered `p` and then `b` to `a` answered `q`. */
  ghost predicate DriveReported(p: Poll<nat>, q: Poll<nat>, a: seq<Stop>, b: seq<Stop>) {
    if Failed(p) then Reported(p.result.error, a, b)
    else
      && (if Failed(q) then Reported(q.result.error, a, b) else !HasFault(a, b))
      && (p.Pending? ==> Waits(a, b)) && (q.Pending? ==> Waits(b, a))
  }

  /** How a poll of both directions answers for what the streams have just recorded: an error
      is passed on, none is passed over, and a pending poll has every unfinished direction
      waiting for a stream. */
  ghost predicate BothReported(res: Poll<(nat, nat)>, a: seq<Stop>, b: seq<Stop>, doneAToB: bool, doneBToA: bool) {
    && (if res.Ready? && res.result.Err? then Reported(res.result.error, a, b) else !HasFault(a, b))
    && (res.Pending? ==> (doneAToB || Waits(a, b)) && (doneBToA || Waits(b, a)))
  }

  class CopyBidirectional {
    const a: Endpoint
    const b: Endpoint
    var aToB: TransferState
    var bToA: TransferState

    ghost predicate Valid()
      reads this, a, b, Footprint(aToB), Footprint(bToA)
    {
      && a != b
      && DirectionOk(aToB, a, b) && DirectionOk(bToA, b, a)
      && Footprint(aToB) !! Footprint(bToA)
      && {this, a, b} !! Footprint(aToB) + Footprint(bToA)
    }

    constructor (a: Endpoint, b: Endpoint)
      requires a != b
      requires a.delivered == b.delivered == a.accepted == b.accepted == []
      requires a.flushed == b.flushed == a.closed == b.closed == 0 && !a.eof && !b.eof
      ensures Valid() && this.a == a && this.b == b
      ensures fresh(Footprint(aToB)) && fresh(Footprint(bToA))
    {
      var x := new CopyBuffer();
      var y := new CopyBuffer();
      this.a, this.b := a, b;
      aToB, bToA := Running(x), Running(y);
      new;
      assert x.buf[x.pos..x.cap] == [] && y.buf[y.pos..y.cap] == [];
    }

    method DriveAToB() returns (p: Poll<nat>)
      requires Valid()
      modifies this`aToB, Footprint(aToB), a`readScript, a`delivered, a`eof, a`stops
      modifies b`writes, b`accepted, b`flushes, b`flushed, b`redundant, b`closes, b`closed, b`stops
      ensures Valid() && Footprint(aToB) <= old(Footprint(aToB))
      ensures old(b.accepted) <= b.accepted
      ensures p.Ready? && p.result.Ok? <==> aToB.Done?
      ensures aToB.Done? ==> p == Ready(Ok(aToB.count))
      ensures Answered(p, old(a.stops), a.stops, old(b.stops), b.stops)
      ensures p == Pending(OnRead) ==> b.accepted == a.delivered && b.flushed == |b.accepted|
    {
      var s;
      s, p := TransferOneDirection(aToB, a, b);
      aToB := s;
      assert DirectionOk(bToA, b, a);
    }

    method DriveBToA() returns (q: Poll<nat>)
      requires Valid()
      modifies this`bToA, Footprint(bToA), b`readScript, b`delivered, b`eof, b`stops
      modifies a`writes, a`accepted, a`flushes, a`flushed, a`redundant, a`closes, a`closed, a`stops
      ensures Valid() && Footprint(bToA) <= old(Footprint(bToA))
      ensures old(a.accepted) <= a.accepted
      ensures q.Ready? && q.result.Ok? <==> bToA.Done?
      ensures bToA.Done? ==> q == Ready(Ok(bToA.count))
      ensures Answered(q, old(b.stops), b.stops, old(a.stops), a.stops)
      ensures q == Pending(OnRead) ==> a.accepted == b.delivered && a.flushed == |a.accepted|
    {
      var s;
      s, q := TransferOneDirection(bToA, b, a);
      bToA := s;
      assert DirectionOk(aToB, a, b);
    }

    /** One poll drives both directions. Between polls, each writer has accepted a prefix of
        what the other side's reader delivered, and is closed only when complete. */
    method PollBoth() returns (res: Poll<(nat, nat)>)
      requires Valid()
      modifies this, a, b, Footprint(aToB), Footprint(bToA)
      ensures Valid()
      ensures old(a.accepted) <= a.accepted <= b.delivered && old(b.accepted) <= b.accepted <= a.delivered
      ensures res.Ready? && res.result.Ok? ==>
                && res.result.value == (|a.delivered|, |b.delivered|)
                && b.accepted == a.delivered && a.accepted == b.delivered
                && a.eof && b.eof && a.closed == b.closed == 1
      ensures old(a.stops) <= a.stops && old(b.stops) <= b.stops
      ensures BothReported(res, New(old(a.stops), a.stops), New(old(b.stops), b.stops), aToB.Done?, bToA.Done?)
      ensures res.Ready? && res.result.Ok? ==> a.stops == old(a.stops) && b.stops == old(b.stops)
      ensures res.Pending? ==> !(aToB.Done? && bToA.Done?)
      ensures res == Pending(OnRead) ==>
                || (b.accepted == a.delivered && b.flushed == |b.accepted|)
                || (a.accepted == b.delivered && a.flushed == |a.accepted|)
    {
      var p, q := DriveBoth();
      WrittenSoFar(aToB, a, b);
      WrittenSoFar(bToA, b, a);
      if Failed(p) {
        return Ready(Err(p.result.error));
      }
      if Failed(q) {
        return Ready(Err(q.result.error));
      }
      if p.Pending? {
        return Pending(p.on);
      }
      if q.Pending? {
        return Pending(q.on);
      }
      return Ready(Ok((p.result.value, q.result.value)));
    }

    /** Drives `a` to `b` and then, unless that failed, `b` to `a`. */
    method DriveBoth() returns (p: Poll<nat>, q: Poll<nat>)
      requires Valid()
      modifies this, a, b, Footprint(aToB), Footprint(bToA)
      ensures Valid() && old(a.accepted) <= a.accepted && old(b.accepted) <= b.accepted
      ensures old(a.stops) <= a.stops && old(b.stops) <= b.stops
      ensures DriveReported(p, q, New(old(a.stops), a.stops), New(old(b.stops), b.stops))
      ensures !Failed(p) && !p.Pending? && !Failed(q) && !q.Pending? ==>
          a.stops == old(a.stops) && b.stops == old(b.stops)
      ensures !Failed(p) ==> (p.Ready? <==> aToB.Done?) && (aToB.Done? ==> p == Ready(Ok(aToB.count)))
      ensures !Failed(p) ==> (q.Ready? && q.result.Ok? <==> bToA.Done?) && (bToA.Done? ==> q == Ready(Ok(bToA.count)))
      ensures !Failed(p) && p == Pending(OnRead) ==> b.accepted == a.delivered && b.flushed == |b.accepted|
      ensures !Failed(p) && q == Pending(OnRead) ==> a.accepted == b.delivered && a.flushed == |a.accepted|
    {
      p := DriveAToB();
      q := p;
      OneAnswered(p, old(a.stops), a.stops, old(b.stops), b.stops);
      if !Failed(p) {
        ghost var a1, b1 := a.stops, b.stops;
        q := DriveBToA();
        BothAnswered(p, q, old(a.stops), a1, a.stops, old(b.stops), b1, b.stops);
      }
    }
  }
}
