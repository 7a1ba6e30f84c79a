// The per-attempt relay (src/transfer/relay.rs): a reader task, a bounded
// queue and a writer task between the sending and the receiving agent,
// scheduled in any order and aborted at any time.
module Relay {
  import opened Common
  import opened Status
  import opened TransferVerdict

  newtype Byte = x: int | 0 <= x < 256

  const CHUNK: nat := 262_144
  const BUFFER_CHUNKS: nat := 256

  // The reader is waiting for bytes, holding a chunk the queue may have no
  // room for, or over: at a clean end of stream or with an error.
  datatype Reader = Unconnected | Reading | Holding(chunk: seq<Byte>) | AtEof | ReadFailed

  // The writer waits for the target or the queue, or is part way through a
  // chunk (rest: what of it is not on the wire yet, size: its length).
  datatype Writer = NoTarget | Idle | Writing(rest: seq<Byte>, size: nat)

  datatype Outcome = Live | Finished(total: nat) | Broken | Aborted

  // unread: what the source will still send before it closes; delivered: what
  // reached the target. bytes, lastActivity and sourceConnected are the
  // counters the controller reads.
  datatype State = State(
    unread: seq<Byte>, reader: Reader, queue: seq<seq<Byte>>, writer: Writer, delivered: seq<Byte>,
    bytes: nat, lastActivity: nat, sourceConnected: bool, now: nat, outcome: Outcome)

  function Spawned(stream: seq<Byte>, now: nat): State {
    State(stream, Unconnected, [], NoTarget, [], 0, now, false, now, Live)
  }

  // One step of some task, or time passing.
  datatype Step =
    | AcceptSource | Read(n: nat) | ReadEof | ReadError | Send
    | AcceptTarget | Recv | Write(n: nat) | WriteError | Close
    | Abort | Tick(seconds: nat)

  predicate ReaderOver(r: Reader) {
    r.AtEof? || r.ReadFailed?
  }

  predicate CanStep(s: State, e: Step) {
    s.outcome.Live? &&
    match e
    case AcceptSource => s.reader.Unconnected?
    case Read(n) => s.reader.Reading? && 0 < n <= CHUNK && n <= |s.unread|
    case ReadEof => s.reader.Reading? && s.unread == []
    case ReadError => s.reader.Reading?
    case Send => s.reader.Holding? && |s.queue| < BUFFER_CHUNKS
    case AcceptTarget => s.writer.NoTarget? && !s.reader.Unconnected?
    case Recv => s.writer.Idle? && s.queue != []
    case Write(n) => s.writer.Writing? && 0 < n <= |s.writer.rest|
    case WriteError => s.writer.Writing?
    case Close => s.writer.Idle? && s.queue == [] && ReaderOver(s.reader)
    case Abort => true
    case Tick(_) => true
  }

  // A chunk counts once all of it is on the wire.
  function Next(s: State, e: Step): State
    requires CanStep(s, e)
  {
    match e
    case AcceptSource => s.(reader := Reading, sourceConnected := true, lastActivity := s.now)
    case Read(n) => s.(reader := Holding(s.unread[..n]), unread := s.unread[n..], lastActivity := s.now)
    case ReadEof => s.(reader := AtEof)
    case ReadError => s.(reader := ReadFailed)
    case Send => s.(queue := s.queue + [s.reader.chunk], reader := Reading)
    case AcceptTarget => s.(writer := Idle, lastActivity := s.now)
    case Recv => s.(writer := Writing(s.queue[0], |s.queue[0]|), queue := s.queue[1..])
    case Write(n) =>
      var sent := s.(delivered := s.delivered + s.writer.rest[..n]);
      if n < |s.writer.rest| then sent.(writer := Writing(s.writer.rest[n..], s.writer.size))
      else sent.(writer := Idle, bytes := s.bytes + s.writer.size, lastActivity := s.now)
    case WriteError => s.(outcome := Broken)
    case Close => s.(outcome := if s.reader.AtEof? && s.bytes > 0 then Finished(s.bytes) else Broken)
    case Abort => s.(outcome := Aborted)
    case Tick(seconds) => s.(now := s.now + seconds)
  }

  // A task that cannot take its step now does not.
  function After(s: State, steps: seq<Step>): State {
    if steps == [] then s
    else
      var before := After(s, steps[..|steps| - 1]);
      if CanStep(before, steps[|steps| - 1]) then Next(before, steps[|steps| - 1]) else before
  }

  lemma AfterNone(s: State)
    ensures After(s, []) == s
  {
  }

  lemma AfterOne(s: State, e: Step)
    ensures After(s, [e]) == if CanStep(s, e) then Next(s, e) else s
  {
    hide CanStep, Next;
    assert [e][..0] == [];
  }

  lemma {:induction false} AfterThen(s: State, a: seq<Step>, b: seq<Step>)
    ensures After(After(s, a), b) == After(s, a + b)
    decreases |b|
  {
    hide CanStep, Next;
    if b == [] {
      assert a + b == a;
    } else {
      var n := |b| - 1;
      AfterThen(s, a, b[..n]);
      assert (a + b)[..|a| + n] == a + b[..n];
    }
  }

  // ------------------------------------------------------------ conservation

  function Flat(chunks: seq<seq<Byte>>): seq<Byte> {
    if chunks == [] then [] else chunks[0] + Flat(chunks[1..])
  }

  lemma {:induction false} FlatSnoc(chunks: seq<seq<Byte>>, last: seq<Byte>)
    ensures Flat(chunks + [last]) == Flat(chunks) + last
  {
    if chunks == [] {
      assert Flat([last]) == last + Flat([]);
    } else {
      assert (chunks + [last])[1..] == chunks[1..] + [last];
      FlatSnoc(chunks[1..], last);
    }
  }

  function InHand(w: Writer): seq<Byte> {
    if w.Writing? then w.rest else []
  }

  function Held(r: Reader): seq<Byte> {
    if r.Holding? then r.chunk else []
  }

  // Read but not delivered, in stream order.
  function InFlight(s: State): seq<Byte> {
    InHand(s.writer) + Flat(s.queue) + Held(s.reader)
  }

  // Nothing lost, nothing made up, nothing out of order.
  predicate Conserved(stream: seq<Byte>, s: State) {
    s.delivered + InFlight(s) + s.unread == stream
  }

  predicate Shape(s: State) {
    // whole chunks of at most CHUNK, none empty
    && |s.queue| <= BUFFER_CHUNKS
    && (forall q <- s.queue :: 0 < |q| <= CHUNK)
    && (s.reader.Holding? ==> 0 < |s.reader.chunk| <= CHUNK)
    && (s.writer.Writing? ==> 0 < |s.writer.rest| <= s.writer.size <= CHUNK)
    // counted is delivered, up to the chunk under way
    && |s.delivered| == s.bytes + (if s.writer.Writing? then s.writer.size - |s.writer.rest| else 0)
    // before anybody connects nothing moves
    && (s.reader.Unconnected? ==> s.queue == [] && s.writer.NoTarget?)
    && (s.sourceConnected <==> !s.reader.Unconnected?)
    && (s.writer.NoTarget? ==> s.delivered == [])
    && (s.reader.AtEof? ==> s.unread == [])
    && s.lastActivity <= s.now
    && (s.outcome.Finished? ==> s.reader.AtEof? && s.writer.Idle? && s.queue == [] && s.outcome.total == s.bytes > 0)
  }

  predicate Inv(stream: seq<Byte>, s: State) {
    Conserved(stream, s) && Shape(s)
  }

  lemma QueueingKeepsShape(s: State, e: Step)
    requires (e.Send? || e.Recv?) && Shape(s) && CanStep(s, e)
    ensures Shape(Next(s, e))
  {
  }

  lemma ReadingKeepsShape(s: State, e: Step)
    requires (e.Read? || e.Write?) && Shape(s) && CanStep(s, e)
    ensures Shape(Next(s, e))
  {
  }

  lemma StepKeepsShape(s: State, e: Step)
    requires Shape(s) && CanStep(s, e)
    ensures Shape(Next(s, e))
  {
    if e.Send? || e.Recv? {
      QueueingKeepsShape(s, e);
    } else if e.Read? || e.Write? {
      ReadingKeepsShape(s, e);
    }
  }

  lemma ReadingConserves(s: State, e: Step)
    requires (e.Read? || e.Send?) && CanStep(s, e)
    ensures InFlight(Next(s, e)) + Next(s, e).unread == InFlight(s) + s.unread
  {
    if e.Read? {
      assert s.unread == s.unread[..e.n] + s.unread[e.n..];
    } else {
      FlatSnoc(s.queue, s.reader.chunk);
    }
  }

  lemma TakingConserves(s: State)
    requires CanStep(s, Recv)
    ensures InFlight(Next(s, Recv)) == InFlight(s) && Next(s, Recv).delivered == s.delivered
  {
    assert Flat(s.queue) == s.queue[0] + Flat(s.queue[1..]);
  }

  lemma WritingConserves(s: State, n: nat)
    requires CanStep(s, Write(n))
    ensures Next(s, Write(n)).delivered + InFlight(Next(s, Write(n))) == s.delivered + InFlight(s)
  {
    hide Flat;
    var t, rest, tail := Next(s, Write(n)), s.writer.rest, Flat(s.queue) + Held(s.reader);
    assert InHand(t.writer) == rest[n..];
    assert InFlight(t) == rest[n..] + tail && InFlight(s) == rest + tail;
    assert rest == rest[..n] + rest[n..];
    assert s.delivered + rest[..n] + (rest[n..] + tail) == s.delivered + (rest[..n] + rest[n..] + tail);
  }

  lemma StepConserves(s: State, e: Step)
    requires CanStep(s, e)
    ensures Next(s, e).delivered + InFlight(Next(s, e)) + Next(s, e).unread == s.delivered + InFlight(s) + s.unread
  {
    hide Flat;
    var t := Next(s, e);
    if e.Read? || e.Send? {
      hide Next, CanStep, InFlight;
      ReadingConserves(s, e);
      DeliversNothing(s, e);
      assert t.delivered + InFlight(t) + t.unread == t.delivered + (InFlight(t) + t.unread);
      assert s.delivered + InFlight(s) + s.unread == s.delivered + (InFlight(s) + s.unread);
    } else if e.Recv? {
      TakingConserves(s);
    } else if e.Write? {
      WritingConserves(s, e.n);
    }
  }

  lemma DeliversNothing(s: State, e: Step)
    requires (e.Read? || e.Send?) && CanStep(s, e)
    ensures Next(s, e).delivered == s.delivered
  {
  }

  lemma StepKeepsInv(stream: seq<Byte>, s: State, e: Step)
    requires Inv(stream, s) && CanStep(s, e)
    ensures Inv(stream, Next(s, e))
  {
    hide Next, Shape;
    StepKeepsShape(s, e);
    StepConserves(s, e);
  }

  lemma {:induction false} RunsKeepInv(stream: seq<Byte>, now: nat, steps: seq<Step>)
    ensures Inv(stream, After(Spawned(stream, now), steps))
  {
    if steps != [] {
      var before := After(Spawned(stream, now), steps[..|steps| - 1]);
      RunsKeepInv(stream, now, steps[..|steps| - 1]);
      if CanStep(before, steps[|steps| - 1]) { StepKeepsInv(stream, before, steps[|steps| - 1]); }
    }
  }

  // Conservation and order, in every interleaving: what was delivered, the
  // rest of the chunk in hand, the queue, the chunk the reader is stuck with
  // and what it has not read are the stream. The counter never runs ahead.
  lemma Conservation(stream: seq<Byte>, now: nat, steps: seq<Step>)
    ensures var s := After(Spawned(stream, now), steps);
            && s.delivered + InFlight(s) + s.unread == stream
            && s.delivered <= stream && s.bytes <= |s.delivered|
  {
    hide After, InFlight;
    RunsKeepInv(stream, now, steps);
    var s := After(Spawned(stream, now), steps);
    Leading(s.delivered, InFlight(s), s.unread);
  }

  lemma Leading(a: seq<Byte>, b: seq<Byte>, c: seq<Byte>)
    ensures a <= a + b + c
  {
    assert a + b + c == a + (b + c);
  }

  // Ok means a non-empty stream, delivered whole up to a clean end.
  lemma OkMeansAll(stream: seq<Byte>, now: nat, steps: seq<Step>)
    requires After(Spawned(stream, now), steps).outcome.Finished?
    ensures var s := After(Spawned(stream, now), steps);
            stream != [] && s.delivered == stream && s.outcome.total == |stream| == s.bytes
  {
    RunsKeepInv(stream, now, steps);
  }

  // The relay says that its source is connected exactly from its acceptance on;
  // before that not a byte has moved.
  lemma ConnectedIff(stream: seq<Byte>, now: nat, steps: seq<Step>)
    ensures var s := After(Spawned(stream, now), steps);
            && (s.sourceConnected <==> !s.reader.Unconnected?)
            && (!s.sourceConnected ==> s.unread == stream && s.delivered == [] && s.bytes == 0)
  {
    hide After, InFlight;
    RunsKeepInv(stream, now, steps);
    var s := After(Spawned(stream, now), steps);
    if !s.sourceConnected { assert InFlight(s) == [] by { NothingInFlight(s); } }
  }

  lemma NothingInFlight(s: State)
    requires s.reader.Unconnected? && s.queue == [] && s.writer.NoTarget?
    ensures InFlight(s) == []
  {
  }

  // --------------------------------------------------------------- activity

  // Somebody connects, bytes come in, or the last of a chunk goes out.
  predicate Moves(s: State, e: Step) {
    && CanStep(s, e)
    && (e.AcceptSource? || e.AcceptTarget? || e.Read? || (e.Write? && e.n == |s.writer.rest|))
  }

  function LastMove(s: State, steps: seq<Step>): nat {
    if steps == [] then s.lastActivity
    else
      var before := After(s, steps[..|steps| - 1]);
      if Moves(before, steps[|steps| - 1]) then before.now else LastMove(s, steps[..|steps| - 1])
  }

  // The activity the controller reads is the time of the last move.
  lemma {:induction false} ActivityIsLastMove(s: State, steps: seq<Step>)
    ensures After(s, steps).lastActivity == LastMove(s, steps)
  {
    if steps != [] { ActivityIsLastMove(s, steps[..|steps| - 1]); }
  }

  lemma ClockOnly(s: State, e: Step)
    requires CanStep(s, e)
    ensures Next(s, e).now >= s.now && (s.lastActivity <= s.now ==> Next(s, e).lastActivity >= s.lastActivity)
    ensures Moves(s, e) ==> Next(s, e).lastActivity == s.now
    ensures s.lastActivity <= s.now ==> Next(s, e).lastActivity <= Next(s, e).now
  {
  }

  lemma {:induction false} ActivityClimbs(s: State, steps: seq<Step>, k: nat)
    requires k < |steps| && s.lastActivity <= s.now && Moves(After(s, steps[..k]), steps[k])
    ensures After(s, steps).lastActivity >= After(s, steps[..k]).now
    ensures After(s, steps).lastActivity <= After(s, steps).now
    decreases |steps|
  {
    hide CanStep, Next;
    var n := |steps| - 1;
    var before := After(s, steps[..n]);
    ActivityBehind(s, steps[..n]);
    if k < n {
      assert steps[..n][..k] == steps[..k];
      ActivityClimbs(s, steps[..n], k);
    }
    if CanStep(before, steps[n]) { ClockOnly(before, steps[n]); }
  }

  lemma {:induction false} ActivityBehind(s: State, steps: seq<Step>)
    requires s.lastActivity <= s.now
    ensures After(s, steps).lastActivity <= After(s, steps).now
  {
    hide CanStep, Next;
    if steps != [] {
      var before := After(s, steps[..|steps| - 1]);
      ActivityBehind(s, steps[..|steps| - 1]);
      if CanStep(before, steps[|steps| - 1]) { ClockOnly(before, steps[|steps| - 1]); }
    }
  }

  // --------------------------------------------------------------- memory

  lemma {:induction false} FlatLength(chunks: seq<seq<Byte>>)
    requires forall q <- chunks :: |q| <= CHUNK
    ensures |Flat(chunks)| <= |chunks| * CHUNK
  {
    if chunks != [] { FlatLength(chunks[1..]); }
  }

  lemma BoundedMemory(stream: seq<Byte>, now: nat, steps: seq<Step>)
    ensures |InFlight(After(Spawned(stream, now), steps))| <= (BUFFER_CHUNKS + 2) * CHUNK
  {
    RunsKeepInv(stream, now, steps);
    FlatLength(After(Spawned(stream, now), steps).queue);
  }

  // ---------------------------------------------------------- stuck writers

  // Steps other than the writer's.
  predicate ReaderSide(e: Step) {
    e.Read? || e.ReadEof? || e.ReadError? || e.Send? || e.Abort? || e.Tick?
  }

  // How often the reader moved lastActivity.
  function Refreshes(s: State, steps: seq<Step>): nat {
    if steps == [] then 0
    else
      var before, e := After(s, steps[..|steps| - 1]), steps[|steps| - 1];
      Refreshes(s, steps[..|steps| - 1]) + if e.Read? && CanStep(before, e) then 1 else 0
  }

  function Room(s: State): int {
    BUFFER_CHUNKS + 1 - |s.queue| - (if s.reader.Holding? then 1 else 0)
  }

  lemma StuckStep(s: State, e: Step)
    requires CanStep(s, e) && ReaderSide(e)
    ensures var t := Next(s, e);
            && t.writer == s.writer && t.bytes == s.bytes && t.reader.Unconnected? == s.reader.Unconnected?
            && Room(t) == Room(s) - (if e.Read? then 1 else 0)
            && (!e.Read? ==> t.lastActivity == s.lastActivity)
  {
  }

  // With the writer stuck every refresh takes up room nobody gives back.
  lemma {:induction false} RefreshesUseRoom(stream: seq<Byte>, s: State, steps: seq<Step>)
    requires Inv(stream, s) && forall e <- steps :: ReaderSide(e)
    ensures var t := After(s, steps);
            && Inv(stream, t) && t.writer == s.writer && t.bytes == s.bytes
            && Refreshes(s, steps) + Room(t) == Room(s)
  {
    hide Inv, CanStep, Next, Room;
    if steps != [] {
      var before, e := After(s, steps[..|steps| - 1]), steps[|steps| - 1];
      RefreshesUseRoom(stream, s, steps[..|steps| - 1]);
      if CanStep(before, e) {
        StepKeepsInv(stream, before, e);
        StuckStep(before, e);
      }
    }
  }

  lemma FewRefreshes(stream: seq<Byte>, s: State, steps: seq<Step>)
    requires Inv(stream, s) && forall e <- steps :: ReaderSide(e)
    ensures Refreshes(s, steps) <= BUFFER_CHUNKS + 1
  {
    RefreshesUseRoom(stream, s, steps);
  }

  // So among more windows than there is room, one sees no refresh at all.
  function At(s: State, windows: seq<seq<Step>>, k: nat): State
    requires k <= |windows|
    decreases k
  {
    if k == 0 then s else At(After(s, windows[0]), windows[1..], k - 1)
  }

  lemma {:induction false} AtNext(s: State, windows: seq<seq<Step>>, k: nat)
    requires k < |windows|
    ensures At(s, windows, k + 1) == After(At(s, windows, k), windows[k])
    decreases k
  {
    if k > 0 { AtNext(After(s, windows[0]), windows[1..], k - 1); }
  }

  predicate WriterStuck(windows: seq<seq<Step>>) {
    forall k | 0 <= k < |windows| :: forall e <- windows[k] :: ReaderSide(e)
  }

  lemma {:induction false} SomeWindowIsSilent(stream: seq<Byte>, s: State, windows: seq<seq<Step>>) returns (k: nat)
    requires Inv(stream, s) && WriterStuck(windows) && |windows| > Room(s)
    ensures k < |windows| && Inv(stream, At(s, windows, k)) && Refreshes(At(s, windows, k), windows[k]) == 0
    decreases |windows|
  {
    hide CanStep, Next;
    assert forall e <- windows[0] :: ReaderSide(e);
    RefreshesUseRoom(stream, s, windows[0]);
    if Refreshes(s, windows[0]) == 0 {
      k := 0;
    } else {
      var rest := SomeWindowIsSilent(stream, After(s, windows[0]), windows[1..]);
      k := rest + 1;
    }
  }

  lemma {:induction false} SilentMeansStill(s: State, steps: seq<Step>)
    requires (forall e <- steps :: ReaderSide(e)) && Refreshes(s, steps) == 0
    ensures After(s, steps).lastActivity == s.lastActivity
  {
    hide CanStep, Next;
    if steps != [] {
      var before, e := After(s, steps[..|steps| - 1]), steps[|steps| - 1];
      SilentMeansStill(s, steps[..|steps| - 1]);
      if CanStep(before, e) { StuckStep(before, e); }
    }
  }

  // What the controller sees of the relay of attempt n.
  function Observed(s: State, n: nat): RelayObs {
    RelayObs(n, s.bytes, s.lastActivity, !s.outcome.Live?, s.sourceConnected)
  }

  // The observation o as a visit at that moment makes it.
  function VisitedAt(o: TransferObs, s: State, now: nat): TransferObs {
    o.(mem := Some(Observed(s, o.attempt)), nowSecs := now)
  }

  predicate Ends(v: TransferVerdict) {
    v.FailAttempt? || v.Complete?
  }

  // Guaranteed detection. A target that stops taking bytes cannot hide behind
  // a buffer that still fills: of any BUFFER_CHUNKS + 2 windows longer than
  // the stall limit, the visit at the end of one ends the attempt, once the
  // attempt's own timeout has passed and the restore CR is there.
  lemma StandstillEndsTheAttempt(stream: seq<Byte>, s: State, windows: seq<seq<Step>>, o: TransferObs)
    returns (k: nat, after: State)
    requires Inv(stream, s) && WriterStuck(windows) && |windows| >= BUFFER_CHUNKS + 2
    requires forall i | 0 <= i < |windows| :: At(s, windows, i + 1).now > At(s, windows, i).now + o.stallSecs
    requires TimeoutPassed(o) && o.rst.Some?
    ensures k < |windows| && after == At(s, windows, k + 1)
    ensures forall now: nat :: now >= after.now ==> Ends(Verdict(VisitedAt(o, after, now)))
  {
    hide CanStep, Next, Verdict, Refreshes;
    k := SomeWindowIsSilent(stream, s, windows);
    AtNext(s, windows, k);
    after := At(s, windows, k + 1);
    SilentMeansStill(At(s, windows, k), windows[k]);
    forall now: nat | now >= after.now ensures Ends(Verdict(VisitedAt(o, after, now))) {
      StandstillIsDetected(VisitedAt(o, after, now));
    }
  }

  // And never a false alarm: within the stall limit of a move, whichever it was,
  // no visit takes the stream for stalled.
  lemma MovingIsNotStalled(stream: seq<Byte>, now: nat, steps: seq<Step>, k: nat, o: TransferObs, at: nat)
    requires k < |steps| && Moves(After(Spawned(stream, now), steps[..k]), steps[k])
    requires at <= After(Spawned(stream, now), steps[..k]).now + o.stallSecs && o.failureReason != Some(Stalled)
    ensures Verdict(VisitedAt(o, After(Spawned(stream, now), steps), at)) != FailAttempt(Stalled)
  {
    hide After, Moves, CanStep, Next;
    ActivityClimbs(Spawned(stream, now), steps, k);
  }

  // ------------------------------------------------------- reader and writer in place

  // accept_from: the first connection from an allowed peer; the ones before
  // it are dropped, and with nobody allowed nobody is accepted.
  method AcceptFrom<P(==)>(incoming: seq<P>, allowed: set<P>) returns (accepted: Option<nat>)
    ensures accepted.Some? <==> exists p <- incoming :: p in allowed
    ensures accepted.Some? ==>
              && accepted.value < |incoming| && incoming[accepted.value] in allowed
              && forall j | 0 <= j < accepted.value :: incoming[j] !in allowed
  {
    for i := 0 to |incoming|
      invariant forall j | 0 <= j < i :: incoming[j] !in allowed
    {
      if incoming[i] in allowed { return Some(i); }
    }
    return None;
  }

  lemma ChunkIsThere(stream: seq<Byte>, s: State)
    requires Inv(stream, s) && s.writer.Writing?
    ensures 0 < |s.writer.rest| <= s.writer.size
  {
  }

  // A turn of the reader's loop or of the writer's.
  datatype Turn = Reads(n: nat) | Offers | Writes(sizes: seq<nat>)

  // A partial write puts out at least a byte and at most what is left.
  function Part(left: nat, size: nat): nat {
    if size == 0 then 1 else if size > left then left else size
  }

  function Parts(left: nat, sizes: seq<nat>): seq<Step> {
    if left == 0 || sizes == [] then []
    else [Write(Part(left, sizes[0]))] + Parts(left - Part(left, sizes[0]), sizes[1..])
  }

  // The reader reads and offers the chunk, or ends, or offers again what the
  // full queue would not take; the writer takes a chunk, unless it is in the
  // middle of one, and writes.
  function TurnSteps(s: State, t: Turn): seq<Step> {
    if !s.outcome.Live? then []
    else
      match t
      case Reads(n) =>
        if !s.reader.Reading? || n > CHUNK || n > |s.unread| || (n == 0 && s.unread != []) then []
        else if n == 0 then [ReadEof]
        else [Read(n), Send]
      case Offers => if s.reader.Holding? then [Send] else []
      case Writes(sizes) =>
        if s.writer.Writing? then Parts(|s.writer.rest|, sizes)
        else if s.writer.Idle? && s.queue != [] then [Recv] + Parts(|s.queue[0]|, sizes)
        else []
  }

  function Turned(s: State, turns: seq<Turn>): State {
    if turns == [] then s
    else
      var before := Turned(s, turns[..|turns| - 1]);
      After(before, TurnSteps(before, turns[|turns| - 1]))
  }

  // Turns are steps in a certain order, so all that is proved of runs is true
  // of them.
  lemma {:induction false} TurnsAreSteps(s: State, turns: seq<Turn>) returns (steps: seq<Step>)
    ensures Turned(s, turns) == After(s, steps)
  {
    hide TurnSteps;
    steps := [];
    if turns != [] {
      var before := Turned(s, turns[..|turns| - 1]);
      var first := TurnsAreSteps(s, turns[..|turns| - 1]);
      var last := TurnSteps(before, turns[|turns| - 1]);
      AfterThen(s, first, last);
      steps := first + last;
    }
  }

  lemma PartsUnfold(left: nat, sizes: seq<nat>)
    requires left > 0 && sizes != []
    ensures var n := Part(left, sizes[0]);
            0 < n <= left && Parts(left, sizes) == [Write(n)] + Parts(left - n, sizes[1..])
  {
  }

  lemma MayWrite(s: State, n: nat)
    requires s.outcome.Live? && s.writer.Writing? && 0 < n <= |s.writer.rest|
    ensures CanStep(s, Write(n))
  {
  }

  lemma PartThenRest(s: State, sizes: seq<nat>)
    requires s.outcome.Live? && s.writer.Writing? && |s.writer.rest| > 0 && sizes != []
    ensures var n := Part(|s.writer.rest|, sizes[0]);
            && 0 < n <= |s.writer.rest| && CanStep(s, Write(n))
            && After(s, Parts(|s.writer.rest|, sizes)) ==
               After(Next(s, Write(n)), Parts(|s.writer.rest| - n, sizes[1..]))
  {
    hide CanStep, Next, After, Parts, Part;
    var n := Part(|s.writer.rest|, sizes[0]);
    PartsUnfold(|s.writer.rest|, sizes);
    MayWrite(s, n);
    AfterOne(s, Write(n));
    AfterThen(s, [Write(n)], Parts(|s.writer.rest| - n, sizes[1..]));
  }

  lemma ReadSteps(s: State, n: nat)
    requires CanStep(s, if n == 0 then ReadEof else Read(n))
    ensures n == 0 ==> After(s, [ReadEof]) == Next(s, ReadEof)
    ensures n > 0 ==>
              After(s, [Read(n), Send]) ==
              if |s.queue| < BUFFER_CHUNKS then Next(Next(s, Read(n)), Send) else Next(s, Read(n))
  {
    AfterOne(s, if n == 0 then ReadEof else Read(n));
    assert [Read(n), Send][..1] == [Read(n)];
  }

  // The relay's shared variables, each updated in place by its task.
  class Splice {
    var unread: seq<Byte>
    var reader: Reader
    var queue: seq<seq<Byte>>
    var writer: Writer
    var delivered: seq<Byte>
    var total: nat
    var lastActivity: nat
    var sourceConnected: bool
    var now: nat
    var outcome: Outcome
    ghost const stream: seq<Byte>

    ghost predicate Valid()
      reads this
    {
      Inv(stream, Snapshot())
    }

    function Snapshot(): State
      reads this
    {
      State(unread, reader, queue, writer, delivered, total, lastActivity, sourceConnected, now, outcome)
    }

    constructor (stream: seq<Byte>, now: nat)
      ensures Valid() && Snapshot() == Spawned(stream, now) && this.stream == stream
    {
      this.stream, unread, reader, queue, writer, delivered := stream, stream, Unconnected, [], NoTarget, [];
      total, lastActivity, sourceConnected, this.now, outcome := 0, now, false, now, Live;
    }

    // The sending agent is there: the cue to create the restore.
    method SourceAccepted()
      requires Valid() && outcome.Live? && reader.Unconnected?
      modifies this`reader, this`sourceConnected, this`lastActivity
      ensures Valid() && Snapshot() == Next(old(Snapshot()), AcceptSource)
    {
      hide Inv, Flat;
      StepKeepsInv(stream, Snapshot(), AcceptSource);
      sourceConnected, reader, lastActivity := true, Reading, now;
    }

    // The receiving agent is there: the queue starts to drain.
    method TargetAccepted()
      requires Valid() && outcome.Live? && writer.NoTarget? && !reader.Unconnected?
      modifies this`writer, this`lastActivity
      ensures Valid() && Snapshot() == Next(old(Snapshot()), AcceptTarget)
    {
      hide Inv, Flat;
      StepKeepsInv(stream, Snapshot(), AcceptTarget);
      writer, lastActivity := Idle, now;
    }

    method Pass(seconds: nat)
      requires Valid() && outcome.Live?
      modifies this`now
      ensures Valid() && Snapshot() == Next(old(Snapshot()), Tick(seconds))
    {
      hide Inv, Flat;
      StepKeepsInv(stream, Snapshot(), Tick(seconds));
      now := now + seconds;
    }

    // A read of n bytes into a chunk of their own.
    method Fill(n: nat)
      requires Valid() && CanStep(Snapshot(), Read(n))
      modifies this`unread, this`reader, this`lastActivity
      ensures Valid() && Snapshot() == Next(old(Snapshot()), Read(n))
    {
      hide Inv, Flat;
      StepKeepsInv(stream, Snapshot(), Read(n));
      lastActivity := now;
      reader, unread := Holding(unread[..n]), unread[n..];
    }

    // The reader's task is over, at the end of the stream or with an error.
    method ReaderEnds(e: Step)
      requires Valid() && (e.ReadEof? || e.ReadError?) && CanStep(Snapshot(), e)
      modifies this`reader
      ensures Valid() && Snapshot() == Next(old(Snapshot()), e)
    {
      hide Inv, Flat;
      StepKeepsInv(stream, Snapshot(), e);
      reader := if e.ReadEof? then AtEof else ReadFailed;
    }

    // One turn of the reader's loop: a read of n bytes, which is the end when
    // n is 0; the chunk is then offered to the queue.
    method ReaderTurn(n: nat)
      requires Valid() && outcome.Live? && reader.Reading?
      requires n <= CHUNK && n <= |unread| && (n == 0 ==> unread == [])
      modifies this`unread, this`reader, this`queue, this`lastActivity
      ensures Valid()
      ensures Snapshot() == if n == 0 then Next(old(Snapshot()), ReadEof)
                            else if |old(queue)| < BUFFER_CHUNKS then Next(Next(old(Snapshot()), Read(n)), Send)
                            else Next(old(Snapshot()), Read(n))
    {
      hide Inv, Flat;
      if n == 0 {
        ReaderEnds(ReadEof);
      } else {
        Fill(n);
        Offer();
      }
    }

    // tx.send: waits while the queue is full.
    method Offer()
      requires Valid() && outcome.Live? && reader.Holding?
      modifies this`reader, this`queue
      ensures Valid()
      ensures Snapshot() == if |old(queue)| < BUFFER_CHUNKS then Next(old(Snapshot()), Send) else old(Snapshot())
    {
      hide Inv, Flat;
      if |queue| < BUFFER_CHUNKS {
        StepKeepsInv(stream, Snapshot(), Send);
        queue, reader := queue + [reader.chunk], Reading;
      }
    }

    // rx.recv: the next chunk, or word that there will be none.
    method Take() returns (closed: bool)
      requires Valid() && outcome.Live? && writer.Idle?
      modifies this`writer, this`queue
      ensures Valid() && (closed <==> old(queue) == [] && ReaderOver(reader))
      ensures Snapshot() == if old(queue) != [] then Next(old(Snapshot()), Recv) else old(Snapshot())
    {
      hide Inv, Flat;
      closed := queue == [] && ReaderOver(reader);
      if queue != [] {
        StepKeepsInv(stream, Snapshot(), Recv);
        writer, queue := Writing(queue[0], |queue[0]|), queue[1..];
      }
    }

    // After the loop: the reader's own result, then the empty stream.
    method Finish() returns (r: Result<nat>)
      requires Valid() && CanStep(Snapshot(), Close)
      modifies this`outcome
      ensures Valid() && Snapshot() == Next(old(Snapshot()), Close)
      ensures r.Ok? <==> stream != [] && delivered == stream && reader.AtEof?
      ensures r.Ok? ==> r.value == |stream| && outcome == Finished(|stream|)
    {
      StepKeepsInv(stream, Snapshot(), Close);
      assert reader.AtEof? ==> InFlight(Snapshot()) == [];
      if reader.ReadFailed? || total == 0 {
        outcome := Broken;
        r := Err(Transport);
      } else {
        outcome := Finished(total);
        r := Ok(total);
      }
    }

    // The task ends without a result: a failed write, or dropped from outside.
    method Stop(e: Step)
      requires Valid() && (e.WriteError? || e.Abort?) && CanStep(Snapshot(), e)
      modifies this`outcome
      ensures Valid() && Snapshot() == Next(old(Snapshot()), e)
    {
      hide Inv, Flat;
      StepKeepsInv(stream, Snapshot(), e);
      outcome := if e.WriteError? then Broken else Aborted;
    }

    // Part of a chunk goes out on the wire; the last part is counted.
    method WriteSome(n: nat)
      requires Valid() && CanStep(Snapshot(), Write(n))
      modifies this`writer, this`delivered, this`total, this`lastActivity
      ensures Valid() && Snapshot() == Next(old(Snapshot()), Write(n))
      ensures old(delivered) <= delivered && delivered + InHand(writer) == old(delivered) + old(writer.rest)
      ensures writer.Idle? <==> n == |old(writer.rest)|
      ensures writer.Idle? ==> total == old(total) + old(writer.size) && lastActivity == now
      ensures !writer.Idle? ==>
                && writer == Writing(old(writer.rest)[n..], old(writer.size))
                && total == old(total) && lastActivity == old(lastActivity)
    {
      hide Inv, Flat;
      StepKeepsInv(stream, Snapshot(), Write(n));
      assert writer.rest == writer.rest[..n] + writer.rest[n..];
      delivered := delivered + writer.rest[..n];
      if n == |writer.rest| {
        total, lastActivity := total + writer.size, now;
        writer := Idle;
      } else {
        writer := Writing(writer.rest[n..], writer.size);
      }
    }

    // write_all of one chunk: any number of partial writes, counted at the end.
    method WriteAll(sizes: seq<nat>)
      requires Valid() && outcome.Live? && writer.Writing?
      modifies this`writer, this`delivered, this`total, this`lastActivity
      ensures Valid() && Snapshot() == After(old(Snapshot()), Parts(|old(writer.rest)|, sizes))
      ensures old(delivered) <= delivered
      ensures total > old(total) ==>
                writer.Idle? && delivered == old(delivered) + old(writer.rest) && lastActivity == now
      ensures writer.Idle? ==> total == old(total) + old(writer.size)
      ensures writer.Writing? ==>
                && total == old(total) && lastActivity == old(lastActivity)
                && delivered + writer.rest == old(delivered) + old(writer.rest)
    {
      hide Inv, Flat, CanStep, Next, After, Part;
      ghost var all := Parts(|writer.rest|, sizes);
      for i := 0 to |sizes|
        invariant Valid() && outcome.Live? && old(delivered) <= delivered
        invariant writer.Writing? && writer.size == old(writer.size)
        invariant total == old(total) && lastActivity == old(lastActivity)
        invariant delivered + writer.rest == old(delivered) + old(writer.rest)
        invariant After(old(Snapshot()), all) == After(Snapshot(), Parts(|writer.rest|, sizes[i..]))
      {
        ChunkIsThere(stream, Snapshot());
        PartThenRest(Snapshot(), sizes[i..]);
        assert sizes[i..][1..] == sizes[i + 1..];
        WriteSome(Part(|writer.rest|, sizes[i]));
        if writer.Idle? {
          AfterNone(Snapshot());
          return;
        }
      }
      AfterNone(Snapshot());
    }

    // One turn of one of the two loops.
    method TakeTurn(t: Turn)
      requires Valid()
      modifies this`unread, this`reader, this`queue, this`writer, this`delivered, this`total, this`lastActivity
      ensures Valid() && Snapshot() == After(old(Snapshot()), TurnSteps(old(Snapshot()), t))
    {
      hide Inv, Flat;
      if !outcome.Live? { return; }
      match t
      case Reads(n) =>
        if reader.Reading? && n <= CHUNK && n <= |unread| && (n == 0 ==> unread == []) {
          ReadSteps(Snapshot(), n);
          ReaderTurn(n);
        }
      case Offers =>
        if reader.Holding? {
          AfterOne(Snapshot(), Send);
          Offer();
        }
      case Writes(sizes) =>
        if writer.Idle? && queue != [] {
          AfterOne(Snapshot(), Recv);
          AfterThen(Snapshot(), [Recv], Parts(|queue[0]|, sizes));
        }
        if writer.Idle? { var _ := Take(); }
        if writer.Writing? { WriteAll(sizes); }
    }

    // The two loops side by side, in any order of their turns.
    method Serve(turns: seq<Turn>)
      requires Valid()
      modifies this
      ensures Valid() && Snapshot() == Turned(old(Snapshot()), turns)
      ensures delivered <= stream && total <= |delivered|
    {
      hide CanStep, Next, Inv, TurnSteps;
      for i := 0 to |turns|
        invariant Valid() && Snapshot() == Turned(old(Snapshot()), turns[..i])
      {
        assert turns[..i + 1][..i] == turns[..i];
        TakeTurn(turns[i]);
      }
      assert turns[..|turns|] == turns;
      DeliversInOrder(stream, Snapshot());
    }

    // The task whose turn it is, on the variables in place.
    method Perform(e: Step)
      requires Valid() && CanStep(Snapshot(), e)
      modifies this
      ensures Valid() && Snapshot() == Next(old(Snapshot()), e)
    {
      hide Inv, Flat;
      match e
      case AcceptSource => SourceAccepted();
      case Read(n) => Fill(n);
      case ReadEof => ReaderEnds(e);
      case ReadError => ReaderEnds(e);
      case Send => Offer();
      case AcceptTarget => TargetAccepted();
      case Recv => var _ := Take();
      case Write(n) => WriteSome(n);
      case WriteError => Stop(e);
      case Close => var _ := Finish();
      case Abort => Stop(e);
      case Tick(seconds) => Pass(seconds);
    }

    // Any schedule of the tasks is that run of the machine, so what is proved
    // of runs is true of the variables.
    method Drive(steps: seq<Step>)
      requires Valid()
      modifies this
      ensures Valid() && Snapshot() == After(old(Snapshot()), steps)
      ensures delivered <= stream && total <= |delivered| && (outcome.Finished? ==> delivered == stream != [])
    {
      hide CanStep, Next, Inv;
      for i := 0 to |steps|
        invariant Valid() && Snapshot() == After(old(Snapshot()), steps[..i])
      {
        assert steps[..i + 1][..i] == steps[..i];
        if CanStep(Snapshot(), steps[i]) { Perform(steps[i]); }
      }
      assert steps[..|steps|] == steps;
      DeliversInOrder(stream, Snapshot());
    }
  }

  lemma DeliversInOrder(stream: seq<Byte>, s: State)
    requires Inv(stream, s)
    ensures s.delivered <= stream && s.bytes <= |s.delivered| && (s.outcome.Finished? ==> s.delivered == stream != [])
  {
    Leading(s.delivered, InFlight(s), s.unread);
  }
}
