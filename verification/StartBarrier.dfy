/** The start barrier both benchmark runners share: the state behind the handshake, and
    the two functions that send STARTs. A write either succeeds or fails; failed writes
    are rolled back. */
module StartBarrier {
  import opened StartTrace
  import opened Options

  datatype Barrier = Barrier(
    pending: set<int>,          // sizes the client is ready for
    requested: set<int>,        // sizes the server was told to start
    times: map<int, real>,      // when it was told
    trace: seq<Line>)

  const EMPTY_BARRIER := Barrier({}, {}, map[], [])

  function Saw(b: Barrier, line: Line): Barrier {
    b.(trace := b.trace + [line])
  }

  /** `request_stream_server_start`: at most one request per size is outstanding. */
  function Request(b: Barrier, size: int, up: bool, writeOk: bool, now: real): (r: (Barrier, bool))
    ensures r.1 <==> up && size !in b.requested && writeOk
  {
    if !up || size in b.requested || !writeOk then (b, false)
    else (b.(requested := b.requested + {size}, times := b.times[size := now],
             trace := b.trace + [ServerStart(size)]), true)
  }

  /** `forward_stream_start_ack`, for a line that carries a size. */
  function Forward(b: Barrier, size: int, up: bool, writeOk: bool): (r: (Barrier, bool))
    ensures r.1 <==> up && size in b.pending && size in b.requested && writeOk
  {
    if !up || size !in b.pending || size !in b.requested || !writeOk then (b, false)
    else (b.(pending := b.pending - {size}, requested := b.requested - {size}, times := b.times - {size},
             trace := b.trace + [ClientStart(size)]), true)
  }

  /** The sets say where each size stands in the handshake. */
  predicate PhaseFits(b: Barrier, size: int) {
    var phase := PhaseOf(b.trace, size);
    if size in b.requested then phase.Requested? || phase.Acked?
    else if size in b.pending then phase.Pending?
    else phase.Idle?
  }

  ghost predicate Inv(b: Barrier) {
    && b.requested <= b.pending
    && b.times.Keys == b.requested
    && forall size :: PhaseFits(b, size)
  }

  function Ready(b: Barrier, size: int): Barrier {
    Saw(b, ClientReady(size)).(pending := b.pending + {size})
  }

  lemma ReadyFits(b: Barrier, size: int, z: int)
    requires PhaseFits(b, z)
    ensures PhaseFits(Ready(b, size), z)
  {
    PhaseSnoc(b.trace, ClientReady(size), z);
  }

  lemma ReadyKeepsInv(b: Barrier, size: int)
    requires Inv(b)
    ensures Inv(Ready(b, size))
  {
    forall z ensures PhaseFits(Ready(b, size), z) { ReadyFits(b, size, z); }
  }

  lemma RequestFits(b: Barrier, size: int, up: bool, writeOk: bool, now: real, z: int)
    requires PhaseFits(b, z) && size in b.pending
    ensures PhaseFits(Request(b, size, up, writeOk, now).0, z)
  {
    PhaseSnoc(b.trace, ServerStart(size), z);
  }

  lemma RequestKeepsInv(b: Barrier, size: int, up: bool, writeOk: bool, now: real)
    requires Inv(b) && size in b.pending
    ensures Inv(Request(b, size, up, writeOk, now).0)
  {
    var b' := Request(b, size, up, writeOk, now).0;
    forall z ensures PhaseFits(b', z) { RequestFits(b, size, up, writeOk, now, z); }
  }

  lemma AckFits(b: Barrier, size: int, z: int)
    requires PhaseFits(b, z)
    ensures PhaseFits(Saw(b, ServerAck(size)), z)
    ensures z == size && size in b.requested ==> PhaseOf(Saw(b, ServerAck(size)).trace, size).Acked?
  {
    PhaseSnoc(b.trace, ServerAck(size), z);
  }

  lemma AckKeepsInv(b: Barrier, size: int)
    requires Inv(b)
    ensures Inv(Saw(b, ServerAck(size)))
    ensures size in b.requested ==> PhaseOf(Saw(b, ServerAck(size)).trace, size).Acked?
  {
    forall z ensures PhaseFits(Saw(b, ServerAck(size)), z) { AckFits(b, size, z); }
    AckFits(b, size, size);
  }

  lemma ForwardFits(b: Barrier, size: int, up: bool, writeOk: bool, z: int)
    requires PhaseFits(b, z) && (size in b.requested ==> PhaseOf(b.trace, size).Acked?)
    ensures PhaseFits(Forward(b, size, up, writeOk).0, z)
  {
    PhaseSnoc(b.trace, ClientStart(size), z);
  }

  lemma ForwardKeepsInv(b: Barrier, size: int, up: bool, writeOk: bool)
    requires Inv(b) && (size in b.requested ==> PhaseOf(b.trace, size).Acked?)
    ensures Inv(Forward(b, size, up, writeOk).0)
  {
    var b' := Forward(b, size, up, writeOk).0;
    forall z ensures PhaseFits(b', z) { ForwardFits(b, size, up, writeOk, z); }
  }
}

/** The C runner: no error list, every client line and every sample retries. */
module CStreamBarrier {
  import opened StartTrace
  import opened StartBarrier

  /** What the handlers are called with, including whether each write goes through. */
  datatype Input =
    | AckLine(size: int, clientUp: bool, writeOk: bool)
    | ReadyLine(size: int, serverUp: bool, writeOk: bool, now: real)
    // another client line or a sample; `next` is what iterating over the set yields
    | Retry(next: int, serverUp: bool, writeOk: bool, now: real)
    | Ignored

  function Handle(b: Barrier, input: Input): Barrier {
    match input
    case AckLine(size, clientUp, writeOk) => Forward(Saw(b, ServerAck(size)), size, clientUp, writeOk).0
    case ReadyLine(size, serverUp, writeOk, now) =>
      Request(Ready(b, size), size, serverUp, writeOk, now).0
    case Retry(next, serverUp, writeOk, now) =>
      if next in b.pending then Request(b, next, serverUp, writeOk, now).0 else b
    case Ignored => b
  }

  function HandleAll(inputs: seq<Input>): Barrier
    decreases |inputs|
  {
    if inputs == [] then EMPTY_BARRIER else Handle(HandleAll(inputs[..|inputs| - 1]), inputs[|inputs| - 1])
  }

  lemma HandleKeepsInv(b: Barrier, input: Input)
    requires Inv(b)
    ensures Inv(Handle(b, input))
  {
    match input
    case AckLine(size, clientUp, writeOk) =>
      AckKeepsInv(b, size);
      ForwardKeepsInv(Saw(b, ServerAck(size)), size, clientUp, writeOk);
    case ReadyLine(size, serverUp, writeOk, now) =>
      ReadyKeepsInv(b, size);
      RequestKeepsInv(Ready(b, size), size, serverUp, writeOk, now);
    case Retry(next, serverUp, writeOk, now) =>
      if next in b.pending { RequestKeepsInv(b, next, serverUp, writeOk, now); }
    case Ignored =>
  }

  lemma {:induction false} InvOnEveryRun(inputs: seq<Input>)
    ensures Inv(HandleAll(inputs))
    decreases |inputs|
  {
    if inputs != [] {
      InvOnEveryRun(inputs[..|inputs| - 1]);
      HandleKeepsInv(HandleAll(inputs[..|inputs| - 1]), inputs[|inputs| - 1]);
    }
  }

  /** Over every run, with any pattern of failed and retried writes: requests stay
      within the ready sizes, and the STARTs sent to the client for a size never exceed
      its ready lines, the STARTs sent to the server, or the server's acknowledgements. */
  lemma StartsAreCovered(inputs: seq<Input>, size: int)
    ensures var b := HandleAll(inputs);
      var started := Count(b.trace, ClientStart(size));
      && b.requested <= b.pending && b.times.Keys == b.requested
      && Count(b.trace, ClientReady(size)) >= started + (if size in b.pending then 1 else 0)
      && Count(b.trace, ServerStart(size)) == started + (if size in b.requested then 1 else 0)
      && Count(b.trace, ServerAck(size)) >= started
  {
    InvOnEveryRun(inputs);
    assert PhaseFits(HandleAll(inputs), size);
    Conservation(HandleAll(inputs).trace, size);
  }

  /** The client is never started twice for one ready line: since the previous START it
      got for a size, it reported ready, the server was started and answered. */
  lemma NeverStartedTwice(inputs: seq<Input>, size: int, i: nat, j: nat)
    requires var trace := HandleAll(inputs).trace;
      i <= j < |trace| && trace[j] == ClientStart(size) && (i == 0 || trace[i - 1] == ClientStart(size))
    ensures AckIn(HandleAll(inputs).trace[..j], size, i)
  {
    InvOnEveryRun(inputs);
    assert PhaseFits(HandleAll(inputs), size);
    ClientStartInTurn(HandleAll(inputs).trace, size, i, j);
  }

  // --- the lines sent, from the lines alone ---

  /** The lines an input adds, told from the lines before it: a START goes to the server when
      the size is ready and not requested, and to the client when it acknowledges a request,
      as far as the process is up and the write goes through. */
  function Answer(trace: seq<Line>, input: Input): seq<Line> {
    match input
    case AckLine(size, clientUp, writeOk) =>
      var asked := PhaseOf(trace, size).Requested? || PhaseOf(trace, size).Acked?;
      [ServerAck(size)] + if asked && clientUp && writeOk then [ClientStart(size)] else []
    case ReadyLine(size, serverUp, writeOk, _) =>
      var free := PhaseOf(trace, size).Idle? || PhaseOf(trace, size).Pending?;
      [ClientReady(size)] + if free && serverUp && writeOk then [ServerStart(size)] else []
    case Retry(next, serverUp, writeOk, _) =>
      if PhaseOf(trace, next).Pending? && serverUp && writeOk then [ServerStart(next)] else []
    case Ignored => []
  }

  function AnswerAll(inputs: seq<Input>): seq<Line>
    decreases |inputs|
  {
    if inputs == [] then []
    else
      var before := AnswerAll(inputs[..|inputs| - 1]);
      before + Answer(before, inputs[|inputs| - 1])
  }

  lemma HandleAnswers(b: Barrier, input: Input)
    requires Inv(b)
    ensures Handle(b, input).trace == b.trace + Answer(b.trace, input)
  {
    var size := if input.Retry? then input.next else if input.Ignored? then 0 else input.size;
    assert PhaseFits(b, size);
  }

  /** Over every run the lines sent are exactly those the lines before call for: no START is
      missing, and none is sent too much. */
  lemma {:induction false} StartsAreExact(inputs: seq<Input>)
    ensures HandleAll(inputs).trace == AnswerAll(inputs)
    decreases |inputs|
  {
    if inputs != [] {
      StartsAreExact(inputs[..|inputs| - 1]);
      InvOnEveryRun(inputs[..|inputs| - 1]);
      HandleAnswers(HandleAll(inputs[..|inputs| - 1]), inputs[|inputs| - 1]);
    }
  }

  /** The process written to is up and the write goes through. */
  predicate Healthy(input: Input) {
    match input
    case AckLine(_, clientUp, writeOk) => clientUp && writeOk
    case ReadyLine(_, serverUp, writeOk, _) => serverUp && writeOk
    case Retry(_, serverUp, writeOk, _) => serverUp && writeOk
    case Ignored => true
  }

  /** Nothing is owed: no size waits for a START to the server or to the client. */
  ghost predicate NothingOwed(trace: seq<Line>) {
    forall size :: PhaseOf(trace, size).Idle? || PhaseOf(trace, size).Requested?
  }

  lemma AnswerPhase(trace: seq<Line>, input: Input, z: int)
    requires Healthy(input) && (PhaseOf(trace, z).Idle? || PhaseOf(trace, z).Requested?)
    ensures var phase := PhaseOf(trace + Answer(trace, input), z); phase.Idle? || phase.Requested?
  {
    var answer := Answer(trace, input);
    if |answer| == 0 {
      assert trace + answer == trace;
    } else {
      PhaseSnoc(trace, answer[0], z);
      if |answer| == 1 {
        assert trace + answer == trace + [answer[0]];
      } else {
        PhaseSnoc(trace + [answer[0]], answer[1], z);
        assert trace + answer == trace + [answer[0]] + [answer[1]];
      }
    }
  }

  lemma AnswerPaysAll(trace: seq<Line>, input: Input)
    requires Healthy(input) && NothingOwed(trace)
    ensures NothingOwed(trace + Answer(trace, input))
  {
    forall z ensures var phase := PhaseOf(trace + Answer(trace, input), z); phase.Idle? || phase.Requested? {
      AnswerPhase(trace, input, z);
    }
  }

  lemma {:induction false} HealthyRunsOweNothing(inputs: seq<Input>)
    requires forall i :: 0 <= i < |inputs| ==> Healthy(inputs[i])
    ensures NothingOwed(AnswerAll(inputs))
    decreases |inputs|
  {
    if inputs != [] {
      HealthyRunsOweNothing(inputs[..|inputs| - 1]);
      AnswerPaysAll(AnswerAll(inputs[..|inputs| - 1]), inputs[|inputs| - 1]);
    }
  }

  /** While both processes are up and all writes go through, after every handler each size is
      idle or requested: a ready size has been requested from the server, and an
      acknowledged one has been started. */
  lemma HealthyRunsNeverStall(inputs: seq<Input>, size: int)
    requires forall i :: 0 <= i < |inputs| ==> Healthy(inputs[i])
    ensures var b := HandleAll(inputs);
      && b.pending == b.requested
      && PhaseOf(b.trace, size) == if size in b.pending then Requested else Idle
  {
    StartsAreExact(inputs);
    HealthyRunsOweNothing(inputs);
    InvOnEveryRun(inputs);
    var b := HandleAll(inputs);
    forall z | z in b.pending ensures z in b.requested { assert PhaseFits(b, z); }
    assert PhaseFits(b, size);
  }

  /** After any run, failed writes included, a retry whose write goes through requests the
      pending size it picks. */
  lemma RetryRequests(inputs: seq<Input>, next: int, now: real)
    requires next in HandleAll(inputs).pending && next !in HandleAll(inputs).requested
    ensures var b := HandleAll(inputs + [Retry(next, true, true, now)]);
      && PhaseOf(b.trace, next) == Requested && next in b.requested
      && b.trace == HandleAll(inputs).trace + [ServerStart(next)]
  {
    var all := inputs + [Retry(next, true, true, now)];
    assert all[..|inputs|] == inputs;
    InvOnEveryRun(inputs);
    assert PhaseFits(HandleAll(inputs), next);
    PhaseSnoc(HandleAll(inputs).trace, ServerStart(next), next);
  }

  class StreamRunner {
    var pending: set<int>
    var requested: set<int>
    var times: map<int, real>
    ghost var trace: seq<Line>

    ghost function View(): Barrier
      reads this
    {
      Barrier(pending, requested, times, trace)
    }

    constructor ()
      ensures View() == EMPTY_BARRIER
    {
      pending, requested, times, trace := {}, {}, map[], [];
    }

    method RequestServerStart(size: int, serverUp: bool, writeOk: bool, now: real) returns (sent: bool)
      requires times.Keys == requested
      modifies this
      ensures (View(), sent) == Request(old(View()), size, serverUp, writeOk, now)
    {
      if !serverUp || size in requested {
        return false;
      }
      // the complete request is visible before the write, and undone if it fails
      requested := requested + {size};
      times := times[size := now];
      if writeOk {
        trace := trace + [ServerStart(size)];
        return true;
      }
      requested := requested - {size};
      times := times - {size};
      assert requested == old(requested) && times == old(times);
      return false;
    }

    method ForwardStartAck(size: int, clientUp: bool, writeOk: bool) returns (sent: bool)
      modifies this
      ensures (View(), sent) == Forward(old(View()), size, clientUp, writeOk)
    {
      if !clientUp || size !in pending || size !in requested || !writeOk {
        return false;
      }
      trace := trace + [ClientStart(size)];
      pending := pending - {size};
      requested := requested - {size};
      times := times - {size};
      return true;
    }

    method Dispatch(input: Input)
      requires Inv(View())
      modifies this
      ensures View() == Handle(old(View()), input) && Inv(View())
      ensures trace == old(trace) + Answer(old(trace), input)
    {
      HandleKeepsInv(View(), input);
      HandleAnswers(View(), input);
      match input {
        case AckLine(size, clientUp, writeOk) =>
          trace := trace + [ServerAck(size)];
          var _ := ForwardStartAck(size, clientUp, writeOk);
        case ReadyLine(size, serverUp, writeOk, now) =>
          trace := trace + [ClientReady(size)];
          pending := pending + {size};
          var _ := RequestServerStart(size, serverUp, writeOk, now);
        case Retry(next, serverUp, writeOk, now) =>
          if next in pending {
            var _ := RequestServerStart(next, serverUp, writeOk, now);
          }
        case Ignored =>
      }
    }
  }
}
