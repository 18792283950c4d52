/** The C++ runner: the same barrier with a list of handshake errors and a final
    verdict. Handlers run one at a time on one thread. */
module CppStreamBarrier {
  import opened Options
  import opened StartTrace
  import opened StartBarrier
  import CStreamBarrier

  datatype Error =
    | ClientReadyMismatch
    | ClientReadyTimeout
    | ServerAckMalformed
    | ServerAckMismatch(size: int)
    | ServerStartFailed(size: int)
    | ServerStartTimeout(size: int)
    | ServerExited

  datatype Runner = Runner(
    barrier: Barrier,
    errors: seq<Error>,
    readySeen: bool,
    startedAt: Option<real>)

  /** `expected` and `timeout` are fixed for a run. */
  datatype Config = Config(expected: set<int>, timeout: real)

  datatype Input =
    | ClientStarted(now: real)
    | AckLine(size: Option<int>, clientUp: bool, writeOk: bool)    // None: malformed
    | ReadyLine(size: Option<int>, serverUp: bool, writeOk: bool, now: real)
    | OtherClientLine(next: int, serverUp: bool, writeOk: bool, now: real)
    | Sample(serverExited: bool, oldest: int, next: int, serverUp: bool, writeOk: bool, now: real)

  function Record(r: Runner, e: Error): Runner {
    r.(errors := r.errors + [e])
  }

  /** `maybe_send_size_start`: a request that is refused although none is outstanding
      is an error. */
  function SendSizeStart(r: Runner, size: int, serverUp: bool, writeOk: bool, now: real): Runner {
    var (b, sent) := Request(r.barrier, size, serverUp, writeOk, now);
    var r' := r.(barrier := b);
    if sent || size in b.requested then r' else Record(r', ServerStartFailed(size))
  }

  /** No request is outstanding for the size and none can be sent. */
  predicate Refused(requested: set<int>, size: int, serverUp: bool, writeOk: bool) {
    size !in requested && !(serverUp && writeOk)
  }

  function Retry(r: Runner, next: int, serverUp: bool, writeOk: bool, now: real): Runner {
    if next in r.barrier.pending then SendSizeStart(r, next, serverUp, writeOk, now) else r
  }

  function OnAck(r: Runner, size: Option<int>, clientUp: bool, writeOk: bool): Runner {
    match size
    case None => Record(r, ServerAckMalformed)
    case Some(z) =>
      var (b, sent) := Forward(Saw(r.barrier, ServerAck(z)), z, clientUp, writeOk);
      var r' := r.(barrier := b);
      if sent then r' else Record(r', ServerAckMismatch(z))
  }

  function OnReady(c: Config, r: Runner, size: Option<int>, serverUp: bool, writeOk: bool, now: real): Runner {
    if size.None? || size.value !in c.expected then Record(r, ClientReadyMismatch)
    else
      var z, b := size.value, r.barrier;
      var r' := r.(readySeen := true, barrier := Ready(b, z));
      SendSizeStart(r', z, serverUp, writeOk, now)
  }

  function Expired(times: map<int, real>, timeout: real, now: real): set<int> {
    set z | z in times && now - times[z] >= timeout
  }

  /** The three deadline checks of a sample, each only while no error is recorded.
      `oldest` is the expired request that gets reported. */
  function CheckDeadlines(c: Config, r: Runner, serverExited: bool, oldest: int, now: real): Runner {
    var r1 := if !r.readySeen && r.errors == [] && r.startedAt.Some? && now - r.startedAt.value >= c.timeout
              then Record(r, ClientReadyTimeout) else r;
    var r2 := if r1.barrier.requested != {} && r1.errors == [] && serverExited
              then Record(r1, ServerExited) else r1;
    if r2.errors == [] && Expired(r2.barrier.times, c.timeout, now) != {}
    then Record(r2, ServerStartTimeout(oldest)) else r2
  }

  function Handle(c: Config, r: Runner, input: Input): Runner {
    match input
    case ClientStarted(now) => r.(startedAt := Some(now))
    case AckLine(size, clientUp, writeOk) => OnAck(r, size, clientUp, writeOk)
    case ReadyLine(size, serverUp, writeOk, now) => OnReady(c, r, size, serverUp, writeOk, now)
    case OtherClientLine(next, serverUp, writeOk, now) => Retry(r, next, serverUp, writeOk, now)
    case Sample(serverExited, oldest, next, serverUp, writeOk, now) =>
      Retry(CheckDeadlines(c, r, serverExited, oldest, now), next, serverUp, writeOk, now)
  }

  const START := Runner(EMPTY_BARRIER, [], false, None)

  function HandleAll(c: Config, inputs: seq<Input>): Runner
    decreases |inputs|
  {
    if inputs == [] then START
    else Handle(c, HandleAll(c, inputs[..|inputs| - 1]), inputs[|inputs| - 1])
  }

  /** While no error is recorded every ready size has been requested, and every
      acknowledgement has started the client. */
  predicate InStep(b: Barrier, size: int) {
    Count(b.trace, ServerAck(size)) == Count(b.trace, ClientStart(size))
  }

  ghost predicate RunnerInv(c: Config, r: Runner) {
    && Inv(r.barrier)
    && r.barrier.pending <= c.expected
    && (r.errors == [] ==> r.barrier.pending == r.barrier.requested)
    && (r.errors == [] ==> forall size :: InStep(r.barrier, size))
  }

  lemma StepCounts(trace: seq<Line>, line: Line, size: int)
    ensures Count(trace + [line], ServerAck(size)) == Count(trace, ServerAck(size)) + (if line == ServerAck(size) then 1 else 0)
    ensures Count(trace + [line], ClientStart(size))
         == Count(trace, ClientStart(size)) + (if line == ClientStart(size) then 1 else 0)
  {
    CountSnoc(trace, line, ServerAck(size));
    CountSnoc(trace, line, ClientStart(size));
  }

  lemma SendKeepsInv(c: Config, r: Runner, size: int, serverUp: bool, writeOk: bool, now: real)
    requires Inv(r.barrier) && r.barrier.pending <= c.expected && size in r.barrier.pending
    requires r.errors == [] ==> r.barrier.pending == r.barrier.requested + {size}
    requires r.errors == [] ==> forall z :: InStep(r.barrier, z)
    ensures RunnerInv(c, SendSizeStart(r, size, serverUp, writeOk, now))
  {
    RequestKeepsInv(r.barrier, size, serverUp, writeOk, now);
    forall z | r.errors == [] ensures InStep(Request(r.barrier, size, serverUp, writeOk, now).0, z) {
      StepCounts(r.barrier.trace, ServerStart(size), z);
      assert InStep(r.barrier, z);
    }
  }

  lemma RetryKeepsInv(c: Config, r: Runner, next: int, serverUp: bool, writeOk: bool, now: real)
    requires RunnerInv(c, r)
    ensures RunnerInv(c, Retry(r, next, serverUp, writeOk, now))
  {
    if next in r.barrier.pending { SendKeepsInv(c, r, next, serverUp, writeOk, now); }
  }

  lemma AckKeepsRunnerInv(c: Config, r: Runner, size: Option<int>, clientUp: bool, writeOk: bool)
    requires RunnerInv(c, r)
    ensures RunnerInv(c, OnAck(r, size, clientUp, writeOk))
  {
    if size.Some? {
      var z := size.value;
      AckKeepsInv(r.barrier, z);
      ForwardKeepsInv(Saw(r.barrier, ServerAck(z)), z, clientUp, writeOk);
      var r' := OnAck(r, size, clientUp, writeOk);
      if r'.errors == [] {
        forall y ensures InStep(r'.barrier, y) {
          StepCounts(r.barrier.trace, ServerAck(z), y);
          StepCounts(r.barrier.trace + [ServerAck(z)], ClientStart(z), y);
          assert InStep(r.barrier, y);
        }
      }
    }
  }

  lemma ReadyKeepsRunnerInv(c: Config, r: Runner, size: Option<int>, serverUp: bool, writeOk: bool, now: real)
    requires RunnerInv(c, r)
    ensures RunnerInv(c, OnReady(c, r, size, serverUp, writeOk, now))
  {
    if size.Some? && size.value in c.expected {
      var z, b := size.value, r.barrier;
      ReadyKeepsInv(b, z);
      var r' := r.(readySeen := true, barrier := Ready(b, z));
      forall y | r.errors == [] ensures InStep(r'.barrier, y) {
        StepCounts(b.trace, ClientReady(z), y);
        assert InStep(b, y);
      }
      SendKeepsInv(c, r', z, serverUp, writeOk, now);
    }
  }

  lemma HandleKeepsInv(c: Config, r: Runner, input: Input)
    requires RunnerInv(c, r)
    ensures RunnerInv(c, Handle(c, r, input))
  {
    match input
    case ClientStarted(_) =>
    case AckLine(size, clientUp, writeOk) => AckKeepsRunnerInv(c, r, size, clientUp, writeOk);
    case ReadyLine(size, serverUp, writeOk, now) => ReadyKeepsRunnerInv(c, r, size, serverUp, writeOk, now);
    case OtherClientLine(next, serverUp, writeOk, now) => RetryKeepsInv(c, r, next, serverUp, writeOk, now);
    case Sample(serverExited, oldest, next, serverUp, writeOk, now) =>
      RetryKeepsInv(c, CheckDeadlines(c, r, serverExited, oldest, now), next, serverUp, writeOk, now);
  }

  lemma {:induction false} InvOnEveryRun(c: Config, inputs: seq<Input>)
    ensures RunnerInv(c, HandleAll(c, inputs))
    decreases |inputs|
  {
    if inputs != [] {
      InvOnEveryRun(c, inputs[..|inputs| - 1]);
      HandleKeepsInv(c, HandleAll(c, inputs[..|inputs| - 1]), inputs[|inputs| - 1]);
    }
  }

  /** Whenever no error is recorded, the ready sizes, the requested sizes and the
      remembered request times agree, and each size has one more START at the server
      than at the client exactly while it is requested. */
  lemma NoErrorMeansInStep(c: Config, inputs: seq<Input>, size: int)
    requires HandleAll(c, inputs).errors == []
    ensures var b := HandleAll(c, inputs).barrier;
      && b.pending == b.requested == b.times.Keys
      && Count(b.trace, ServerStart(size)) == Count(b.trace, ClientStart(size)) + (if size in b.requested then 1 else 0)
      && Count(b.trace, ServerAck(size)) == Count(b.trace, ClientStart(size))
      && Count(b.trace, ClientReady(size)) >= Count(b.trace, ServerStart(size))
  {
    InvOnEveryRun(c, inputs);
    var b := HandleAll(c, inputs).barrier;
    assert PhaseFits(b, size) && InStep(b, size);
    Conservation(b.trace, size);
  }

  // --- the verdict ---

  datatype Status = Success | Unsupported | Skip | Fail(reason: Reason)
  datatype Reason =
    | Handshake(error: Error)
    | BarrierIncomplete
    | TimedOut
    | ClientExit
    | ServerExit
    | NoData
    | MissingBinaries
    | ServerNotReady
    | Exception

  /** How a run ended. Three ways out come before the client is started, and an exception
      can come at any time. */
  datatype Ending =
    | NotRun
    | EarlyToken(skip: bool)         // an UNSUPPORTED or SKIP line before the server was ready
    | NeverReady
    | Raised
    | Completed(timedOut: bool, clientExit: int, serverExit: Option<int>,
                parsedAny: bool, token: Option<Status>, protocolUnsupported: bool)

  function Verdict(r: Runner, e: Ending): Status {
    match e
    case NotRun => Fail(MissingBinaries)
    case EarlyToken(skip) => if skip then Skip else Unsupported
    case NeverReady => Fail(ServerNotReady)
    case Raised => Fail(Exception)
    case Completed(timedOut, clientExit, serverExit, parsedAny, token, protocolUnsupported) =>
      if r.errors != [] then Fail(Handshake(r.errors[0]))
      else if r.barrier.pending != {} || r.barrier.requested != {} then Fail(BarrierIncomplete)
      else if timedOut then Fail(TimedOut)
      else if clientExit != 0 then Fail(ClientExit)
      else if serverExit.Some? && serverExit.value != 0 then Fail(ServerExit)
      else if parsedAny then Success
      else if token == Some(Unsupported) || token == Some(Skip) then token.value
      else if protocolUnsupported then Unsupported
      else Fail(NoData)
  }

  /** Before the client is started only server lines are handled, and no client is up. */
  predicate BeforeClient(inputs: seq<Input>) {
    forall i :: 0 <= i < |inputs| ==> inputs[i].AckLine? && !inputs[i].clientUp
  }

  /** The inputs a run with this ending can have handled. */
  predicate Possible(inputs: seq<Input>, e: Ending) {
    && (e.NotRun? ==> inputs == [])
    && (e.EarlyToken? || e.NeverReady? ==> BeforeClient(inputs))
  }

  /** As many STARTs at the server as acknowledgements as STARTs at the client, at least as
      many ready lines, and each START at the client preceded, since the one before it, by
      ready, START at the server and acknowledgement in this order. */
  ghost predicate Conserved(trace: seq<Line>, size: int) {
    && Count(trace, ServerStart(size)) == Count(trace, ServerAck(size)) == Count(trace, ClientStart(size))
    && Count(trace, ClientReady(size)) >= Count(trace, ClientStart(size))
    && (forall i: nat, j: nat ::
          (i <= j < |trace| && trace[j] == ClientStart(size) && (i == 0 || trace[i - 1] == ClientStart(size)))
          ==> AckIn(trace[..j], size, i))
  }

  lemma ConservedWhenDone(c: Config, inputs: seq<Input>, size: int)
    requires HandleAll(c, inputs).errors == [] && size !in HandleAll(c, inputs).barrier.requested
    ensures Conserved(HandleAll(c, inputs).barrier.trace, size)
  {
    NoErrorMeansInStep(c, inputs, size);
    InvOnEveryRun(c, inputs);
    var b := HandleAll(c, inputs).barrier;
    assert PhaseFits(b, size);
    forall i: nat, j: nat | i <= j < |b.trace| && b.trace[j] == ClientStart(size)
      && (i == 0 || b.trace[i - 1] == ClientStart(size))
      ensures AckIn(b.trace[..j], size, i)
    {
      ClientStartInTurn(b.trace, size, i, j);
    }
  }

  /** A run reported as a success conserves its STARTs for every size, on every path. */
  lemma SuccessConservesStarts(c: Config, inputs: seq<Input>, e: Ending, size: int)
    requires Verdict(HandleAll(c, inputs), e).Success?
    ensures Conserved(HandleAll(c, inputs).barrier.trace, size)
  {
    ConservedWhenDone(c, inputs, size);
  }

  /** Before the client is started every acknowledgement is an error, and nothing is sent. */
  lemma {:induction false} EarlyRun(c: Config, inputs: seq<Input>)
    requires BeforeClient(inputs)
    ensures var r := HandleAll(c, inputs);
      && |r.errors| == |inputs| && r.barrier.pending == r.barrier.requested == {}
      && (forall i :: 0 <= i < |r.barrier.trace| ==> r.barrier.trace[i].ServerAck?)
      && (forall size :: ServerAck(size) in r.barrier.trace <==> AckOf(inputs, size))
    decreases |inputs|
  {
    if inputs != [] {
      var last := |inputs| - 1;
      var init := inputs[..last];
      EarlyRun(c, init);
      assert inputs == init + [inputs[last]];
      forall size ensures AckOf(inputs, size) <==> AckOf(init, size) || inputs[last].size == Some(size) {
        AckOfSnoc(init, inputs[last], size);
      }
    }
  }

  /** The server acknowledged the size. */
  predicate AckOf(inputs: seq<Input>, size: int) {
    exists i :: 0 <= i < |inputs| && inputs[i].AckLine? && inputs[i].size == Some(size)
  }

  lemma AckOfSnoc(inputs: seq<Input>, input: Input, size: int)
    requires input.AckLine?
    ensures AckOf(inputs + [input], size) <==> AckOf(inputs, size) || input.size == Some(size)
  {
    var all := inputs + [input];
    assert all[|inputs|] == input && forall i :: 0 <= i < |inputs| ==> all[i] == inputs[i];
  }

  lemma EarlyConserved(c: Config, inputs: seq<Input>, size: int)
    requires BeforeClient(inputs)
    ensures Conserved(HandleAll(c, inputs).barrier.trace, size) <==> !AckOf(inputs, size)
  {
    EarlyRun(c, inputs);
    var trace := HandleAll(c, inputs).barrier.trace;
    assert ServerStart(size) !in trace && ClientStart(size) !in trace;
    assert Count(trace, ServerAck(size)) == 0 <==> ServerAck(size) !in trace;
  }

  /** A run that is not reported as failed conserves the STARTs of a size if and only if it
      got past the wait for the server, or the server never acknowledged that size. */
  lemma NotFailedConservesExactly(c: Config, inputs: seq<Input>, e: Ending, size: int)
    requires Possible(inputs, e) && !Verdict(HandleAll(c, inputs), e).Fail?
    ensures Conserved(HandleAll(c, inputs).barrier.trace, size) <==> e.Completed? || !AckOf(inputs, size)
  {
    if e.Completed? { ConservedWhenDone(c, inputs, size); } else { EarlyConserved(c, inputs, size); }
  }

  lemma HandleKeepsErrors(c: Config, r: Runner, input: Input)
    requires r.errors != []
    ensures Handle(c, r, input).errors != [] && Handle(c, r, input).errors[0] == r.errors[0]
  {
  }

  lemma {:induction false} FirstErrorStays(c: Config, inputs: seq<Input>, i: nat)
    requires i <= |inputs| && HandleAll(c, inputs[..i]).errors != []
    ensures HandleAll(c, inputs).errors != [] && HandleAll(c, inputs).errors[0] == HandleAll(c, inputs[..i]).errors[0]
    decreases |inputs|
  {
    if i == |inputs| {
      assert inputs[..i] == inputs;
    } else {
      var before := inputs[..|inputs| - 1];
      assert before[..i] == inputs[..i];
      FirstErrorStays(c, before, i);
      HandleKeepsErrors(c, HandleAll(c, before), inputs[|inputs| - 1]);
    }
  }

  /** A run that recorded an error at some point is reported as failed with the first error
      as its reason if and only if it got past the wait for the server and raised no
      exception. */
  lemma ErrorsAreFinal(c: Config, inputs: seq<Input>, i: nat, e: Ending)
    requires i <= |inputs| && HandleAll(c, inputs[..i]).errors != []
    ensures Verdict(HandleAll(c, inputs), e) == Fail(Handshake(HandleAll(c, inputs[..i]).errors[0])) <==> e.Completed?
    ensures Verdict(HandleAll(c, inputs), e).Fail? <==> !e.EarlyToken?
  {
    FirstErrorStays(c, inputs, i);
  }

  /** An acknowledgement and then a SKIP line before the server is ready: an error is
      recorded and an acknowledgement answered by no START, and the run counts as skipped. */
  lemma EarlySkipForgetsTheError(c: Config, size: int)
    ensures var inputs, e := [AckLine(Some(size), false, true)], EarlyToken(true);
      && Possible(inputs, e) && HandleAll(c, inputs).errors == [ServerAckMismatch(size)]
      && Verdict(HandleAll(c, inputs), e) == Skip && !Conserved(HandleAll(c, inputs).barrier.trace, size)
  {
    var input := AckLine(Some(size), false, true);
    assert [input][..0] == [];
    assert HandleAll(c, [input]) == Handle(c, HandleAll(c, []), input);
    assert [input][0].size == Some(size);
    EarlyConserved(c, [input], size);
  }

  // --- both runners send the same lines ---

  /** The same input for the C runner, which keeps no errors. */
  function ForC(c: Config, input: Input): CStreamBarrier.Input {
    match input
    case ClientStarted(_) => CStreamBarrier.Ignored
    case AckLine(size, clientUp, writeOk) =>
      if size.Some? then CStreamBarrier.AckLine(size.value, clientUp, writeOk) else CStreamBarrier.Ignored
    case ReadyLine(size, serverUp, writeOk, now) =>
      if size.Some? && size.value in c.expected
      then CStreamBarrier.ReadyLine(size.value, serverUp, writeOk, now) else CStreamBarrier.Ignored
    case OtherClientLine(next, serverUp, writeOk, now) => CStreamBarrier.Retry(next, serverUp, writeOk, now)
    case Sample(_, _, next, serverUp, writeOk, now) => CStreamBarrier.Retry(next, serverUp, writeOk, now)
  }

  function AllForC(c: Config, inputs: seq<Input>): seq<CStreamBarrier.Input>
    decreases |inputs|
  {
    if inputs == [] then []
    else AllForC(c, inputs[..|inputs| - 1]) + [ForC(c, inputs[|inputs| - 1])]
  }

  lemma SameStep(c: Config, r: Runner, input: Input)
    ensures Handle(c, r, input).barrier == CStreamBarrier.Handle(r.barrier, ForC(c, input))
  {
  }

  /** Whatever errors it records, the C++ runner keeps the sets of the C runner on the same
      inputs, and so sends exactly the STARTs that the lines before them call for. */
  lemma {:induction false} SameBarrierAsC(c: Config, inputs: seq<Input>)
    ensures HandleAll(c, inputs).barrier == CStreamBarrier.HandleAll(AllForC(c, inputs))
    ensures HandleAll(c, inputs).barrier.trace == CStreamBarrier.AnswerAll(AllForC(c, inputs))
    decreases |inputs|
  {
    CStreamBarrier.StartsAreExact(AllForC(c, inputs));
    if inputs != [] {
      var init, last := inputs[..|inputs| - 1], inputs[|inputs| - 1];
      SameBarrierAsC(c, init);
      SameStep(c, HandleAll(c, init), last);
      assert AllForC(c, inputs)[..|AllForC(c, inputs)| - 1] == AllForC(c, init);
    }
  }

  // --- which runs are free of errors, told from lines and times ---

  function TraceOf(c: Config, inputs: seq<Input>): seq<Line> {
    HandleAll(c, inputs).barrier.trace
  }

  /** When the client was started. */
  function ClientSince(inputs: seq<Input>): Option<real>
    decreases |inputs|
  {
    if inputs == [] then None
    else if inputs[|inputs| - 1].ClientStarted? then Some(inputs[|inputs| - 1].now)
    else ClientSince(inputs[..|inputs| - 1])
  }

  predicate SomeReady(trace: seq<Line>) {
    exists i :: 0 <= i < |trace| && trace[i].ClientReady?
  }

  /** The last input sends a START for the size to the server. */
  predicate SendsStart(c: Config, inputs: seq<Input>, size: int)
    requires inputs != []
  {
    Count(TraceOf(c, inputs), ServerStart(size)) > Count(TraceOf(c, inputs[..|inputs| - 1]), ServerStart(size))
  }

  /** When the last START for the size was sent to the server. */
  function LastSent(c: Config, inputs: seq<Input>, size: int): real
    decreases |inputs|
  {
    if inputs == [] then 0.0
    else
      var last := inputs[|inputs| - 1];
      if SendsStart(c, inputs, size) && !last.AckLine? then last.now else LastSent(c, inputs[..|inputs| - 1], size)
  }

  /** The server has been asked to start the size and has not answered for too long. */
  predicate Overdue(c: Config, inputs: seq<Input>, size: int, now: real) {
    PhaseOf(TraceOf(c, inputs), size).Requested? && now - LastSent(c, inputs, size) >= c.timeout
  }

  ghost predicate SomeOverdue(c: Config, inputs: seq<Input>, now: real) {
    exists size :: Overdue(c, inputs, size, now)
  }

  ghost predicate SomeRequested(trace: seq<Line>) {
    exists size :: PhaseOf(trace, size).Requested?
  }

  /** The client has been running for too long without any ready line. */
  predicate ClientLate(c: Config, inputs: seq<Input>, now: real) {
    !SomeReady(TraceOf(c, inputs)) && ClientSince(inputs).Some? && now - ClientSince(inputs).value >= c.timeout
  }

  /** What is wrong with an input after the given ones: a malformed, unexpected or
      unanswerable line, a START that cannot be sent, a deadline that has passed, a server
      that is gone while it is needed. */
  ghost predicate Faulty(c: Config, before: seq<Input>, input: Input) {
    var trace := TraceOf(c, before);
    match input
    case ClientStarted(_) => false
    case AckLine(size, clientUp, writeOk) =>
      size.None? || !clientUp || !writeOk || !PhaseOf(trace, size.value).Requested?
    case ReadyLine(size, serverUp, writeOk, _) =>
      size.None? || size.value !in c.expected || (PhaseOf(trace, size.value).Idle? && !(serverUp && writeOk))
    case OtherClientLine(_, _, _, _) => false
    case Sample(serverExited, _, _, _, _, now) =>
      ClientLate(c, before, now) || (serverExited && SomeRequested(trace)) || SomeOverdue(c, before, now)
  }

  ghost predicate Faultless(c: Config, inputs: seq<Input>) {
    forall i :: 0 <= i < |inputs| ==> !Faulty(c, inputs[..i], inputs[i])
  }

  lemma RequestedPhase(c: Config, inputs: seq<Input>, size: int)
    requires HandleAll(c, inputs).errors == []
    ensures PhaseOf(TraceOf(c, inputs), size) == if size in HandleAll(c, inputs).barrier.requested then Requested else Idle
  {
    InvOnEveryRun(c, inputs);
    var b := HandleAll(c, inputs).barrier;
    assert PhaseFits(b, size) && InStep(b, size);
    Conservation(b.trace, size);
  }

  lemma SomeReadySnoc(trace: seq<Line>, line: Line)
    ensures SomeReady(trace + [line]) <==> SomeReady(trace) || line.ClientReady?
  {
    var t := trace + [line];
    assert t[|trace|] == line && forall i :: 0 <= i < |trace| ==> t[i] == trace[i];
  }

  lemma ReadyStep(c: Config, r: Runner, input: Input)
    requires r.readySeen <==> SomeReady(r.barrier.trace)
    ensures Handle(c, r, input).readySeen <==> SomeReady(Handle(c, r, input).barrier.trace)
  {
    var trace := r.barrier.trace;
    match input
    case ClientStarted(_) =>
    case AckLine(size, _, _) =>
      if size.Some? {
        SomeReadySnoc(trace, ServerAck(size.value));
        SomeReadySnoc(trace + [ServerAck(size.value)], ClientStart(size.value));
      }
    case ReadyLine(size, _, _, _) =>
      if size.Some? {
        SomeReadySnoc(trace, ClientReady(size.value));
        SomeReadySnoc(trace + [ClientReady(size.value)], ServerStart(size.value));
      }
    case OtherClientLine(next, _, _, _) => SomeReadySnoc(trace, ServerStart(next));
    case Sample(_, _, next, _, _, _) => SomeReadySnoc(trace, ServerStart(next));
  }

  lemma {:induction false} ReadySeenMeans(c: Config, inputs: seq<Input>)
    ensures HandleAll(c, inputs).readySeen <==> SomeReady(TraceOf(c, inputs))
    ensures HandleAll(c, inputs).startedAt == ClientSince(inputs)
    decreases |inputs|
  {
    if inputs != [] {
      ReadySeenMeans(c, inputs[..|inputs| - 1]);
      ReadyStep(c, HandleAll(c, inputs[..|inputs| - 1]), inputs[|inputs| - 1]);
    }
  }

  /** The barrier remembers a new time exactly with a START to the server. */
  predicate TimeFollows(b: Barrier, b': Barrier, size: int, now: real) {
    if Count(b'.trace, ServerStart(size)) > Count(b.trace, ServerStart(size))
    then size in b'.times && b'.times[size] == now
    else size in b'.times ==> size in b.times && b'.times[size] == b.times[size]
  }

  lemma RequestTime(b: Barrier, z: int, up: bool, writeOk: bool, now: real, size: int)
    ensures TimeFollows(b, Request(b, z, up, writeOk, now).0, size, now)
  {
    CountSnoc(b.trace, ServerStart(z), ServerStart(size));
  }

  lemma ReadyTime(b: Barrier, z: int, up: bool, writeOk: bool, now: real, size: int)
    ensures TimeFollows(b, Request(Ready(b, z), z, up, writeOk, now).0, size, now)
  {
    CountSnoc(b.trace, ClientReady(z), ServerStart(size));
    RequestTime(Ready(b, z), z, up, writeOk, now, size);
  }

  lemma AckTime(b: Barrier, z: int, up: bool, writeOk: bool, size: int)
    ensures var b' := Forward(Saw(b, ServerAck(z)), z, up, writeOk).0;
      && Count(b'.trace, ServerStart(size)) == Count(b.trace, ServerStart(size))
      && (size in b'.times ==> size in b.times && b'.times[size] == b.times[size])
  {
    CountSnoc(b.trace, ServerAck(z), ServerStart(size));
    CountSnoc(b.trace + [ServerAck(z)], ClientStart(z), ServerStart(size));
  }

  /** A time is remembered or changed only with a START to the server. */
  predicate TimesFollow(b: Barrier, b': Barrier, input: Input, size: int) {
    if input.AckLine? || input.ClientStarted?
    then Count(b'.trace, ServerStart(size)) == Count(b.trace, ServerStart(size)) && TimeFollows(b, b', size, 0.0)
    else TimeFollows(b, b', size, input.now)
  }

  lemma RetryTimes(r: Runner, next: int, up: bool, writeOk: bool, now: real, size: int)
    ensures TimeFollows(r.barrier, Retry(r, next, up, writeOk, now).barrier, size, now)
  {
    RequestTime(r.barrier, next, up, writeOk, now, size);
  }

  lemma AckTimes(r: Runner, z: Option<int>, up: bool, writeOk: bool, size: int)
    ensures TimesFollow(r.barrier, OnAck(r, z, up, writeOk).barrier, AckLine(z, up, writeOk), size)
  {
    if z.Some? { AckTime(r.barrier, z.value, up, writeOk, size); }
  }

  lemma ReadyTimes(c: Config, r: Runner, z: Option<int>, up: bool, writeOk: bool, now: real, size: int)
    ensures TimeFollows(r.barrier, OnReady(c, r, z, up, writeOk, now).barrier, size, now)
  {
    if z.Some? { ReadyTime(r.barrier, z.value, up, writeOk, now, size); }
  }

  lemma TimesStep(c: Config, r: Runner, input: Input, size: int)
    ensures TimesFollow(r.barrier, Handle(c, r, input).barrier, input, size)
  {
    match input
    case ClientStarted(_) =>
    case AckLine(z, up, writeOk) => AckTimes(r, z, up, writeOk, size);
    case ReadyLine(z, up, writeOk, now) => ReadyTimes(c, r, z, up, writeOk, now, size);
    case OtherClientLine(z, up, writeOk, now) => RetryTimes(r, z, up, writeOk, now, size);
    case Sample(exited, oldest, z, up, writeOk, now) =>
      RetryTimes(CheckDeadlines(c, r, exited, oldest, now), z, up, writeOk, now, size);
  }

  lemma {:induction false} TimesMean(c: Config, inputs: seq<Input>, size: int)
    requires size in HandleAll(c, inputs).barrier.times
    ensures HandleAll(c, inputs).barrier.times[size] == LastSent(c, inputs, size)
    decreases |inputs|
  {
    if inputs != [] {
      TimesStep(c, HandleAll(c, inputs[..|inputs| - 1]), inputs[|inputs| - 1], size);
      if !SendsStart(c, inputs, size) { TimesMean(c, inputs[..|inputs| - 1], size); }
    }
  }

  lemma Member<T>(members: set<T>) returns (one: T)
    requires members != {}
    ensures one in members
  {
    one :| one in members;
  }

  lemma ExpiredMeans(c: Config, inputs: seq<Input>, size: int, now: real)
    requires HandleAll(c, inputs).errors == []
    ensures size in Expired(HandleAll(c, inputs).barrier.times, c.timeout, now) <==> Overdue(c, inputs, size, now)
  {
    InvOnEveryRun(c, inputs);
    RequestedPhase(c, inputs, size);
    if size in HandleAll(c, inputs).barrier.times { TimesMean(c, inputs, size); }
  }

  lemma SomeExpiredMeans(c: Config, inputs: seq<Input>, now: real)
    requires HandleAll(c, inputs).errors == []
    ensures Expired(HandleAll(c, inputs).barrier.times, c.timeout, now) != {} <==> SomeOverdue(c, inputs, now)
  {
    var expired := Expired(HandleAll(c, inputs).barrier.times, c.timeout, now);
    if expired != {} {
      var size := Member(expired);
      ExpiredMeans(c, inputs, size, now);
    }
    if size :| Overdue(c, inputs, size, now) { ExpiredMeans(c, inputs, size, now); }
  }

  lemma SomeRequestedMeans(c: Config, inputs: seq<Input>)
    requires HandleAll(c, inputs).errors == []
    ensures HandleAll(c, inputs).barrier.requested != {} <==> SomeRequested(TraceOf(c, inputs))
  {
    if HandleAll(c, inputs).barrier.requested != {} {
      var size := Member(HandleAll(c, inputs).barrier.requested);
      RequestedPhase(c, inputs, size);
    }
    if size :| PhaseOf(TraceOf(c, inputs), size).Requested? { RequestedPhase(c, inputs, size); }
  }

  lemma SampleErrors(c: Config, r: Runner, input: Input)
    requires r.errors == [] && r.barrier.pending == r.barrier.requested && input.Sample?
    ensures Handle(c, r, input).errors == [] <==>
      && (r.readySeen || r.startedAt.None? || input.now - r.startedAt.value < c.timeout)
      && (r.barrier.requested == {} || !input.serverExited)
      && Expired(r.barrier.times, c.timeout, input.now) == {}
  {
  }

  lemma SampleFault(c: Config, before: seq<Input>, input: Input)
    requires HandleAll(c, before).errors == [] && input.Sample?
    ensures Handle(c, HandleAll(c, before), input).errors == [] <==> !Faulty(c, before, input)
  {
    InvOnEveryRun(c, before);
    ReadySeenMeans(c, before);
    SomeExpiredMeans(c, before, input.now);
    SomeRequestedMeans(c, before);
    SampleErrors(c, HandleAll(c, before), input);
  }

  lemma FaultStep(c: Config, before: seq<Input>, input: Input)
    requires HandleAll(c, before).errors == []
    ensures Handle(c, HandleAll(c, before), input).errors == [] <==> !Faulty(c, before, input)
  {
    InvOnEveryRun(c, before);
    match input
    case AckLine(size, _, _) => if size.Some? { RequestedPhase(c, before, size.value); }
    case ReadyLine(size, _, _, _) => if size.Some? { RequestedPhase(c, before, size.value); }
    case Sample(_, _, _, _, _, _) => SampleFault(c, before, input);
    case _ =>
  }

  lemma FaultlessSnoc(c: Config, inputs: seq<Input>)
    requires inputs != []
    ensures var last := |inputs| - 1;
      Faultless(c, inputs) <==> Faultless(c, inputs[..last]) && !Faulty(c, inputs[..last], inputs[last])
  {
    var last := |inputs| - 1;
    var init := inputs[..last];
    forall i | 0 <= i < last ensures Faulty(c, init[..i], init[i]) <==> Faulty(c, inputs[..i], inputs[i]) {
      assert init[..i] == inputs[..i] && init[i] == inputs[i];
    }
  }

  /** A run records no error if and only if none of its inputs is faulty. */
  lemma {:induction false} NoErrorExactly(c: Config, inputs: seq<Input>)
    ensures HandleAll(c, inputs).errors == [] <==> Faultless(c, inputs)
    decreases |inputs|
  {
    if inputs != [] {
      var last := |inputs| - 1;
      var init := inputs[..last];
      NoErrorExactly(c, init);
      FaultlessSnoc(c, inputs);
      if HandleAll(c, init).errors == [] {
        FaultStep(c, init, inputs[last]);
      } else {
        HandleKeepsErrors(c, HandleAll(c, init), inputs[last]);
      }
    }
  }

  // --- the verdict, exactly ---

  /** Every START that was asked for has reached the client. */
  ghost predicate AllStarted(trace: seq<Line>) {
    forall size :: PhaseOf(trace, size).Idle?
  }

  /** The run came to its end in time, and both processes ended well. */
  predicate EndedWell(e: Ending) {
    e.Completed? && !e.timedOut && e.clientExit == 0 && (e.serverExit.None? || e.serverExit.value == 0)
  }

  ghost predicate Flawless(c: Config, inputs: seq<Input>, e: Ending) {
    EndedWell(e) && Faultless(c, inputs) && AllStarted(TraceOf(c, inputs))
  }

  lemma SettledMeans(c: Config, inputs: seq<Input>)
    ensures var r := HandleAll(c, inputs);
      r.barrier.pending == {} && r.barrier.requested == {} <==> AllStarted(r.barrier.trace)
  {
    InvOnEveryRun(c, inputs);
    var b := HandleAll(c, inputs).barrier;
    forall size ensures PhaseOf(b.trace, size).Idle? <==> size !in b.pending { assert PhaseFits(b, size); }
    if b.pending != {} {
      var size := Member(b.pending);
      assert !PhaseOf(b.trace, size).Idle?;
    }
  }

  /** For every run and ending: a success has no faulty input, every START delivered, both
      processes ended well and in time, and something parsed, and the other way round. The
      outcome is unsupported or a skip exactly if the run stopped early on that line, or was
      as flawless but parsed nothing and says so. */
  lemma VerdictIsExact(c: Config, inputs: seq<Input>, e: Ending)
    ensures var v, flawless := Verdict(HandleAll(c, inputs), e), Flawless(c, inputs, e);
      && (v.Success? <==> flawless && e.parsedAny)
      && (v.Skip? <==> e == EarlyToken(true) || (flawless && !e.parsedAny && e.token == Some(Skip)))
      && (v.Unsupported? <==>
            || e == EarlyToken(false)
            || (flawless && !e.parsedAny && (e.token == Some(Unsupported) || (e.token != Some(Skip) && e.protocolUnsupported))))
      && (v == Fail(NoData) <==>
            flawless && !e.parsedAny && e.token != Some(Skip) && e.token != Some(Unsupported) && !e.protocolUnsupported)
  {
    NoErrorExactly(c, inputs);
    SettledMeans(c, inputs);
  }

  /** The reason of a failed run that completed is the first thing that went wrong. */
  lemma FailureReasons(c: Config, inputs: seq<Input>, e: Ending)
    requires e.Completed? && Faultless(c, inputs)
    ensures var v, started := Verdict(HandleAll(c, inputs), e), AllStarted(TraceOf(c, inputs));
      && (v == Fail(BarrierIncomplete) <==> !started)
      && (v == Fail(TimedOut) <==> started && e.timedOut)
      && (v == Fail(ClientExit) <==> started && !e.timedOut && e.clientExit != 0)
      && (v == Fail(ServerExit) <==>
            started && !e.timedOut && e.clientExit == 0 && e.serverExit.Some? && e.serverExit.value != 0)
  {
    NoErrorExactly(c, inputs);
    SettledMeans(c, inputs);
  }

  // --- several sizes, one run each ---

  datatype SizeRun = SizeRun(config: Config, inputs: seq<Input>, ending: Ending)

  function StatusOf(run: SizeRun): Status {
    Verdict(HandleAll(run.config, run.inputs), run.ending)
  }

  ghost predicate Succeeds(run: SizeRun) {
    Flawless(run.config, run.inputs, run.ending) && run.ending.parsedAny
  }

  /** With several sizes each has a run of its own, and the merged status is a success
      exactly when all of them are flawless and parsed something; then every run conserves
      its STARTs. */
  method MergeRuns(runs: seq<SizeRun>) returns (success: bool)
    ensures success <==> forall i :: 0 <= i < |runs| ==> Succeeds(runs[i])
    ensures success ==> forall i, size :: 0 <= i < |runs| ==>
      Conserved(HandleAll(runs[i].config, runs[i].inputs).barrier.trace, size)
  {
    success := true;
    for i := 0 to |runs|
      invariant success <==> forall j :: 0 <= j < i ==> Succeeds(runs[j])
    {
      VerdictIsExact(runs[i].config, runs[i].inputs, runs[i].ending);
      if !StatusOf(runs[i]).Success? { success := false; }
    }
    if success {
      forall i, size | 0 <= i < |runs| ensures Conserved(HandleAll(runs[i].config, runs[i].inputs).barrier.trace, size) {
        VerdictIsExact(runs[i].config, runs[i].inputs, runs[i].ending);
        SuccessConservesStarts(runs[i].config, runs[i].inputs, runs[i].ending, size);
      }
    }
  }

  // --- the handlers as they update their state in place ---

  class StreamRunner {
    const config: Config
    var pending: set<int>
    var requested: set<int>
    var times: map<int, real>
    var errors: seq<Error>
    var readySeen: bool
    var startedAt: Option<real>
    ghost var trace: seq<Line>

    ghost function View(): Runner
      reads this
    {
      Runner(Barrier(pending, requested, times, trace), errors, readySeen, startedAt)
    }

    constructor (config: Config)
      ensures View() == START && this.config == config
    {
      this.config := config;
      pending, requested, times, trace := {}, {}, map[], [];
      errors, readySeen, startedAt := [], false, None;
    }

    method SendStart(size: int, serverUp: bool, writeOk: bool, now: real)
      requires times.Keys == requested
      modifies this
      ensures View() == SendSizeStart(old(View()), size, serverUp, writeOk, now)
      ensures errors == old(errors) + (if Refused(old(requested), size, serverUp, writeOk) then [ServerStartFailed(size)] else [])
      ensures requested == (if serverUp && writeOk then old(requested) + {size} else old(requested)) && pending == old(pending)
    {
      if serverUp && size !in requested {
        requested := requested + {size};
        times := times[size := now];
        if writeOk {
          trace := trace + [ServerStart(size)];
          return;
        }
        requested := requested - {size};
        times := times - {size};
        assert requested == old(requested) && times == old(times);
      }
      if size !in requested {
        errors := errors + [ServerStartFailed(size)];
      }
    }

    method AppendServerAck(size: Option<int>, clientUp: bool, writeOk: bool)
      modifies this
      ensures View() == OnAck(old(View()), size, clientUp, writeOk)
      ensures errors == old(errors) <==>
        size.Some? && clientUp && writeOk && size.value in old(pending) && size.value in old(requested)
      ensures errors == old(errors) ==> size.value !in pending && size.value !in requested && size.value !in times
      ensures errors != old(errors) ==> pending == old(pending) && requested == old(requested) && times == old(times)
    {
      if size.None? {
        errors := errors + [ServerAckMalformed];
        return;
      }
      var z := size.value;
      trace := trace + [ServerAck(z)];
      if clientUp && z in pending && z in requested && writeOk {
        trace := trace + [ClientStart(z)];
        pending := pending - {z};
        requested := requested - {z};
        times := times - {z};
      } else {
        errors := errors + [ServerAckMismatch(z)];
      }
    }

    method OnClientReady(size: Option<int>, serverUp: bool, writeOk: bool, now: real)
      requires times.Keys == requested
      modifies this
      ensures View() == OnReady(config, old(View()), size, serverUp, writeOk, now)
      ensures errors == old(errors) <==>
        size.Some? && size.value in config.expected && !Refused(old(requested), size.value, serverUp, writeOk)
      ensures errors == old(errors) ==> size.value in pending && size.value in requested
    {
      if size.None? || size.value !in config.expected {
        errors := errors + [ClientReadyMismatch];
        return;
      }
      readySeen := true;
      trace := trace + [ClientReady(size.value)];
      pending := pending + {size.value};
      SendStart(size.value, serverUp, writeOk, now);
    }

    /** The three deadline checks. */
    method CheckInTime(serverExited: bool, oldest: int, now: real)
      modifies this`errors
      ensures View() == CheckDeadlines(config, old(View()), serverExited, oldest, now)
      ensures errors == [] <==>
        && old(errors) == []
        && (readySeen || startedAt.None? || now - startedAt.value < config.timeout)
        && (requested == {} || !serverExited)
        && Expired(times, config.timeout, now) == {}
    {
      if !readySeen && errors == [] && startedAt.Some? && now - startedAt.value >= config.timeout {
        errors := errors + [ClientReadyTimeout];
      }
      if requested != {} && errors == [] && serverExited {
        errors := errors + [ServerExited];
      }
      if errors == [] && Expired(times, config.timeout, now) != {} {
        errors := errors + [ServerStartTimeout(oldest)];
      }
    }

    method OnClientSample(serverExited: bool, oldest: int, next: int, serverUp: bool, writeOk: bool, now: real)
      requires times.Keys == requested
      modifies this
      ensures View() == Handle(config, old(View()), Sample(serverExited, oldest, next, serverUp, writeOk, now))
      ensures errors == [] <==>
        && old(errors) == []
        && (readySeen || startedAt.None? || now - startedAt.value < config.timeout)
        && (old(requested) == {} || !serverExited)
        && Expired(old(times), config.timeout, now) == {}
        && (next in old(pending) ==> !Refused(old(requested), next, serverUp, writeOk))
    {
      CheckInTime(serverExited, oldest, now);
      if next in pending {
        SendStart(next, serverUp, writeOk, now);
      }
    }

    method Dispatch(input: Input)
      requires RunnerInv(config, View())
      modifies this
      ensures View() == Handle(config, old(View()), input) && RunnerInv(config, View())
    {
      HandleKeepsInv(config, View(), input);
      match input {
        case ClientStarted(now) => startedAt := Some(now);
        case AckLine(size, clientUp, writeOk) => AppendServerAck(size, clientUp, writeOk);
        case ReadyLine(size, serverUp, writeOk, now) => OnClientReady(size, serverUp, writeOk, now);
        case OtherClientLine(next, serverUp, writeOk, now) =>
          if next in pending { SendStart(next, serverUp, writeOk, now); }
        case Sample(serverExited, oldest, next, serverUp, writeOk, now) =>
          OnClientSample(serverExited, oldest, next, serverUp, writeOk, now);
      }
    }
  }
}
