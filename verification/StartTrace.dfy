/** The start handshake of a STREAM benchmark, seen from outside: which lines were
    received and which were sent, in order. */
module StartTrace {

  datatype Line =
    | ClientReady(size: int)   // received from the client
    | ServerStart(size: int)   // written to the server
    | ServerAck(size: int)     // received from the server
    | ClientStart(size: int)   // written to the client

  /** Where one message size stands in the handshake. `Wrong` means that a START was
      sent out of turn. */
  datatype Phase = Idle | Pending | Requested | Acked | Wrong

  function Advance(phase: Phase, line: Line): Phase {
    match line
    case ClientReady(_) => if phase.Idle? then Pending else phase
    case ServerStart(_) => if phase.Pending? then Requested else Wrong
    case ServerAck(_) => if phase.Requested? then Acked else phase
    case ClientStart(_) => if phase.Acked? then Idle else Wrong
  }

  function PhaseOf(trace: seq<Line>, size: int): Phase
    decreases |trace|
  {
    if trace == [] then Idle
    else
      var last := |trace| - 1;
      var before := PhaseOf(trace[..last], size);
      if trace[last].size == size then Advance(before, trace[last]) else before
  }

  function Count(trace: seq<Line>, line: Line): nat {
    multiset(trace)[line]
  }

  lemma PhaseSnoc(trace: seq<Line>, line: Line, size: int)
    ensures PhaseOf(trace + [line], size)
         == if line.size == size then Advance(PhaseOf(trace, size), line) else PhaseOf(trace, size)
  {
    assert (trace + [line])[..|trace|] == trace;
  }

  lemma CountSnoc(trace: seq<Line>, line: Line, l: Line)
    ensures Count(trace + [line], l) == Count(trace, l) + if l == line then 1 else 0
  {
  }

  /** A handshake that never goes wrong conserves lines: each START to the client uses
      up one ready line, one START to the server and one acknowledgement. */
  lemma {:induction false} Conservation(trace: seq<Line>, size: int)
    requires !PhaseOf(trace, size).Wrong?
    ensures var phase := PhaseOf(trace, size);
      var started := Count(trace, ClientStart(size));
      && Count(trace, ServerStart(size)) == started + (if phase.Requested? || phase.Acked? then 1 else 0)
      && Count(trace, ClientReady(size)) >= started + (if phase.Idle? then 0 else 1)
      && Count(trace, ServerAck(size)) >= started + (if phase.Acked? then 1 else 0)
    decreases |trace|
  {
    if trace != [] {
      var last := |trace| - 1;
      assert trace == trace[..last] + [trace[last]];
      PhaseSnoc(trace[..last], trace[last], size);
      CountSnoc(trace[..last], trace[last], ClientReady(size));
      CountSnoc(trace[..last], trace[last], ServerStart(size));
      CountSnoc(trace[..last], trace[last], ServerAck(size));
      CountSnoc(trace[..last], trace[last], ClientStart(size));
      Conservation(trace[..last], size);
    }
  }

  predicate ReadyIn(trace: seq<Line>, size: int, from: nat) {
    exists r :: from <= r < |trace| && trace[r] == ClientReady(size)
  }

  predicate RequestIn(trace: seq<Line>, size: int, from: nat) {
    exists r, s :: from <= r < s < |trace| && trace[r] == ClientReady(size) && trace[s] == ServerStart(size)
  }

  predicate AckIn(trace: seq<Line>, size: int, from: nat) {
    exists r, s, a :: from <= r < s < a < |trace|
      && trace[r] == ClientReady(size) && trace[s] == ServerStart(size) && trace[a] == ServerAck(size)
  }

  lemma Longer(trace: seq<Line>, line: Line, size: int, from: nat)
    ensures ReadyIn(trace, size, from) ==> ReadyIn(trace + [line], size, from)
    ensures RequestIn(trace, size, from) ==> RequestIn(trace + [line], size, from)
    ensures AckIn(trace, size, from) ==> AckIn(trace + [line], size, from)
  {
    var t := trace + [line];
    if r :| from <= r < |trace| && trace[r] == ClientReady(size) {
      assert t[r] == ClientReady(size);
    }
    if r, s :| from <= r < s < |trace| && trace[r] == ClientReady(size) && trace[s] == ServerStart(size) {
      assert t[r] == ClientReady(size) && t[s] == ServerStart(size);
    }
    if r, s, a :| from <= r < s < a < |trace| && trace[r] == ClientReady(size) && trace[s] == ServerStart(size) && trace[a] == ServerAck(size) {
      assert t[r] == ClientReady(size) && t[s] == ServerStart(size) && t[a] == ServerAck(size);
    }
  }

  /** The phase tells what happened, in order, since the given moment. */
  predicate InOrder(trace: seq<Line>, size: int, from: nat) {
    && (PhaseOf(trace, size).Pending? ==> ReadyIn(trace, size, from))
    && (PhaseOf(trace, size).Requested? ==> RequestIn(trace, size, from))
    && (PhaseOf(trace, size).Acked? ==> AckIn(trace, size, from))
  }

  lemma NewReady(before: seq<Line>, size: int, from: nat)
    requires from <= |before|
    ensures ReadyIn(before + [ClientReady(size)], size, from)
  {
    assert (before + [ClientReady(size)])[|before|] == ClientReady(size);
  }

  lemma OrderNext(before: seq<Line>, line: Line, size: int, from: nat)
    requires from <= |before| && InOrder(before, size, from)
    ensures InOrder(before + [line], size, from)
  {
    PhaseSnoc(before, line, size);
    Longer(before, line, size, from);
    if line == ClientReady(size) { NewReady(before, size, from); }
    if line == ServerStart(size) && PhaseOf(before, size).Pending? { NewRequest(before, size, from); }
    if line == ServerAck(size) && PhaseOf(before, size).Requested? { NewAck(before, size, from); }
  }

  /** What must have happened, in order, since a moment at which the size was idle. */
  lemma {:induction false} OrderSince(trace: seq<Line>, size: int, from: nat)
    requires from <= |trace| && PhaseOf(trace[..from], size) == Idle
    ensures InOrder(trace, size, from)
    decreases |trace|
  {
    if from == |trace| {
      assert trace[..from] == trace;
    } else {
      var last := |trace| - 1;
      assert trace[..last][..from] == trace[..from] && trace == trace[..last] + [trace[last]];
      OrderSince(trace[..last], size, from);
      OrderNext(trace[..last], trace[last], size, from);
    }
  }

  lemma NewRequest(before: seq<Line>, size: int, from: nat)
    requires ReadyIn(before, size, from)
    ensures RequestIn(before + [ServerStart(size)], size, from)
  {
    var r :| from <= r < |before| && before[r] == ClientReady(size);
    var t := before + [ServerStart(size)];
    assert t[r] == ClientReady(size) && t[|before|] == ServerStart(size);
  }

  lemma NewAck(before: seq<Line>, size: int, from: nat)
    requires RequestIn(before, size, from)
    ensures AckIn(before + [ServerAck(size)], size, from)
  {
    var r, s :| from <= r < s < |before| && before[r] == ClientReady(size) && before[s] == ServerStart(size);
    var t := before + [ServerAck(size)];
    assert t[r] == ClientReady(size) && t[s] == ServerStart(size) && t[|before|] == ServerAck(size);
  }

  lemma {:induction false} RightSoFar(trace: seq<Line>, size: int, i: nat)
    requires i <= |trace| && !PhaseOf(trace, size).Wrong?
    ensures !PhaseOf(trace[..i], size).Wrong?
    decreases |trace|
  {
    if i < |trace| {
      var last := |trace| - 1;
      RightSoFar(trace[..last], size, i);
      assert trace[..last][..i] == trace[..i];
    } else {
      assert trace[..i] == trace;
    }
  }

  /** Every START to the client follows a ready line, a START to the server and an
      acknowledgement, in this order and all of them newer than the previous START to
      the client for that size (`i` is just after it, or 0). */
  lemma ClientStartInTurn(trace: seq<Line>, size: int, i: nat, j: nat)
    requires !PhaseOf(trace, size).Wrong? && i <= j < |trace| && trace[j] == ClientStart(size)
    requires i == 0 || trace[i - 1] == ClientStart(size)
    ensures AckIn(trace[..j], size, i)
  {
    RightSoFar(trace, size, j + 1);
    assert trace[..j + 1] == trace[..j] + [trace[j]];
    PhaseSnoc(trace[..j], trace[j], size);
    RightSoFar(trace, size, i);
    if i > 0 {
      assert trace[..i] == trace[..i - 1] + [trace[i - 1]];
      PhaseSnoc(trace[..i - 1], trace[i - 1], size);
    }
    assert trace[..j][..i] == trace[..i];
    OrderSince(trace[..j], size, i);
  }
}
