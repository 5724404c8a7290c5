/**
 * The UART driver as a state machine over values: the transmission status,
 * the contents of the two queues and the bytes the hardware transmitter
 * has been handed.  Each function is one entry point of the driver; the
 * class in module UartDriver is proved to follow these functions step by
 * step.  The lemmas at the end state what the driver guarantees over any
 * sequence of calls: bytes leave in the order they were submitted, bytes
 * are read back in the order they arrived, and the transmitter is never
 * left idle while bytes wait in the transmit queue.
 */
module UartModel {
  import opened Files

  /** Transmission status: idle, or a byte is being shifted out. */
  datatype UartStatus = Repos | EnCours

  /** Returned by `Disponibles` when bytes remain, and when none do. */
  const DISPONIBLE: Octet := 255
  const EPUISE: Octet := 0

  /**
   * `capacite` is the common capacity of both queues; `transmission` and
   * `reception` are their contents, oldest first; `sink` is every byte
   * handed to the transmitter since the last reinitialisation.
   */
  datatype Uart = Uart(capacite: nat, etat: UartStatus,
                       transmission: seq<Octet>, reception: seq<Octet>,
                       sink: seq<Octet>)

  /** What every reachable state satisfies. */
  predicate Inv(s: Uart)
  {
    |s.transmission| <= s.capacite && |s.reception| <= s.capacite &&
    (s.etat == Repos ==> s.transmission == [])
  }

  /** Both queues empty, status idle, nothing sent; the capacity is kept. */
  function Reinitialise(s: Uart): (r: Uart)
  {
    Uart(s.capacite, Repos, [], [], [])
  }

  /** The busy-wait in uartPutch ends once this holds. */
  predicate PeutPutch(s: Uart)
  {
    s.etat == Repos || |s.transmission| < s.capacite
  }

  /** Idle: send `d` at once and become busy.  Busy: queue `d`. */
  function Putch(s: Uart, d: Octet): (r: Uart)
    requires PeutPutch(s)
  {
    if s.etat == Repos then s.(etat := EnCours, sink := s.sink + [d])
    else s.(transmission := s.transmission + [d])
  }

  /** A received byte joins the tail of the receive queue. */
  function Reception(s: Uart, c: Octet): (r: Uart)
    requires |s.reception| < s.capacite
  {
    s.(reception := s.reception + [c])
  }

  /** Takes the oldest received byte. */
  function Getch(s: Uart): (r: (Octet, Uart))
    requires s.reception != []
  {
    (s.reception[0], s.(reception := s.reception[1..]))
  }

  /** Empty transmit queue: go idle and answer 0.  Otherwise answer 255. */
  function Disponibles(s: Uart): (r: (Octet, Uart))
  {
    if s.transmission == [] then (EPUISE, s.(etat := Repos)) else (DISPONIBLE, s)
  }

  /** Takes the oldest byte waiting for transmission. */
  function Transmission(s: Uart): (r: (Octet, Uart))
    requires s.transmission != []
  {
    (s.transmission[0], s.(transmission := s.transmission[1..]))
  }

  /**
   * The transmitter-ready interrupt: ask whether bytes remain and only
   * then take the next one and hand it to the transmitter.
   */
  function Interruption(s: Uart): (r: Uart)
  {
    var (n, t) := Disponibles(s);
    if n != EPUISE then
      var (c, u) := Transmission(t);
      u.(sink := u.sink + [c])
    else t
  }

  /** The calls the driver accepts after start-up, one per entry point. */
  datatype Op =
    | OpPutch(d: Octet)
    | OpReception(c: Octet)
    | OpGetch
    | OpDisponibles
    | OpTransmission
    | OpInterruption
    | OpReinitialise

  /** An operation that can complete without waiting (or overflowing). */
  predicate Possible(s: Uart, op: Op)
  {
    match op
    case OpPutch(_) => PeutPutch(s)
    case OpReception(_) => |s.reception| < s.capacite
    case OpGetch => s.reception != []
    case OpTransmission => s.transmission != []
    case _ => true
  }

  function Step(s: Uart, op: Op): (r: Uart)
    requires Possible(s, op)
  {
    match op
    case OpPutch(d) => Putch(s, d)
    case OpReception(c) => Reception(s, c)
    case OpGetch => Getch(s).1
    case OpDisponibles => Disponibles(s).1
    case OpTransmission => Transmission(s).1
    case OpInterruption => Interruption(s)
    case OpReinitialise => Reinitialise(s)
  }

  /** The state after running `ops` from `s`; an operation that would block is skipped. */
  function Run(s: Uart, ops: seq<Op>): (r: Uart)
    decreases |ops|
  {
    if ops == [] then s
    else
      var t := Run(s, ops[..|ops| - 1]);
      var op := ops[|ops| - 1];
      if Possible(t, op) then Step(t, op) else t
  }

  /** No operation of `ops` would block or overflow when it is reached. */
  predicate Legal(s: Uart, ops: seq<Op>)
    decreases |ops|
  {
    ops == [] ||
    (Legal(s, ops[..|ops| - 1]) && Possible(Run(s, ops[..|ops| - 1]), ops[|ops| - 1]))
  }

  /** The bytes passed to uartPutch since the last reinitialisation. */
  function Soumis(ops: seq<Op>): (r: seq<Octet>)
    decreases |ops|
  {
    if ops == [] then []
    else
      match ops[|ops| - 1]
      case OpPutch(d) => Soumis(ops[..|ops| - 1]) + [d]
      case OpReinitialise => []
      case _ => Soumis(ops[..|ops| - 1])
  }

  /** The bytes passed to uartReception since the last reinitialisation. */
  function Recus(ops: seq<Op>): (r: seq<Octet>)
    decreases |ops|
  {
    if ops == [] then []
    else
      match ops[|ops| - 1]
      case OpReception(c) => Recus(ops[..|ops| - 1]) + [c]
      case OpReinitialise => []
      case _ => Recus(ops[..|ops| - 1])
  }

  /** The bytes uartGetch returned since the last reinitialisation. */
  function Lus(s: Uart, ops: seq<Op>): (r: seq<Octet>)
    decreases |ops|
  {
    if ops == [] then []
    else
      var t := Run(s, ops[..|ops| - 1]);
      match ops[|ops| - 1]
      case OpGetch => Lus(s, ops[..|ops| - 1]) + (if t.reception != [] then [t.reception[0]] else [])
      case OpReinitialise => []
      case _ => Lus(s, ops[..|ops| - 1])
  }

  /**
   * The bytes that left the driver since the last reinitialisation, in the
   * order they left: handed to the transmitter by uartPutch when idle or
   * by the interrupt routine, or returned by a direct uartTransmission.
   */
  function Sortis(s: Uart, ops: seq<Op>): (r: seq<Octet>)
    decreases |ops|
  {
    if ops == [] then []
    else
      var t := Run(s, ops[..|ops| - 1]);
      var tete := if t.transmission != [] then [t.transmission[0]] else [];
      match ops[|ops| - 1]
      case OpPutch(d) => Sortis(s, ops[..|ops| - 1]) + (if t.etat == Repos then [d] else [])
      case OpInterruption => Sortis(s, ops[..|ops| - 1]) + tete
      case OpTransmission => Sortis(s, ops[..|ops| - 1]) + tete
      case OpReinitialise => []
      case _ => Sortis(s, ops[..|ops| - 1])
  }

  /** The bytes a direct uartTransmission returned since the last reinitialisation. */
  function Pris(s: Uart, ops: seq<Op>): (r: seq<Octet>)
    decreases |ops|
  {
    if ops == [] then []
    else
      var t := Run(s, ops[..|ops| - 1]);
      match ops[|ops| - 1]
      case OpTransmission => Pris(s, ops[..|ops| - 1]) + (if t.transmission != [] then [t.transmission[0]] else [])
      case OpReinitialise => []
      case _ => Pris(s, ops[..|ops| - 1])
  }

  /** Every operation keeps the invariant. */
  lemma StepInv(s: Uart, op: Op)
    requires Inv(s) && Possible(s, op)
    ensures Inv(Step(s, op))
  {
  }

  /**
   * Ordering, over any legal run from a reinitialised driver: the bytes
   * that left the driver followed by those still queued are exactly the
   * bytes submitted, in the same order; when no byte was taken by a
   * direct uartTransmission, the bytes that left are exactly those handed
   * to the transmitter.  The bytes read back followed by those still
   * queued are exactly the bytes received.  The status is never idle
   * while bytes wait to be sent.
   */
  lemma {:induction false} Ordre(s: Uart, ops: seq<Op>)
    requires Legal(Reinitialise(s), ops)
    ensures var t := Run(Reinitialise(s), ops);
      Inv(t) &&
      Sortis(Reinitialise(s), ops) + t.transmission == Soumis(ops) &&
      (Pris(Reinitialise(s), ops) == [] ==> t.sink == Sortis(Reinitialise(s), ops)) &&
      Lus(Reinitialise(s), ops) + t.reception == Recus(ops)
  {
    var s0 := Reinitialise(s);
    if ops != [] {
      var pre, op := ops[..|ops| - 1], ops[|ops| - 1];
      Ordre(s, pre);
      var t := Run(s0, pre);
      StepInv(t, op);
      var sortis := Sortis(s0, pre);
      match op
      case OpPutch(d) =>
        assert Soumis(ops) == Soumis(pre) + [d];
        if t.etat == Repos {
          assert t.transmission == [];
        } else {
          assert sortis + (t.transmission + [d]) == (sortis + t.transmission) + [d];
        }
      case OpReception(c) =>
        assert Lus(s0, pre) + (t.reception + [c]) == (Lus(s0, pre) + t.reception) + [c];
      case OpGetch =>
        assert t.reception == [t.reception[0]] + t.reception[1..];
      case OpTransmission =>
        assert t.transmission == [t.transmission[0]] + t.transmission[1..];
        assert Pris(s0, ops) != [];
      case OpInterruption =>
        if t.transmission != [] {
          assert t.transmission == [t.transmission[0]] + t.transmission[1..];
        }
      case OpDisponibles =>
      case OpReinitialise =>
    }
  }

  /** No call changes the capacity of the queues. */
  lemma {:induction false} RunCapacite(s: Uart, ops: seq<Op>)
    ensures Run(s, ops).capacite == s.capacite
    decreases |ops|
  {
    if ops != [] {
      RunCapacite(s, ops[..|ops| - 1]);
    }
  }

  /**
   * Reinitialisation forgets the whole history: whatever calls came
   * before, the driver is then exactly in its reset state, idle with
   * both queues empty.
   */
  lemma ReinitialiseOublie(s: Uart, ops: seq<Op>)
    ensures var t := Run(s, ops + [OpReinitialise]);
      t == Reinitialise(s) && t.etat == Repos && t.transmission == [] && t.reception == [] &&
      Inv(t)
  {
    assert (ops + [OpReinitialise])[..|ops|] == ops;
    RunCapacite(s, ops);
  }

  /** Runs the transmitter-ready interrupt `n` times. */
  function Vidange(s: Uart, n: nat): (r: Uart)
    decreases n
  {
    if n == 0 then s else Vidange(Interruption(s), n - 1)
  }

  /**
   * Drain to idle: from a busy state, as many interrupts as there are
   * queued bytes send them all, in order, and one more returns the
   * driver to idle.
   */
  lemma {:induction false} VidangeVersRepos(s: Uart)
    requires Inv(s) && s.etat == EnCours
    decreases |s.transmission|
    ensures var t := Vidange(s, |s.transmission| + 1);
      t.etat == Repos && t.transmission == [] &&
      t.sink == s.sink + s.transmission &&
      t.reception == s.reception && t.capacite == s.capacite
  {
    if s.transmission != [] {
      var u := Interruption(s);
      assert u.sink == s.sink + [s.transmission[0]];
      assert u.transmission == s.transmission[1..];
      VidangeVersRepos(u);
      assert [s.transmission[0]] + s.transmission[1..] == s.transmission;
    }
  }

  /**
   * Receive round trip: a byte received is read back at once when the
   * receive queue was empty, and only after the older bytes otherwise.
   */
  lemma ReceptionPuisGetch(s: Uart, x: Octet)
    requires |s.reception| < s.capacite
    ensures var (c, t) := Getch(Reception(s, x));
      (s.reception == [] ==> c == x && t == s) &&
      (s.reception != [] ==> c == s.reception[0] && t.reception == s.reception[1..] + [x])
  {
  }
}
