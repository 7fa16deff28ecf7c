/** The shutdown flag. Every `AtomicBool` the process allocates is a cell of
    an arena (`true` means running); a `Signal` and the interrupt handler hold
    the index of the cell they share, so cloning a `Signal` copies the index.
    Loads and stores are sequential; memory ordering is not modelled. */
module Handler {
  import opened Wrappers
  import Logging

  /** The process's flag cells, in allocation order. */
  type Cells = seq<bool>

  /** What user code polls; `running` is the index of its cell. */
  datatype Signal = Signal(running: nat)

  /** The closure handed to the interrupt facility. */
  datatype SignalHandler = SignalHandler(logger: Logging.Logger, running: nat)

  /** `check`: a stop has been requested exactly when the cell no longer
      says running, that is, exactly when the handler sharing the cell would
      find nothing left to change. */
  function Check(cells: Cells, s: Signal): (stop: bool)
    requires s.running < |cells|
    ensures forall h: SignalHandler :: h.running == s.running ==> (stop <==> Fire(cells, h) == cells)
  {
    assert forall h: SignalHandler | h.running == s.running :: (Fire(cells, h) == cells <==> !cells[s.running]) by {
      forall h: SignalHandler | h.running == s.running
        ensures Fire(cells, h) == cells <==> !cells[s.running]
      {
        var fired := Fire(cells, h);
        if !cells[s.running] {
          assert forall c :: 0 <= c < |cells| ==> fired[c] == cells[c];
        } else {
          assert fired[s.running] != cells[s.running];
        }
      }
    }
    !cells[s.running]
  }

  /** What the handler logs when the interrupt arrives. */
  const SignalMessage := "Got Signal."

  /** One observable action of the handler. */
  datatype Effect =
    | Warn(logger: Logging.Logger, record: Logging.Record)
    | Store(cell: nat, value: bool)

  /** The handler's actions, in the order it performs them: it warns once,
      then stores false into its own cell once, and does nothing else. */
  function HandlerEffects(h: SignalHandler): (effects: seq<Effect>)
    ensures exists i, j ::
      (0 <= i < j < |effects|
       && effects[i] == Warn(h.logger, Logging.Record(Logging.Warning, SignalMessage, []))
       && effects[j] == Store(h.running, false))
    ensures forall k :: 0 <= k < |effects| && effects[k].Store? ==> effects[k] == Store(h.running, false)
    ensures 0 < |effects| && effects[0] == Warn(h.logger, Logging.Record(Logging.Warning, SignalMessage, []))
    ensures forall k :: 0 <= k < |effects| && effects[k].Warn? ==> k == 0
    ensures forall k, m :: 0 <= k < |effects| && 0 <= m < |effects| && effects[k].Store? && effects[m].Store? ==> k == m
  {
    var effects := [Warn(h.logger, Logging.Record(Logging.Warning, SignalMessage, [])), Store(h.running, false)];
    assert effects[0].Warn? && effects[1].Store?;
    effects
  }

  /** Every store in `effects` targets an allocated cell. */
  predicate StoresWithin(effects: seq<Effect>, cells: Cells) {
    forall k :: 0 <= k < |effects| && effects[k].Store? ==> effects[k].cell < |cells|
  }

  /** Performs `effects` in order; a store writes its cell, a warning leaves
      the cells alone. */
  function Apply(cells: Cells, effects: seq<Effect>): (r: Cells)
    requires StoresWithin(effects, cells)
    ensures |r| == |cells|
    ensures forall c ::
      (0 <= c < |cells| && (forall k :: 0 <= k < |effects| && effects[k].Store? ==> effects[k].cell != c)
       ==> r[c] == cells[c])
    decreases |effects|
  {
    if effects == [] then cells
    else
      var next := match effects[0]
        case Warn(_, _) => cells
        case Store(cell, value) => cells[cell := value];
      assert forall k :: 0 <= k < |effects[1..]| ==> effects[1..][k] == effects[k + 1];
      Apply(next, effects[1..])
  }

  /** The interrupt arrives and the handler runs: afterwards its cell says
      stopped and every other cell is as it was. */
  function Fire(cells: Cells, h: SignalHandler): (r: Cells)
    requires h.running < |cells|
    ensures |r| == |cells|
    ensures !r[h.running]
    ensures forall c :: 0 <= c < |cells| && c != h.running ==> r[c] == cells[c]
  {
    var effects := HandlerEffects(h);
    assert effects[1..][1..] == [];
    assert Apply(cells, effects) == Apply(cells, effects[1..]);
    assert Apply(cells, effects[1..]) == Apply(cells[h.running := false], effects[1..][1..]);
    Apply(cells, effects)
  }

  /** Running the handler again changes nothing: the flag only ever goes from
      running to stopped. */
  lemma FireIdempotent(cells: Cells, h: SignalHandler)
    requires h.running < |cells|
    ensures Fire(Fire(cells, h), h) == Fire(cells, h)
  {
  }

  /** The result of installing the handler. */
  datatype Installed = Installed(cells: Cells, signal: Signal, handler: SignalHandler)

  /** `set_handler`: allocates a fresh running cell shared by the new signal
      and the handler, then registers the handler; `register` is the
      registration's outcome. On failure nothing is returned. */
  function SetHandler(cells: Cells, logger: Logging.Logger, register: Outcome<string>): (r: Result<Installed, string>)
    ensures r.Failure? <==> register.Fail?
    ensures r.Failure? ==> r.error == register.error
    ensures r.Success? ==>
      && |r.value.cells| == |cells| + 1
      && r.value.cells[..|cells|] == cells
      && r.value.signal.running == r.value.handler.running == |cells|
      && r.value.handler.logger == logger
      && !Check(r.value.cells, r.value.signal)
  {
    var running := |cells|;
    match register
    case Fail(e) => Failure(e)
    case Pass => Success(Installed(cells + [true], Signal(running), SignalHandler(logger, running)))
  }

  /** Something that can happen while user code runs: the interrupt arrives,
      or some reader polls. */
  datatype Op = Interrupt | Poll

  /** What a signal's `check` returns after each of `ops`, an interrupt
      running handler `h`. */
  function Observe(cells: Cells, h: SignalHandler, s: Signal, ops: seq<Op>): (obs: seq<bool>)
    requires h.running < |cells| && s.running < |cells|
    ensures |obs| == |ops|
    decreases |ops|
  {
    if ops == [] then []
    else
      var next := if ops[0] == Interrupt then Fire(cells, h) else cells;
      [Check(next, s)] + Observe(next, h, s, ops[1..])
  }

  /** A reader sharing the handler's cell sees a stop exactly when the cell
      was already stopped or an interrupt has arrived by then. */
  lemma {:induction false} ObserveSharedCell(cells: Cells, h: SignalHandler, s: Signal, ops: seq<Op>)
    requires h.running < |cells| && s.running == h.running
    ensures forall i :: 0 <= i < |ops| ==>
      (Observe(cells, h, s, ops)[i] <==> Check(cells, s) || Interrupt in ops[..i + 1])
    decreases |ops|
  {
    if ops != [] {
      var next := if ops[0] == Interrupt then Fire(cells, h) else cells;
      var obs := Observe(cells, h, s, ops);
      var rest := Observe(next, h, s, ops[1..]);
      ObserveSharedCell(next, h, s, ops[1..]);
      assert obs == [Check(next, s)] + rest;
      assert Check(next, s) <==> Check(cells, s) || ops[0] == Interrupt;
      forall i | 0 <= i < |ops|
        ensures obs[i] <==> Check(cells, s) || Interrupt in ops[..i + 1]
      {
        var seen := ops[1..][..i];
        assert ops[..i + 1] == [ops[0]] + seen;
        assert Interrupt in ops[..i + 1] <==> ops[0] == Interrupt || Interrupt in seen;
        if i > 0 {
          assert obs[i] == rest[i - 1];
          assert rest[i - 1] <==> Check(next, s) || Interrupt in ops[1..][..i - 1 + 1];
        } else {
          assert seen == [];
        }
      }
    }
  }

  /** Once a reader sharing the handler's cell sees a stop, it keeps seeing
      one. */
  lemma {:induction false} ObserveMonotone(cells: Cells, h: SignalHandler, s: Signal, ops: seq<Op>, i: nat, j: nat)
    requires h.running < |cells| && s.running == h.running
    requires i <= j < |ops|
    ensures Observe(cells, h, s, ops)[i] ==> Observe(cells, h, s, ops)[j]
  {
    ObserveSharedCell(cells, h, s, ops);
    assert ops[..i + 1] <= ops[..j + 1];
  }

  /** A reader of another cell never sees the handler's store. */
  lemma {:induction false} ObserveOtherCell(cells: Cells, h: SignalHandler, s: Signal, ops: seq<Op>)
    requires h.running < |cells| && s.running < |cells| && s.running != h.running
    ensures forall i :: 0 <= i < |ops| ==> Observe(cells, h, s, ops)[i] == Check(cells, s)
    decreases |ops|
  {
    if ops != [] {
      var next := if ops[0] == Interrupt then Fire(cells, h) else cells;
      ObserveOtherCell(next, h, s, ops[1..]);
    }
  }

  /** A freshly installed signal reads "keep running" until the first
      interrupt and "stop" from then on. */
  lemma {:induction false} InstalledSignalLifecycle(cells: Cells, logger: Logging.Logger, ops: seq<Op>)
    ensures var r := SetHandler(cells, logger, Pass);
      var obs := Observe(r.value.cells, r.value.handler, r.value.signal, ops);
      forall i :: 0 <= i < |ops| ==> (obs[i] <==> Interrupt in ops[..i + 1])
  {
    var r := SetHandler(cells, logger, Pass);
    ObserveSharedCell(r.value.cells, r.value.handler, r.value.signal, ops);
  }
}
