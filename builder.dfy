/** The imperative pulse builder: an active block being built, a lazily
    extended circuit that is compiled into pulses whenever the block is about
    to change, transpiler and scheduler settings, and the stack of open
    scoping contexts (alignment transforms, `inline`, settings overrides,
    phase offsets).

    The schedule class, the transpiler/scheduler and the alignment
    transforms are not part of this model: a schedule is the ordered record
    of what was appended to it (`Sched`), and the three external steps are
    functions carried by `Env`. */
module Builder {
  import opened Common
  import opened Instructions

  // ---------------------------------------------------------------- blocks and circuits

  /** What a schedule block received, in order: single instructions and
      whole sub-schedules. */
  datatype Node = Instr(instr: Instruction) | Sub(nodes: seq<Node>)
  type Sched = seq<Node>

  /** The instructions of a schedule, counted with multiplicity, at any depth. */
  function LeafBag(s: Sched): multiset<Instruction>
    decreases s, 0
  {
    if |s| == 0 then multiset{} else NodeBag(s[0]) + LeafBag(s[1..])
  }

  function NodeBag(n: Node): multiset<Instruction>
    decreases n, 1
  {
    match n
    case Instr(i) => multiset{i}
    case Sub(ns) => LeafBag(ns)
  }

  /** `Instr` nodes for a list of instructions, in order. */
  function InstrNodes(xs: seq<Instruction>): (r: Sched)
    ensures |r| == |xs| && forall k :: 0 <= k < |xs| ==> r[k] == Instr(xs[k])
  {
    if |xs| == 0 then [] else [Instr(xs[0])] + InstrNodes(xs[1..])
  }

  lemma {:induction false} InstrNodesBag(xs: seq<Instruction>)
    ensures LeafBag(InstrNodes(xs)) == multiset(xs)
  {
    if |xs| > 0 {
      InstrNodesBag(xs[1..]);
      assert InstrNodes(xs)[1..] == InstrNodes(xs[1..]);
      assert xs == [xs[0]] + xs[1..];
    }
  }

  lemma {:induction false} LeafBagConcat(a: Sched, b: Sched)
    ensures LeafBag(a + b) == LeafBag(a) + LeafBag(b)
  {
    if |a| > 0 {
      assert (a + b)[0] == a[0] && (a + b)[1..] == a[1..] + b;
      LeafBagConcat(a[1..], b);
    } else {
      assert a + b == b;
    }
  }

  datatype Register = Register(name: string, size: nat)
  datatype Gate = Gate(name: string, qubits: seq<nat>)
  datatype QCircuit = QCircuit(numQubits: nat, cregs: seq<Register>, ops: seq<Gate>)

  /** Python truthiness of a circuit: it has at least one operation. */
  predicate Nonempty(c: QCircuit) { |c.ops| > 0 }

  /** `QuantumCircuit(n)`: `n` qubits, no registers of bits, no operations. */
  function EmptyCircuit(n: nat): QCircuit { QCircuit(n, [], []) }

  function RegisterNames(regs: seq<Register>): (r: seq<string>)
    ensures |r| == |regs| && forall k :: 0 <= k < |regs| ==> r[k] == regs[k].name
  {
    if |regs| == 0 then [] else [regs[0].name] + RegisterNames(regs[1..])
  }

  /** Adding `added` one by one; a register whose name is taken raises a
      CircuitError that the caller swallows, so it is skipped. */
  function MergeRegisters(regs: seq<Register>, added: seq<Register>): seq<Register>
    decreases |added|
  {
    if |added| == 0 then regs
    else
      var prev := MergeRegisters(regs, added[..|added| - 1]);
      var r := added[|added| - 1];
      if r.name in RegisterNames(prev) then prev else prev + [r]
  }

  /** Register names stay unique, the old registers come first, and every
      added name ends up present. */
  lemma {:induction false} MergeRegistersProperties(regs: seq<Register>, added: seq<Register>)
    requires forall i, j :: 0 <= i < j < |regs| ==> regs[i].name != regs[j].name
    ensures var m := MergeRegisters(regs, added);
            && |regs| <= |m| && m[..|regs|] == regs
            && (forall i, j :: 0 <= i < j < |m| ==> m[i].name != m[j].name)
            && (forall k :: 0 <= k < |added| ==> added[k].name in RegisterNames(m))
    decreases |added|
  {
    if |added| > 0 {
      var init := added[..|added| - 1];
      MergeRegistersProperties(regs, init);
      var prev := MergeRegisters(regs, init);
      var r := added[|added| - 1];
      var m := MergeRegisters(regs, added);
      if r.name !in RegisterNames(prev) {
        assert m == prev + [r];
        assert m[..|regs|] == prev[..|regs|];
        forall i, j | 0 <= i < j < |m| ensures m[i].name != m[j].name {
          if j == |prev| {
            assert RegisterNames(prev)[i] == prev[i].name;
          }
        }
        forall k | 0 <= k < |added| ensures added[k].name in RegisterNames(m) {
          if k < |added| - 1 {
            assert added[k] == init[k];
            var n :| 0 <= n < |prev| && RegisterNames(prev)[n] == added[k].name;
            assert RegisterNames(m)[n] == m[n].name == prev[n].name;
          } else {
            assert RegisterNames(m)[|prev|] == r.name;
          }
        }
      } else {
        forall k | 0 <= k < |added| ensures added[k].name in RegisterNames(m) {
          if k < |added| - 1 { assert added[k] == init[k]; }
        }
      }
    }
  }

  /** `compose(circ, inplace=True)` after the registers were added: the
      operations are appended after the pending ones. */
  function Compose(base: QCircuit, circ: QCircuit): (r: QCircuit)
    ensures r.ops == base.ops + circ.ops && r.numQubits == base.numQubits
  {
    base.(cregs := MergeRegisters(base.cregs, circ.cregs), ops := base.ops + circ.ops)
  }

  // ---------------------------------------------------------------- environment

  /** The backend: its qubit count, the channels of each qubit, and the
      measurement macro of its instruction map. */
  datatype Backend = Backend(nQubits: nat, qubitChannels: nat -> set<Channel>,
                             measureMacro: (seq<nat>, seq<Channel>) -> Sched)

  type Settings = map<string, string>

  /** The alignment policies of `_align`, and the other transforms of the
      scoping contexts. */
  datatype Alignment = AlignLeft | AlignRight | AlignSequential
  datatype TransformKind = Align(alignment: Alignment) | Group | Pad(chs: seq<Channel>)

  /** What the builder calls but does not define: its backend, transpiling
      and scheduling a circuit with the given settings, applying a
      transform to a block, and the instructions of a block in time order. */
  datatype Env = Env(backend: Option<Backend>,
                     compileCircuit: (QCircuit, Settings, Settings) -> Sched,
                     transform: (TransformKind, Sched) -> Sched,
                     timeOrder: Sched -> seq<Instruction>)

  /** A block's time-ordered instruction list holds exactly its instructions. */
  ghost predicate EnvOk(env: Env)
  {
    forall b :: multiset(env.timeOrder(b)) == LeafBag(b)
  }

  /** `_align`: the three supported names, PulseError otherwise. */
  function AlignmentOf(name: string): (r: Result<Alignment>)
    ensures r.Ok? <==> name in {"left", "right", "sequential"}
    ensures r.Err? ==> r.error.PulseError?
    ensures name == "left" ==> r == Ok(AlignLeft)
    ensures name == "right" ==> r == Ok(AlignRight)
    ensures name == "sequential" ==> r == Ok(AlignSequential)
  {
    if name == "left" then Ok(AlignLeft)
    else if name == "right" then Ok(AlignRight)
    else if name == "sequential" then Ok(AlignSequential)
    else Err(PulseError("Alignment is not supported."))
  }

  // ---------------------------------------------------------------- builder state

  /** An open scoping context and what it restores on exit. */
  datatype Scope =
    | TransformScope(t: TransformKind, saved: Sched)
    | InlineScope(saved: Sched)
    | TranspilerScope(savedSettings: Settings)
    | SchedulerScope(savedSettings: Settings)
    | PhaseScope(phase: real, channel: Channel)

  /** The builder's state: the root program, the active block, the lazy
      circuit (None until first needed), both settings maps and the open
      scopes, innermost last. */
  datatype BState = BState(root: Sched, block: Sched, lazy: Option<QCircuit>,
                           ts: Settings, ss: Settings, scopes: seq<Scope>)

  /** A lazy circuit only exists when there is a backend to size it. */
  predicate Coherent(env: Env, s: BState) { s.lazy.Some? ==> env.backend.Some? }

  predicate Pending(s: BState) { s.lazy.Some? && Nonempty(s.lazy.value) }

  /** What a flush appends to the active block: the compiled lazy circuit, if any. */
  function PendingNodes(env: Env, s: BState): Sched
  {
    if Pending(s) then [Sub(env.compileCircuit(s.lazy.value, s.ts, s.ss))] else []
  }

  /** `_compile_lazy_circuit`. */
  function FlushSpec(env: Env, s: BState): (r: BState)
    requires Coherent(env, s)
    ensures Coherent(env, r)
  {
    if Pending(s) then
      s.(lazy := Some(EmptyCircuit(env.backend.value.nQubits)),
         block := s.block + [Sub(env.compileCircuit(s.lazy.value, s.ts, s.ss))])
    else s
  }

  /** A flush leaves nothing pending, appends exactly the compiled circuit
      (nothing when the circuit is empty), touches nothing else, and a second
      flush changes nothing. */
  lemma FlushFacts(env: Env, s: BState)
    requires Coherent(env, s)
    ensures var f := FlushSpec(env, s);
            && !Pending(f)
            && f.block == s.block + PendingNodes(env, s)
            && f.root == s.root && f.ts == s.ts && f.ss == s.ss && f.scopes == s.scopes
            && (Pending(s) ==> f.lazy == Some(EmptyCircuit(env.backend.value.nQubits)))
            && (!Pending(s) ==> f == s)
            && FlushSpec(env, f) == f
  {
  }

  function AppendInstructionSpec(env: Env, s: BState, i: Instruction): BState
    requires Coherent(env, s)
  {
    var f := FlushSpec(env, s);
    f.(block := f.block + [Instr(i)])
  }

  function AppendBlockSpec(env: Env, s: BState, b: Sched): BState
    requires Coherent(env, s)
  {
    var f := FlushSpec(env, s);
    f.(block := f.block + [Sub(b)])
  }

  function SetActiveBlockSpec(env: Env, s: BState, b: Sched): BState
    requires Coherent(env, s)
  {
    FlushSpec(env, s).(block := b)
  }

  function SetTranspilerSettingsSpec(env: Env, s: BState, m: Settings): BState
    requires Coherent(env, s)
  {
    FlushSpec(env, s).(ts := m)
  }

  function SetSchedulerSettingsSpec(env: Env, s: BState, m: Settings): BState
    requires Coherent(env, s)
  {
    FlushSpec(env, s).(ss := m)
  }

  /** `compile`: the active block becomes the last child of the root and a
      fresh block is started. */
  function CompileSpec(env: Env, s: BState): BState
    requires Coherent(env, s)
  {
    var f := FlushSpec(env, s);
    f.(root := f.root + [Sub(f.block)], block := [])
  }

  /** Every block-changing operation flushes first: the pending circuit's
      schedule lands in the old active block, before the new content, and
      under the settings in force before the change. */
  lemma FlushBeforeChange(env: Env, s: BState, i: Instruction, b: Sched, m: Settings)
    requires Coherent(env, s)
    ensures AppendInstructionSpec(env, s, i).block == s.block + PendingNodes(env, s) + [Instr(i)]
    ensures AppendBlockSpec(env, s, b).block == s.block + PendingNodes(env, s) + [Sub(b)]
    ensures CompileSpec(env, s).root == s.root + [Sub(s.block + PendingNodes(env, s))]
    ensures CompileSpec(env, s).block == [] && !Pending(CompileSpec(env, s))
    ensures SetActiveBlockSpec(env, s, b).block == b && !Pending(SetActiveBlockSpec(env, s, b))
    ensures SetTranspilerSettingsSpec(env, s, m).block == s.block + PendingNodes(env, s)
    ensures SetTranspilerSettingsSpec(env, s, m).ts == m && !Pending(SetTranspilerSettingsSpec(env, s, m))
    ensures SetSchedulerSettingsSpec(env, s, m).block == s.block + PendingNodes(env, s)
    ensures SetSchedulerSettingsSpec(env, s, m).ss == m
  {
    FlushFacts(env, s);
  }

  /** `_call_circuit`: extend the lazy circuit, creating it first when absent
      with the backend's qubit count: its registers merged with the called
      circuit's, its operations followed by the called ones; nothing else
      changes. */
  function CallInnerSpec(env: Env, s: BState, circ: QCircuit): (r: BState)
    requires env.backend.Some?
    ensures Coherent(env, r) && r.lazy.Some? && r == s.(lazy := r.lazy)
    ensures r.lazy.value.ops == (if s.lazy.Some? then s.lazy.value.ops else []) + circ.ops
    ensures r.lazy.value.numQubits == (if s.lazy.Some? then s.lazy.value.numQubits else env.backend.value.nQubits)
    ensures r.lazy.value.cregs == MergeRegisters(if s.lazy.Some? then s.lazy.value.cregs else [], circ.cregs)
  {
    var base := if s.lazy.None? then EmptyCircuit(env.backend.value.nQubits) else s.lazy.value;
    s.(lazy := Some(Compose(base, circ)))
  }

  /** `call_circuit`: BackendNotSet without a backend; lazily it only extends
      the pending circuit, otherwise it flushes before and after. */
  function CallCircuitSpec(env: Env, s: BState, circ: QCircuit, lazy: bool): (r: Result<BState>)
    requires Coherent(env, s)
    ensures r.Err? <==> env.backend.None?
    ensures r.Err? ==> r.error == BackendNotSet
  {
    if env.backend.None? then Err(BackendNotSet)
    else if lazy then Ok(CallInnerSpec(env, s, circ))
    else Ok(FlushSpec(env, CallInnerSpec(env, FlushSpec(env, s), circ)))
  }

  /** A lazy call changes no block: its operations join the pending ones. */
  lemma LazyCallOnlyExtends(env: Env, s: BState, circ: QCircuit)
    requires Coherent(env, s) && env.backend.Some?
    ensures var r := CallCircuitSpec(env, s, circ, true).value;
            && r.block == s.block && r.root == s.root && r.scopes == s.scopes
            && r.lazy.Some?
            && r.lazy.value.ops == (if s.lazy.Some? then s.lazy.value.ops else []) + circ.ops
  {
  }

  /** An eager call compiles the called circuit on its own: first what was
      pending, then a circuit holding exactly the called operations, and
      nothing is left pending. */
  lemma EagerCallCompilesAlone(env: Env, s: BState, circ: QCircuit)
    requires Coherent(env, s) && env.backend.Some?
    ensures var r := CallCircuitSpec(env, s, circ, false).value;
            && !Pending(r) && r.root == s.root && r.scopes == s.scopes
            && |r.block| == |s.block| + |PendingNodes(env, s)| + (if Nonempty(circ) then 1 else 0)
            && r.block[..|s.block| + |PendingNodes(env, s)|] == s.block + PendingNodes(env, s)
            && (Nonempty(circ) ==> exists c: QCircuit :: c.ops == circ.ops
                                       && r.block[|r.block| - 1] == Sub(env.compileCircuit(c, s.ts, s.ss)))
  {
    var f := FlushSpec(env, s);
    FlushFacts(env, s);
    var g := CallInnerSpec(env, f, circ);
    assert g.lazy.value.ops == circ.ops;
    var r := FlushSpec(env, g);
    FlushFacts(env, g);
    assert r.block[..|f.block|] == f.block;
  }

  // ---------------------------------------------------------------- scopes

  function ShiftPhaseInstr(phase: real, ch: Channel): Instruction
  {
    ShiftPhase(phase, ch).value
  }

  /** Entering a transform context: the flushed active block is saved and a
      fresh empty block becomes active. */
  function EnterTransformSpec(env: Env, s: BState, t: TransformKind): BState
    requires Coherent(env, s)
  {
    var f := FlushSpec(env, s);
    f.(block := [], scopes := f.scopes + [TransformScope(t, f.block)])
  }

  function EnterInlineSpec(env: Env, s: BState): BState
    requires Coherent(env, s)
  {
    var f := FlushSpec(env, s);
    f.(block := [], scopes := f.scopes + [InlineScope(f.block)])
  }

  /** Entering a settings context: the new settings are looked up before
      the current ones (a chain map), and the current ones are kept. */
  function EnterTranspilerSettingsSpec(env: Env, s: BState, m: Settings): BState
    requires Coherent(env, s)
  {
    SetTranspilerSettingsSpec(env, s, s.ts + m).(scopes := s.scopes + [TranspilerScope(s.ts)])
  }

  function EnterSchedulerSettingsSpec(env: Env, s: BState, m: Settings): BState
    requires Coherent(env, s)
  {
    SetSchedulerSettingsSpec(env, s, s.ss + m).(scopes := s.scopes + [SchedulerScope(s.ss)])
  }

  function EnterPhaseOffsetSpec(env: Env, s: BState, phase: real, ch: Channel): BState
    requires Coherent(env, s)
  {
    AppendInstructionSpec(env, s, ShiftPhaseInstr(phase, ch)).(scopes := s.scopes + [PhaseScope(phase, ch)])
  }

  /** The scoping contexts the builder offers. */
  datatype Context =
    | TransformCtx(t: TransformKind)
    | InlineCtx
    | TranspilerCtx(settings: Settings)
    | SchedulerCtx(settings: Settings)
    | PhaseOffsetCtx(phase: real, channel: Channel)

  /** Entering a context pushes exactly one scope. */
  function EnterSpec(env: Env, s: BState, c: Context): (r: BState)
    requires Coherent(env, s)
    ensures Coherent(env, r) && |r.scopes| == |s.scopes| + 1 && r.scopes[..|s.scopes|] == s.scopes
  {
    match c
    case TransformCtx(t) => EnterTransformSpec(env, s, t)
    case InlineCtx => EnterInlineSpec(env, s)
    case TranspilerCtx(m) => EnterTranspilerSettingsSpec(env, s, m)
    case SchedulerCtx(m) => EnterSchedulerSettingsSpec(env, s, m)
    case PhaseOffsetCtx(phase, ch) => EnterPhaseOffsetSpec(env, s, phase, ch)
  }

  /** Leaving the innermost context (also when its body raised): flush, then
      undo what entering did. */
  function ExitSpec(env: Env, s: BState): (r: BState)
    requires Coherent(env, s) && |s.scopes| > 0
    ensures Coherent(env, r) && r.scopes == s.scopes[..|s.scopes| - 1]
  {
    var f := FlushSpec(env, s);
    var rest := s.scopes[..|s.scopes| - 1];
    match s.scopes[|s.scopes| - 1]
    case TransformScope(t, saved) => f.(block := saved + [Sub(env.transform(t, f.block))], scopes := rest)
    case InlineScope(saved) => f.(block := saved + InstrNodes(env.timeOrder(f.block)), scopes := rest)
    case TranspilerScope(saved) => f.(ts := saved, scopes := rest)
    case SchedulerScope(saved) => f.(ss := saved, scopes := rest)
    case PhaseScope(phase, ch) => f.(block := f.block + [Instr(ShiftPhaseInstr(-phase, ch))], scopes := rest)
  }

  /** Scopes nest strictly: leaving after entering, with the stack as it
      was on entry, closes exactly the scope that was opened. */
  lemma ScopesNestStrictly(env: Env, s: BState, c: Context, u: BState)
    requires Coherent(env, s) && Coherent(env, u)
    requires u.scopes == EnterSpec(env, s, c).scopes
    ensures ExitSpec(env, u).scopes == s.scopes
  {
    assert u.scopes[..|u.scopes| - 1] == u.scopes[..|s.scopes|];
  }

  /** A transform scope: whatever happened inside (at the same depth), on exit
      the parent block as it was on entry (with its pending circuit) is
      restored and gets one more child, the transformed inner block, and the
      stack is back to what it was. */
  lemma TransformScopeRoundTrip(env: Env, s: BState, t: TransformKind, u: BState)
    requires Coherent(env, s) && Coherent(env, u)
    requires u.scopes == EnterTransformSpec(env, s, t).scopes
    ensures EnterTransformSpec(env, s, t).block == []
    ensures var e := ExitSpec(env, u);
            && e.scopes == s.scopes
            && e.block == s.block + PendingNodes(env, s) + [Sub(env.transform(t, u.block + PendingNodes(env, u)))]
            && !Pending(e)
  {
    FlushFacts(env, s);
    FlushFacts(env, u);
  }

  /** An inline scope: on exit the inner instructions are appended to the
      restored parent one by one, in time order, with no wrapping block, and
      they are exactly the instructions built inside. */
  lemma InlineScopeRoundTrip(env: Env, s: BState, u: BState)
    requires EnvOk(env) && Coherent(env, s) && Coherent(env, u)
    requires u.scopes == EnterInlineSpec(env, s).scopes
    ensures var e := ExitSpec(env, u);
            var parent := s.block + PendingNodes(env, s);
            && e.scopes == s.scopes
            && |parent| <= |e.block| && e.block[..|parent|] == parent
            && (forall k :: |parent| <= k < |e.block| ==> e.block[k].Instr?)
            && LeafBag(e.block) == LeafBag(parent) + LeafBag(u.block + PendingNodes(env, u))
  {
    FlushFacts(env, s);
    FlushFacts(env, u);
    var parent := s.block + PendingNodes(env, s);
    var inner := u.block + PendingNodes(env, u);
    var added := InstrNodes(env.timeOrder(inner));
    var e := ExitSpec(env, u);
    assert e.block == parent + added;
    assert e.block[..|parent|] == parent;
    InstrNodesBag(env.timeOrder(inner));
    LeafBagConcat(parent, added);
  }

  /** A settings scope restores the settings exactly; a circuit left pending
      inside is compiled with the scope's settings, not the restored ones. */
  lemma SettingsScopeRoundTrip(env: Env, s: BState, m: Settings, u: BState)
    requires Coherent(env, s) && Coherent(env, u)
    requires u.scopes == EnterTranspilerSettingsSpec(env, s, m).scopes
    ensures EnterTranspilerSettingsSpec(env, s, m).ts == s.ts + m
    ensures var e := ExitSpec(env, u);
            && e.scopes == s.scopes && e.ts == s.ts && e.ss == u.ss
            && e.block == u.block + PendingNodes(env, u)
  {
    FlushFacts(env, s);
    FlushFacts(env, u);
  }

  /** A phase offset shifts the phase on entry and shifts it back on exit. */
  lemma PhaseOffsetRoundTrip(env: Env, s: BState, phase: real, ch: Channel, u: BState)
    requires Coherent(env, s) && Coherent(env, u)
    requires u.scopes == EnterPhaseOffsetSpec(env, s, phase, ch).scopes
    ensures EnterPhaseOffsetSpec(env, s, phase, ch).block == s.block + PendingNodes(env, s) + [Instr(ShiftPhaseInstr(phase, ch))]
    ensures var e := ExitSpec(env, u);
            && e.scopes == s.scopes
            && e.block == u.block + PendingNodes(env, u) + [Instr(ShiftPhaseInstr(-phase, ch))]
    ensures ShiftPhaseInstr(phase, ch).kind == ShiftPhaseKind && ShiftPhaseInstr(phase, ch).operands[0] == RealOperand(phase)
  {
    FlushFacts(env, s);
    FlushFacts(env, u);
  }

  /** The builder's own exit, with only the default alignment scope open:
      the root gets the aligned program as its last child. */
  lemma BuilderExitAppendsAlignedProgram(env: Env, u: BState, a: Alignment)
    requires Coherent(env, u) && u.scopes == [TransformScope(Align(a), [])]
    ensures var c := CompileSpec(env, ExitSpec(env, FlushSpec(env, u)));
            && c.root == u.root + [Sub([Sub(env.transform(Align(a), u.block + PendingNodes(env, u)))])]
            && c.block == [] && c.scopes == []
  {
    FlushFacts(env, u);
    var f := FlushSpec(env, u);
    FlushFacts(env, f);
    var e := ExitSpec(env, f);
    var x: Sched := [Sub(env.transform(Align(a), f.block))];
    assert e.block == [] + x == x;
    FlushFacts(env, e);
  }

  // ---------------------------------------------------------------- the builder object

  class PulseBuilder {
    const env: Env
    const defaultAlignment: Alignment
    var root: Sched
    var block: Sched
    var lazy: Option<QCircuit>
    var ts: Settings
    var ss: Settings
    var scopes: seq<Scope>

    function State(): BState
      reads this
    {
      BState(root, block, lazy, ts, ss, scopes)
    }

    ghost predicate Valid()
      reads this
    {
      EnvOk(env) && Coherent(env, State())
    }

    /** `__init__` after the alignment name was accepted: no lazy circuit,
      an empty active block, no open scope. */
    constructor (env: Env, alignment: Alignment, root: Sched, ts: Settings, ss: Settings)
      requires EnvOk(env)
      ensures Valid() && this.env == env && defaultAlignment == alignment
      ensures State() == BState(root, [], None, ts, ss, [])
    {
      this.env := env;
      defaultAlignment := alignment;
      this.root := root;
      block := [];
      lazy := None;
      this.ts := ts;
      this.ss := ss;
      scopes := [];
    }

    /** `num_qubits`: BackendNotSet without a backend. */
    function NumQubits(): (r: Result<nat>)
      ensures r.Err? <==> env.backend.None?
      ensures r.Err? ==> r.error == BackendNotSet
      ensures r.Ok? ==> r.value == env.backend.value.nQubits
    {
      if env.backend.None? then Err(BackendNotSet) else Ok(env.backend.value.nQubits)
    }

    /** `_compile_lazy_circuit`. */
    method Flush()
      requires Valid()
      modifies this
      ensures Valid() && State() == FlushSpec(env, old(State()))
    {
      if lazy.Some? && Nonempty(lazy.value) {
        var circ := lazy.value;
        lazy := Some(EmptyCircuit(env.backend.value.nQubits));
        var sched := env.compileCircuit(circ, ts, ss);
        block := block + [Sub(sched)];
      }
    }

    method SetActiveBlock(b: Sched)
      requires Valid()
      modifies this
      ensures Valid() && State() == SetActiveBlockSpec(env, old(State()), b)
    {
      Flush();
      block := b;
    }

    method AppendBlock(b: Sched)
      requires Valid()
      modifies this
      ensures Valid() && State() == AppendBlockSpec(env, old(State()), b)
    {
      Flush();
      block := block + [Sub(b)];
    }

    method CallSchedule(b: Sched)
      requires Valid()
      modifies this
      ensures Valid() && State() == AppendBlockSpec(env, old(State()), b)
    {
      AppendBlock(b);
    }

    method AppendInstruction(i: Instruction)
      requires Valid()
      modifies this
      ensures Valid() && State() == AppendInstructionSpec(env, old(State()), i)
    {
      Flush();
      block := block + [Instr(i)];
    }

    /** The settings setters flush (twice: decorator and body), then set. */
    method SetTranspilerSettings(m: Settings)
      requires Valid()
      modifies this
      ensures Valid() && State() == SetTranspilerSettingsSpec(env, old(State()), m)
    {
      Flush();
      FlushFacts(env, State());
      Flush();
      ts := m;
    }

    method SetSchedulerSettings(m: Settings)
      requires Valid()
      modifies this
      ensures Valid() && State() == SetSchedulerSettingsSpec(env, old(State()), m)
    {
      Flush();
      FlushFacts(env, State());
      Flush();
      ss := m;
    }

    /** `compile`: returns the root program. */
    method Compile() returns (program: Sched)
      requires Valid()
      modifies this
      ensures Valid() && State() == CompileSpec(env, old(State()))
      ensures program == root
    {
      Flush();
      root := root + [Sub(block)];
      FlushFacts(env, State());
      SetActiveBlock([]);
      program := root;
    }

    /** `_call_circuit`: the register loop swallows duplicate names. */
    method CallInner(circ: QCircuit)
      requires Valid() && env.backend.Some?
      modifies this
      ensures Valid() && State() == CallInnerSpec(env, old(State()), circ)
    {
      if lazy.None? {
        lazy := Some(EmptyCircuit(env.backend.value.nQubits));
      }
      var c := lazy.value;
      var regs := c.cregs;
      var k := 0;
      while k < |circ.cregs|
        invariant 0 <= k <= |circ.cregs|
        invariant regs == MergeRegisters(c.cregs, circ.cregs[..k])
      {
        assert circ.cregs[..k + 1][..k] == circ.cregs[..k];
        if circ.cregs[k].name !in RegisterNames(regs) {
          regs := regs + [circ.cregs[k]];
        }
        k := k + 1;
      }
      assert circ.cregs[..k] == circ.cregs;
      lazy := Some(c.(cregs := regs, ops := c.ops + circ.ops));
    }

    method CallCircuit(circ: QCircuit, isLazy: bool) returns (r: Outcome)
      requires Valid()
      modifies this
      ensures Valid()
      ensures r.Fail? <==> env.backend.None?
      ensures r.Fail? ==> r.error == BackendNotSet && State() == old(State())
      ensures r.Pass? ==> State() == CallCircuitSpec(env, old(State()), circ, isLazy).value
    {
      if env.backend.None? {
        return Fail(BackendNotSet);
      }
      if isLazy {
        CallInner(circ);
      } else {
        Flush();
        CallInner(circ);
        Flush();
      }
      return Pass;
    }

    /** `call_gate`: a one-gate circuit on the backend's qubits. */
    method CallGate(gate: string, qubits: seq<nat>, isLazy: bool) returns (r: Outcome)
      requires Valid()
      modifies this
      ensures Valid()
      ensures r.Fail? <==> env.backend.None?
      ensures r.Fail? ==> r.error == BackendNotSet && State() == old(State())
      ensures r.Pass? ==> State() == CallCircuitSpec(env, old(State()),
                                        QCircuit(env.backend.value.nQubits, [], [Gate(gate, qubits)]), isLazy).value
    {
      var n := NumQubits();
      if n.Err? {
        return Fail(n.error);
      }
      r := CallCircuit(QCircuit(n.value, [], [Gate(gate, qubits)]), isLazy);
    }

    /** Entering a context. A transform or `inline` context saves the active
      block after `set_active_block` flushed into it (the saved reference
      sees the flushed content) and starts a fresh one. */
    method Open(c: Context)
      requires Valid()
      modifies this
      ensures Valid() && State() == EnterSpec(env, old(State()), c)
    {
      match c {
        case TransformCtx(t) =>
          Flush();
          var saved := block;
          SetActiveBlock([]);
          scopes := scopes + [TransformScope(t, saved)];
        case InlineCtx =>
          Flush();
          var saved := block;
          SetActiveBlock([]);
          scopes := scopes + [InlineScope(saved)];
        case TranspilerCtx(m) =>
          var current := ts;
          SetTranspilerSettings(current + m);
          scopes := scopes + [TranspilerScope(current)];
        case SchedulerCtx(m) =>
          var current := ss;
          SetSchedulerSettings(current + m);
          scopes := scopes + [SchedulerScope(current)];
        case PhaseOffsetCtx(phase, ch) =>
          var saved := scopes;
          AppendInstruction(ShiftPhaseInstr(phase, ch));
          scopes := saved + [PhaseScope(phase, ch)];
      }
    }

    /** `__enter__`: opens the default alignment context and yields the root. */
    method Enter() returns (program: Sched)
      requires Valid()
      modifies this
      ensures Valid() && State() == EnterSpec(env, old(State()), TransformCtx(Align(defaultAlignment)))
      ensures program == old(root)
    {
      program := root;
      Open(TransformCtx(Align(defaultAlignment)));
    }

    /** Closing an inline scope: the parent block again, followed by the
        inner block's instructions one by one in time order. */
    method ReplayInline(saved: Sched, order: seq<Instruction>)
      requires Valid() && !Pending(State())
      modifies this
      ensures Valid() && State() == old(State()).(block := saved + InstrNodes(order))
    {
      SetActiveBlock(saved);
      var k := 0;
      while k < |order|
        invariant 0 <= k <= |order|
        invariant Valid() && !Pending(State())
        invariant block == saved + InstrNodes(order[..k])
        invariant root == old(root) && ts == old(ts) && ss == old(ss) && scopes == old(scopes) && lazy == old(lazy)
      {
        AppendInstruction(order[k]);
        assert InstrNodes(order[..k + 1]) == InstrNodes(order[..k]) + [Instr(order[k])];
        k := k + 1;
      }
      assert order[..k] == order;
    }

    /** Leaving the innermost open context. */
    method ExitScope()
      requires Valid() && |scopes| > 0
      modifies this
      ensures Valid() && State() == ExitSpec(env, old(State()))
    {
      var top := scopes[|scopes| - 1];
      var rest := scopes[..|scopes| - 1];
      Flush();
      ghost var f := State();
      FlushFacts(env, old(State()));
      match top {
        case TransformScope(t, saved) =>
          var transformed := env.transform(t, block);
          SetActiveBlock(saved);
          AppendBlock(transformed);
          assert State() == f.(block := saved + [Sub(transformed)]);
        case InlineScope(saved) =>
          var order := env.timeOrder(block);
          ReplayInline(saved, order);
        case TranspilerScope(saved) =>
          SetTranspilerSettings(saved);
          assert State() == f.(ts := saved);
        case SchedulerScope(saved) =>
          SetSchedulerSettings(saved);
          assert State() == f.(ss := saved);
        case PhaseScope(phase, ch) =>
          AppendInstruction(ShiftPhaseInstr(-phase, ch));
          assert State() == f.(block := f.block + [Instr(ShiftPhaseInstr(-phase, ch))]);
      }
      scopes := rest;
    }

    /** `__exit__`: flush, close the default alignment context, compile. */
    method Exit() returns (program: Sched)
      requires Valid() && |scopes| == 1
      modifies this
      ensures Valid() && State() == CompileSpec(env, ExitSpec(env, FlushSpec(env, old(State()))))
      ensures program == root
    {
      Flush();
      ExitScope();
      program := Compile();
    }
  }

  /** `build`: PulseError for an unsupported default alignment. */
  method Build(env: Env, alignment: string, root: Sched, ts: Settings, ss: Settings) returns (r: Result<PulseBuilder>)
    requires EnvOk(env)
    ensures r.Err? <==> AlignmentOf(alignment).Err?
    ensures r.Ok? ==> fresh(r.value) && r.value.Valid() && r.value.env == env
                      && r.value.defaultAlignment == AlignmentOf(alignment).value
                      && r.value.State() == BState(root, [], None, ts, ss, [])
  {
    var a := AlignmentOf(alignment);
    if a.Err? {
      return Err(a.error);
    }
    var b := new PulseBuilder(env, a.value, root, ts, ss);
    return Ok(b);
  }

  // ---------------------------------------------------------------- the builder functions

  /** The active builder, or None outside every builder context. */
  type Handle = Option<PulseBuilder>

  function Frame(h: Handle): set<object>
  {
    if h.Some? then {h.value} else {}
  }

  ghost predicate HandleOk(h: Handle)
    reads Frame(h)
  {
    h.Some? ==> h.value.Valid()
  }

  /** `active_backend`: NoActiveBuilder outside a builder, BackendNotSet
      when the builder has none. */
  function ActiveBackend(h: Handle): (r: Result<Backend>)
    ensures h.None? ==> r == Err(NoActiveBuilder)
    ensures h.Some? && h.value.env.backend.None? ==> r == Err(BackendNotSet)
    ensures r.Ok? <==> h.Some? && h.value.env.backend.Some?
    ensures r.Ok? ==> r.value == h.value.env.backend.value
  {
    if h.None? then Err(NoActiveBuilder)
    else if h.value.env.backend.None? then Err(BackendNotSet)
    else Ok(h.value.env.backend.value)
  }

  /** `num_qubits`. */
  function NumQubitsOf(h: Handle): (r: Result<nat>)
    ensures r.Ok? <==> ActiveBackend(h).Ok?
    ensures r.Err? ==> r.error == ActiveBackend(h).error
    ensures r.Ok? ==> r.value == ActiveBackend(h).value.nQubits
  {
    var b :- ActiveBackend(h);
    Ok(b.nQubits)
  }

  /** `qubit_channels`. */
  function QubitChannels(h: Handle, q: nat): (r: Result<set<Channel>>)
    ensures r.Ok? <==> ActiveBackend(h).Ok?
    ensures r.Err? ==> r.error == ActiveBackend(h).error
    ensures r.Ok? ==> r.value == ActiveBackend(h).value.qubitChannels(q)
  {
    var b :- ActiveBackend(h);
    Ok(b.qubitChannels(q))
  }

  /** An argument of `_qubits_to_channels`. */
  datatype ChannelOrQubit = QubitItem(q: nat) | ChannelItem(c: Channel) | OtherItem

  /** The channels of the items read so far, or the first error. */
  function ItemChannels(h: Handle, items: seq<ChannelOrQubit>): Result<set<Channel>>
    decreases |items|
  {
    if |items| == 0 then Ok({})
    else
      match ItemChannels(h, items[..|items| - 1])
      case Err(e) => Err(e)
      case Ok(acc) =>
        match items[|items| - 1]
        case QubitItem(q) =>
          (match QubitChannels(h, q)
           case Err(e) => Err(e)
           case Ok(cs) => Ok(acc + cs))
        case ChannelItem(c) => Ok(acc + {c})
        case OtherItem => Err(PulseError("is not a Channel or qubit (integer)."))
  }

  /** `_qubits_to_channels` succeeds iff every item is a qubit or a channel
      and, when some item is a qubit, there is an active backend; its result
      holds exactly the given channels and the channels of the given qubits. */
  lemma {:induction false} ItemChannelsMeaning(h: Handle, items: seq<ChannelOrQubit>)
    ensures ItemChannels(h, items).Ok? <==>
              (forall k :: 0 <= k < |items| ==> !items[k].OtherItem?)
              && ((exists k :: 0 <= k < |items| && items[k].QubitItem?) ==> ActiveBackend(h).Ok?)
    ensures ItemChannels(h, items).Ok? ==>
              forall c :: c in ItemChannels(h, items).value <==>
                exists k :: 0 <= k < |items| &&
                  (items[k] == ChannelItem(c) || (items[k].QubitItem? && c in ActiveBackend(h).value.qubitChannels(items[k].q)))
    decreases |items|
  {
    if |items| > 0 {
      var init := items[..|items| - 1];
      ItemChannelsMeaning(h, init);
      assert forall k :: 0 <= k < |init| ==> init[k] == items[k];
      var last := items[|items| - 1];
      if ItemChannels(h, init).Ok? && ItemChannels(h, items).Ok? {
        forall c ensures c in ItemChannels(h, items).value <==>
                exists k :: 0 <= k < |items| &&
                  (items[k] == ChannelItem(c) || (items[k].QubitItem? && c in ActiveBackend(h).value.qubitChannels(items[k].q)))
        {
          if c in ItemChannels(h, items).value && c !in ItemChannels(h, init).value {
            assert items[|items| - 1] == last;
          }
        }
      }
    }
  }

  /** `_qubits_to_channels`, the loop. */
  method QubitsToChannels(h: Handle, items: seq<ChannelOrQubit>) returns (r: Result<set<Channel>>)
    ensures r == ItemChannels(h, items)
  {
    var chans: set<Channel> := {};
    var k := 0;
    while k < |items|
      invariant 0 <= k <= |items|
      invariant ItemChannels(h, items[..k]) == Ok(chans)
    {
      assert items[..k + 1][..k] == items[..k] && items[..k + 1][k] == items[k];
      match items[k] {
        case QubitItem(q) =>
          var cs := QubitChannels(h, q);
          if cs.Err? {
            PrefixErrorPersists(h, items, k + 1);
            return Err(cs.error);
          }
          chans := chans + cs.value;
        case ChannelItem(c) =>
          chans := chans + {c};
        case OtherItem =>
          PrefixErrorPersists(h, items, k + 1);
          return Err(PulseError("is not a Channel or qubit (integer)."));
      }
      k := k + 1;
    }
    assert items[..k] == items;
    return Ok(chans);
  }

  /** Once a prefix fails, the whole list fails with the same error. */
  lemma {:induction false} PrefixErrorPersists(h: Handle, items: seq<ChannelOrQubit>, n: nat)
    requires n <= |items| && ItemChannels(h, items[..n]).Err?
    ensures ItemChannels(h, items) == ItemChannels(h, items[..n])
    decreases |items| - n
  {
    if n < |items| {
      assert items[..n + 1][..n] == items[..n];
      PrefixErrorPersists(h, items, n + 1);
    } else {
      assert items[..n] == items;
    }
  }

  /** `append_instruction`, and through it every instruction-emitting
      function (`play`, `delay`, `shift_phase`, `snapshot`, ...). */
  method AppendInstructionIn(h: Handle, i: Instruction) returns (r: Outcome)
    requires HandleOk(h)
    modifies Frame(h)
    ensures HandleOk(h)
    ensures r.Fail? <==> h.None?
    ensures r.Fail? ==> r.error == NoActiveBuilder
    ensures h.Some? ==> h.value.State() == AppendInstructionSpec(h.value.env, old(h.value.State()), i)
  {
    if h.None? {
      return Fail(NoActiveBuilder);
    }
    h.value.AppendInstruction(i);
    return Pass;
  }

  /** `call_schedule` and `append_block`. */
  method CallScheduleIn(h: Handle, b: Sched) returns (r: Outcome)
    requires HandleOk(h)
    modifies Frame(h)
    ensures HandleOk(h)
    ensures r.Fail? <==> h.None?
    ensures r.Fail? ==> r.error == NoActiveBuilder
    ensures h.Some? ==> h.value.State() == AppendBlockSpec(h.value.env, old(h.value.State()), b)
  {
    if h.None? {
      return Fail(NoActiveBuilder);
    }
    h.value.CallSchedule(b);
    return Pass;
  }

  /** `call_circuit`: always lazy. */
  method CallCircuitIn(h: Handle, circ: QCircuit) returns (r: Outcome)
    requires HandleOk(h)
    modifies Frame(h)
    ensures HandleOk(h)
    ensures h.None? ==> r == Fail(NoActiveBuilder)
    ensures h.Some? && h.value.env.backend.None? ==> r == Fail(BackendNotSet) && h.value.State() == old(h.value.State())
    ensures r.Pass? <==> ActiveBackend(h).Ok?
    ensures r.Pass? ==> h.value.State() == CallCircuitSpec(h.value.env, old(h.value.State()), circ, true).value
  {
    if h.None? {
      return Fail(NoActiveBuilder);
    }
    r := h.value.CallCircuit(circ, true);
  }

  /** What `call` accepts. */
  datatype CallTarget = CircuitTarget(circ: QCircuit) | ScheduleTarget(sched: Sched) | OtherTarget

  /** `call`: a circuit is called lazily, a schedule is appended, anything
      else is a PulseError. */
  method Call(h: Handle, target: CallTarget) returns (r: Outcome)
    requires HandleOk(h)
    modifies Frame(h)
    ensures HandleOk(h)
    ensures target.OtherTarget? ==> r.Fail? && r.error.PulseError? && (h.Some? ==> h.value.State() == old(h.value.State()))
    ensures target.ScheduleTarget? && h.Some? ==>
              r.Pass? && h.value.State() == AppendBlockSpec(h.value.env, old(h.value.State()), target.sched)
    ensures target.CircuitTarget? && ActiveBackend(h).Ok? ==>
              r.Pass? && h.value.State() == CallCircuitSpec(h.value.env, old(h.value.State()), target.circ, true).value
    ensures !target.OtherTarget? && h.None? ==> r == Fail(NoActiveBuilder)
  {
    match target {
      case CircuitTarget(circ) => r := CallCircuitIn(h, circ);
      case ScheduleTarget(b) => r := CallScheduleIn(h, b);
      case OtherTarget => r := Fail(PulseError("Target of type is not supported."));
    }
  }

  /** The first argument of `acquire`. */
  datatype QubitOrChannel = QubitArg(q: nat) | ChannelArg(c: Channel)

  function AcquireTarget(x: QubitOrChannel): Channel
  {
    match x
    case QubitArg(q) => Channel(ChannelKind.Acquire, q)
    case ChannelArg(c) => c
  }

  /** The instruction `acquire` emits: a memory slot goes to `mem_slot`, a
      register slot to `reg_slot`, any other register is refused. */
  function AcquireFor(duration: int, x: QubitOrChannel, register: Option<Channel>): (r: Result<Instruction>)
    ensures r.Ok? <==> duration >= 0 && register.Some? && register.value.kind in {MemorySlot, RegisterSlot}
    ensures r.Err? ==> r.error.PulseError?
    ensures r.Ok? ==> WellFormed(r.value) && r.value.kind == AcquireKind && r.value.duration == duration
    ensures r.Ok? ==> AcquireChannelOf(r.value) == AcquireTarget(x)
    ensures r.Ok? && register.value.kind == MemorySlot ==> MemSlotOf(r.value) == register && RegSlotOf(r.value).None?
    ensures r.Ok? && register.value.kind == RegisterSlot ==> RegSlotOf(r.value) == register && MemSlotOf(r.value).None?
  {
    var ch := AcquireTarget(x);
    if register.Some? && register.value.kind == MemorySlot then
      ConstructorsWellFormed(SamplePulse([], None), duration, ch, register, None);
      Instructions.Acquire(duration, ch, register, None)
    else if register.Some? && register.value.kind == RegisterSlot then
      ConstructorsWellFormed(SamplePulse([], None), duration, ch, None, register);
      Instructions.Acquire(duration, ch, None, register)
    else Err(PulseError("Register of type is not supported"))
  }

  /** `acquire`: the register check and the instruction's own validation
      come before the builder is looked up. */
  method AcquireIn(h: Handle, duration: int, x: QubitOrChannel, register: Option<Channel>) returns (r: Outcome)
    requires HandleOk(h)
    modifies Frame(h)
    ensures HandleOk(h)
    ensures AcquireFor(duration, x, register).Err? ==> r == Fail(AcquireFor(duration, x, register).error)
    ensures AcquireFor(duration, x, register).Ok? && h.None? ==> r == Fail(NoActiveBuilder)
    ensures r.Pass? <==> AcquireFor(duration, x, register).Ok? && h.Some?
    ensures r.Pass? ==> h.value.State() == AppendInstructionSpec(h.value.env, old(h.value.State()), AcquireFor(duration, x, register).value)
    ensures r.Fail? && h.Some? ==> h.value.State() == old(h.value.State())
  {
    var a := AcquireFor(duration, x, register);
    if a.Err? {
      return Fail(a.error);
    }
    r := AppendInstructionIn(h, a.value);
  }

  /** The register `measure` uses and returns: the given one, else the
      memory slot of the qubit. */
  function MeasureRegister(qubit: nat, register: Option<Channel>): (r: Channel)
    ensures register.None? ==> r == Channel(MemorySlot, qubit)
    ensures register.Some? ==> r == register.value
  {
    if register.None? then Channel(MemorySlot, qubit) else register.value
  }

  /** `measure`. */
  method Measure(h: Handle, qubit: nat, register: Option<Channel>) returns (r: Result<Channel>)
    requires HandleOk(h)
    modifies Frame(h)
    ensures HandleOk(h)
    ensures r.Ok? <==> ActiveBackend(h).Ok?
    ensures r.Err? ==> r.error == ActiveBackend(h).error && (h.Some? ==> h.value.State() == old(h.value.State()))
    ensures r.Ok? ==> r.value == MeasureRegister(qubit, register)
    ensures r.Ok? ==> h.value.State() == AppendBlockSpec(h.value.env, old(h.value.State()),
                                            ActiveBackend(h).value.measureMacro([qubit], [r.value]))
  {
    var b := ActiveBackend(h);
    if b.Err? {
      return Err(b.error);
    }
    var reg := MeasureRegister(qubit, register);
    var sched := b.value.measureMacro([qubit], [reg]);
    var _ := CallScheduleIn(h, sched);
    return Ok(reg);
  }

  /** The qubits `0 .. n-1` and their memory slots. */
  function Range(n: nat): (r: seq<nat>)
    ensures |r| == n && forall q :: 0 <= q < n ==> r[q] == q
  {
    if n == 0 then [] else Range(n - 1) + [n - 1]
  }

  function MemorySlots(qs: seq<nat>): (r: seq<Channel>)
    ensures |r| == |qs| && forall k :: 0 <= k < |qs| ==> r[k] == Channel(MemorySlot, qs[k])
  {
    if |qs| == 0 then [] else [Channel(MemorySlot, qs[0])] + MemorySlots(qs[1..])
  }

  /** `measure_all`: every qubit of the backend into its own memory slot. */
  method MeasureAll(h: Handle) returns (r: Result<seq<Channel>>)
    requires HandleOk(h)
    modifies Frame(h)
    ensures HandleOk(h)
    ensures r.Ok? <==> ActiveBackend(h).Ok?
    ensures r.Err? ==> r.error == ActiveBackend(h).error && (h.Some? ==> h.value.State() == old(h.value.State()))
    ensures r.Ok? ==> |r.value| == ActiveBackend(h).value.nQubits
                      && forall q :: 0 <= q < |r.value| ==> r.value[q] == Channel(MemorySlot, q)
    ensures r.Ok? ==> h.value.State() == AppendBlockSpec(h.value.env, old(h.value.State()),
                                            ActiveBackend(h).value.measureMacro(Range(ActiveBackend(h).value.nQubits), r.value))
  {
    var b := ActiveBackend(h);
    if b.Err? {
      return Err(b.error);
    }
    var n := NumQubitsOf(h).value;
    var qubits := Range(n);
    var registers := MemorySlots(qubits);
    var sched := b.value.measureMacro(qubits, registers);
    var _ := CallScheduleIn(h, sched);
    return Ok(registers);
  }

  /** Entering one of the builder's contexts (`align_left`, `group`,
      `inline`, `transpiler_settings`, `phase_offset`, ...). */
  method OpenIn(h: Handle, c: Context) returns (r: Outcome)
    requires HandleOk(h)
    modifies Frame(h)
    ensures HandleOk(h)
    ensures r.Fail? <==> h.None?
    ensures r.Fail? ==> r.error == NoActiveBuilder
    ensures h.Some? ==> h.value.State() == EnterSpec(h.value.env, old(h.value.State()), c)
  {
    if h.None? {
      return Fail(NoActiveBuilder);
    }
    h.value.Open(c);
    return Pass;
  }

  /** Leaving the innermost context of the builder that opened it. */
  method CloseIn(b: PulseBuilder)
    requires b.Valid() && |b.scopes| > 0
    modifies b
    ensures b.Valid() && b.State() == ExitSpec(b.env, old(b.State()))
  {
    b.ExitScope();
  }
}
