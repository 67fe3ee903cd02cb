/** The pulse instruction value type: the leaf of every schedule.

    An instruction is created once by a validating constructor and never
    changes afterwards; every query returns a computed value. */
module Instructions {
  import opened Common

  /** The concrete instruction classes (the subclasses of the base class). */
  datatype Kind = PlayKind | DelayKind | AcquireKind | SetFrequencyKind | ShiftPhaseKind | SnapshotKind | BarrierKind

  /** One complex sample of a pulse envelope. */
  datatype Sample = Sample(re: real, im: real)

  /** A pulse envelope. A parametric pulse carries the samples its
      `get_sample_pulse` expansion would produce. */
  datatype Pulse =
    | SamplePulse(samples: seq<Sample>, pulseName: Option<string>)
    | ParametricPulse(shape: string, pulseDuration: nat, expansion: seq<Sample>)

  /** The values that appear in an operand tuple. */
  datatype Operand =
    | IntOperand(i: int)
    | RealOperand(r: real)
    | ChannelOperand(c: Channel)
    | NoneOperand
    | PulseOperand(p: Pulse)
    | TextOperand(s: string)

  /** The `duration` argument as the constructor receives it: an integer, or
      a value of some other Python type. */
  datatype DurationArg = IntDuration(n: int) | NonIntegerDuration

  /** One element of the `channels` argument: a channel or some other value. */
  datatype ChannelArg = IsChannel(c: Channel) | NotAChannel

  datatype Instruction = Instruction(
    kind: Kind,
    operands: seq<Operand>,
    duration: nat,
    channels: seq<Channel>,
    name: Option<string>)

  /** The time-ordered (time, instruction) pairs of a component. */
  type Timed = (int, Instruction)

  // ---------------------------------------------------------------- construction

  /** The channels of `args` when every element is a channel. */
  function ChannelsOf(args: seq<ChannelArg>): (r: Option<seq<Channel>>)
    ensures r.Some? <==> forall k :: 0 <= k < |args| ==> args[k].IsChannel?
    ensures r.Some? ==> |r.value| == |args| && forall k :: 0 <= k < |args| ==> args[k] == IsChannel(r.value[k])
  {
    if |args| == 0 then Some([])
    else match (args[0], ChannelsOf(args[1..]))
      case (IsChannel(c), Some(rest)) => Some([c] + rest)
      case _ => None
  }

  /** The base-class initializer: a non-integer duration, a negative duration
      and any non-channel element of `channels` are refused, in that order. */
  function New(kind: Kind, operands: seq<Operand>, duration: DurationArg, channels: seq<ChannelArg>,
               name: Option<string>): (r: Result<Instruction>)
    ensures duration.NonIntegerDuration? ==>
              r == Err(PulseError("Instruction duration must be an integer"))
    ensures duration.IntDuration? && duration.n < 0 ==>
              r == Err(PulseError("duration must be nonnegative"))
    ensures duration.IntDuration? && duration.n >= 0 && (exists k :: 0 <= k < |channels| && channels[k].NotAChannel?) ==>
              r == Err(PulseError("Expected a channel"))
    ensures r.Ok? <==> duration.IntDuration? && duration.n >= 0 && forall k :: 0 <= k < |channels| ==> channels[k].IsChannel?
    ensures r.Ok? ==> && r.value.kind == kind && r.value.operands == operands && r.value.name == name
                      && r.value.duration == duration.n && |r.value.channels| == |channels|
                      && forall k :: 0 <= k < |channels| ==> channels[k] == IsChannel(r.value.channels[k])
  {
    if duration.NonIntegerDuration? then Err(PulseError("Instruction duration must be an integer"))
    else if duration.n < 0 then Err(PulseError("duration must be nonnegative"))
    else match ChannelsOf(channels)
      case None => Err(PulseError("Expected a channel"))
      case Some(chs) => Ok(Instruction(kind, operands, duration.n, chs, name))
  }

  /** The occupied time slots the initializer records: one slot (0, duration) per channel. */
  function Timeslots(i: Instruction): map<Channel, seq<(int, int)>>
  {
    map c | c in i.channels :: [(0, i.duration)]
  }

  lemma TimeslotsOnePerChannel(i: Instruction, c: Channel)
    ensures c in Timeslots(i) <==> c in i.channels
    ensures c in Timeslots(i) ==> Timeslots(i)[c] == [(StartTime(i), StopTime(i))]
  {
  }

  // ---------------------------------------------------------------- timing queries

  function StartTime(i: Instruction): int { 0 }

  function StopTime(i: Instruction): int { i.duration }

  function ChStartTime(i: Instruction, chs: seq<Channel>): int { 0 }

  /** Whether some element of `chs` is one of `own` (Python's `any(...)`). */
  function AnyIn(chs: seq<Channel>, own: seq<Channel>): (r: bool)
    ensures r <==> exists k :: 0 <= k < |chs| && chs[k] in own
  {
    if |chs| == 0 then false
    else if chs[0] in own then true
    else
      var r := AnyIn(chs[1..], own);
      assert forall k :: 1 <= k < |chs| ==> chs[k] == chs[1..][k - 1];
      r
  }

  /** The stop time over the queried channels: the duration when one of them
      is used by the instruction, else 0. */
  function ChStopTime(i: Instruction, chs: seq<Channel>): (r: int)
    ensures (exists k :: 0 <= k < |chs| && chs[k] in i.channels) ==> r == i.duration
    ensures (forall k :: 0 <= k < |chs| ==> chs[k] !in i.channels) ==> r == 0
  {
    if AnyIn(chs, i.channels) then i.duration else 0
  }

  function ChDuration(i: Instruction, chs: seq<Channel>): int
  {
    ChStopTime(i, chs)
  }

  /** The per-channel queries stay within the instruction's own span. */
  lemma ChannelTimesWithinSpan(i: Instruction, chs: seq<Channel>)
    ensures ChStartTime(i, chs) == StartTime(i) == 0
    ensures 0 <= ChStopTime(i, chs) <= StopTime(i) == i.duration
    ensures ChDuration(i, chs) == ChStopTime(i, chs)
    ensures i.channels != [] ==> ChStopTime(i, i.channels) == i.duration
  {
    if i.channels != [] {
      assert i.channels[0] in i.channels;
    }
  }

  // ---------------------------------------------------------------- flattening

  function FlattenedInstructions(i: Instruction, time: int): (r: seq<Timed>)
  {
    [(time, i)]
  }

  function TimedInstructions(i: Instruction): seq<Timed>
  {
    FlattenedInstructions(i, 0)
  }

  function Flatten(i: Instruction): Instruction { i }

  /** Flattening at an offset yields exactly the one pair (offset, self), and
      flattening at 0 is what `timed_instructions` returns. */
  lemma FlattenedIsSinglePair(i: Instruction, t: int)
    ensures |FlattenedInstructions(i, t)| == 1
    ensures FlattenedInstructions(i, t)[0] == (t, Flatten(i))
    ensures TimedInstructions(i) == [(StartTime(i), i)]
  {
  }

  // ---------------------------------------------------------------- composition

  /** The schedule built by `insert`, `shift`, `append` and `|`: a name and
      the (start time, component) pairs it was created from. */
  datatype Composite = Composite(name: Option<string>, children: seq<(int, Instruction)>)

  function OrName(name: Option<string>, i: Instruction): Option<string>
  {
    if name.None? then i.name else name
  }

  function Shift(i: Instruction, time: int, name: Option<string>): Composite
  {
    Composite(OrName(name, i), [(time, i)])
  }

  function Insert(i: Instruction, startTime: int, other: Instruction, name: Option<string>): Composite
  {
    Composite(OrName(name, i), [(0, i), (startTime, other)])
  }

  /** The channels shared by two instructions, in the order of the first. */
  function SharedChannels(a: Instruction, b: Instruction): (r: seq<Channel>)
    ensures forall c :: c in r <==> c in a.channels && c in b.channels
  {
    Intersect(a.channels, b.channels)
  }

  function Intersect(xs: seq<Channel>, ys: seq<Channel>): (r: seq<Channel>)
    ensures forall c :: c in r <==> c in xs && c in ys
  {
    if |xs| == 0 then []
    else
      var rest := Intersect(xs[1..], ys);
      assert forall c :: c in xs <==> c == xs[0] || c in xs[1..];
      if xs[0] in ys then [xs[0]] + rest else rest
  }

  /** `append` (and `+`): `other` goes at the stop time of the shared channels. */
  function Append(i: Instruction, other: Instruction, name: Option<string>): Composite
  {
    Insert(i, ChStopTime(i, SharedChannels(i, other)), other, name)
  }

  /** `|`: `other` goes at time 0. */
  function Union(i: Instruction, other: Instruction): Composite
  {
    Insert(i, 0, other, None)
  }

  /** `append` places `other` at the duration when the two instructions share
      a channel and at 0 when their channel sets are disjoint; `self` stays at 0. */
  lemma {:induction false} AppendTime(i: Instruction, other: Instruction, name: Option<string>)
    ensures Append(i, other, name).children[0] == (0, i)
    ensures (exists c :: c in i.channels && c in other.channels) ==>
              Append(i, other, name).children[1] == (i.duration, other)
    ensures (forall c :: c in i.channels ==> c !in other.channels) ==>
              Append(i, other, name).children[1] == (0, other)
    ensures Union(i, other).children == [(0, i), (0, other)]
  {
    var common := SharedChannels(i, other);
    if c :| c in i.channels && c in other.channels {
      var k :| 0 <= k < |common| && common[k] == c;
      assert common[k] in i.channels;
    }
  }

  // ---------------------------------------------------------------- equality

  /** `__eq__`: same instruction class and equal operands; the name is not compared. */
  predicate Equal(a: Instruction, b: Instruction)
  {
    a.kind == b.kind && a.operands == b.operands
  }

  lemma EqualIsEquivalenceIgnoringName(a: Instruction, b: Instruction, c: Instruction, n: Option<string>)
    ensures Equal(a, a) && Equal(a, a.(name := n))
    ensures Equal(a, b) <==> Equal(b, a)
    ensures Equal(a, b) && Equal(b, c) ==> Equal(a, c)
    ensures Equal(a, b) <==> a.kind == b.kind && a.operands == b.operands
  {
  }

  /** The key `__hash__` hashes, as written: class, operands and name. */
  function HashKeyAsWritten(i: Instruction): (Kind, seq<Operand>, Option<string>)
  {
    (i.kind, i.operands, i.name)
  }

  /** As written, two equal instructions that differ only in name have
      different hash keys, which breaks the rule that equal objects hash equal. */
  lemma HashKeyAsWrittenDisagreesWithEqual()
    ensures var d0 := Channel(Drive, 0);
            var a := Instruction(DelayKind, [IntOperand(10), ChannelOperand(d0)], 10, [d0], Some("a"));
            var b := a.(name := Some("b"));
            Equal(a, b) && HashKeyAsWritten(a) != HashKeyAsWritten(b)
  {
  }

  /** The hash key that agrees with `__eq__`: class and operands only. */
  function HashKey(i: Instruction): (Kind, seq<Operand>)
  {
    (i.kind, i.operands)
  }

  lemma HashKeyAgreesWithEqual(a: Instruction, b: Instruction)
    ensures Equal(a, b) <==> HashKey(a) == HashKey(b)
  {
  }

  // ---------------------------------------------------------------- instruction classes

  function SlotOperand(slot: Option<Channel>): Operand
  {
    if slot.None? then NoneOperand else ChannelOperand(slot.value)
  }

  function SlotChannels(slot: Option<Channel>): seq<ChannelArg>
  {
    if slot.None? then [] else [IsChannel(slot.value)]
  }

  function PulseDuration(p: Pulse): nat
  {
    match p
    case SamplePulse(samples, _) => |samples|
    case ParametricPulse(_, d, _) => d
  }

  function Play(p: Pulse, ch: Channel, name: Option<string>): Result<Instruction>
  {
    New(PlayKind, [PulseOperand(p), ChannelOperand(ch)], IntDuration(PulseDuration(p)), [IsChannel(ch)], name)
  }

  function Delay(duration: int, ch: Channel): Result<Instruction>
  {
    New(DelayKind, [IntOperand(duration), ChannelOperand(ch)], IntDuration(duration), [IsChannel(ch)], None)
  }

  function Acquire(duration: int, ch: Channel, memSlot: Option<Channel>, regSlot: Option<Channel>): Result<Instruction>
  {
    New(AcquireKind, [IntOperand(duration), ChannelOperand(ch), SlotOperand(memSlot), SlotOperand(regSlot)],
        IntDuration(duration), [IsChannel(ch)] + SlotChannels(memSlot) + SlotChannels(regSlot), None)
  }

  function SetFrequency(frequency: real, ch: Channel): Result<Instruction>
  {
    New(SetFrequencyKind, [RealOperand(frequency), ChannelOperand(ch)], IntDuration(0), [IsChannel(ch)], None)
  }

  function ShiftPhase(phase: real, ch: Channel): Result<Instruction>
  {
    New(ShiftPhaseKind, [RealOperand(phase), ChannelOperand(ch)], IntDuration(0), [IsChannel(ch)], None)
  }

  function Snapshot(snapLabel: string, snapshotType: string): Result<Instruction>
  {
    New(SnapshotKind, [TextOperand(snapLabel), TextOperand(snapshotType)], IntDuration(0),
        [IsChannel(Channel(SnapshotChannel, 0))], None)
  }

  function ChannelOperands(chs: seq<Channel>): (r: seq<Operand>)
    ensures |r| == |chs| && forall k :: 0 <= k < |chs| ==> r[k] == ChannelOperand(chs[k])
  {
    if |chs| == 0 then [] else [ChannelOperand(chs[0])] + ChannelOperands(chs[1..])
  }

  function ChannelArgs(chs: seq<Channel>): (r: seq<ChannelArg>)
    ensures |r| == |chs| && forall k :: 0 <= k < |chs| ==> r[k] == IsChannel(chs[k])
  {
    if |chs| == 0 then [] else [IsChannel(chs[0])] + ChannelArgs(chs[1..])
  }

  function Barrier(chs: seq<Channel>): Result<Instruction>
  {
    New(BarrierKind, ChannelOperands(chs), IntDuration(0), ChannelArgs(chs), None)
  }

  // ---------------------------------------------------------------- views used by lowering

  predicate IsSlot(o: Operand) { o.NoneOperand? || o.ChannelOperand? }

  /** The operand layout each instruction class gives its instances. */
  predicate WellFormed(i: Instruction)
  {
    match i.kind
    case PlayKind => |i.operands| == 2 && i.operands[0].PulseOperand? && i.operands[1].ChannelOperand?
    case AcquireKind => |i.operands| == 4 && i.operands[1].ChannelOperand? && IsSlot(i.operands[2]) && IsSlot(i.operands[3])
    case DelayKind => |i.operands| == 2 && i.operands[1].ChannelOperand?
    case _ => true
  }

  function PlayPulse(i: Instruction): Pulse
    requires i.kind == PlayKind && WellFormed(i)
  {
    i.operands[0].p
  }

  function PlayChannel(i: Instruction): Channel
    requires i.kind == PlayKind && WellFormed(i)
  {
    i.operands[1].c
  }

  function AcquireChannelOf(i: Instruction): Channel
    requires i.kind == AcquireKind && WellFormed(i)
  {
    i.operands[1].c
  }

  function MemSlotOf(i: Instruction): Option<Channel>
    requires i.kind == AcquireKind && WellFormed(i)
  {
    if i.operands[2].NoneOperand? then None else Some(i.operands[2].c)
  }

  function RegSlotOf(i: Instruction): Option<Channel>
    requires i.kind == AcquireKind && WellFormed(i)
  {
    if i.operands[3].NoneOperand? then None else Some(i.operands[3].c)
  }

  /** The classes' constructors produce well-formed instructions whose views
      return what they were built from. */
  lemma {:induction false} ConstructorsWellFormed(p: Pulse, d: int, ch: Channel, mem: Option<Channel>, reg: Option<Channel>)
    ensures Play(p, ch, None).Ok? && WellFormed(Play(p, ch, None).value)
    ensures PlayPulse(Play(p, ch, None).value) == p && PlayChannel(Play(p, ch, None).value) == ch
    ensures Acquire(d, ch, mem, reg).Ok? <==> d >= 0
    ensures Acquire(d, ch, mem, reg).Ok? ==>
              var a := Acquire(d, ch, mem, reg).value;
              WellFormed(a) && AcquireChannelOf(a) == ch && MemSlotOf(a) == mem && RegSlotOf(a) == reg
              && a.duration == d
  {
    var args := [IsChannel(ch)] + SlotChannels(mem) + SlotChannels(reg);
    assert forall k :: 0 <= k < |args| ==> args[k].IsChannel?;
  }
}
