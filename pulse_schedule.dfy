/** The conflict-checked pulse schedule: a list of timed pulses (and, in
    principle, nested blocks) that refuses a pulse overlapping an existing
    pulse on the same channel. */
module PulseSchedule {
  import opened Common

  /** The command classes a pulse command may belong to. */
  datatype CommandKind = FunctionalPulse | SamplePulse | FrameChange | PersistentValue | AcquireCommand | SnapshotCommand

  /** A pulse command: its class, its duration, and an identity standing for
      the rest of its content. */
  datatype PulseCommand = PulseCommand(kind: CommandKind, duration: nat, ident: string)

  /** A pulse channel with the command classes it supports. */
  datatype PulseChannel = PulseChannel(channel: Channel, supported: set<CommandKind>)

  /** A command placed on a channel at a start time. `TimedPulse` defines no
      `__eq__`, so Python compares two pulses by object identity: `obj` is
      that identity, and since a pulse never changes after its initializer,
      equal identities carry equal fields and `==` on the datatype is `is`. */
  datatype TimedPulse = TimedPulse(command: PulseCommand, channel: PulseChannel, t0: int, obj: nat)

  /** A schedule component: a timed pulse, or a nested block of components. */
  datatype Block = Leaf(pulse: TimedPulse) | Nested(children: seq<Block>)

  // ---------------------------------------------------------------- timed pulses

  /** The TimedPulse initializer, run on the newly allocated object `obj`,
      refuses a command the channel does not support. */
  function MakeTimedPulse(command: PulseCommand, channel: PulseChannel, startTime: int, obj: nat): (r: Result<TimedPulse>)
    ensures r.Ok? <==> command.kind in channel.supported
    ensures r.Err? ==> r.error == UnsupportedCommand
    ensures r.Ok? ==> r.value.command == command && r.value.channel == channel && r.value.t0 == startTime
                      && r.value.obj == obj
  {
    if command.kind in channel.supported then Ok(TimedPulse(command, channel, startTime, obj))
    else Err(UnsupportedCommand)
  }

  function PulseStart(p: TimedPulse): int { p.t0 }

  function PulseEnd(p: TimedPulse): int { p.t0 + p.command.duration }

  function PulseDuration(p: TimedPulse): nat { p.command.duration }

  lemma PulseSpan(p: TimedPulse)
    ensures PulseEnd(p) - PulseStart(p) == PulseDuration(p) >= 0
    ensures PulseStart(p) <= PulseEnd(p)
  {
  }

  /** The half-open interval test of the occupancy check. */
  predicate Conflicts(old_: TimedPulse, new_: TimedPulse)
  {
    old_.channel == new_.channel && PulseStart(old_) < PulseEnd(new_) && PulseStart(new_) < PulseEnd(old_)
  }

  lemma ConflictsSymmetric(a: TimedPulse, b: TimedPulse)
    ensures Conflicts(a, b) <==> Conflicts(b, a)
  {
  }

  // ---------------------------------------------------------------- start and end times

  /** Every pulse of a block, depth first. */
  function Leaves(b: Block): seq<TimedPulse>
    decreases b, 1
  {
    match b
    case Leaf(p) => [p]
    case Nested(cs) => LeavesOfAll(cs)
  }

  function LeavesOfAll(cs: seq<Block>): seq<TimedPulse>
    decreases cs, 0
  {
    if |cs| == 0 then [] else Leaves(cs[0]) + LeavesOfAll(cs[1..])
  }

  /** No nested block (at any depth) is empty: `min`/`max` never see an empty list. */
  predicate Shaped(b: Block)
    decreases b, 1
  {
    match b
    case Leaf(_) => true
    case Nested(cs) => |cs| > 0 && AllShaped(cs)
  }

  predicate AllShaped(cs: seq<Block>)
    decreases cs, 0
  {
    |cs| == 0 || (Shaped(cs[0]) && AllShaped(cs[1..]))
  }

  ghost predicate IsMinStart(t: int, ps: seq<TimedPulse>)
  {
    (exists k :: 0 <= k < |ps| && PulseStart(ps[k]) == t) && forall k :: 0 <= k < |ps| ==> t <= PulseStart(ps[k])
  }

  ghost predicate IsMaxEnd(t: int, ps: seq<TimedPulse>)
  {
    (exists k :: 0 <= k < |ps| && PulseEnd(ps[k]) == t) && forall k :: 0 <= k < |ps| ==> PulseEnd(ps[k]) <= t
  }

  /** `_start_time`: a pulse's own start, or the minimum over a nested block's
      children; `min` of an empty list is a ValueError. */
  function StartOf(b: Block): (r: Result<int>)
    ensures r.Ok? <==> Shaped(b)
    ensures r.Err? ==> r.error == ValueError
    ensures r.Ok? ==> IsMinStart(r.value, Leaves(b))
    decreases b, 1
  {
    match b
    case Leaf(p) => assert [p][0] == p; Ok(PulseStart(p))
    case Nested(cs) => MinStart(cs)
  }

  /** `min` over the children's start times. */
  function MinStart(cs: seq<Block>): (r: Result<int>)
    ensures r.Ok? <==> |cs| > 0 && AllShaped(cs)
    ensures r.Err? ==> r.error == ValueError
    ensures r.Ok? ==> IsMinStart(r.value, LeavesOfAll(cs))
    decreases cs, 0
  {
    if |cs| == 0 then Err(ValueError)
    else
      var first := StartOf(cs[0]);
      if first.Err? then first
      else if |cs| == 1 then
        assert LeavesOfAll(cs) == Leaves(cs[0]) + LeavesOfAll(cs[1..]);
        assert LeavesOfAll(cs[1..]) == [];
        assert LeavesOfAll(cs) == Leaves(cs[0]);
        first
      else
        var rest := MinStart(cs[1..]);
        if rest.Err? then rest
        else
          var l0, lr := Leaves(cs[0]), LeavesOfAll(cs[1..]);
          assert LeavesOfAll(cs) == l0 + lr;
          var m := if first.value <= rest.value then first.value else rest.value;
          MinOfConcat(first.value, rest.value, l0, lr);
          Ok(m)
  }

  lemma MinOfConcat(a: int, b: int, xs: seq<TimedPulse>, ys: seq<TimedPulse>)
    requires IsMinStart(a, xs) && IsMinStart(b, ys)
    ensures IsMinStart(if a <= b then a else b, xs + ys)
  {
    var m := if a <= b then a else b;
    var zs := xs + ys;
    assert forall k :: 0 <= k < |zs| ==> (if k < |xs| then zs[k] == xs[k] else zs[k] == ys[k - |xs|]);
    if a <= b {
      var k :| 0 <= k < |xs| && PulseStart(xs[k]) == a;
      assert zs[k] == xs[k];
    } else {
      var k :| 0 <= k < |ys| && PulseStart(ys[k]) == b;
      assert zs[|xs| + k] == ys[k];
    }
  }

  /** `_end_time`: a pulse's own end, or the maximum over a nested block's children. */
  function EndOf(b: Block): (r: Result<int>)
    ensures r.Ok? <==> Shaped(b)
    ensures r.Err? ==> r.error == ValueError
    ensures r.Ok? ==> IsMaxEnd(r.value, Leaves(b))
    decreases b, 1
  {
    match b
    case Leaf(p) => assert [p][0] == p; Ok(PulseEnd(p))
    case Nested(cs) => MaxEnd(cs)
  }

  /** `max` over the children's end times. */
  function MaxEnd(cs: seq<Block>): (r: Result<int>)
    ensures r.Ok? <==> |cs| > 0 && AllShaped(cs)
    ensures r.Err? ==> r.error == ValueError
    ensures r.Ok? ==> IsMaxEnd(r.value, LeavesOfAll(cs))
    decreases cs, 0
  {
    if |cs| == 0 then Err(ValueError)
    else
      var first := EndOf(cs[0]);
      if first.Err? then first
      else if |cs| == 1 then
        assert LeavesOfAll(cs) == Leaves(cs[0]) + LeavesOfAll(cs[1..]);
        assert LeavesOfAll(cs[1..]) == [];
        assert LeavesOfAll(cs) == Leaves(cs[0]);
        first
      else
        var rest := MaxEnd(cs[1..]);
        if rest.Err? then rest
        else
          var l0, lr := Leaves(cs[0]), LeavesOfAll(cs[1..]);
          assert LeavesOfAll(cs) == l0 + lr;
          var m := if first.value >= rest.value then first.value else rest.value;
          MaxOfConcat(first.value, rest.value, l0, lr);
          Ok(m)
  }

  lemma MaxOfConcat(a: int, b: int, xs: seq<TimedPulse>, ys: seq<TimedPulse>)
    requires IsMaxEnd(a, xs) && IsMaxEnd(b, ys)
    ensures IsMaxEnd(if a >= b then a else b, xs + ys)
  {
    var zs := xs + ys;
    assert forall k :: 0 <= k < |zs| ==> (if k < |xs| then zs[k] == xs[k] else zs[k] == ys[k - |xs|]);
    if a >= b {
      var k :| 0 <= k < |xs| && PulseEnd(xs[k]) == a;
      assert zs[k] == xs[k];
    } else {
      var k :| 0 <= k < |ys| && PulseEnd(ys[k]) == b;
      assert zs[|xs| + k] == ys[k];
    }
  }

  /** `end_time` as written: it evaluates the maximum and then `raise`s the
      integer, which Python refuses with a TypeError. */
  function EndTimeAsWritten(children: seq<Block>): (r: Result<int>)
  {
    match MaxEnd(children)
    case Err(e) => Err(e)
    case Ok(_) => Err(TypeError)
  }

  /** `duration` as written: it raises whatever `end_time` raises. */
  function DurationAsWritten(children: seq<Block>): (r: Result<int>)
  {
    match EndTimeAsWritten(children)
    case Err(e) => Err(e)
    case Ok(t) => Err(TypeError)
  }

  /** As written, `end_time` and `duration` never return a value. */
  lemma EndTimeAsWrittenNeverReturns(children: seq<Block>)
    ensures EndTimeAsWritten(children).Err? && DurationAsWritten(children).Err?
    ensures |children| > 0 && AllShaped(children) ==>
              EndTimeAsWritten(children) == Err(TypeError) && DurationAsWritten(children) == Err(TypeError)
  {
  }

  /** The intended `end_time`: the maximum leaf end. */
  function EndTime(children: seq<Block>): (r: Result<int>)
    ensures r.Ok? <==> |children| > 0 && AllShaped(children)
    ensures r.Ok? ==> IsMaxEnd(r.value, LeavesOfAll(children))
  {
    MaxEnd(children)
  }

  /** `start_time`: the minimum leaf start. */
  function StartTime(children: seq<Block>): (r: Result<int>)
    ensures r.Ok? <==> |children| > 0 && AllShaped(children)
    ensures r.Ok? ==> IsMinStart(r.value, LeavesOfAll(children))
  {
    MinStart(children)
  }

  /** The intended `duration`: end minus start, never negative. */
  function Duration(children: seq<Block>): (r: Result<int>)
    ensures r.Ok? <==> |children| > 0 && AllShaped(children)
    ensures r.Ok? ==> r.value >= 0
  {
    match EndTime(children)
    case Err(err) => Err(err)
    case Ok(e) =>
      var s := StartTime(children).value;
      SpanNonNegative(s, e, LeavesOfAll(children));
      Ok(e - s)
  }

  lemma SpanNonNegative(s: int, e: int, ps: seq<TimedPulse>)
    requires IsMinStart(s, ps) && IsMaxEnd(e, ps)
    ensures s <= e
  {
    var k :| 0 <= k < |ps| && PulseStart(ps[k]) == s;
    assert PulseEnd(ps[k]) <= e;
  }

  // ---------------------------------------------------------------- the invariant

  predicate AllLeaves(cs: seq<Block>)
  {
    forall k :: 0 <= k < |cs| ==> cs[k].Leaf?
  }

  /** No two pulses of the list on the same channel overlap. */
  ghost predicate NoOverlap(cs: seq<Block>)
  {
    forall i, j :: 0 <= i < j < |cs| && cs[i].Leaf? && cs[j].Leaf? ==> !Conflicts(cs[i].pulse, cs[j].pulse)
  }

  /** Some existing pulse on the block's channel overlaps it. */
  ghost predicate Occupied(cs: seq<Block>, p: TimedPulse)
  {
    exists k :: 0 <= k < |cs| && cs[k].Leaf? && Conflicts(cs[k].pulse, p)
  }

  /** What `_is_occupied_time` returns: NotImplementedError for a block that
      is not a pulse or a list holding a nested block, else the overlap test. */
  ghost function OccupiedResult(cs: seq<Block>, b: Block): Result<bool>
  {
    if !b.Leaf? || !AllLeaves(cs) then Err(NotImplementedError) else Ok(Occupied(cs, b.pulse))
  }

  /** What `add_block` leaves behind: the outcome and the new list. */
  ghost function AddBlockSpec(cs: seq<Block>, b: Block): (Result<Option<bool>>, seq<Block>)
  {
    match OccupiedResult(cs, b)
    case Err(e) => (Err(e), cs)
    case Ok(busy) => if busy then (Ok(Some(false)), cs) else (Ok(Some(true)), cs + [b])
  }

  /** A successful `add_block` keeps the list free of overlaps; a refused one
      leaves the list as it was. */
  lemma {:induction false} AddBlockPreservesNoOverlap(cs: seq<Block>, b: Block)
    requires AllLeaves(cs) && NoOverlap(cs)
    ensures var (r, cs') := AddBlockSpec(cs, b); AllLeaves(cs') && NoOverlap(cs')
    ensures var (r, cs') := AddBlockSpec(cs, b); r != Ok(Some(true)) ==> cs' == cs
    ensures var (r, cs') := AddBlockSpec(cs, b);
            r == Ok(Some(true)) <==> b.Leaf? && !Occupied(cs, b.pulse)
  {
    var (r, cs') := AddBlockSpec(cs, b);
    if r == Ok(Some(true)) {
      assert cs' == cs + [b];
      forall i, j | 0 <= i < j < |cs'| && cs'[i].Leaf? && cs'[j].Leaf?
        ensures !Conflicts(cs'[i].pulse, cs'[j].pulse)
      {
        if j == |cs| {
          assert cs'[i] == cs[i];
          assert !Conflicts(cs[i].pulse, b.pulse);
        } else {
          assert cs'[i] == cs[i] && cs'[j] == cs[j];
        }
      }
    }
  }

  // ---------------------------------------------------------------- adding commands

  /** The `commands` argument of `add`: one command, a (possibly nested)
      list, or a value of another type. */
  datatype Commands = One(cmd: PulseCommand) | Many(items: seq<Commands>) | Neither

  /** No child is a pulse whose identity is `n` or above: the identities an
      allocator starting at `n` hands out are new objects. */
  predicate FreshFrom(cs: seq<Block>, n: nat)
  {
    forall k :: 0 <= k < |cs| && cs[k].Leaf? ==> cs[k].pulse.obj < n
  }

  /** What `add` leaves behind, with `n` the identity the next `TimedPulse`
      allocated receives: the outcome, the new list and the next identity.
      Each command allocates one pulse. A value that is neither a command nor
      a list returns None; inside a list that counts as a failure. */
  ghost function AddSpec(cs: seq<Block>, cmds: Commands, ch: PulseChannel, t: int, n: nat)
    : (Result<Option<bool>>, seq<Block>, nat)
    decreases cmds, 1
  {
    match cmds
    case One(c) =>
      (match MakeTimedPulse(c, ch, t, n)
       case Err(e) => (Err(e), cs, n + 1)
       case Ok(p) => var (r, cs') := AddBlockSpec(cs, Leaf(p)); (r, cs', n + 1))
    case Many(items) => AddListSpec(cs, items, ch, t, n)
    case Neither => (Ok(None), cs, n)
  }

  ghost function AddListSpec(cs: seq<Block>, items: seq<Commands>, ch: PulseChannel, t: int, n: nat)
    : (Result<Option<bool>>, seq<Block>, nat)
    decreases items, 0
  {
    if |items| == 0 then (Ok(Some(true)), cs, n)
    else
      var (r, cs1, n1) := AddSpec(cs, items[0], ch, t, n);
      if r.Err? then (r, cs1, n1)
      else if r.value != Some(true) then (Ok(Some(false)), cs1, n1)
      else AddListSpec(cs1, items[1..], ch, t, n1)
  }

  /** The appended part of `cs'` over `cs`: pulses on `ch` at `t` whose
      identities were allocated in `[n, n')`, in allocation order. */
  predicate AppendedFrom(cs: seq<Block>, cs': seq<Block>, ch: PulseChannel, t: int, n: nat, n': nat)
    requires |cs| <= |cs'|
  {
    && n <= n'
    && (forall k :: |cs| <= k < |cs'| ==>
          cs'[k].Leaf? && cs'[k].pulse.channel == ch && cs'[k].pulse.t0 == t && n <= cs'[k].pulse.obj < n')
    && (forall a, b :: |cs| <= a < b < |cs'| ==> cs'[a].pulse.obj < cs'[b].pulse.obj)
  }

  /** `add` only ever appends: what was there stays, in order, and every new
      element is a newly allocated pulse on the given channel at the given
      start time, each a distinct object; the no-overlap invariant is kept,
      also when it stops early. */
  lemma {:induction false} AddKeepsInvariant(cs: seq<Block>, cmds: Commands, ch: PulseChannel, t: int, n: nat)
    requires AllLeaves(cs) && NoOverlap(cs)
    ensures var (r, cs', n') := AddSpec(cs, cmds, ch, t, n);
            && AllLeaves(cs') && NoOverlap(cs')
            && |cs| <= |cs'| && cs'[..|cs|] == cs
            && AppendedFrom(cs, cs', ch, t, n, n')
    decreases cmds, 1
  {
    match cmds
    case One(c) =>
      match MakeTimedPulse(c, ch, t, n) {
        case Err(e) =>
        case Ok(p) => AddBlockPreservesNoOverlap(cs, Leaf(p));
      }
    case Many(items) => AddListKeepsInvariant(cs, items, ch, t, n);
    case Neither =>
  }

  lemma {:induction false} AddListKeepsInvariant(cs: seq<Block>, items: seq<Commands>, ch: PulseChannel, t: int, n: nat)
    requires AllLeaves(cs) && NoOverlap(cs)
    ensures var (r, cs', n') := AddListSpec(cs, items, ch, t, n);
            && AllLeaves(cs') && NoOverlap(cs')
            && |cs| <= |cs'| && cs'[..|cs|] == cs
            && AppendedFrom(cs, cs', ch, t, n, n')
    decreases items, 0
  {
    if |items| > 0 {
      var (r, cs1, n1) := AddSpec(cs, items[0], ch, t, n);
      AddKeepsInvariant(cs, items[0], ch, t, n);
      if r.Ok? && r.value == Some(true) {
        AddListKeepsInvariant(cs1, items[1..], ch, t, n1);
        var (r2, cs2, n2) := AddListSpec(cs1, items[1..], ch, t, n1);
        assert cs2[..|cs1|] == cs1;
        assert cs2[..|cs|] == cs1[..|cs|];
        forall k | |cs| <= k < |cs1| ensures cs2[k] == cs1[k] {
          assert cs2[k] == cs2[..|cs1|][k];
        }
        assert AppendedFrom(cs, cs2, ch, t, n, n2);
      }
    }
  }

  /** With identities allocated from `n`, `add` keeps every identity in the
      list below the next one it would hand out. */
  lemma AddKeepsFresh(cs: seq<Block>, cmds: Commands, ch: PulseChannel, t: int, n: nat)
    requires AllLeaves(cs) && NoOverlap(cs) && FreshFrom(cs, n)
    ensures var (r, cs', n') := AddSpec(cs, cmds, ch, t, n); FreshFrom(cs', n')
  {
    AddKeepsInvariant(cs, cmds, ch, t, n);
    var (r, cs', n') := AddSpec(cs, cmds, ch, t, n);
    forall k | 0 <= k < |cs'| && cs'[k].Leaf? ensures cs'[k].pulse.obj < n' {
      if k < |cs| {
        assert cs'[k] == cs'[..|cs|][k];
      }
    }
  }

  // ---------------------------------------------------------------- which commands `add` appends

  /** The commands of a `commands` argument, in the order `add` visits them. */
  function Flat(cmds: Commands): seq<PulseCommand>
    decreases cmds, 1
  {
    match cmds
    case One(c) => [c]
    case Many(items) => FlatList(items)
    case Neither => []
  }

  function FlatList(items: seq<Commands>): seq<PulseCommand>
    decreases items, 0
  {
    if |items| == 0 then [] else Flat(items[0]) + FlatList(items[1..])
  }

  /** No value of another type occurs anywhere in the argument. */
  predicate OnlyCommands(cmds: Commands)
    decreases cmds, 1
  {
    match cmds
    case One(_) => true
    case Many(items) => OnlyCommandsList(items)
    case Neither => false
  }

  predicate OnlyCommandsList(items: seq<Commands>)
    decreases items, 0
  {
    |items| == 0 || (OnlyCommands(items[0]) && OnlyCommandsList(items[1..]))
  }

  /** The leaves `add` appends for the given commands, the `j`-th the new
      pulse with identity `n + j`. */
  function Pulses(cmds: seq<PulseCommand>, ch: PulseChannel, t: int, n: nat): seq<Block>
  {
    seq(|cmds|, j requires 0 <= j < |cmds| => Leaf(TimedPulse(cmds[j], ch, t, n + j)))
  }

  lemma PulsesConcat(a: seq<PulseCommand>, b: seq<PulseCommand>, ch: PulseChannel, t: int, n: nat)
    ensures Pulses(a, ch, t, n) + Pulses(b, ch, t, n + |a|) == Pulses(a + b, ch, t, n)
  {
  }

  /** How the command that stops `add` is refused: its pulse cannot be
      built, and that error is the result, or the pulse overlaps the list,
      and the result is False. */
  ghost predicate Refused(cs: seq<Block>, c: PulseCommand, ch: PulseChannel, t: int, obj: nat, r: Result<Option<bool>>)
  {
    match MakeTimedPulse(c, ch, t, obj)
    case Err(e) => r == Err(e)
    case Ok(p) => r == Ok(Some(false)) && Occupied(cs, p)
  }

  /** `add` on the commands `flat` took `cs` to `cs'` and the next identity
      from `n` to `n'`, with result `r`: the first `m` commands were added in
      order, command `j` as the pulse with identity `n + j`, and True means
      all were. When the argument holds only commands, anything short of all
      means command `m` was refused, its pulse the last one allocated. */
  ghost predicate AddsInOrder(cs: seq<Block>, flat: seq<PulseCommand>, ch: PulseChannel, t: int, n: nat,
                              r: Result<Option<bool>>, cs': seq<Block>, n': nat, onlyCommands: bool)
  {
    && |cs| <= |cs'| <= |cs| + |flat|
    && cs' == cs + Pulses(flat[..|cs'| - |cs|], ch, t, n)
    && (r == Ok(Some(true)) ==> |cs'| == |cs| + |flat| && n' == n + |flat|)
    && (onlyCommands && |cs'| == |cs| + |flat| ==> r == Ok(Some(true)))
    && (onlyCommands && |cs'| < |cs| + |flat| ==>
          n' == n + (|cs'| - |cs|) + 1 && Refused(cs', flat[|cs'| - |cs|], ch, t, n + (|cs'| - |cs|), r))
  }

  lemma AppendLeaves(cs: seq<Block>, cmds: seq<PulseCommand>, ch: PulseChannel, t: int, n: nat)
    requires AllLeaves(cs)
    ensures AllLeaves(cs + Pulses(cmds, ch, t, n))
  {
    var cs' := cs + Pulses(cmds, ch, t, n);
    forall k | 0 <= k < |cs'| ensures cs'[k].Leaf? {
      if k < |cs| {
        assert cs'[k] == cs[k];
      }
    }
  }

  /** `add` adds the commands it is given in order, each at the given
      channel and start time, until the first one refused. */
  lemma {:induction false} AddAppendsInOrder(cs: seq<Block>, cmds: Commands, ch: PulseChannel, t: int, n: nat)
    requires AllLeaves(cs)
    ensures var (r, cs', n') := AddSpec(cs, cmds, ch, t, n);
            AddsInOrder(cs, Flat(cmds), ch, t, n, r, cs', n', OnlyCommands(cmds))
    decreases cmds, 1
  {
    match cmds
    case One(c) =>
      var (r, cs', n') := AddSpec(cs, cmds, ch, t, n);
      if |cs'| == |cs| {
        assert cs' == cs + Pulses([c][..0], ch, t, n);
      } else {
        assert cs' == cs + Pulses([c][..1], ch, t, n);
      }
    case Many(items) => AddListAppendsInOrder(cs, items, ch, t, n);
    case Neither =>
      assert AddSpec(cs, cmds, ch, t, n).1 == cs + Pulses([], ch, t, n);
  }

  lemma {:induction false} AddListAppendsInOrder(cs: seq<Block>, items: seq<Commands>, ch: PulseChannel, t: int, n: nat)
    requires AllLeaves(cs)
    ensures var (r, cs', n') := AddListSpec(cs, items, ch, t, n);
            AddsInOrder(cs, FlatList(items), ch, t, n, r, cs', n', OnlyCommandsList(items))
    decreases items, 0
  {
    if |items| == 0 {
      assert cs == cs + Pulses([], ch, t, n);
    } else {
      var (r1, cs1, n1) := AddSpec(cs, items[0], ch, t, n);
      AddAppendsInOrder(cs, items[0], ch, t, n);
      if r1 == Ok(Some(true)) {
        AppendLeaves(cs, Flat(items[0]), ch, t, n);
        AddListAppendsInOrder(cs1, items[1..], ch, t, n1);
        var (r2, cs2, n2) := AddListSpec(cs1, items[1..], ch, t, n1);
        assert AddListSpec(cs, items, ch, t, n) == (r2, cs2, n2);
        InOrderThenInOrder(cs, cs1, cs2, Flat(items[0]), FlatList(items[1..]), ch, t, n, n1, n2, r2,
                           OnlyCommands(items[0]), OnlyCommandsList(items[1..]));
      } else {
        var r := if r1.Err? then r1 else Ok(Some(false));
        assert AddListSpec(cs, items, ch, t, n) == (r, cs1, n1);
        StoppedInOrder(cs, cs1, Flat(items[0]), FlatList(items[1..]), ch, t, n, n1, r1, r,
                       OnlyCommands(items[0]), OnlyCommandsList(items[1..]));
      }
    }
  }

  /** All of a first part added, then the second part: together in order. */
  lemma InOrderThenInOrder(cs: seq<Block>, cs1: seq<Block>, cs2: seq<Block>, f0: seq<PulseCommand>, fr: seq<PulseCommand>,
                           ch: PulseChannel, t: int, n: nat, n1: nat, n2: nat, r2: Result<Option<bool>>, o0: bool, o1: bool)
    requires AddsInOrder(cs, f0, ch, t, n, Ok(Some(true)), cs1, n1, o0)
    requires AddsInOrder(cs1, fr, ch, t, n1, r2, cs2, n2, o1)
    ensures AddsInOrder(cs, f0 + fr, ch, t, n, r2, cs2, n2, o0 && o1)
  {
    var m2 := |cs2| - |cs1|;
    assert f0[..|cs1| - |cs|] == f0;
    PulsesConcat(f0, fr[..m2], ch, t, n);
    assert (f0 + fr)[..|cs2| - |cs|] == f0 + fr[..m2];
    if m2 < |fr| {
      assert (f0 + fr)[|cs2| - |cs|] == fr[m2];
    }
  }

  /** A first part stopped early: the rest is never visited. */
  lemma StoppedInOrder(cs: seq<Block>, cs1: seq<Block>, f0: seq<PulseCommand>, fr: seq<PulseCommand>,
                       ch: PulseChannel, t: int, n: nat, n1: nat, r1: Result<Option<bool>>, r: Result<Option<bool>>, o0: bool, o1: bool)
    requires AddsInOrder(cs, f0, ch, t, n, r1, cs1, n1, o0)
    requires r1 != Ok(Some(true)) && r == (if r1.Err? then r1 else Ok(Some(false)))
    ensures AddsInOrder(cs, f0 + fr, ch, t, n, r, cs1, n1, o0 && o1)
  {
    var m1 := |cs1| - |cs|;
    assert (f0 + fr)[..m1] == f0[..m1];
    if o0 {
      assert (f0 + fr)[m1] == f0[m1];
    }
  }

  /** The `add` argument that lists the given commands. */
  function OnesOf(cmds: seq<PulseCommand>): seq<Commands>
  {
    seq(|cmds|, j requires 0 <= j < |cmds| => One(cmds[j]))
  }

  lemma {:induction false} OnesOfFlat(cmds: seq<PulseCommand>)
    ensures FlatList(OnesOf(cmds)) == cmds && OnlyCommandsList(OnesOf(cmds))
    decreases |cmds|
  {
    if |cmds| > 0 {
      assert OnesOf(cmds)[1..] == OnesOf(cmds[1..]);
      OnesOfFlat(cmds[1..]);
    }
  }

  /** `add` with a list of commands: either every command is added, in order,
      and the result is True, or the commands before the first refused one
      stay added, in order, and the refusal is the result. */
  lemma AddListStopsAtFirstFailure(cs: seq<Block>, cmds: seq<PulseCommand>, ch: PulseChannel, t: int, n: nat)
    requires AllLeaves(cs)
    ensures var (r, cs', n') := AddListSpec(cs, OnesOf(cmds), ch, t, n);
            && |cs| <= |cs'| <= |cs| + |cmds|
            && cs' == cs + Pulses(cmds[..|cs'| - |cs|], ch, t, n)
            && (r == Ok(Some(true)) <==> |cs'| == |cs| + |cmds|)
            && (r == Ok(Some(true)) ==> n' == n + |cmds|)
            && (r != Ok(Some(true)) ==>
                  n' == n + (|cs'| - |cs|) + 1 && Refused(cs', cmds[|cs'| - |cs|], ch, t, n + (|cs'| - |cs|), r))
  {
    OnesOfFlat(cmds);
    AddListAppendsInOrder(cs, OnesOf(cmds), ch, t, n);
  }

  // ---------------------------------------------------------------- removal and the library

  /** Python's `list.remove`: drop the first element equal to `x`, ValueError when there is none. */
  function RemoveFirst<T(==)>(s: seq<T>, x: T): (r: Result<seq<T>>)
    ensures r.Ok? <==> x in s
    ensures r.Err? ==> r.error == ValueError
    ensures r.Ok? ==> exists i :: 0 <= i < |s| && s[i] == x && x !in s[..i] && r.value == s[..i] + s[i + 1..]
  {
    match IndexOf(s, x)
    case None => Err(ValueError)
    case Some(i) => Ok(s[..i] + s[i + 1..])
  }

  /** Deleting one position keeps the invariant and removes one copy of that element. */
  lemma DeleteKeepsInvariant(s: seq<Block>, i: nat)
    requires AllLeaves(s) && NoOverlap(s) && i < |s|
    ensures AllLeaves(s[..i] + s[i + 1..]) && NoOverlap(s[..i] + s[i + 1..])
  {
    var r := s[..i] + s[i + 1..];
    forall a | 0 <= a < |r| ensures r[a] == s[if a < i then a else a + 1] {
      if a < i { assert r[a] == s[..i][a]; } else { assert r[a] == s[i + 1..][a - i]; }
    }
  }

  lemma DeleteMultiset<T>(s: seq<T>, i: nat)
    requires i < |s|
    ensures multiset(s[..i] + s[i + 1..]) == multiset(s) - multiset{s[i]}
  {
    assert s == s[..i] + [s[i]] + s[i + 1..];
  }

  /** Removing keeps the invariant: the result is the list without one element. */
  lemma RemoveKeepsInvariant(s: seq<Block>, x: Block)
    requires AllLeaves(s) && NoOverlap(s) && x in s
    ensures RemoveFirst(s, x).Ok?
    ensures AllLeaves(RemoveFirst(s, x).value) && NoOverlap(RemoveFirst(s, x).value)
    ensures multiset(RemoveFirst(s, x).value) == multiset(s) - multiset{x}
  {
    var i := IndexOf(s, x).value;
    assert RemoveFirst(s, x).value == s[..i] + s[i + 1..];
    DeleteKeepsInvariant(s, i);
    DeleteMultiset(s, i);
  }

  /** `remove` matches by identity: after `add_block(p)`, removing a distinct
      pulse object `q` with the very same command, channel and start time
      raises ValueError and keeps `p`, while removing `p` itself gives back
      the list as it was before. Neither object was a child before. */
  lemma RemoveIsByIdentity(cs: seq<Block>, p: TimedPulse, q: TimedPulse)
    requires AllLeaves(cs) && AddBlockSpec(cs, Leaf(p)).0 == Ok(Some(true))
    requires q.command == p.command && q.channel == p.channel && q.t0 == p.t0 && q.obj != p.obj
    requires forall k :: 0 <= k < |cs| ==> cs[k].pulse.obj != q.obj && cs[k].pulse.obj != p.obj
    ensures AddBlockSpec(cs, Leaf(p)).1 == cs + [Leaf(p)]
    ensures RemoveFirst(cs + [Leaf(p)], Leaf(q)) == Err(ValueError)
    ensures RemoveFirst(cs + [Leaf(p)], Leaf(p)) == Ok(cs)
  {
    var cs' := cs + [Leaf(p)];
    assert forall k :: 0 <= k < |cs| ==> cs'[k] == cs[k];
    assert Leaf(p) !in cs;
    assert Leaf(q) !in cs';
    assert IndexOf(cs', Leaf(p)) == Some(|cs|) by {
      assert cs'[..|cs|] == cs;
    }
    assert cs'[..|cs|] + cs'[|cs| + 1..] == cs;
  }

  function CommandsOf(cs: seq<Block>): (r: seq<PulseCommand>)
    requires AllLeaves(cs)
    ensures |r| == |cs| && forall k :: 0 <= k < |cs| ==> r[k] == cs[k].pulse.command
  {
    if |cs| == 0 then [] else [cs[0].pulse.command] + CommandsOf(cs[1..])
  }

  predicate IsLibraryKind(c: PulseCommand) { c.kind == FunctionalPulse || c.kind == SamplePulse }

  /** The library after scanning `cmds` starting from `lib`. */
  function LibraryFold(lib: seq<PulseCommand>, cmds: seq<PulseCommand>): seq<PulseCommand>
    decreases |cmds|
  {
    if |cmds| == 0 then lib
    else
      var c := cmds[|cmds| - 1];
      var prev := LibraryFold(lib, cmds[..|cmds| - 1]);
      if IsLibraryKind(c) && c !in prev then prev + [c] else prev
  }

  /** The library lists each pulse command once, and exactly the pulse
      commands that appear; a command enters it at its first appearance. */
  lemma {:induction false} LibraryFoldProperties(cmds: seq<PulseCommand>)
    ensures var lib := LibraryFold([], cmds);
            && (forall i, j :: 0 <= i < j < |lib| ==> lib[i] != lib[j])
            && (forall c :: c in lib <==> c in cmds && IsLibraryKind(c))
    decreases |cmds|
  {
    if |cmds| > 0 {
      LibraryFoldProperties(cmds[..|cmds| - 1]);
      assert cmds == cmds[..|cmds| - 1] + [cmds[|cmds| - 1]];
    }
  }

  lemma {:induction false} LibraryFoldFirstAppearance(cmds: seq<PulseCommand>, n: nat)
    requires n <= |cmds|
    ensures |LibraryFold([], cmds[..n])| <= |LibraryFold([], cmds)|
    ensures LibraryFold([], cmds[..n]) == LibraryFold([], cmds)[..|LibraryFold([], cmds[..n])|]
    decreases |cmds| - n
  {
    if n < |cmds| {
      LibraryFoldFirstAppearance(cmds, n + 1);
      assert cmds[..n + 1][..n] == cmds[..n];
      var a := LibraryFold([], cmds[..n]);
      var b := LibraryFold([], cmds[..n + 1]);
      assert b == a || b == a + [cmds[n]];
      assert b[..|a|] == a;
    } else {
      assert cmds[..n] == cmds;
    }
  }

  // ---------------------------------------------------------------- the schedule object

  class PulseScheduleObj {
    var name: Option<string>
    const channelList: seq<seq<PulseChannel>>
    var children: seq<Block>

    /** The state every operation keeps: only pulses, no two overlapping. */
    ghost predicate Valid()
      reads this
    {
      AllLeaves(children) && NoOverlap(children)
    }

    constructor (channelList: seq<seq<PulseChannel>>, name: Option<string>)
      ensures Valid() && children == [] && this.channelList == channelList && this.name == name
    {
      this.name := name;
      this.channelList := channelList;
      children := [];
    }

    function ChannelList(): seq<seq<PulseChannel>>
      reads this
    {
      channelList
    }

    /** `flat_pulse_sequence`: the pulses, refused when a child is nested. */
    function FlatPulseSequence(): (r: Result<seq<TimedPulse>>)
      reads this
      ensures r.Ok? <==> AllLeaves(children)
      ensures r.Err? ==> r.error == NotImplementedError
      ensures r.Ok? ==> |r.value| == |children| && forall k :: 0 <= k < |children| ==> Leaf(r.value[k]) == children[k]
    {
      var cs := children;
      if AllLeaves(cs) then Ok(seq(|cs|, k requires 0 <= k < |cs| => cs[k].pulse))
      else Err(NotImplementedError)
    }

    /** `_is_occupied_time`: the scan over the pulses with early return. */
    method IsOccupiedTime(b: Block) returns (r: Result<bool>)
      ensures r == OccupiedResult(children, b)
    {
      if !b.Leaf? {
        return Err(NotImplementedError);
      }
      var seqr := FlatPulseSequence();
      if seqr.Err? {
        return Err(NotImplementedError);
      }
      var pulses := seqr.value;
      var p := b.pulse;
      var k := 0;
      while k < |pulses|
        invariant 0 <= k <= |pulses|
        invariant forall m :: 0 <= m < k ==> !Conflicts(children[m].pulse, p)
      {
        var q := pulses[k];
        if q.channel == p.channel {
          if PulseStart(q) < PulseEnd(p) && PulseStart(p) < PulseEnd(q) {
            assert children[k] == Leaf(q);
            return Ok(true);
          }
        }
        k := k + 1;
      }
      return Ok(false);
    }

    /** `add_block`: appends and answers true when no pulse on the same
      channel overlaps; otherwise leaves the list alone and answers false. */
    method AddBlock(b: Block) returns (r: Result<Option<bool>>)
      requires Valid()
      modifies this
      ensures Valid() && name == old(name)
      ensures (r, children) == AddBlockSpec(old(children), b)
    {
      AddBlockPreservesNoOverlap(children, b);
      var busy := IsOccupiedTime(b);
      if busy.Err? {
        return Err(busy.error);
      }
      if busy.value {
        return Ok(Some(false));
      }
      children := children + [b];
      return Ok(Some(true));
    }

    /** `add`: one command becomes a newly allocated timed pulse added with
      `add_block`; a list adds its elements in order at the same start time
      and stops at the first failure. `nextObj` is the identity the next
      allocated pulse receives, `next` the one after those this call used. */
    method Add(cmds: Commands, ch: PulseChannel, t: int, nextObj: nat) returns (r: Result<Option<bool>>, next: nat)
      requires Valid() && FreshFrom(children, nextObj)
      modifies this
      ensures Valid() && name == old(name) && FreshFrom(children, next)
      ensures (r, children, next) == AddSpec(old(children), cmds, ch, t, nextObj)
      decreases cmds
    {
      match cmds {
        case One(c) =>
          AddKeepsFresh(children, cmds, ch, t, nextObj);
          next := nextObj + 1;
          var tp := MakeTimedPulse(c, ch, t, nextObj);
          if tp.Err? {
            return Err(tp.error), next;
          }
          r := AddBlock(Leaf(tp.value));
        case Many(items) =>
          next := nextObj;
          var k := 0;
          while k < |items|
            invariant 0 <= k <= |items|
            invariant Valid() && name == old(name) && FreshFrom(children, next)
            invariant AddListSpec(old(children), items, ch, t, nextObj) == AddListSpec(children, items[k..], ch, t, next)
          {
            assert items[k..][0] == items[k] && items[k..][1..] == items[k + 1..];
            var success;
            success, next := Add(items[k], ch, t, next);
            if success.Err? {
              return success, next;
            }
            if success.value != Some(true) {
              return Ok(Some(false)), next;
            }
            k := k + 1;
          }
          return Ok(Some(true)), next;
        case Neither =>
          return Ok(None), nextObj;
      }
    }

    /** `remove`: Python's `list.remove`, which for pulses finds the child
      that is the same object as `b`. Its NotImplementedError for a child
      that is not a pulse cannot arise, because `Valid()` keeps every child a
      pulse. */
    method Remove(b: Block) returns (r: Outcome)
      requires Valid()
      modifies this
      ensures Valid() && name == old(name)
      ensures r.Pass? <==> b in old(children)
      ensures r.Fail? ==> r.error == ValueError && children == old(children)
      ensures r.Pass? ==> children == RemoveFirst(old(children), b).value
    {
      var res := RemoveFirst(children, b);
      if res.Err? {
        return Fail(res.error);
      }
      RemoveKeepsInvariant(children, b);
      children := res.value;
      return Pass;
    }

    /** `command_library`: the pulse commands of the children, each once, in
      order of first appearance. */
    method CommandLibrary() returns (r: Result<seq<PulseCommand>>)
      ensures r.Ok? <==> AllLeaves(children)
      ensures r.Err? ==> r.error == NotImplementedError
      ensures r.Ok? ==> r.value == LibraryFold([], CommandsOf(children))
    {
      var j := 0;
      while j < |children|
        invariant 0 <= j <= |children|
        invariant forall m :: 0 <= m < j ==> children[m].Leaf?
      {
        if !children[j].Leaf? {
          return Err(NotImplementedError);
        }
        j := j + 1;
      }
      var cmds := CommandsOf(children);
      var lib: seq<PulseCommand> := [];
      var k := 0;
      while k < |children|
        invariant 0 <= k <= |children|
        invariant lib == LibraryFold([], cmds[..k])
      {
        var c := children[k].pulse.command;
        assert cmds[..k + 1][..k] == cmds[..k] && cmds[..k + 1][k] == c;
        if IsLibraryKind(c) && c !in lib {
          lib := lib + [c];
        }
        k := k + 1;
      }
      assert cmds[..|children|] == cmds;
      return Ok(lib);
    }

    /** `start_time`: the minimum over the children, ValueError when there are none. */
    function StartTimeOf(): (r: Result<int>)
      reads this
      ensures r.Ok? <==> |children| > 0 && AllShaped(children)
      ensures r.Ok? ==> IsMinStart(r.value, LeavesOfAll(children))
    {
      StartTime(children)
    }
  }
}
