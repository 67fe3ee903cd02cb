/** Pulse lowering to a qobj: one experiment per schedule with its
    frequency configuration (or a sweep of a single schedule), delays
    dropped, sample pulses renamed by a content hash into a shared library,
    acquires grouped by start time and command and bundled, the measurement
    map checked, and the memory-slot count. */
module Lowering {
  import opened Common
  import I = Instructions

  // ---------------------------------------------------------------- insertion-ordered dictionaries

  /** A Python dict as its items in insertion order. */
  type Dict<K, V> = seq<(K, V)>

  function Keys<K, V>(d: Dict<K, V>): (r: seq<K>)
    ensures |r| == |d| && forall i :: 0 <= i < |d| ==> r[i] == d[i].0
  {
    if |d| == 0 then [] else [d[0].0] + Keys(d[1..])
  }

  predicate DistinctKeys<K(==), V>(d: Dict<K, V>)
  {
    forall i, j :: 0 <= i < j < |d| ==> d[i].0 != d[j].0
  }

  function Get<K(==), V(==)>(d: Dict<K, V>, k: K): (r: Option<V>)
    ensures r.None? <==> k !in Keys(d)
    ensures r.Some? ==> exists i :: 0 <= i < |d| && d[i] == (k, r.value)
  {
    if |d| == 0 then None
    else if d[0].0 == k then Some(d[0].1)
    else
      var r := Get(d[1..], k);
      if r.Some? then
        var i :| 0 <= i < |d[1..]| && d[1..][i] == (k, r.value);
        assert d[i + 1] == (k, r.value);
        r
      else r
  }

  /** `d[k] = v`: a new key goes to the end, an existing key keeps its place. */
  function Put<K(==,!new), V(==)>(d: Dict<K, V>, k: K, v: V): (r: Dict<K, V>)
    ensures Keys(r) == if k in Keys(d) then Keys(d) else Keys(d) + [k]
    ensures Get(r, k) == Some(v)
    ensures forall k2 :: k2 != k ==> Get(r, k2) == Get(d, k2)
    ensures DistinctKeys(d) ==> DistinctKeys(r)
  {
    if |d| == 0 then [(k, v)]
    else if d[0].0 == k then
      var r := [(k, v)] + d[1..];
      assert r[1..] == d[1..];
      assert forall j :: 0 <= j < |r| ==> r[j].0 == d[j].0;
      r
    else
      var rest := Put(d[1..], k, v);
      PutStep(d, k, v, rest);
      [d[0]] + rest
  }

  /** The recursive case of `Put`: an entry with another key in front. */
  lemma PutStep<K(!new), V>(d: Dict<K, V>, k: K, v: V, rest: Dict<K, V>)
    requires |d| > 0 && d[0].0 != k
    requires Keys(rest) == if k in Keys(d[1..]) then Keys(d[1..]) else Keys(d[1..]) + [k]
    requires Get(rest, k) == Some(v)
    requires forall k2 :: k2 != k ==> Get(rest, k2) == Get(d[1..], k2)
    requires DistinctKeys(d[1..]) ==> DistinctKeys(rest)
    ensures var r := [d[0]] + rest;
            && Keys(r) == (if k in Keys(d) then Keys(d) else Keys(d) + [k])
            && Get(r, k) == Some(v)
            && (forall k2 :: k2 != k ==> Get(r, k2) == Get(d, k2))
            && (DistinctKeys(d) ==> DistinctKeys(r))
  {
    PutStepKeys(d, k, rest);
    PutStepGet(d, k, v, rest);
    PutStepDistinct(d, k, rest);
  }

  lemma PutStepKeys<K, V>(d: Dict<K, V>, k: K, rest: Dict<K, V>)
    requires |d| > 0 && d[0].0 != k
    requires Keys(rest) == if k in Keys(d[1..]) then Keys(d[1..]) else Keys(d[1..]) + [k]
    ensures Keys([d[0]] + rest) == (if k in Keys(d) then Keys(d) else Keys(d) + [k])
  {
    var r := [d[0]] + rest;
    assert r[1..] == rest;
    assert Keys(r) == [d[0].0] + Keys(rest);
    assert Keys(d) == [d[0].0] + Keys(d[1..]);
    assert k in Keys(d) <==> k in Keys(d[1..]);
    if k !in Keys(d[1..]) {
      assert [d[0].0] + (Keys(d[1..]) + [k]) == ([d[0].0] + Keys(d[1..])) + [k];
    }
  }

  lemma PutStepGet<K(!new), V>(d: Dict<K, V>, k: K, v: V, rest: Dict<K, V>)
    requires |d| > 0 && d[0].0 != k
    requires Get(rest, k) == Some(v)
    requires forall k2 :: k2 != k ==> Get(rest, k2) == Get(d[1..], k2)
    ensures Get([d[0]] + rest, k) == Some(v)
    ensures forall k2 :: k2 != k ==> Get([d[0]] + rest, k2) == Get(d, k2)
  {
    var r := [d[0]] + rest;
    assert r[1..] == rest;
    forall k2 | k2 != k ensures Get(r, k2) == Get(d, k2) {
      if d[0].0 != k2 {
        assert Get(r, k2) == Get(rest, k2);
      }
    }
  }

  lemma PutStepDistinct<K, V>(d: Dict<K, V>, k: K, rest: Dict<K, V>)
    requires |d| > 0 && d[0].0 != k
    requires Keys(rest) == if k in Keys(d[1..]) then Keys(d[1..]) else Keys(d[1..]) + [k]
    requires DistinctKeys(d[1..]) ==> DistinctKeys(rest)
    ensures DistinctKeys(d) ==> DistinctKeys([d[0]] + rest)
  {
    if DistinctKeys(d) {
      assert DistinctKeys(d[1..]) by {
        forall i, j | 0 <= i < j < |d[1..]| ensures d[1..][i].0 != d[1..][j].0 {
          assert d[1..][i] == d[i + 1] && d[1..][j] == d[j + 1];
        }
      }
      forall j | 0 <= j < |rest| ensures rest[j].0 != d[0].0 {
        assert Keys(rest)[j] == rest[j].0;
      }
      var r := [d[0]] + rest;
      forall i, j | 0 <= i < j < |r| ensures r[i].0 != r[j].0 {
        if i == 0 {
          assert r[j] == rest[j - 1];
        } else {
          assert r[i] == rest[i - 1] && r[j] == rest[j - 1];
        }
      }
    }
  }

  // ---------------------------------------------------------------- inputs and outputs

  /** The output of the (unseen) LO converter for one user dictionary. */
  datatype FreqConfig = FreqConfig(los: map<Channel, real>)

  /** The run configuration as lowering reads it. */
  datatype RunConfig = RunConfig(
    hasQubitLoFreq: bool,
    hasMeasLoFreq: bool,
    scheduleLos: seq<FreqConfig>,
    parametricPulses: seq<string>,
    measMap: Option<seq<seq<nat>>>)

  /** A schedule as lowering sees it: its name and its time-ordered instructions. */
  datatype LSchedule = LSchedule(name: string, instructions: seq<(int, I.Instruction)>)

  /** The grouping key of an acquire: its start time and its command. */
  datatype AcqKey = AcqKey(time: int, command: Option<nat>)

  /** A qobj instruction: the (unseen) converter's output for one pulse
      instruction, or the bundled acquire of one group. */
  datatype QobjItem =
    | Converted(time: int, instr: I.Instruction)
    | AcquireBundle(time: int, first: I.Instruction, qubits: seq<nat>, memorySlots: seq<nat>, registerSlots: seq<nat>)

  datatype LExperiment = LExperiment(headerMemorySlots: nat, name: string, instructions: seq<QobjItem>,
                                     config: Option<FreqConfig>)

  datatype PulseQobj = PulseQobj(experiments: seq<LExperiment>, pulseLibrary: Dict<string, seq<I.Sample>>,
                                 memorySlots: nat)

  type Library = Dict<string, seq<I.Sample>>

  /** The content hash of a sample sequence, as a hexadecimal name. */
  type Hash = seq<I.Sample> -> string

  predicate WellFormedSchedule(sched: seq<(int, I.Instruction)>)
  {
    forall k :: 0 <= k < |sched| ==> I.WellFormed(sched[k].1)
  }

  // ---------------------------------------------------------------- one instruction

  /** A new Play instruction; Play construction cannot fail. */
  function Replay(p: I.Pulse, ch: Channel, name: Option<string>): (r: I.Instruction)
    ensures I.Play(p, ch, name) == Ok(r)
    ensures r.kind == I.PlayKind && I.WellFormed(r) && I.PlayPulse(r) == p && I.PlayChannel(r) == ch && r.name == name
  {
    I.Play(p, ch, name).value
  }

  function SamplesOf(p: I.Pulse): seq<I.Sample>
  {
    match p
    case SamplePulse(s, _) => s
    case ParametricPulse(_, _, e) => e
  }

  /** A parametric pulse whose shape the backend does not accept is
      expanded to its samples, played on the same channel under the same
      name; every other instruction is left as it is. */
  function Expanded(i: I.Instruction, parametric: seq<string>): (r: I.Instruction)
    requires I.WellFormed(i)
    ensures I.WellFormed(r) && r.kind == i.kind
    ensures i.kind == I.PlayKind && I.PlayPulse(i).ParametricPulse? && I.PlayPulse(i).shape !in parametric ==>
              I.PlayPulse(r) == I.SamplePulse(I.PlayPulse(i).expansion, None)
              && I.PlayChannel(r) == I.PlayChannel(i) && r.name == i.name
    ensures !(i.kind == I.PlayKind && I.PlayPulse(i).ParametricPulse? && I.PlayPulse(i).shape !in parametric) ==> r == i
  {
    if i.kind == I.PlayKind && I.PlayPulse(i).ParametricPulse? && I.PlayPulse(i).shape !in parametric then
      Replay(I.SamplePulse(I.PlayPulse(i).expansion, None), I.PlayChannel(i), i.name)
    else i
  }

  /** Whether the instruction, after expansion, plays a sample pulse. */
  predicate PlaysSamples(i: I.Instruction, parametric: seq<string>)
    requires I.WellFormed(i)
  {
    var e := Expanded(i, parametric);
    e.kind == I.PlayKind && I.PlayPulse(e).SamplePulse?
  }

  /** The instruction lowering hands to the converter: a sample play renamed
      to the hash of its samples, pulse and instruction alike. */
  function Prepared(i: I.Instruction, parametric: seq<string>, hash: Hash): (r: I.Instruction)
    requires I.WellFormed(i)
    ensures I.WellFormed(r) && r.kind == i.kind
    ensures !PlaysSamples(i, parametric) ==> r == Expanded(i, parametric)
    ensures PlaysSamples(i, parametric) ==>
              var s := SamplesOf(I.PlayPulse(Expanded(i, parametric)));
              I.PlayPulse(r) == I.SamplePulse(s, Some(hash(s))) && r.name == Some(hash(s))
              && I.PlayChannel(r) == I.PlayChannel(i)
  {
    var e := Expanded(i, parametric);
    if PlaysSamples(i, parametric) then
      var s := I.PlayPulse(e).samples;
      Replay(I.SamplePulse(s, Some(hash(s))), I.PlayChannel(e), Some(hash(s)))
    else e
  }

  /** The corrected grouping key: start time and the acquire's duration. */
  function AcquireKey(time: int, i: I.Instruction): AcqKey
  {
    AcqKey(time, Some(i.duration))
  }

  /** The grouping key as written: `instruction.command`, which an
      instruction of the new kind reports as None. */
  function AcquireKeyAsWritten(time: int, i: I.Instruction): AcqKey
  {
    AcqKey(time, None)
  }

  // ---------------------------------------------------------------- the instruction loop, as folds

  /** One instruction of the loop, for the converted list: acquires and
      delays are not converted, every other instruction is, once prepared. */
  function AddItem(items: seq<QobjItem>, t: int, i: I.Instruction, parametric: seq<string>, hash: Hash): seq<QobjItem>
    requires I.WellFormed(i)
  {
    if i.kind == I.AcquireKind || i.kind == I.DelayKind then items else items + [Converted(t, Prepared(i, parametric, hash))]
  }

  /** One instruction of the loop, for the acquire map: an acquire is
      appended to the list of its key. */
  function AddAcquire(g: Dict<AcqKey, seq<I.Instruction>>, key: (int, I.Instruction) -> AcqKey, t: int, i: I.Instruction)
    : Dict<AcqKey, seq<I.Instruction>>
  {
    if i.kind == I.AcquireKind then
      var prev := Get(g, key(t, i));
      Put(g, key(t, i), (if prev.Some? then prev.value else []) + [i])
    else g
  }

  /** One instruction of the loop, for the memory-slot maximum. */
  function AddSlot(m: nat, i: I.Instruction): nat
    requires I.WellFormed(i)
  {
    if i.kind == I.AcquireKind && I.MemSlotOf(i).Some? then Max(m, I.MemSlotOf(i).value.index) else m
  }

  /** One instruction of the loop, for the library: a sample play stores its
      samples under their hash. */
  function AddPulse(l: Library, i: I.Instruction, parametric: seq<string>, hash: Hash): Library
    requires I.WellFormed(i)
  {
    if PlaysSamples(i, parametric) then
      var s := SamplesOf(I.PlayPulse(Expanded(i, parametric)));
      Put(l, hash(s), s)
    else l
  }

  /** The converted instructions: every instruction but acquires and delays. */
  function ItemsOf(sched: seq<(int, I.Instruction)>, parametric: seq<string>, hash: Hash): seq<QobjItem>
    requires WellFormedSchedule(sched)
    decreases |sched|
  {
    if |sched| == 0 then []
    else
      var n := |sched| - 1;
      AddItem(ItemsOf(sched[..n], parametric, hash), sched[n].0, sched[n].1, parametric, hash)
  }

  /** The acquire groups in first-seen key order (a defaultdict of lists). */
  function GroupsOf(sched: seq<(int, I.Instruction)>, key: (int, I.Instruction) -> AcqKey): Dict<AcqKey, seq<I.Instruction>>
    decreases |sched|
  {
    if |sched| == 0 then []
    else
      var n := |sched| - 1;
      AddAcquire(GroupsOf(sched[..n], key), key, sched[n].0, sched[n].1)
  }

  /** The largest memory-slot index of an acquire (0 when there is none). */
  function MaxSlotOf(sched: seq<(int, I.Instruction)>): nat
    requires WellFormedSchedule(sched)
    decreases |sched|
  {
    if |sched| == 0 then 0
    else
      var n := |sched| - 1;
      AddSlot(MaxSlotOf(sched[..n]), sched[n].1)
  }

  /** The pulse library after the instructions: `lib[name] = samples` for
      every sample play. */
  function LibraryOf(lib: Library, sched: seq<(int, I.Instruction)>, parametric: seq<string>, hash: Hash): Library
    requires WellFormedSchedule(sched)
    decreases |sched|
  {
    if |sched| == 0 then lib
    else
      var n := |sched| - 1;
      AddPulse(LibraryOf(lib, sched[..n], parametric, hash), sched[n].1, parametric, hash)
  }

  lemma PrefixWellFormed(sched: seq<(int, I.Instruction)>, k: nat)
    requires WellFormedSchedule(sched) && k <= |sched|
    ensures WellFormedSchedule(sched[..k])
  {
  }

  // ---------------------------------------------------------------- properties of the folds

  /** The converted list holds no acquire and no delay, and every sample
      play in it is named by the hash of its samples. */
  lemma {:induction false} ItemsHaveNoDelaysOrAcquires(sched: seq<(int, I.Instruction)>, parametric: seq<string>, hash: Hash)
    requires WellFormedSchedule(sched)
    ensures forall x :: x in ItemsOf(sched, parametric, hash) ==>
              x.Converted? && x.instr.kind != I.DelayKind && x.instr.kind != I.AcquireKind
    ensures forall x :: x in ItemsOf(sched, parametric, hash) && x.instr.kind == I.PlayKind
                        && I.WellFormed(x.instr) && I.PlayPulse(x.instr).SamplePulse? ==>
              x.instr.name == Some(hash(I.PlayPulse(x.instr).samples))
              && I.PlayPulse(x.instr).pulseName == Some(hash(I.PlayPulse(x.instr).samples))
    decreases |sched|
  {
    if |sched| > 0 {
      var init := sched[..|sched| - 1];
      PrefixWellFormed(sched, |sched| - 1);
      ItemsHaveNoDelaysOrAcquires(init, parametric, hash);
    }
  }

  /** Acquires collected so far, in encounter order, with the given key. */
  function WithKey(sched: seq<(int, I.Instruction)>, key: (int, I.Instruction) -> AcqKey, k: AcqKey): seq<I.Instruction>
    decreases |sched|
  {
    if |sched| == 0 then []
    else
      var (t, i) := sched[|sched| - 1];
      WithKey(sched[..|sched| - 1], key, k) + (if i.kind == I.AcquireKind && key(t, i) == k then [i] else [])
  }

  /** The keys of all acquires, first occurrences only, in encounter order. */
  function FirstSeenKeys(sched: seq<(int, I.Instruction)>, key: (int, I.Instruction) -> AcqKey): seq<AcqKey>
    decreases |sched|
  {
    if |sched| == 0 then []
    else
      var ks := FirstSeenKeys(sched[..|sched| - 1], key);
      var (t, i) := sched[|sched| - 1];
      if i.kind == I.AcquireKind && key(t, i) !in ks then ks + [key(t, i)] else ks
  }

  /** Grouping: one group per key, keys in first-seen order, and each
      group lists exactly the acquires with its key in encounter order. */
  lemma {:induction false} GroupsAreByKey(sched: seq<(int, I.Instruction)>, key: (int, I.Instruction) -> AcqKey)
    ensures DistinctKeys(GroupsOf(sched, key))
    ensures Keys(GroupsOf(sched, key)) == FirstSeenKeys(sched, key)
    ensures forall k :: Get(GroupsOf(sched, key), k) == (if |WithKey(sched, key, k)| == 0 then None else Some(WithKey(sched, key, k)))
    decreases |sched|
  {
    if |sched| > 0 {
      var init := sched[..|sched| - 1];
      GroupsAreByKey(init, key);
      var (t, i) := sched[|sched| - 1];
      var g := GroupsOf(init, key);
      if i.kind == I.AcquireKind {
        forall k ensures Get(GroupsOf(sched, key), k) == (if |WithKey(sched, key, k)| == 0 then None else Some(WithKey(sched, key, k))) {
          if k == key(t, i) {
            assert WithKey(sched, key, k) == WithKey(init, key, k) + [i];
          } else {
            assert WithKey(sched, key, k) == WithKey(init, key, k);
          }
        }
      } else {
        forall k ensures WithKey(sched, key, k) == WithKey(init, key, k) {
        }
      }
    }
  }

  /** In a dict with distinct keys, looking up the key of entry `j` gives entry `j`. */
  lemma GetDistinct<K, V>(d: Dict<K, V>, j: nat)
    requires DistinctKeys(d) && j < |d|
    ensures Get(d, d[j].0) == Some(d[j].1)
  {
    if j > 0 {
      assert d[1..][j - 1] == d[j];
      assert DistinctKeys(d[1..]);
      GetDistinct(d[1..], j - 1);
    }
  }

  /** The memory-slot maximum bounds every acquire's memory slot and is one
      of them (or 0 when there is none). */
  lemma {:induction false} MaxSlotIsMaximum(sched: seq<(int, I.Instruction)>)
    requires WellFormedSchedule(sched)
    ensures forall k :: 0 <= k < |sched| && sched[k].1.kind == I.AcquireKind && I.MemSlotOf(sched[k].1).Some? ==>
              I.MemSlotOf(sched[k].1).value.index <= MaxSlotOf(sched)
    ensures MaxSlotOf(sched) == 0 || exists k :: 0 <= k < |sched| && sched[k].1.kind == I.AcquireKind && I.MemSlotOf(sched[k].1).Some?
                                                && I.MemSlotOf(sched[k].1).value.index == MaxSlotOf(sched)
    decreases |sched|
  {
    if |sched| > 0 {
      var init := sched[..|sched| - 1];
      PrefixWellFormed(sched, |sched| - 1);
      MaxSlotIsMaximum(init);
      assert forall k :: 0 <= k < |init| ==> init[k] == sched[k];
      if MaxSlotOf(sched) != 0 && MaxSlotOf(sched) == MaxSlotOf(init) {
        var k :| 0 <= k < |init| && init[k].1.kind == I.AcquireKind && I.MemSlotOf(init[k].1).Some?
                 && I.MemSlotOf(init[k].1).value.index == MaxSlotOf(init);
        assert sched[k] == init[k];
      }
    }
  }

  /** The library is keyed by content: entries keep distinct keys, every
      entry's key is the hash of its samples, and every sample play's
      samples are in it. So identical samples give a single entry. */
  lemma {:induction false} LibraryIsContentKeyed(lib: Library, sched: seq<(int, I.Instruction)>, parametric: seq<string>, hash: Hash)
    requires WellFormedSchedule(sched)
    requires DistinctKeys(lib) && forall j :: 0 <= j < |lib| ==> lib[j].0 == hash(lib[j].1)
    ensures var l := LibraryOf(lib, sched, parametric, hash);
            && DistinctKeys(l)
            && (forall j :: 0 <= j < |l| ==> l[j].0 == hash(l[j].1))
            && (forall a, b :: 0 <= a < b < |l| ==> l[a].1 != l[b].1)
    ensures forall k :: 0 <= k < |sched| && PlaysSamples(sched[k].1, parametric) ==>
              hash(SamplesOf(I.PlayPulse(Expanded(sched[k].1, parametric)))) in Keys(LibraryOf(lib, sched, parametric, hash))
    decreases |sched|
  {
    if |sched| > 0 {
      var init := sched[..|sched| - 1];
      PrefixWellFormed(sched, |sched| - 1);
      LibraryIsContentKeyed(lib, init, parametric, hash);
      var l0 := LibraryOf(lib, init, parametric, hash);
      var (t, i) := sched[|sched| - 1];
      var l := LibraryOf(lib, sched, parametric, hash);
      if PlaysSamples(i, parametric) {
        var s := SamplesOf(I.PlayPulse(Expanded(i, parametric)));
        PutKeepsContentKeyed(l0, hash(s), s, hash);
      }
      forall k | 0 <= k < |sched| && PlaysSamples(sched[k].1, parametric)
        ensures hash(SamplesOf(I.PlayPulse(Expanded(sched[k].1, parametric)))) in Keys(l)
      {
        if k < |init| {
          assert sched[k] == init[k];
        }
      }
    }
  }

  lemma PutKeepsContentKeyed(d: Library, k: string, v: seq<I.Sample>, hash: Hash)
    requires DistinctKeys(d) && forall j :: 0 <= j < |d| ==> d[j].0 == hash(d[j].1)
    requires k == hash(v)
    ensures var r := Put(d, k, v);
            && DistinctKeys(r)
            && (forall j :: 0 <= j < |r| ==> r[j].0 == hash(r[j].1))
            && (forall a, b :: 0 <= a < b < |r| ==> r[a].1 != r[b].1)
  {
    var r := Put(d, k, v);
    forall j | 0 <= j < |r| ensures r[j].0 == hash(r[j].1) {
      GetDistinct(r, j);
      if r[j].0 == k {
        assert Get(r, k) == Some(v);
      } else {
        assert Get(d, r[j].0) == Some(r[j].1);
        var i :| 0 <= i < |d| && d[i] == (r[j].0, r[j].1);
      }
    }
  }

  // ---------------------------------------------------------------- bundling and the measurement map

  function Qubits(instrs: seq<I.Instruction>): (r: seq<nat>)
    requires forall k :: 0 <= k < |instrs| ==> instrs[k].kind == I.AcquireKind && I.WellFormed(instrs[k])
    ensures |r| == |instrs| && forall k :: 0 <= k < |instrs| ==> r[k] == I.AcquireChannelOf(instrs[k]).index
  {
    seq(|instrs|, k requires 0 <= k < |instrs| => I.AcquireChannelOf(instrs[k]).index)
  }

  /** The memory-slot indices of the acquires that have one, in order. */
  function MemSlots(instrs: seq<I.Instruction>): seq<nat>
    requires forall k :: 0 <= k < |instrs| ==> instrs[k].kind == I.AcquireKind && I.WellFormed(instrs[k])
    decreases |instrs|
  {
    if |instrs| == 0 then []
    else
      var last := instrs[|instrs| - 1];
      MemSlots(instrs[..|instrs| - 1]) + (if I.MemSlotOf(last).Some? then [I.MemSlotOf(last).value.index] else [])
  }

  /** The register-slot indices of the acquires that have one, in order. */
  function RegSlots(instrs: seq<I.Instruction>): seq<nat>
    requires forall k :: 0 <= k < |instrs| ==> instrs[k].kind == I.AcquireKind && I.WellFormed(instrs[k])
    decreases |instrs|
  {
    if |instrs| == 0 then []
    else
      var last := instrs[|instrs| - 1];
      RegSlots(instrs[..|instrs| - 1]) + (if I.RegSlotOf(last).Some? then [I.RegSlotOf(last).value.index] else [])
  }

  /** The number of acquires with a memory slot. */
  function CountMem(instrs: seq<I.Instruction>): nat
    requires forall k :: 0 <= k < |instrs| ==> instrs[k].kind == I.AcquireKind && I.WellFormed(instrs[k])
    decreases |instrs|
  {
    if |instrs| == 0 then 0
    else CountMem(instrs[..|instrs| - 1]) + (if I.MemSlotOf(instrs[|instrs| - 1]).Some? then 1 else 0)
  }

  /** A memory-slot list has one entry per acquire that has a slot, and each
      entry is the index of such a slot. */
  lemma {:induction false} MemSlotsMeaning(instrs: seq<I.Instruction>)
    requires forall k :: 0 <= k < |instrs| ==> instrs[k].kind == I.AcquireKind && I.WellFormed(instrs[k])
    ensures |MemSlots(instrs)| == CountMem(instrs) <= |instrs|
    ensures forall m :: m in MemSlots(instrs) <==>
              exists k :: 0 <= k < |instrs| && I.MemSlotOf(instrs[k]).Some? && I.MemSlotOf(instrs[k]).value.index == m
    decreases |instrs|
  {
    if |instrs| > 0 {
      var init := instrs[..|instrs| - 1];
      MemSlotsMeaning(init);
      assert forall k :: 0 <= k < |init| ==> init[k] == instrs[k];
      forall m ensures m in MemSlots(instrs) <==>
              exists k :: 0 <= k < |instrs| && I.MemSlotOf(instrs[k]).Some? && I.MemSlotOf(instrs[k]).value.index == m
      {
        if m in MemSlots(instrs) && m !in MemSlots(init) {
          assert I.MemSlotOf(instrs[|instrs| - 1]).value.index == m;
        }
        if exists k :: 0 <= k < |instrs| && I.MemSlotOf(instrs[k]).Some? && I.MemSlotOf(instrs[k]).value.index == m {
          var k :| 0 <= k < |instrs| && I.MemSlotOf(instrs[k]).Some? && I.MemSlotOf(instrs[k]).value.index == m;
          if k < |init| {
            assert init[k] == instrs[k];
          }
        }
      }
    }
  }

  /** `_bundle_channel_indices`: the qubit of every acquire, and the memory-
      and register-slot indices of those that have them, in order. */
  method BundleChannelIndices(instrs: seq<I.Instruction>) returns (qubits: seq<nat>, memSlots: seq<nat>, regSlots: seq<nat>)
    requires forall k :: 0 <= k < |instrs| ==> instrs[k].kind == I.AcquireKind && I.WellFormed(instrs[k])
    ensures qubits == Qubits(instrs) && memSlots == MemSlots(instrs) && regSlots == RegSlots(instrs)
  {
    qubits, memSlots, regSlots := [], [], [];
    var k := 0;
    while k < |instrs|
      invariant 0 <= k <= |instrs|
      invariant qubits == Qubits(instrs[..k]) && memSlots == MemSlots(instrs[..k]) && regSlots == RegSlots(instrs[..k])
    {
      var inst := instrs[k];
      assert instrs[..k + 1][..k] == instrs[..k] && instrs[..k + 1][k] == inst;
      qubits := qubits + [I.AcquireChannelOf(inst).index];
      if I.MemSlotOf(inst).Some? {
        memSlots := memSlots + [I.MemSlotOf(inst).value.index];
      }
      if I.RegSlotOf(inst).Some? {
        regSlots := regSlots + [I.RegSlotOf(inst).value.index];
      }
      k := k + 1;
    }
    assert instrs[..k] == instrs;
  }

  predicate AllAcquires(instrs: seq<I.Instruction>)
  {
    forall k :: 0 <= k < |instrs| ==> instrs[k].kind == I.AcquireKind && I.WellFormed(instrs[k])
  }

  /** The qubits measured by one group. */
  function Measured(instrs: seq<I.Instruction>): set<nat>
    requires AllAcquires(instrs)
  {
    set k | 0 <= k < |instrs| :: I.AcquireChannelOf(instrs[k]).index
  }

  /** One group against one measurement set: their overlap is empty or the whole set. */
  predicate Respects(measured: set<nat>, measSet: seq<nat>)
  {
    var s := set q | q in measSet;
    measured * s == {} || measured * s == s
  }

  predicate GroupsWellFormed(groups: Dict<AcqKey, seq<I.Instruction>>)
  {
    forall j :: 0 <= j < |groups| ==> AllAcquires(groups[j].1) && |groups[j].1| > 0
  }

  /** Every group respects every measurement set. */
  predicate MeasMapOk(groups: Dict<AcqKey, seq<I.Instruction>>, measMap: seq<seq<nat>>)
    requires GroupsWellFormed(groups)
  {
    forall j, m :: 0 <= j < |groups| && 0 <= m < |measMap| ==> Respects(Measured(groups[j].1), measMap[m])
  }

  /** The error raised for a group that breaks the measurement map. */
  const MeasMapError := CompilerError("Qubits to be acquired do not satisfy required qubits in measurement map")

  /** `_validate_meas_map`: a CompilerError as soon as a group measures part,
      but not all, of a measurement set. */
  method ValidateMeasMap(groups: Dict<AcqKey, seq<I.Instruction>>, measMap: seq<seq<nat>>) returns (r: Outcome)
    requires GroupsWellFormed(groups)
    ensures r.Pass? <==> MeasMapOk(groups, measMap)
    ensures r.Fail? ==> r.error == MeasMapError
  {
    var j := 0;
    while j < |groups|
      invariant 0 <= j <= |groups|
      invariant forall j', m :: 0 <= j' < j && 0 <= m < |measMap| ==> Respects(Measured(groups[j'].1), measMap[m])
    {
      var instrs := groups[j].1;
      var measured: set<nat> := {};
      var k := 0;
      while k < |instrs|
        invariant 0 <= k <= |instrs|
        invariant measured == set k' | 0 <= k' < k :: I.AcquireChannelOf(instrs[k']).index
      {
        measured := measured + {I.AcquireChannelOf(instrs[k]).index};
        k := k + 1;
      }
      assert measured == Measured(instrs);
      var m := 0;
      while m < |measMap|
        invariant 0 <= m <= |measMap|
        invariant forall m' :: 0 <= m' < m ==> Respects(measured, measMap[m'])
      {
        var measSet := set q | q in measMap[m];
        var intersection := measured * measSet;
        if intersection != {} && intersection != measSet {
          return Fail(MeasMapError);
        }
        m := m + 1;
      }
      j := j + 1;
    }
    return Pass;
  }

  /** One acquire bundle per group, in group order: stamped with the
      group's time and first acquire, and holding the qubits, memory slots
      and register slots of all its acquires. */
  function Bundles(groups: Dict<AcqKey, seq<I.Instruction>>): (r: seq<QobjItem>)
    requires GroupsWellFormed(groups)
    ensures |r| == |groups|
    ensures forall j :: 0 <= j < |groups| ==>
              r[j].AcquireBundle? && r[j].time == groups[j].0.time && r[j].first == groups[j].1[0]
              && r[j].qubits == Qubits(groups[j].1) && r[j].memorySlots == MemSlots(groups[j].1)
              && r[j].registerSlots == RegSlots(groups[j].1)
  {
    seq(|groups|, j requires 0 <= j < |groups| =>
      AcquireBundle(groups[j].0.time, groups[j].1[0], Qubits(groups[j].1), MemSlots(groups[j].1), RegSlots(groups[j].1)))
  }

  /** The acquires with one key are acquires of the schedule. */
  lemma {:induction false} WithKeyAcquires(sched: seq<(int, I.Instruction)>, key: (int, I.Instruction) -> AcqKey, k: AcqKey)
    requires WellFormedSchedule(sched)
    ensures AllAcquires(WithKey(sched, key, k))
    decreases |sched|
  {
    if |sched| > 0 {
      PrefixWellFormed(sched, |sched| - 1);
      WithKeyAcquires(sched[..|sched| - 1], key, k);
    }
  }

  lemma GroupsAreAcquires(sched: seq<(int, I.Instruction)>, key: (int, I.Instruction) -> AcqKey)
    requires WellFormedSchedule(sched)
    ensures GroupsWellFormed(GroupsOf(sched, key))
  {
    var g := GroupsOf(sched, key);
    GroupsAreByKey(sched, key);
    forall j | 0 <= j < |g| ensures AllAcquires(g[j].1) && |g[j].1| > 0 {
      GetDistinct(g, j);
      WithKeyAcquires(sched, key, g[j].0);
    }
  }

  /** `_assemble_instructions` as a function of its inputs: the converted
      instructions followed by one bundle per acquire group, and the
      memory-slot maximum; a CompilerError when a measurement map is given
      and a group violates it. */
  function InstructionsSpec(sched: seq<(int, I.Instruction)>, rc: RunConfig, hash: Hash): Result<(seq<QobjItem>, nat)>
    requires WellFormedSchedule(sched)
  {
    var groups := GroupsOf(sched, AcquireKey);
    GroupsAreAcquires(sched, AcquireKey);
    if |groups| > 0 && rc.measMap.Some? && !MeasMapOk(groups, rc.measMap.value) then
      Err(MeasMapError)
    else Ok((ItemsOf(sched, rc.parametricPulses, hash) + Bundles(groups), MaxSlotOf(sched)))
  }

  /** The output order: converted instructions first, then exactly one
      bundle per group in first-seen key order, each bundling the group's
      acquires in encounter order. */
  lemma BundlesFollowInstructions(sched: seq<(int, I.Instruction)>, rc: RunConfig, hash: Hash)
    requires WellFormedSchedule(sched) && InstructionsSpec(sched, rc, hash).Ok?
    ensures var out := InstructionsSpec(sched, rc, hash).value.0;
            var n := |ItemsOf(sched, rc.parametricPulses, hash)|;
            var keys := FirstSeenKeys(sched, AcquireKey);
            && |out| == n + |keys|
            && (forall x :: 0 <= x < n ==> out[x].Converted?)
            && (forall j :: 0 <= j < |keys| ==>
                  out[n + j].AcquireBundle? && out[n + j].time == keys[j].time
                  && |WithKey(sched, AcquireKey, keys[j])| > 0 && AllAcquires(WithKey(sched, AcquireKey, keys[j]))
                  && out[n + j].first == WithKey(sched, AcquireKey, keys[j])[0]
                  && out[n + j].qubits == Qubits(WithKey(sched, AcquireKey, keys[j]))
                  && out[n + j].memorySlots == MemSlots(WithKey(sched, AcquireKey, keys[j]))
                  && out[n + j].registerSlots == RegSlots(WithKey(sched, AcquireKey, keys[j])))
  {
    var groups := GroupsOf(sched, AcquireKey);
    GroupsAreByKey(sched, AcquireKey);
    GroupsAreAcquires(sched, AcquireKey);
    ItemsHaveNoDelaysOrAcquires(sched, rc.parametricPulses, hash);
    var items := ItemsOf(sched, rc.parametricPulses, hash);
    var out := InstructionsSpec(sched, rc, hash).value.0;
    assert out == items + Bundles(groups);
    forall x | 0 <= x < |items| ensures out[x].Converted? {
      assert out[x] == items[x];
      assert items[x] in items;
    }
    forall j | 0 <= j < |groups|
      ensures |WithKey(sched, AcquireKey, groups[j].0)| > 0 && groups[j].1 == WithKey(sched, AcquireKey, groups[j].0)
      ensures AllAcquires(WithKey(sched, AcquireKey, groups[j].0))
    {
      GetDistinct(groups, j);
    }
  }

  /** One more instruction, in each of the folds. */
  lemma FoldsStep(sched: seq<(int, I.Instruction)>, k: nat, parametric: seq<string>, hash: Hash, lib: Library)
    requires WellFormedSchedule(sched) && k < |sched|
    ensures WellFormedSchedule(sched[..k]) && WellFormedSchedule(sched[..k + 1]) && I.WellFormed(sched[k].1)
    ensures ItemsOf(sched[..k + 1], parametric, hash) == AddItem(ItemsOf(sched[..k], parametric, hash), sched[k].0, sched[k].1, parametric, hash)
    ensures GroupsOf(sched[..k + 1], AcquireKey) == AddAcquire(GroupsOf(sched[..k], AcquireKey), AcquireKey, sched[k].0, sched[k].1)
    ensures MaxSlotOf(sched[..k + 1]) == AddSlot(MaxSlotOf(sched[..k]), sched[k].1)
    ensures LibraryOf(lib, sched[..k + 1], parametric, hash) == AddPulse(LibraryOf(lib, sched[..k], parametric, hash), sched[k].1, parametric, hash)
  {
    PrefixWellFormed(sched, k);
    PrefixWellFormed(sched, k + 1);
    assert sched[..k + 1][..k] == sched[..k] && sched[..k + 1][k] == sched[k];
  }

  /** The instruction loop of `_assemble_instructions`: the converted
      instructions, the acquire map, the memory-slot maximum and the library. */
  method CollectInstructions(sched: seq<(int, I.Instruction)>, rc: RunConfig, hash: Hash, lib: Library)
    returns (items: seq<QobjItem>, acquireMap: Dict<AcqKey, seq<I.Instruction>>, maxMemorySlot: nat, libOut: Library)
    requires WellFormedSchedule(sched)
    ensures items == ItemsOf(sched, rc.parametricPulses, hash)
    ensures acquireMap == GroupsOf(sched, AcquireKey)
    ensures maxMemorySlot == MaxSlotOf(sched)
    ensures libOut == LibraryOf(lib, sched, rc.parametricPulses, hash)
  {
    maxMemorySlot := 0;
    items := [];
    acquireMap := [];
    libOut := lib;
    var k := 0;
    while k < |sched|
      invariant 0 <= k <= |sched|
      invariant WellFormedSchedule(sched[..k])
      invariant items == ItemsOf(sched[..k], rc.parametricPulses, hash)
      invariant acquireMap == GroupsOf(sched[..k], AcquireKey)
      invariant maxMemorySlot == MaxSlotOf(sched[..k])
      invariant libOut == LibraryOf(lib, sched[..k], rc.parametricPulses, hash)
    {
      var (time, instruction) := sched[k];
      FoldsStep(sched, k, rc.parametricPulses, hash, lib);
      libOut := AddPulse(libOut, instruction, rc.parametricPulses, hash);
      maxMemorySlot := AddSlot(maxMemorySlot, instruction);
      acquireMap := AddAcquire(acquireMap, AcquireKey, time, instruction);
      items := AddItem(items, time, instruction, rc.parametricPulses, hash);
      k := k + 1;
    }
    assert sched[..k] == sched;
  }

  /** The bundling loop: one bundle per acquire group, in the map's order. */
  method BundleGroups(groups: Dict<AcqKey, seq<I.Instruction>>) returns (out: seq<QobjItem>)
    requires GroupsWellFormed(groups)
    ensures out == Bundles(groups)
  {
    out := [];
    var j := 0;
    while j < |groups|
      invariant 0 <= j <= |groups|
      invariant out == Bundles(groups)[..j]
    {
      var (key, instrs) := groups[j];
      var qubits, memSlots, regSlots := BundleChannelIndices(instrs);
      out := out + [AcquireBundle(key.time, instrs[0], qubits, memSlots, regSlots)];
      assert Bundles(groups)[..j + 1] == Bundles(groups)[..j] + [Bundles(groups)[j]];
      j := j + 1;
    }
    assert Bundles(groups)[..j] == Bundles(groups);
  }

  /** `_assemble_instructions`: the instruction loop, then the measurement
      map check when there are acquires and a map, then the bundles. */
  method AssembleInstructions(sched: seq<(int, I.Instruction)>, rc: RunConfig, hash: Hash, lib: Library)
    returns (r: Result<(seq<QobjItem>, nat)>, libOut: Library)
    requires WellFormedSchedule(sched)
    ensures r == InstructionsSpec(sched, rc, hash)
    ensures libOut == LibraryOf(lib, sched, rc.parametricPulses, hash)
  {
    var items, acquireMap, maxMemorySlot;
    items, acquireMap, maxMemorySlot, libOut := CollectInstructions(sched, rc, hash, lib);
    GroupsAreAcquires(sched, AcquireKey);
    if |acquireMap| > 0 && rc.measMap.Some? {
      var check := ValidateMeasMap(acquireMap, rc.measMap.value);
      if check.Fail? {
        return Err(check.error), libOut;
      }
    }
    var bundles := BundleGroups(acquireMap);
    return Ok((items + bundles, maxMemorySlot)), libOut;
  }

  /** As written, acquires that start together are bundled together whatever
      their durations; with the command's duration in the key they are not. */
  lemma AcquireGroupingAsWrittenMerges(a: I.Instruction, b: I.Instruction)
    requires a.kind == I.AcquireKind && b.kind == I.AcquireKind && a.duration != b.duration
    ensures |GroupsOf([(0, a), (0, b)], AcquireKeyAsWritten)| == 1
    ensures |GroupsOf([(0, a), (0, b)], AcquireKey)| == 2
  {
    var s: seq<(int, I.Instruction)> := [(0, a), (0, b)];
    var e: seq<(int, I.Instruction)> := [];
    var none: seq<I.Instruction> := [];
    assert s[..1] == [(0, a)] && s[..1][..0] == e;
    assert none + [a] == [a];
    assert GroupsOf(s[..1], AcquireKeyAsWritten) == Put([], AcqKey(0, None), [a]);
    assert GroupsOf(s[..1], AcquireKey) == Put([], AcqKey(0, Some(a.duration)), [a]);
    assert GroupsOf(s, AcquireKeyAsWritten) == AddAcquire(GroupsOf(s[..1], AcquireKeyAsWritten), AcquireKeyAsWritten, 0, b);
    assert GroupsOf(s, AcquireKey) == AddAcquire(GroupsOf(s[..1], AcquireKey), AcquireKey, 0, b);
    assert |Keys(GroupsOf(s, AcquireKeyAsWritten))| == 1;
    assert |Keys(GroupsOf(s, AcquireKey))| == 2;
  }

  /** Under the intended key, the acquires bundled under `(t, d)` are exactly
      the acquires of the schedule that start at `t` and last `d`. */
  lemma {:induction false} AcquireGroupsByTimeAndDuration(sched: seq<(int, I.Instruction)>, k: AcqKey)
    ensures forall x :: x in WithKey(sched, AcquireKey, k) ==> x.kind == I.AcquireKind && k.command == Some(x.duration)
    ensures forall m :: (0 <= m < |sched| && sched[m].1.kind == I.AcquireKind && sched[m].0 == k.time
                         && k.command == Some(sched[m].1.duration)) ==> sched[m].1 in WithKey(sched, AcquireKey, k)
    decreases |sched|
  {
    if |sched| > 0 {
      var n := |sched| - 1;
      AcquireGroupsByTimeAndDuration(sched[..n], k);
      assert forall m :: 0 <= m < n ==> sched[..n][m] == sched[m];
    }
  }

  // ---------------------------------------------------------------- experiments

  /** Frequency configuration of experiment `idx` before any sweep: the one
      config for all, or config `idx`. */
  function ConfigFor(configs: seq<FreqConfig>, idx: nat): Option<FreqConfig>
  {
    if |configs| == 0 then None
    else if |configs| == 1 then Some(configs[0])
    else if idx < |configs| then Some(configs[idx])
    else None
  }

  /** The count check: several schedules need 0, 1 or one config each. */
  predicate CountOk(nSchedules: nat, nConfigs: nat)
  {
    !(nSchedules > 1 && nConfigs != 0 && nConfigs != 1 && nConfigs != nSchedules)
  }

  predicate SchedulesWellFormed(scheds: seq<LSchedule>)
  {
    forall s :: 0 <= s < |scheds| ==> WellFormedSchedule(scheds[s].instructions)
  }

  /** The instructions of one schedule, as `_assemble_instructions` gives them. */
  function InstrsStep(rc: RunConfig, hash: Hash): LSchedule -> Result<(seq<QobjItem>, nat)>
  {
    (s: LSchedule) => if WellFormedSchedule(s.instructions) then InstructionsSpec(s.instructions, rc, hash) else Err(TypeError)
  }

  /** The shared pulse library after one more schedule. */
  function LibStep(rc: RunConfig, hash: Hash): (Library, LSchedule) -> Library
  {
    (l: Library, s: LSchedule) => if WellFormedSchedule(s.instructions) then LibraryOf(l, s.instructions, rc.parametricPulses, hash) else l
  }

  /** The experiment schedule `n` contributes, given its assembled instructions. */
  function ExperimentAt(sched: LSchedule, n: nat, items: seq<QobjItem>, maxSlot: nat, rc: RunConfig): LExperiment
  {
    LExperiment(maxSlot + 1, ExperimentName(sched.name, n), items, ConfigFor(rc.scheduleLos, n))
  }

  /** The experiments of the schedules before the sweep step, with the
      library they leave; the first failing schedule's error otherwise. */
  function ExperimentsOf(scheds: seq<LSchedule>, rc: RunConfig, instrs: LSchedule -> Result<(seq<QobjItem>, nat)>,
                         libStep: (Library, LSchedule) -> Library, lib: Library): Result<(seq<LExperiment>, Library)>
    decreases |scheds|
  {
    if |scheds| == 0 then Ok(([], lib))
    else
      var n := |scheds| - 1;
      var prev := ExperimentsOf(scheds[..n], rc, instrs, libStep, lib);
      if prev.Err? then Err(prev.error)
      else
        var cur := instrs(scheds[n]);
        if cur.Err? then Err(cur.error)
        else Ok((prev.value.0 + [ExperimentAt(scheds[n], n, cur.value.0, cur.value.1, rc)], libStep(prev.value.1, scheds[n])))
  }

  /** A single experiment with configs becomes one experiment per config. */
  function Swept(exps: seq<LExperiment>, configs: seq<FreqConfig>): (r: seq<LExperiment>)
    ensures |configs| > 0 && |exps| == 1 ==>
              |r| == |configs| && forall i :: 0 <= i < |configs| ==>
                r[i] == exps[0].(config := Some(configs[i]))
    ensures !(|configs| > 0 && |exps| == 1) ==> r == exps
  {
    if |configs| > 0 && |exps| == 1 then
      seq(|configs|, i requires 0 <= i < |configs| => exps[0].(config := Some(configs[i])))
    else exps
  }

  function MaxHeaderSlots(exps: seq<LExperiment>): nat
    decreases |exps|
  {
    if |exps| == 0 then 0 else Max(MaxHeaderSlots(exps[..|exps| - 1]), exps[|exps| - 1].headerMemorySlots)
  }

  lemma {:induction false} MaxHeaderSlotsIsMaximum(exps: seq<LExperiment>)
    ensures forall i :: 0 <= i < |exps| ==> exps[i].headerMemorySlots <= MaxHeaderSlots(exps)
    ensures |exps| > 0 ==> exists i :: 0 <= i < |exps| && exps[i].headerMemorySlots == MaxHeaderSlots(exps)
    decreases |exps|
  {
    if |exps| > 0 {
      var init := exps[..|exps| - 1];
      MaxHeaderSlotsIsMaximum(init);
      assert forall i :: 0 <= i < |init| ==> init[i] == exps[i];
      if |init| > 0 && MaxHeaderSlots(exps) == MaxHeaderSlots(init) {
        var i :| 0 <= i < |init| && init[i].headerMemorySlots == MaxHeaderSlots(init);
        assert exps[i] == init[i];
      } else {
        assert exps[|exps| - 1].headerMemorySlots == MaxHeaderSlots(exps);
      }
    }
  }

  /** `lower` as a function: the precondition checks, the count check, the
      experiments, the sweep, the library and the memory-slot maximum (a
      ValueError when there is no experiment to take it over). */
  function LowerSpec(scheds: seq<LSchedule>, rc: RunConfig, hash: Hash): Result<PulseQobj>
    requires SchedulesWellFormed(scheds)
  {
    if !rc.hasQubitLoFreq then Err(CompilerError("qubit_lo_freq must be supplied."))
    else if !rc.hasMeasLoFreq then Err(CompilerError("meas_lo_freq must be supplied."))
    else if !CountOk(|scheds|, |rc.scheduleLos|) then Err(CompilerError("Invalid frequency setting is specified."))
    else
      match ExperimentsOf(scheds, rc, InstrsStep(rc, hash), LibStep(rc, hash), [])
      case Err(e) => Err(e)
      case Ok((exps, lib)) =>
        var swept := Swept(exps, rc.scheduleLos);
        if |swept| == 0 then Err(ValueError)
        else Ok(PulseQobj(swept, lib, MaxHeaderSlots(swept)))
  }

  /** The only error an experiment list fails with is one of its schedules' errors. */
  lemma {:induction false} ExperimentsErrors(scheds: seq<LSchedule>, rc: RunConfig, instrs: LSchedule -> Result<(seq<QobjItem>, nat)>,
                                             libStep: (Library, LSchedule) -> Library, lib: Library, e0: Error)
    requires forall i :: 0 <= i < |scheds| ==> instrs(scheds[i]).Err? ==> instrs(scheds[i]).error == e0
    ensures ExperimentsOf(scheds, rc, instrs, libStep, lib).Err? ==> ExperimentsOf(scheds, rc, instrs, libStep, lib).error == e0
    decreases |scheds|
  {
    if |scheds| > 0 {
      var n := |scheds| - 1;
      assert forall i :: 0 <= i < n ==> scheds[..n][i] == scheds[i];
      ExperimentsErrors(scheds[..n], rc, instrs, libStep, lib, e0);
    }
  }

  /** Experiment `i` is schedule `i` with its assembled instructions. */
  lemma {:induction false} ExperimentsShape(scheds: seq<LSchedule>, rc: RunConfig, instrs: LSchedule -> Result<(seq<QobjItem>, nat)>,
                                            libStep: (Library, LSchedule) -> Library, lib: Library)
    requires ExperimentsOf(scheds, rc, instrs, libStep, lib).Ok?
    ensures var exps := ExperimentsOf(scheds, rc, instrs, libStep, lib).value.0;
            |exps| == |scheds| && forall i :: 0 <= i < |scheds| ==>
              instrs(scheds[i]).Ok? && exps[i] == ExperimentAt(scheds[i], i, instrs(scheds[i]).value.0, instrs(scheds[i]).value.1, rc)
    decreases |scheds|
  {
    if |scheds| > 0 {
      var n := |scheds| - 1;
      ExperimentsShape(scheds[..n], rc, instrs, libStep, lib);
      var exps := ExperimentsOf(scheds, rc, instrs, libStep, lib).value.0;
      var prev := ExperimentsOf(scheds[..n], rc, instrs, libStep, lib).value.0;
      forall i | 0 <= i < n
        ensures instrs(scheds[i]).Ok? && exps[i] == ExperimentAt(scheds[i], i, instrs(scheds[i]).value.0, instrs(scheds[i]).value.1, rc)
      {
        assert exps[i] == prev[i] && scheds[..n][i] == scheds[i];
      }
    }
  }

  /** The assembled instructions of a well-formed schedule. */
  lemma InstrsStepIs(sched: LSchedule, rc: RunConfig, hash: Hash)
    requires WellFormedSchedule(sched.instructions)
    ensures InstrsStep(rc, hash)(sched) == InstructionsSpec(sched.instructions, rc, hash)
    ensures InstrsStep(rc, hash)(sched).Ok? ==> InstrsStep(rc, hash)(sched).value.1 == MaxSlotOf(sched.instructions)
    ensures InstrsStep(rc, hash)(sched).Err? ==> InstrsStep(rc, hash)(sched).error == MeasMapError
  {
  }

  /** The experiments before the sweep, in the schedules' own terms. */
  lemma ScheduleExperiments(scheds: seq<LSchedule>, rc: RunConfig, hash: Hash)
    requires SchedulesWellFormed(scheds)
    requires ExperimentsOf(scheds, rc, InstrsStep(rc, hash), LibStep(rc, hash), []).Ok?
    ensures var exps := ExperimentsOf(scheds, rc, InstrsStep(rc, hash), LibStep(rc, hash), []).value.0;
            |exps| == |scheds| && forall i :: 0 <= i < |scheds| ==>
              && InstructionsSpec(scheds[i].instructions, rc, hash).Ok?
              && exps[i].instructions == InstructionsSpec(scheds[i].instructions, rc, hash).value.0
              && exps[i].headerMemorySlots == MaxSlotOf(scheds[i].instructions) + 1
              && exps[i].config == ConfigFor(rc.scheduleLos, i)
              && exps[i].name == ExperimentName(scheds[i].name, i)
  {
    ExperimentsShape(scheds, rc, InstrsStep(rc, hash), LibStep(rc, hash), []);
    forall i | 0 <= i < |scheds| ensures InstrsStep(rc, hash)(scheds[i]) == InstructionsSpec(scheds[i].instructions, rc, hash) {
      InstrsStepIs(scheds[i], rc, hash);
    }
  }

  /** Several schedules with a config count other than 0, 1 or one each are refused. */
  lemma InvalidFrequencyCount(scheds: seq<LSchedule>, rc: RunConfig, hash: Hash)
    requires SchedulesWellFormed(scheds) && rc.hasQubitLoFreq && rc.hasMeasLoFreq
    ensures |scheds| > 1 && |rc.scheduleLos| !in {0, 1, |scheds|} <==>
              LowerSpec(scheds, rc, hash) == Err(CompilerError("Invalid frequency setting is specified."))
  {
    forall i | 0 <= i < |scheds|
      ensures InstrsStep(rc, hash)(scheds[i]).Err? ==> InstrsStep(rc, hash)(scheds[i]).error == MeasMapError
    {
      InstrsStepIs(scheds[i], rc, hash);
    }
    ExperimentsErrors(scheds, rc, InstrsStep(rc, hash), LibStep(rc, hash), [], MeasMapError);
  }

  /** Without a sweep, experiment `i` is schedule `i` with its configuration:
      none, the single config for every experiment, or config `i`. */
  lemma ConfigPerSchedule(scheds: seq<LSchedule>, rc: RunConfig, hash: Hash)
    requires SchedulesWellFormed(scheds) && LowerSpec(scheds, rc, hash).Ok?
    requires |scheds| > 1 || |rc.scheduleLos| == 0
    ensures var exps := LowerSpec(scheds, rc, hash).value.experiments;
            && |exps| == |scheds|
            && (forall i :: 0 <= i < |scheds| ==>
                  && exps[i].name == ExperimentName(scheds[i].name, i)
                  && InstructionsSpec(scheds[i].instructions, rc, hash).Ok?
                  && exps[i].instructions == InstructionsSpec(scheds[i].instructions, rc, hash).value.0
                  && exps[i].headerMemorySlots == MaxSlotOf(scheds[i].instructions) + 1)
            && (|rc.scheduleLos| == 0 ==> forall i :: 0 <= i < |scheds| ==> exps[i].config.None?)
            && (|rc.scheduleLos| == 1 ==> forall i :: 0 <= i < |scheds| ==> exps[i].config == Some(rc.scheduleLos[0]))
            && (|rc.scheduleLos| == |scheds| > 1 ==>
                  forall i :: 0 <= i < |scheds| ==> exps[i].config == Some(rc.scheduleLos[i]))
  {
    ScheduleExperiments(scheds, rc, hash);
  }

  /** A single schedule with configs is swept: one experiment per config, in
      order, all sharing its header and instructions. */
  lemma SingleScheduleSweep(scheds: seq<LSchedule>, rc: RunConfig, hash: Hash)
    requires SchedulesWellFormed(scheds) && LowerSpec(scheds, rc, hash).Ok?
    requires |scheds| == 1 && |rc.scheduleLos| > 0
    ensures var exps := LowerSpec(scheds, rc, hash).value.experiments;
            && |exps| == |rc.scheduleLos|
            && forall i :: 0 <= i < |exps| ==>
                 && exps[i].config == Some(rc.scheduleLos[i])
                 && exps[i].name == ExperimentName(scheds[0].name, 0)
                 && exps[i].instructions == InstructionsSpec(scheds[0].instructions, rc, hash).value.0
                 && exps[i].headerMemorySlots == MaxSlotOf(scheds[0].instructions) + 1
  {
    ScheduleExperiments(scheds, rc, hash);
  }

  /** The qobj's memory slots are the largest header value, and every header
      has at least one slot. */
  lemma MemorySlotsAreMaximum(scheds: seq<LSchedule>, rc: RunConfig, hash: Hash)
    requires SchedulesWellFormed(scheds) && LowerSpec(scheds, rc, hash).Ok?
    ensures var q := LowerSpec(scheds, rc, hash).value;
            && (forall i :: 0 <= i < |q.experiments| ==> 1 <= q.experiments[i].headerMemorySlots <= q.memorySlots)
            && exists i :: 0 <= i < |q.experiments| && q.experiments[i].headerMemorySlots == q.memorySlots
  {
    ScheduleExperiments(scheds, rc, hash);
    var exps := ExperimentsOf(scheds, rc, InstrsStep(rc, hash), LibStep(rc, hash), []).value.0;
    MaxHeaderSlotsIsMaximum(Swept(exps, rc.scheduleLos));
  }

  /** An empty program has no experiment to take the maximum over. */
  lemma EmptyProgramFails(rc: RunConfig, hash: Hash)
    requires rc.hasQubitLoFreq && rc.hasMeasLoFreq
    ensures LowerSpec([], rc, hash) == Err(ValueError)
  {
  }

  // ---------------------------------------------------------------- the lowering methods

  /** The body of the schedule loop: schedule `idx` lowered to one
      experiment, its header, instructions and frequency configuration. */
  method AssembleExperiment(schedule: LSchedule, idx: nat, rc: RunConfig, hash: Hash, lib: Library)
    returns (r: Result<LExperiment>, libOut: Library)
    requires WellFormedSchedule(schedule.instructions)
    requires |rc.scheduleLos| > 1 ==> idx < |rc.scheduleLos|
    ensures var cur := InstrsStep(rc, hash)(schedule);
            && (cur.Err? ==> r == Err(cur.error))
            && (cur.Ok? ==> r == Ok(ExperimentAt(schedule, idx, cur.value.0, cur.value.1, rc)))
    ensures libOut == LibStep(rc, hash)(lib, schedule)
  {
    var assembled;
    assembled, libOut := AssembleScheduleInstructions(schedule, rc, hash, lib);
    if assembled.Err? {
      return Err(assembled.error), libOut;
    }
    var (qobjInstructions, maxMemorySlot) := assembled.value;
    var freqConfigs := rc.scheduleLos;
    var config := None;
    if |freqConfigs| > 0 {
      var freqIdx := if |freqConfigs| != 1 then idx else 0;
      config := Some(freqConfigs[freqIdx]);
    }
    assert config == ConfigFor(rc.scheduleLos, idx);
    return Ok(LExperiment(maxMemorySlot + 1, ExperimentName(schedule.name, idx), qobjInstructions, config)), libOut;
  }

  /** `_assemble_instructions` of one schedule, seen as the step functions
      of the experiment fold. */
  method AssembleScheduleInstructions(schedule: LSchedule, rc: RunConfig, hash: Hash, lib: Library)
    returns (r: Result<(seq<QobjItem>, nat)>, libOut: Library)
    requires WellFormedSchedule(schedule.instructions)
    ensures r == InstrsStep(rc, hash)(schedule)
    ensures libOut == LibStep(rc, hash)(lib, schedule)
  {
    r, libOut := AssembleInstructions(schedule.instructions, rc, hash, lib);
    InstrsStepIs(schedule, rc, hash);
  }

  /** The experiment fold after one more schedule: the new experiment is
      appended, or its error is the error of the whole fold. */
  lemma ExperimentsAdvance(scheds: seq<LSchedule>, idx: nat, rc: RunConfig, instrs: LSchedule -> Result<(seq<QobjItem>, nat)>,
                           libStep: (Library, LSchedule) -> Library, experiments: seq<LExperiment>, lib: Library,
                           r: Result<LExperiment>, lib': Library)
    requires idx < |scheds|
    requires ExperimentsOf(scheds[..idx], rc, instrs, libStep, []) == Ok((experiments, lib))
    requires var cur := instrs(scheds[idx]);
             && (cur.Err? ==> r == Err(cur.error))
             && (cur.Ok? ==> r == Ok(ExperimentAt(scheds[idx], idx, cur.value.0, cur.value.1, rc)))
    requires lib' == libStep(lib, scheds[idx])
    ensures r.Err? ==> ExperimentsOf(scheds, rc, instrs, libStep, []) == Err(r.error)
    ensures r.Ok? ==> ExperimentsOf(scheds[..idx + 1], rc, instrs, libStep, []) == Ok((experiments + [r.value], lib'))
  {
    ExperimentsStep(scheds, idx, rc, instrs, libStep, []);
    if r.Err? {
      ExperimentsErrPersists(scheds, idx + 1, rc, instrs, libStep, []);
      assert scheds[..|scheds|] == scheds;
    }
  }

  /** The loop over the schedules of `_assemble_experiments`, threading the
      shared pulse library. */
  method AssembleSchedules(scheds: seq<LSchedule>, rc: RunConfig, hash: Hash) returns (r: Result<(seq<LExperiment>, Library)>)
    requires SchedulesWellFormed(scheds) && CountOk(|scheds|, |rc.scheduleLos|)
    ensures r == ExperimentsOf(scheds, rc, InstrsStep(rc, hash), LibStep(rc, hash), [])
  {
    var userPulselib: Library := [];
    var experiments: seq<LExperiment> := [];
    var idx := 0;
    while idx < |scheds|
      invariant 0 <= idx <= |scheds|
      invariant ExperimentsOf(scheds[..idx], rc, InstrsStep(rc, hash), LibStep(rc, hash), []) == Ok((experiments, userPulselib))
    {
      var experiment, lib' := AssembleExperiment(scheds[idx], idx, rc, hash, userPulselib);
      ExperimentsAdvance(scheds, idx, rc, InstrsStep(rc, hash), LibStep(rc, hash), experiments, userPulselib, experiment, lib');
      if experiment.Err? {
        return Err(experiment.error);
      }
      userPulselib := lib';
      experiments := experiments + [experiment.value];
      idx := idx + 1;
    }
    assert scheds[..idx] == scheds;
    return Ok((experiments, userPulselib));
  }

  /** The experiment list of one more schedule. */
  lemma ExperimentsStep(scheds: seq<LSchedule>, k: nat, rc: RunConfig, instrs: LSchedule -> Result<(seq<QobjItem>, nat)>,
                        libStep: (Library, LSchedule) -> Library, lib: Library)
    requires k < |scheds|
    ensures var prev := ExperimentsOf(scheds[..k], rc, instrs, libStep, lib);
            var cur := instrs(scheds[k]);
            ExperimentsOf(scheds[..k + 1], rc, instrs, libStep, lib) ==
              if prev.Err? then Err(prev.error)
              else if cur.Err? then Err(cur.error)
              else Ok((prev.value.0 + [ExperimentAt(scheds[k], k, cur.value.0, cur.value.1, rc)], libStep(prev.value.1, scheds[k])))
  {
    assert scheds[..k + 1][..k] == scheds[..k] && scheds[..k + 1][k] == scheds[k];
  }

  /** A failing schedule makes the experiment list fail with its error,
      whatever follows. */
  lemma {:induction false} ExperimentsErrPersists(scheds: seq<LSchedule>, n: nat, rc: RunConfig,
                                                  instrs: LSchedule -> Result<(seq<QobjItem>, nat)>,
                                                  libStep: (Library, LSchedule) -> Library, lib: Library)
    requires n <= |scheds| && ExperimentsOf(scheds[..n], rc, instrs, libStep, lib).Err?
    ensures ExperimentsOf(scheds[..|scheds|], rc, instrs, libStep, lib) == ExperimentsOf(scheds[..n], rc, instrs, libStep, lib)
    decreases |scheds| - n
  {
    if n < |scheds| {
      ExperimentsStep(scheds, n, rc, instrs, libStep, lib);
      ExperimentsErrPersists(scheds, n + 1, rc, instrs, libStep, lib);
    }
  }

  /** The frequency sweep: one copy of the single experiment per config. */
  method SweepExperiments(experiments: seq<LExperiment>, freqConfigs: seq<FreqConfig>) returns (r: seq<LExperiment>)
    ensures r == Swept(experiments, freqConfigs)
  {
    r := experiments;
    if |freqConfigs| > 0 && |experiments| == 1 {
      var experiment := experiments[0];
      r := [];
      var c := 0;
      while c < |freqConfigs|
        invariant 0 <= c <= |freqConfigs|
        invariant |r| == c
        invariant forall i :: 0 <= i < c ==> r[i] == experiment.(config := Some(freqConfigs[i]))
      {
        r := r + [experiment.(config := Some(freqConfigs[c]))];
        c := c + 1;
      }
    }
  }

  /** `max(exp.header.memory_slots for exp in experiments)`; Python raises a
      ValueError on an empty list. */
  method MaxMemorySlots(experiments: seq<LExperiment>) returns (r: Result<nat>)
    ensures |experiments| == 0 ==> r == Err(ValueError)
    ensures |experiments| > 0 ==> r == Ok(MaxHeaderSlots(experiments))
  {
    if |experiments| == 0 {
      return Err(ValueError);
    }
    var memorySlots := 0;
    var e := 0;
    while e < |experiments|
      invariant 0 <= e <= |experiments|
      invariant memorySlots == MaxHeaderSlots(experiments[..e])
    {
      assert experiments[..e + 1][..e] == experiments[..e];
      memorySlots := Max(memorySlots, experiments[e].headerMemorySlots);
      e := e + 1;
    }
    assert experiments[..e] == experiments;
    return Ok(memorySlots);
  }

  /** `LowerQobj.lower` with `_assemble_experiments`: the frequency checks,
      the schedule loop, the sweep and the library and memory-slot config. */
  method Lower(scheds: seq<LSchedule>, rc: RunConfig, hash: Hash) returns (r: Result<PulseQobj>)
    requires SchedulesWellFormed(scheds)
    ensures r == LowerSpec(scheds, rc, hash)
  {
    if !rc.hasQubitLoFreq {
      return Err(CompilerError("qubit_lo_freq must be supplied."));
    }
    if !rc.hasMeasLoFreq {
      return Err(CompilerError("meas_lo_freq must be supplied."));
    }
    if |scheds| > 1 && |rc.scheduleLos| != 0 && |rc.scheduleLos| != 1 && |rc.scheduleLos| != |scheds| {
      return Err(CompilerError("Invalid frequency setting is specified."));
    }
    var assembled := AssembleSchedules(scheds, rc, hash);
    if assembled.Err? {
      return Err(assembled.error);
    }
    var (experiments, userPulselib) := assembled.value;
    var swept := SweepExperiments(experiments, rc.scheduleLos);
    var memorySlots := MaxMemorySlots(swept);
    if memorySlots.Err? {
      return Err(memorySlots.error);
    }
    return Ok(PulseQobj(swept, userPulselib, memorySlots.value));
  }
}
