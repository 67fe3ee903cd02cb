/** Circuit assembly into a qobj: registers flattened to 0-based indices,
    classical conditions rewritten as bit-test (`bfunc`) instructions on a
    fresh register slot, measures mirrored into registers, and experiment
    maxima; plus the LO-frequency configuration shape of schedule assembly. */
module Assembler {
  import opened Common

  // ---------------------------------------------------------------- circuits

  datatype Reg = Reg(name: string, size: nat)

  /** A bit as the assembler sees it: register name and index in the register. */
  type Label = (string, nat)

  /** `c_if(register, value)`. */
  datatype Condition = Condition(reg: string, value: int)

  /** One `(op, qargs, cargs)` entry of `circuit.data`. `params` holds each
      parameter in its evaluated form; `label` is a unitary's label. */
  datatype Op = Op(name: string, qargs: seq<Label>, cargs: seq<Label>, params: seq<string>,
                   control: Option<Condition>, opLabel: Option<string>)

  datatype Circuit = Circuit(name: string, qregs: seq<Reg>, cregs: seq<Reg>, data: seq<Op>)

  datatype QobjInstr =
    | Bfunc(mask: string, relation: string, val: string, bfuncRegister: nat)
    | QInstr(name: string, qubits: Option<seq<nat>>, memory: Option<seq<nat>>, register: Option<seq<nat>>,
             params: Option<seq<string>>, instrLabel: Option<string>, snapshotType: Option<string>, conditional: Option<nat>)

  datatype Header = Header(qubitLabels: seq<Label>, nQubits: nat, qregSizes: seq<(string, nat)>,
                           clbitLabels: seq<Label>, memorySlots: nat, cregSizes: seq<(string, nat)>,
                           name: string)

  datatype Experiment = Experiment(instructions: seq<QobjInstr>, header: Header, nQubits: nat, memorySlots: nat)

  datatype Qobj = Qobj(experiments: seq<Experiment>, nQubits: nat, memorySlots: nat)

  // ---------------------------------------------------------------- header flattening

  /** `[name, j]` for every bit of one register. */
  function RegLabels(name: string, size: nat): (r: seq<Label>)
    ensures |r| == size && forall j :: 0 <= j < size ==> r[j] == (name, j)
  {
    seq(size, j requires 0 <= j < size => (name, j))
  }

  /** The labels of all registers in declaration order. */
  function Labels(regs: seq<Reg>): seq<Label>
    decreases |regs|
  {
    if |regs| == 0 then [] else Labels(regs[..|regs| - 1]) + RegLabels(regs[|regs| - 1].name, regs[|regs| - 1].size)
  }

  function SumSizes(regs: seq<Reg>): nat
    decreases |regs|
  {
    if |regs| == 0 then 0 else SumSizes(regs[..|regs| - 1]) + regs[|regs| - 1].size
  }

  function Sizes(regs: seq<Reg>): seq<(string, nat)>
    decreases |regs|
  {
    if |regs| == 0 then [] else Sizes(regs[..|regs| - 1]) + [(regs[|regs| - 1].name, regs[|regs| - 1].size)]
  }

  /** Where a register's bits start in the flattened list. */
  function Offset(regs: seq<Reg>, r: nat): nat
    requires r <= |regs|
  {
    SumSizes(regs[..r])
  }

  lemma {:induction false} LabelsCount(regs: seq<Reg>)
    ensures |Labels(regs)| == SumSizes(regs)
    decreases |regs|
  {
    if |regs| > 0 {
      LabelsCount(regs[..|regs| - 1]);
    }
  }

  /** Register `r` occupies the positions `Offset(r) .. Offset(r) + size - 1`
      of the flattened list, labelled `[name, 0]`, `[name, 1]`, ... */
  lemma {:induction false} LabelsSpan(regs: seq<Reg>, r: nat)
    requires r < |regs|
    ensures Offset(regs, r) + regs[r].size <= |Labels(regs)|
    ensures Labels(regs)[Offset(regs, r)..Offset(regs, r) + regs[r].size] == RegLabels(regs[r].name, regs[r].size)
    decreases |regs|
  {
    var init := regs[..|regs| - 1];
    LabelsCount(init);
    LabelsCount(regs);
    if r == |regs| - 1 {
      assert regs[..r] == init;
    } else {
      LabelsSpan(init, r);
      assert regs[..r] == init[..r] && regs[r] == init[r];
    }
  }

  /** Every position of the flattened list lies in the span of some register. */
  lemma {:induction false} LabelOwner(regs: seq<Reg>, k: nat) returns (r: nat)
    requires k < |Labels(regs)|
    ensures r < |regs| && Offset(regs, r) <= k < Offset(regs, r) + regs[r].size
    decreases |regs|
  {
    var init := regs[..|regs| - 1];
    LabelsCount(init);
    if k < |Labels(init)| {
      r := LabelOwner(init, k);
      assert regs[..r] == init[..r] && regs[r] == init[r];
    } else {
      r := |regs| - 1;
      assert regs[..r] == init;
    }
  }

  /** The label at position `k` is `[name, k - Offset]` of its register. */
  lemma LabelAt(regs: seq<Reg>, k: nat) returns (r: nat)
    requires k < |Labels(regs)|
    ensures r < |regs| && Offset(regs, r) <= k < Offset(regs, r) + regs[r].size
    ensures Labels(regs)[k] == (regs[r].name, k - Offset(regs, r))
  {
    r := LabelOwner(regs, k);
    LabelsSpan(regs, r);
    var o := Offset(regs, r);
    assert Labels(regs)[k] == Labels(regs)[o..o + regs[r].size][k - o];
  }

  /** With distinct register names all labels are distinct. */
  lemma LabelsDistinct(regs: seq<Reg>, a: nat, b: nat)
    requires forall x, y :: 0 <= x < y < |regs| ==> regs[x].name != regs[y].name
    requires a < |Labels(regs)| && b < |Labels(regs)| && Labels(regs)[a] == Labels(regs)[b]
    ensures a == b
  {
    var ra := LabelAt(regs, a);
    var rb := LabelAt(regs, b);
    assert ra == rb;
  }

  function HeaderOf(c: Circuit): Header
  {
    Header(Labels(c.qregs), SumSizes(c.qregs), Sizes(c.qregs), Labels(c.cregs), SumSizes(c.cregs), Sizes(c.cregs), c.name)
  }

  /** One register loop of the header code. */
  method FlattenRegisters(regs: seq<Reg>) returns (labels: seq<Label>, count: nat, sizes: seq<(string, nat)>)
    ensures labels == Labels(regs) && count == SumSizes(regs) && sizes == Sizes(regs)
  {
    labels, count, sizes := [], 0, [];
    var r := 0;
    while r < |regs|
      invariant 0 <= r <= |regs|
      invariant labels == Labels(regs[..r]) && count == SumSizes(regs[..r]) && sizes == Sizes(regs[..r])
    {
      var reg := regs[r];
      assert regs[..r + 1][..r] == regs[..r] && regs[..r + 1][r] == reg;
      sizes := sizes + [(reg.name, reg.size)];
      var j := 0;
      while j < reg.size
        invariant 0 <= j <= reg.size
        invariant labels == Labels(regs[..r]) + RegLabels(reg.name, j)
      {
        labels := labels + [(reg.name, j)];
        j := j + 1;
      }
      count := count + reg.size;
      r := r + 1;
    }
    assert regs[..r] == regs;
  }

  // ---------------------------------------------------------------- bits and hex

  /** Bit `j` of an integer, as Python's `(v >> j) & 1` (also for negative v,
      since Dafny's division by 2 rounds down here). */
  function IntBit(v: int, j: nat): (r: int)
    ensures r == 0 || r == 1
    decreases j
  {
    if j == 0 then v % 2 else IntBit(v / 2, j - 1)
  }

  function Pow2(j: nat): (r: nat)
    ensures r > 0
  {
    if j == 0 then 1 else 2 * Pow2(j - 1)
  }

  lemma MulAtLeast(d: int, k: int)
    requires d > 0 && k >= 1
    ensures d * k >= d
  {
    var e := k - 1;
    assert d * k == d * e + d;
  }

  /** Floor division is unique: `q` is `v / d` once `v == d * q + m` with `0 <= m < d`. */
  lemma DivUnique(v: int, d: int, q: int, m: int)
    requires d > 0 && v == d * q + m && 0 <= m < d
    ensures v / d == q
  {
    var q', m' := v / d, v % d;
    assert v == d * q' + m' && 0 <= m' < d;
    if q' < q {
      MulAtLeast(d, q - q');
      assert false;
    } else if q' > q {
      MulAtLeast(d, q' - q);
      assert false;
    }
  }

  /** Halving, then dividing by `b`, is dividing by `2 * b`. */
  lemma HalveThenDivide(v: int, b: int)
    requires b > 0
    ensures (v / 2) / b == v / (2 * b)
  {
    var q, r := v / 2, v % 2;
    var Q, R := q / b, q % b;
    assert v == 2 * q + r && q == b * Q + R;
    assert v == (2 * b) * Q + (2 * R + r);
    DivUnique(v, 2 * b, Q, 2 * R + r);
  }

  /** `(v >> j) & 1` is bit `j` of `v`'s two's-complement form: the floor of
      `v / 2^j`, taken modulo 2. */
  lemma {:induction false} IntBitIsShift(v: int, j: nat)
    ensures IntBit(v, j) == (v / Pow2(j)) % 2
    decreases j
  {
    if j > 0 {
      IntBitIsShift(v / 2, j - 1);
      HalveThenDivide(v, Pow2(j - 1));
    }
  }

  /** A little-endian bit list read as a number. */
  function ToNat(bits: seq<bool>): nat
  {
    if |bits| == 0 then 0 else (if bits[0] then 1 else 0) + 2 * ToNat(bits[1..])
  }

  /** Bit `k` of the number is the list's entry `k` (0 beyond the list). */
  lemma {:induction false} ToNatBits(bits: seq<bool>, k: nat)
    ensures IntBit(ToNat(bits), k) == (if k < |bits| && bits[k] then 1 else 0)
    decreases k
  {
    if |bits| == 0 {
      ZeroBits(k);
    } else {
      var b := if bits[0] then 1 else 0;
      var rest := ToNat(bits[1..]);
      assert ToNat(bits) == b + 2 * rest;
      if k > 0 {
        assert (b + 2 * rest) / 2 == rest;
        ToNatBits(bits[1..], k - 1);
      }
    }
  }

  lemma ZeroBits(k: nat)
    ensures IntBit(0, k) == 0
  {
  }

  function HexDigit(d: nat): (c: char)
    requires d < 16
  {
    "0123456789ABCDEF"[d]
  }

  function HexValue(c: char): (r: int)
  {
    if '0' <= c <= '9' then (c as int) - ('0' as int)
    else if 'A' <= c <= 'F' then (c as int) - ('A' as int) + 10
    else -1
  }

  /** `"%X" % n`: uppercase hexadecimal digits, no padding. */
  function HexDigits(n: nat): (s: string)
    ensures |s| > 0
    ensures forall i :: 0 <= i < |s| ==> 0 <= HexValue(s[i]) < 16
    ensures n > 0 ==> s[0] != '0'
    decreases n
  {
    HexDigitValue(n % 16);
    if n < 16 then [HexDigit(n)] else HexDigits(n / 16) + [HexDigit(n % 16)]
  }

  lemma HexDigitValue(d: nat)
    requires d < 16
    ensures HexValue(HexDigit(d)) == d
  {
    var t := "0123456789ABCDEF";
    assert t[0] == '0' && t[1] == '1' && t[2] == '2' && t[3] == '3' && t[4] == '4' && t[5] == '5'
        && t[6] == '6' && t[7] == '7' && t[8] == '8' && t[9] == '9' && t[10] == 'A' && t[11] == 'B'
        && t[12] == 'C' && t[13] == 'D' && t[14] == 'E' && t[15] == 'F';
  }

  /** `"0x%X" % n`. */
  function Hex(n: nat): string
  {
    "0x" + HexDigits(n)
  }

  function ParseHexDigits(s: string): int
    decreases |s|
  {
    if |s| == 0 then 0 else 16 * ParseHexDigits(s[..|s| - 1]) + HexValue(s[|s| - 1])
  }

  /** Reading the digits back gives the number: the encoding loses nothing. */
  lemma {:induction false} HexRoundTrip(n: nat)
    ensures ParseHexDigits(HexDigits(n)) == n
    ensures Hex(n)[..2] == "0x" && Hex(n)[2..] == HexDigits(n)
    decreases n
  {
    HexDigitValue(n % 16);
    if n >= 16 {
      HexRoundTrip(n / 16);
      var s := HexDigits(n);
      assert s[..|s| - 1] == HexDigits(n / 16);
      assert ParseHexDigits(s) == 16 * (n / 16) + n % 16;
    } else {
      assert ParseHexDigits(HexDigits(n)) == 16 * ParseHexDigits([]) + HexValue(HexDigit(n));
    }
  }

  // ---------------------------------------------------------------- bfunc

  /** The mask bits: position `k` is set iff label `k` belongs to the
      condition's register and is the first occurrence of that label
      (`clbit_labels.index(clbit)`). */
  function MaskBits(labels: seq<Label>, reg: string): (r: seq<bool>)
    ensures |r| == |labels|
  {
    seq(|labels|, k requires 0 <= k < |labels| => labels[k].0 == reg && IndexOf(labels, labels[k]) == Some(k))
  }

  /** The value bits: a mask position whose register bit of the value is 1. */
  function ValBits(labels: seq<Label>, cond: Condition): (r: seq<bool>)
    ensures |r| == |labels|
  {
    seq(|labels|, k requires 0 <= k < |labels| =>
      labels[k].0 == cond.reg && IndexOf(labels, labels[k]) == Some(k) && IntBit(cond.value, labels[k].1) == 1)
  }

  /** The `mask |=` / `val |=` loop over the clbit labels. */
  method BfuncBits(labels: seq<Label>, cond: Condition) returns (mask: seq<bool>, val: seq<bool>)
    ensures mask == MaskBits(labels, cond.reg) && val == ValBits(labels, cond)
  {
    mask := seq(|labels|, _ => false);
    val := seq(|labels|, _ => false);
    var p := 0;
    while p < |labels|
      invariant 0 <= p <= |labels|
      invariant |mask| == |labels| && |val| == |labels|
      invariant forall k :: 0 <= k < |labels| ==> (mask[k] <==> k < p && MaskBits(labels, cond.reg)[k])
      invariant forall k :: 0 <= k < |labels| ==> (val[k] <==> k < p && ValBits(labels, cond)[k])
    {
      var clbit := labels[p];
      if clbit.0 == cond.reg {
        var idx := IndexOf(labels, clbit).value;
        assert labels[idx] == clbit;
        assert IndexOf(labels, labels[idx]) == Some(idx);
        mask := mask[idx := true];
        if IntBit(cond.value, clbit.1) == 1 {
          val := val[idx := true];
        }
      }
      p := p + 1;
    }
    assert mask == MaskBits(labels, cond.reg);
    assert val == ValBits(labels, cond);
  }

  /** With distinct register names every label is found at its own position. */
  lemma FoundInPlace(regs: seq<Reg>, k: nat)
    requires forall x, y :: 0 <= x < y < |regs| ==> regs[x].name != regs[y].name
    requires k < |Labels(regs)|
    ensures IndexOf(Labels(regs), Labels(regs)[k]) == Some(k)
  {
    var labels := Labels(regs);
    var q := IndexOf(labels, labels[k]).value;
    LabelsDistinct(regs, q, k);
  }

  /** Mask position `k` is set iff `k` lies in the span of the register. */
  lemma MaskBitOfRegister(cregs: seq<Reg>, r: nat, k: nat)
    requires forall x, y :: 0 <= x < y < |cregs| ==> cregs[x].name != cregs[y].name
    requires r < |cregs| && k < |Labels(cregs)|
    ensures MaskBits(Labels(cregs), cregs[r].name)[k] <==> Offset(cregs, r) <= k < Offset(cregs, r) + cregs[r].size
  {
    var labels := Labels(cregs);
    var o, s := Offset(cregs, r), cregs[r].size;
    var owner := LabelAt(cregs, k);
    FoundInPlace(cregs, k);
    LabelsSpan(cregs, r);
    assert MaskBits(labels, cregs[r].name)[k] == (labels[k].0 == cregs[r].name);
    if o <= k < o + s {
      assert labels[k] == labels[o..o + s][k - o];
      assert labels[k].0 == cregs[r].name;
    } else {
      assert owner != r;
      assert cregs[owner].name != cregs[r].name by {
        if owner < r {} else {}
      }
      assert labels[k].0 != cregs[r].name;
    }
  }

  /** Bit `k` of the mask number is 1 exactly on the register's span. */
  lemma MaskNumberBit(cregs: seq<Reg>, r: nat, k: nat)
    requires forall x, y :: 0 <= x < y < |cregs| ==> cregs[x].name != cregs[y].name
    requires r < |cregs|
    ensures IntBit(ToNat(MaskBits(Labels(cregs), cregs[r].name)), k)
            == (if Offset(cregs, r) <= k < Offset(cregs, r) + cregs[r].size then 1 else 0)
  {
    LabelsSpan(cregs, r);
    ToNatBits(MaskBits(Labels(cregs), cregs[r].name), k);
    if k < |Labels(cregs)| {
      MaskBitOfRegister(cregs, r, k);
    }
  }

  /** Value position `o + j` is set iff bit `j` of the condition value is. */
  lemma ValBitOfRegister(cregs: seq<Reg>, r: nat, value: int, j: nat)
    requires forall x, y :: 0 <= x < y < |cregs| ==> cregs[x].name != cregs[y].name
    requires r < |cregs| && j < cregs[r].size
    ensures Offset(cregs, r) + j < |Labels(cregs)|
    ensures ValBits(Labels(cregs), Condition(cregs[r].name, value))[Offset(cregs, r) + j] <==> IntBit(value, j) == 1
  {
    var labels := Labels(cregs);
    var o, s := Offset(cregs, r), cregs[r].size;
    LabelsSpan(cregs, r);
    FoundInPlace(cregs, o + j);
    var l := labels[o + j];
    assert l == labels[o..o + s][j] == (cregs[r].name, j);
    var vb := ValBits(labels, Condition(cregs[r].name, value));
    assert vb[o + j] == (l.0 == cregs[r].name && IndexOf(labels, l) == Some(o + j) && IntBit(value, l.1) == 1);
  }

  /** Bit `o + j` of the value number is bit `j` of the condition value. */
  lemma ValNumberBit(cregs: seq<Reg>, r: nat, value: int, j: nat)
    requires forall x, y :: 0 <= x < y < |cregs| ==> cregs[x].name != cregs[y].name
    requires r < |cregs| && j < cregs[r].size
    ensures IntBit(ToNat(ValBits(Labels(cregs), Condition(cregs[r].name, value))), Offset(cregs, r) + j) == IntBit(value, j)
  {
    var vb := ValBits(Labels(cregs), Condition(cregs[r].name, value));
    ValBitOfRegister(cregs, r, value, j);
    ToNatBits(vb, Offset(cregs, r) + j);
  }

  /** The value sets no bit outside the mask (`val & ~mask == 0`). */
  lemma ValWithinMask(labels: seq<Label>, cond: Condition, k: nat)
    requires IntBit(ToNat(ValBits(labels, cond)), k) == 1
    ensures IntBit(ToNat(MaskBits(labels, cond.reg)), k) == 1
  {
    ToNatBits(ValBits(labels, cond), k);
    ToNatBits(MaskBits(labels, cond.reg), k);
  }

  /** For a condition on register `r` of distinct-named registers, the mask
      sets exactly bits `o .. o+s-1` (offset and size of `r`), bit `o+j` of
      val is bit `j` of the value, and val has no bit outside the mask. */
  lemma BfuncSpansRegister(cregs: seq<Reg>, r: nat, value: int)
    requires forall x, y :: 0 <= x < y < |cregs| ==> cregs[x].name != cregs[y].name
    requires r < |cregs|
    ensures var labels := Labels(cregs);
            var o, s := Offset(cregs, r), cregs[r].size;
            var mask, val := ToNat(MaskBits(labels, cregs[r].name)), ToNat(ValBits(labels, Condition(cregs[r].name, value)));
            && (forall k: nat :: IntBit(mask, k) == (if o <= k < o + s then 1 else 0))
            && (forall j: nat :: j < s ==> IntBit(val, o + j) == IntBit(value, j))
            && (forall k: nat :: IntBit(val, k) == 1 ==> IntBit(mask, k) == 1)
  {
    forall k: nat {
      MaskNumberBit(cregs, r, k);
    }
    forall j: nat | j < cregs[r].size {
      ValNumberBit(cregs, r, value, j);
    }
    forall k: nat | IntBit(ToNat(ValBits(Labels(cregs), Condition(cregs[r].name, value))), k) == 1 {
      ValWithinMask(Labels(cregs), Condition(cregs[r].name, value), k);
    }
  }

  // ---------------------------------------------------------------- instructions

  /** `[labels.index(arg) for arg in args]`: ValueError when an argument is
      not a bit of the circuit. */
  function Indices(labels: seq<Label>, args: seq<Label>): (r: Result<seq<nat>>)
    ensures r.Ok? <==> forall k :: 0 <= k < |args| ==> args[k] in labels
    ensures r.Err? ==> r.error == ValueError
    ensures r.Ok? ==> |r.value| == |args|
    ensures r.Ok? ==> forall k :: 0 <= k < |args| ==>
              (r.value[k] < |labels| && labels[r.value[k]] == args[k] && args[k] !in labels[..r.value[k]])
  {
    if |args| == 0 then Ok([])
    else
      match IndexOf(labels, args[0])
      case None => Err(ValueError)
      case Some(i) =>
        match Indices(labels, args[1..])
        case Err(e) => Err(e)
        case Ok(rest) => Ok([i] + rest)
  }

  /** What the conversion of one circuit needs to know. */
  datatype Ctx = Ctx(qubitLabels: seq<Label>, clbitLabels: seq<Label>, memorySlots: nat, isConditional: bool)

  /** `any(op.control for (op, qargs, cargs) in circuit.data)`. */
  predicate AnyConditional(ops: seq<Op>)
  {
    exists k :: 0 <= k < |ops| && ops[k].control.Some?
  }

  /** The instruction for one op, before its conditional is set: qubit and
      memory indices when it has such arguments, `register` for a measure in
      a conditional experiment, the parameters when there are any, snapshot
      label and type, a unitary's label. */
  function BaseInstr(op: Op, ctx: Ctx): (r: Result<QobjInstr>)
    ensures r.Err? <==> Indices(ctx.qubitLabels, op.qargs).Err? || Indices(ctx.clbitLabels, op.cargs).Err?
                        || (op.name == "snapshot" && |op.params| < 2)
    ensures r.Ok? ==> r.value.QInstr? && r.value.name == op.name && r.value.conditional.None?
    ensures r.Ok? ==> (r.value.qubits.Some? <==> |op.qargs| > 0) && (r.value.memory.Some? <==> |op.cargs| > 0)
    ensures r.Ok? && |op.qargs| > 0 ==> r.value.qubits == Some(Indices(ctx.qubitLabels, op.qargs).value)
    ensures r.Ok? && |op.cargs| > 0 ==> r.value.memory == Some(Indices(ctx.clbitLabels, op.cargs).value)
    ensures Indices(ctx.qubitLabels, op.qargs).Err? || Indices(ctx.clbitLabels, op.cargs).Err? ==> r == Err(ValueError)
    ensures r.Ok? ==> r.value.register == (if op.name == "measure" && ctx.isConditional then r.value.memory else None)
    ensures r.Ok? ==> (r.value.params.Some? <==> |op.params| > 0) && (r.value.params.Some? ==> r.value.params.value == op.params)
    ensures r.Ok? && op.name == "snapshot" ==>
              r.value.instrLabel == Some(op.params[0]) && r.value.snapshotType == Some(op.params[1])
    ensures r.Ok? && op.name == "unitary" ==>
              r.value.instrLabel == (if op.opLabel.Some? && op.opLabel.value != "" then op.opLabel else None)
    ensures (op.name == "snapshot" && |op.params| < 2 && Indices(ctx.qubitLabels, op.qargs).Ok?
             && Indices(ctx.clbitLabels, op.cargs).Ok?) ==> r == Err(IndexError)
  {
    var qubits :- if |op.qargs| > 0 then Indices(ctx.qubitLabels, op.qargs) else Ok([]);
    var memory :- if |op.cargs| > 0 then Indices(ctx.clbitLabels, op.cargs) else Ok([]);
    var qs := if |op.qargs| > 0 then Some(qubits) else None;
    var ms := if |op.cargs| > 0 then Some(memory) else None;
    var register := if op.name == "measure" && ctx.isConditional then ms else None;
    var ps := if |op.params| > 0 then Some(op.params) else None;
    if op.name == "snapshot" then
      if |op.params| < 2 then Err(IndexError)
      else Ok(QInstr(op.name, qs, ms, register, ps, Some(op.params[0]), Some(op.params[1]), None))
    else if op.name == "unitary" && op.opLabel.Some? && op.opLabel.value != "" then
      Ok(QInstr(op.name, qs, ms, register, ps, op.opLabel, None, None))
    else Ok(QInstr(op.name, qs, ms, register, ps, None, None, None))
  }

  function BfuncFor(ctx: Ctx, cond: Condition, k: nat): QobjInstr
  {
    Bfunc(Hex(ToNat(MaskBits(ctx.clbitLabels, cond.reg))), "==", Hex(ToNat(ValBits(ctx.clbitLabels, cond))),
          ctx.memorySlots + k)
  }

  /** One op, `k` conditioned ops before it: a conditioned op is preceded by
      its bfunc, and both use register `memory_slots + k`. */
  function ConvertOne(op: Op, ctx: Ctx, k: nat): (r: Result<seq<QobjInstr>>)
    ensures r.Ok? <==> BaseInstr(op, ctx).Ok?
    ensures r.Ok? && op.control.None? ==> r.value == [BaseInstr(op, ctx).value]
    ensures r.Ok? && op.control.Some? ==>
              r.value == [BfuncFor(ctx, op.control.value, k),
                          BaseInstr(op, ctx).value.(conditional := Some(ctx.memorySlots + k))]
  {
    var base :- BaseInstr(op, ctx);
    if op.control.Some? then
      Ok([BfuncFor(ctx, op.control.value, k), base.(conditional := Some(ctx.memorySlots + k))])
    else Ok([base])
  }

  function CondCount(ops: seq<Op>): nat
  {
    if |ops| == 0 then 0 else (if ops[0].control.Some? then 1 else 0) + CondCount(ops[1..])
  }

  function Prepend(xs: seq<QobjInstr>, r: Result<seq<QobjInstr>>): Result<seq<QobjInstr>>
  {
    match r
    case Err(e) => Err(e)
    case Ok(ys) => Ok(xs + ys)
  }

  /** `xs` followed by the result `r`, unless `xs` is already an error. */
  function Bind(xs: Result<seq<QobjInstr>>, r: Result<seq<QobjInstr>>): Result<seq<QobjInstr>>
  {
    match xs
    case Err(e) => Err(e)
    case Ok(v) => Prepend(v, r)
  }

  /** The instructions of `ops` under a per-op conversion `step`, which is
      told how many conditioned ops came before (counting on from `k`). */
  function Emit(ops: seq<Op>, step: (Op, nat) -> Result<seq<QobjInstr>>, k: nat): Result<seq<QobjInstr>>
    decreases |ops|
  {
    if |ops| == 0 then Ok([])
    else
      match step(ops[0], k)
      case Err(e) => Err(e)
      case Ok(xs) => Prepend(xs, Emit(ops[1..], step, k + (if ops[0].control.Some? then 1 else 0)))
  }

  /** The instruction list of a circuit's ops, counting conditioned ops from `k`. */
  function ConvertOps(ops: seq<Op>, ctx: Ctx, k: nat): Result<seq<QobjInstr>>
  {
    Emit(ops, StepOf(ctx), k)
  }

  /** The per-op conversion of a circuit as a step function. */
  function StepOf(ctx: Ctx): (Op, nat) -> Result<seq<QobjInstr>>
  {
    (op: Op, j: nat) => ConvertOne(op, ctx, j)
  }

  /** One op's conversion followed by the rest. */
  lemma ConvertOpsStep(ops: seq<Op>, ctx: Ctx, k: nat)
    requires |ops| > 0
    ensures ConvertOps(ops, ctx, k) ==
            match ConvertOne(ops[0], ctx, k)
            case Err(e) => Err(e)
            case Ok(xs) => Prepend(xs, ConvertOps(ops[1..], ctx, k + (if ops[0].control.Some? then 1 else 0)))
  {
  }

  lemma PrependAssoc(xs: seq<QobjInstr>, ys: seq<QobjInstr>, r: Result<seq<QobjInstr>>)
    ensures Prepend(xs, Prepend(ys, r)) == Prepend(xs + ys, r)
  {
    if r.Ok? {
      assert xs + (ys + r.value) == (xs + ys) + r.value;
    }
  }

  /** The emission of a concatenation is the emission of the first part,
      then (unless it failed) that of the second, counting conditioned ops
      on from the first. */
  lemma {:induction false} EmitAppend(a: seq<Op>, b: seq<Op>, step: (Op, nat) -> Result<seq<QobjInstr>>, k: nat)
    ensures Emit(a + b, step, k) == Bind(Emit(a, step, k), Emit(b, step, k + CondCount(a)))
    decreases |a|
  {
    if |a| == 0 {
      assert a + b == b;
      var rest := Emit(b, step, k);
      if rest.Ok? {
        assert [] + rest.value == rest.value;
      }
    } else {
      assert (a + b)[0] == a[0] && (a + b)[1..] == a[1..] + b;
      var d := if a[0].control.Some? then 1 else 0;
      EmitAppend(a[1..], b, step, k + d);
      assert CondCount(a) == d + CondCount(a[1..]);
      var hd, tl, rest := step(a[0], k), Emit(a[1..], step, k + d), Emit(b, step, k + CondCount(a));
      assert Emit(a[1..] + b, step, k + d) == Bind(tl, rest);
      assert Emit(a + b, step, k) == Bind(hd, Bind(tl, rest));
      assert Emit(a, step, k) == Bind(hd, tl);
      if hd.Ok? && tl.Ok? && rest.Ok? {
        assert hd.value + (tl.value + rest.value) == (hd.value + tl.value) + rest.value;
      }
    }
  }

  /** A successful emission for a concatenation is the emission of the
      parts, the second counting conditioned ops on from the first. */
  lemma EmitConcat(a: seq<Op>, b: seq<Op>, step: (Op, nat) -> Result<seq<QobjInstr>>, k: nat)
    requires Emit(a + b, step, k).Ok?
    ensures Emit(a, step, k).Ok? && Emit(b, step, k + CondCount(a)).Ok?
    ensures Emit(a + b, step, k).value == Emit(a, step, k).value + Emit(b, step, k + CondCount(a)).value
  {
    EmitAppend(a, b, step, k);
  }

  /** Every emitted instruction comes from the conversion of some op. */
  lemma {:induction false} EmitOrigin(ops: seq<Op>, step: (Op, nat) -> Result<seq<QobjInstr>>, k: nat, x: QobjInstr)
    returns (m: nat, j: nat)
    requires Emit(ops, step, k).Ok? && x in Emit(ops, step, k).value
    ensures m < |ops| && step(ops[m], j).Ok? && x in step(ops[m], j).value
    decreases |ops|
  {
    var xs := step(ops[0], k).value;
    if x in xs {
      m, j := 0, k;
    } else {
      var d := if ops[0].control.Some? then 1 else 0;
      var m', j' := EmitOrigin(ops[1..], step, k + d, x);
      m, j := m' + 1, j';
    }
  }

  /** Within the emission of `pre + [op] + post`, the conversion of `op`
      follows that of `pre`, told the number of conditioned ops in `pre`. */
  lemma EmitAround(pre: seq<Op>, op: Op, post: seq<Op>, step: (Op, nat) -> Result<seq<QobjInstr>>)
    requires Emit(pre + [op] + post, step, 0).Ok?
    ensures Emit(pre, step, 0).Ok? && step(op, CondCount(pre)).Ok?
    ensures var out, n, xs := Emit(pre + [op] + post, step, 0).value, |Emit(pre, step, 0).value|, step(op, CondCount(pre)).value;
            n + |xs| <= |out| && out[n..n + |xs|] == xs
  {
    assert pre + [op] + post == pre + ([op] + post);
    EmitConcat(pre, [op] + post, step, 0);
    var k := CondCount(pre);
    assert ([op] + post)[0] == op && ([op] + post)[1..] == post;
    var a := Emit(pre, step, 0).value;
    var xs := step(op, k).value;
    var ys := Emit([op] + post, step, k).value;
    assert ys == xs + Emit(post, step, k + (if op.control.Some? then 1 else 0)).value;
    assert (a + ys)[|a|..|a| + |xs|] == xs;
  }

  /** The bfunc sits immediately before the conditioned instruction, and
      both carry `memory_slots + k` where `k` counts the conditioned ops
      before it, starting at 0. */
  lemma BfuncPrecedesConditioned(pre: seq<Op>, op: Op, post: seq<Op>, ctx: Ctx)
    requires op.control.Some? && ConvertOps(pre + [op] + post, ctx, 0).Ok?
    ensures ConvertOps(pre, ctx, 0).Ok? && BaseInstr(op, ctx).Ok?
    ensures var out, n := ConvertOps(pre + [op] + post, ctx, 0).value, |ConvertOps(pre, ctx, 0).value|;
            && n + 1 < |out|
            && out[n] == BfuncFor(ctx, op.control.value, CondCount(pre))
            && out[n].bfuncRegister == ctx.memorySlots + CondCount(pre)
            && out[n + 1] == BaseInstr(op, ctx).value.(conditional := Some(ctx.memorySlots + CondCount(pre)))
  {
    ConversionWithin(pre, op, post, ctx);
    PairAt(ConvertOps(pre + [op] + post, ctx, 0).value, |ConvertOps(pre, ctx, 0).value|,
           ConvertOne(op, ctx, CondCount(pre)).value);
  }

  /** The conversion of `op` sits right after that of `pre`. */
  lemma ConversionWithin(pre: seq<Op>, op: Op, post: seq<Op>, ctx: Ctx)
    requires ConvertOps(pre + [op] + post, ctx, 0).Ok?
    ensures ConvertOps(pre, ctx, 0).Ok? && ConvertOne(op, ctx, CondCount(pre)).Ok?
    ensures var out, n, xs := ConvertOps(pre + [op] + post, ctx, 0).value, |ConvertOps(pre, ctx, 0).value|,
                              ConvertOne(op, ctx, CondCount(pre)).value;
            n + |xs| <= |out| && out[n..n + |xs|] == xs
  {
    EmitAround(pre, op, post, StepOf(ctx));
  }

  lemma PairAt(out: seq<QobjInstr>, n: nat, xs: seq<QobjInstr>)
    requires |xs| == 2 && n + 2 <= |out| && out[n..n + 2] == xs
    ensures out[n] == xs[0] && out[n + 1] == xs[1]
  {
    assert out[n..n + 2][0] == out[n] && out[n..n + 2][1] == out[n + 1];
  }

  /** Measures are mirrored into registers exactly in conditional
      experiments, and no other instruction has a register list. */
  lemma RegistersOnlyOnMeasures(ops: seq<Op>, ctx: Ctx, k: nat)
    requires ConvertOps(ops, ctx, k).Ok?
    ensures forall x :: x in ConvertOps(ops, ctx, k).value && x.QInstr? ==>
              (x.register.Some? ==> x.name == "measure" && ctx.isConditional)
              && (x.name == "measure" && ctx.isConditional ==> x.register == x.memory)
  {
    var step := StepOf(ctx);
    forall x | x in ConvertOps(ops, ctx, k).value && x.QInstr?
      ensures x.register.Some? ==> x.name == "measure" && ctx.isConditional
      ensures x.name == "measure" && ctx.isConditional ==> x.register == x.memory
    {
      var m, j := EmitOrigin(ops, step, k, x);
    }
  }

  function ExperimentSpec(c: Circuit): Result<Experiment>
  {
    var h := HeaderOf(c);
    match ConvertOps(c.data, Ctx(h.qubitLabels, h.clbitLabels, h.memorySlots, AnyConditional(c.data)), 0)
    case Err(e) => Err(e)
    case Ok(xs) => Ok(Experiment(xs, h, h.nQubits, h.memorySlots))
  }

  /** The body of the instruction loop for one op: its bfunc, computed by
      the mask loop, then the instruction marked with the same register. */
  method ConvertOp(op: Op, ctx: Ctx, k: nat) returns (r: Result<seq<QobjInstr>>)
    ensures r == ConvertOne(op, ctx, k)
  {
    var base := BaseInstr(op, ctx);
    if base.Err? {
      return Err(base.error);
    }
    var current := base.value;
    if op.control.Some? {
      var mask, val := BfuncBits(ctx.clbitLabels, op.control.value);
      var conditionalReg := ctx.memorySlots + k;
      current := current.(conditional := Some(conditionalReg));
      var bfunc := Bfunc(Hex(ToNat(mask)), "==", Hex(ToNat(val)), conditionalReg);
      assert bfunc == BfuncFor(ctx, op.control.value, k);
      return Ok([bfunc, current]);
    }
    return Ok([current]);
  }

  /** The instruction loop of one circuit. */
  method ConvertInstructions(ops: seq<Op>, ctx: Ctx) returns (r: Result<seq<QobjInstr>>)
    ensures r == ConvertOps(ops, ctx, 0)
  {
    var k := 0;
    var instructions: seq<QobjInstr> := [];
    var i := 0;
    assert ops[0..] == ops;
    assert Prepend([], ConvertOps(ops, ctx, 0)) == ConvertOps(ops, ctx, 0) by {
      if ConvertOps(ops, ctx, 0).Ok? {
        assert [] + ConvertOps(ops, ctx, 0).value == ConvertOps(ops, ctx, 0).value;
      }
    }
    while i < |ops|
      invariant 0 <= i <= |ops|
      invariant ConvertOps(ops, ctx, 0) == Prepend(instructions, ConvertOps(ops[i..], ctx, k))
    {
      var op := ops[i];
      ConvertOpsStep(ops[i..], ctx, k);
      assert ops[i..][0] == op && ops[i..][1..] == ops[i + 1..];
      var emitted := ConvertOp(op, ctx, k);
      if emitted.Err? {
        return Err(emitted.error);
      }
      if op.control.Some? {
        k := k + 1;
      }
      PrependAssoc(instructions, emitted.value, ConvertOps(ops[i + 1..], ctx, k));
      instructions := instructions + emitted.value;
      i := i + 1;
    }
    assert ops[i..] == [];
    assert instructions + [] == instructions;
    return Ok(instructions);
  }

  /** The body of the circuit loop: header, then the instruction loop. */
  method AssembleCircuit(c: Circuit) returns (r: Result<Experiment>)
    ensures r == ExperimentSpec(c)
  {
    var qubitLabels, nQubits, qregSizes := FlattenRegisters(c.qregs);
    var clbitLabels, memorySlots, cregSizes := FlattenRegisters(c.cregs);
    var header := Header(qubitLabels, nQubits, qregSizes, clbitLabels, memorySlots, cregSizes, c.name);
    var instructions := ConvertInstructions(c.data, Ctx(qubitLabels, clbitLabels, memorySlots, AnyConditional(c.data)));
    if instructions.Err? {
      return Err(instructions.error);
    }
    return Ok(Experiment(instructions.value, header, nQubits, memorySlots));
  }

  function MaxQubits(es: seq<Experiment>): nat
    decreases |es|
  {
    if |es| == 0 then 0 else Max(MaxQubits(es[..|es| - 1]), es[|es| - 1].nQubits)
  }

  function MaxSlots(es: seq<Experiment>): nat
    decreases |es|
  {
    if |es| == 0 then 0 else Max(MaxSlots(es[..|es| - 1]), es[|es| - 1].memorySlots)
  }

  lemma MaximaStep(es: seq<Experiment>, e: Experiment)
    ensures MaxQubits(es + [e]) == Max(MaxQubits(es), e.nQubits)
    ensures MaxSlots(es + [e]) == Max(MaxSlots(es), e.memorySlots)
  {
    assert (es + [e])[..|es|] == es;
  }

  /** The config values are maxima: at least every experiment's, and equal
      to one of them (0 when there are none). */
  lemma {:induction false} MaximaAreMaxima(es: seq<Experiment>)
    ensures forall i :: 0 <= i < |es| ==> es[i].nQubits <= MaxQubits(es) && es[i].memorySlots <= MaxSlots(es)
    ensures |es| == 0 ==> MaxQubits(es) == 0 && MaxSlots(es) == 0
    ensures |es| > 0 ==> (exists i :: 0 <= i < |es| && es[i].nQubits == MaxQubits(es))
                         && (exists i :: 0 <= i < |es| && es[i].memorySlots == MaxSlots(es))
    decreases |es|
  {
    if |es| > 0 {
      var init := es[..|es| - 1];
      MaximaAreMaxima(init);
      assert forall i :: 0 <= i < |init| ==> init[i] == es[i];
      if |init| > 0 {
        var a :| 0 <= a < |init| && init[a].nQubits == MaxQubits(init);
        var b :| 0 <= b < |init| && init[b].memorySlots == MaxSlots(init);
        assert es[a] == init[a] && es[b] == init[b];
      }
    }
  }

  /** Appending circuit `i`'s experiment extends the agreement of the
      experiments so far with the circuits they came from. */
  lemma ExperimentsExtend(circuits: seq<Circuit>, experiments: seq<Experiment>, e: Experiment)
    requires |experiments| < |circuits|
    requires forall m :: 0 <= m < |experiments| ==> ExperimentSpec(circuits[m]).Ok? && experiments[m] == ExperimentSpec(circuits[m]).value
    requires ExperimentSpec(circuits[|experiments|]) == Ok(e)
    ensures forall m :: 0 <= m < |experiments| + 1 ==> ExperimentSpec(circuits[m]).Ok? && (experiments + [e])[m] == ExperimentSpec(circuits[m]).value
  {
    forall m | 0 <= m < |experiments| + 1
      ensures ExperimentSpec(circuits[m]).Ok? && (experiments + [e])[m] == ExperimentSpec(circuits[m]).value
    {
      if m < |experiments| {
        assert (experiments + [e])[m] == experiments[m];
      }
    }
  }

  /** `assemble_circuits`: one experiment per circuit, in order, and the
      maxima in the global config; the first failing circuit's error. */
  method AssembleCircuits(circuits: seq<Circuit>) returns (r: Result<Qobj>)
    ensures r.Ok? <==> forall i :: 0 <= i < |circuits| ==> ExperimentSpec(circuits[i]).Ok?
    ensures r.Ok? ==> |r.value.experiments| == |circuits|
                      && (forall i :: 0 <= i < |circuits| ==> r.value.experiments[i] == ExperimentSpec(circuits[i]).value)
                      && r.value.nQubits == MaxQubits(r.value.experiments)
                      && r.value.memorySlots == MaxSlots(r.value.experiments)
  {
    var experiments: seq<Experiment> := [];
    var maxQubits, maxSlots := 0, 0;
    var i := 0;
    while i < |circuits|
      invariant 0 <= i <= |circuits|
      invariant |experiments| == i
      invariant forall m :: 0 <= m < i ==> ExperimentSpec(circuits[m]).Ok? && experiments[m] == ExperimentSpec(circuits[m]).value
      invariant maxQubits == MaxQubits(experiments) && maxSlots == MaxSlots(experiments)
    {
      var e := AssembleCircuit(circuits[i]);
      if e.Err? {
        return Err(e.error);
      }
      MaximaStep(experiments, e.value);
      ExperimentsExtend(circuits, experiments, e.value);
      experiments := experiments + [e.value];
      if e.value.nQubits > maxQubits {
        maxQubits := e.value.nQubits;
      }
      if e.value.memorySlots > maxSlots {
        maxSlots := e.value.memorySlots;
      }
      i := i + 1;
    }
    return Ok(Qobj(experiments, maxQubits, maxSlots));
  }

  // ---------------------------------------------------------------- LO frequencies

  /** A user LO dictionary in insertion order: channel kind, channel index, frequency. */
  type UserLos = seq<(ChannelKind, nat, real)>

  /** The frequency `_replaced_with_user_los` leaves at index `i`: the last
      user entry of the given kind for that index, else the default. */
  function LoAt(user: UserLos, kind: ChannelKind, i: nat, default: real): real
    decreases |user|
  {
    if |user| == 0 then default
    else
      var (k, idx, f) := user[|user| - 1];
      if k == kind && idx == i then f else LoAt(user[..|user| - 1], kind, i, default)
  }

  predicate IndicesInRange(user: UserLos, kind: ChannelKind, n: nat)
  {
    forall m :: 0 <= m < |user| && user[m].0 == kind ==> user[m].1 < n
  }

  /** `_replaced_with_user_los`: a copy of the defaults in which the user
      entries of the given kind replace the entry at their index (an index
      past the end is an IndexError); the defaults are not touched. */
  method ReplacedWithUserLos(user: UserLos, defaults: seq<real>, kind: ChannelKind) returns (r: Result<seq<real>>)
    ensures r.Ok? <==> IndicesInRange(user, kind, |defaults|)
    ensures r.Err? ==> r.error == IndexError
    ensures r.Ok? ==> |r.value| == |defaults| && forall i :: 0 <= i < |defaults| ==> r.value[i] == LoAt(user, kind, i, defaults[i])
  {
    var res := new real[|defaults|];
    forall i | 0 <= i < |defaults| {
      res[i] := defaults[i];
    }
    var m := 0;
    while m < |user|
      invariant 0 <= m <= |user|
      invariant res.Length == |defaults|
      invariant IndicesInRange(user[..m], kind, |defaults|)
      invariant forall i :: 0 <= i < |defaults| ==> res[i] == LoAt(user[..m], kind, i, defaults[i])
    {
      var (k, idx, f) := user[m];
      assert user[..m + 1][..m] == user[..m] && user[..m + 1][m] == user[m];
      if k == kind {
        if idx >= res.Length {
          assert !IndicesInRange(user, kind, |defaults|) by { assert user[m].0 == kind && user[m].1 >= |defaults|; }
          return Err(IndexError);
        }
        res[idx] := f;
      }
      m := m + 1;
    }
    assert user[..m] == user;
    return Ok(res[..]);
  }

  /** A frequency setup: the replaced lists that differ from the defaults. */
  datatype LoConfig = LoConfig(qubitLo: Option<seq<real>>, measLo: Option<seq<real>>)

  function ReplacedSpec(user: UserLos, defaults: seq<real>, kind: ChannelKind): Result<seq<real>>
  {
    if IndicesInRange(user, kind, |defaults|) then Ok(seq(|defaults|, i requires 0 <= i < |defaults| => LoAt(user, kind, i, defaults[i])))
    else Err(IndexError)
  }

  /** The config of one user dictionary: an IndexError when one of its
      indices is past the end of the defaults of its kind; otherwise the
      Drive and Measure lists with the user's entries in place, each present
      only when it differs from the defaults. */
  function LoConfigOf(user: UserLos, dq: seq<real>, dm: seq<real>): (r: Result<LoConfig>)
    ensures r.Ok? <==> IndicesInRange(user, Drive, |dq|) && IndicesInRange(user, Measure, |dm|)
    ensures r.Err? ==> r.error == IndexError
    ensures r.Ok? ==> LoListMeaning(r.value.qubitLo, user, Drive, dq) && LoListMeaning(r.value.measLo, user, Measure, dm)
  {
    var q :- ReplacedSpec(user, dq, Drive);
    var m :- ReplacedSpec(user, dm, Measure);
    Ok(LoConfig(if q != dq then Some(q) else None, if m != dm then Some(m) else None))
  }

  /** A config list entry of one kind: present exactly when some user entry
      changes a default, and then the defaults with the user's entries in place. */
  ghost predicate LoListMeaning(lo: Option<seq<real>>, user: UserLos, kind: ChannelKind, defaults: seq<real>)
  {
    && (lo.None? <==> forall i :: 0 <= i < |defaults| ==> LoAt(user, kind, i, defaults[i]) == defaults[i])
    && (lo.Some? ==> |lo.value| == |defaults| && forall i :: 0 <= i < |defaults| ==> lo.value[i] == LoAt(user, kind, i, defaults[i]))
  }

  /** Every user dictionary's indices lie within the defaults of their kind. */
  predicate AllInRange(users: seq<UserLos>, dq: seq<real>, dm: seq<real>)
  {
    forall u :: 0 <= u < |users| ==> IndicesInRange(users[u], Drive, |dq|) && IndicesInRange(users[u], Measure, |dm|)
  }

  function LoConfigsOf(users: seq<UserLos>, dq: seq<real>, dm: seq<real>): Result<seq<LoConfig>>
  {
    if |users| == 0 then Ok([])
    else
      var c :- LoConfigOf(users[0], dq, dm);
      var rest :- LoConfigsOf(users[1..], dq, dm);
      Ok([c] + rest)
  }

  /** The experiment configs as written: missing defaults are reported by
      an exception object that is never raised, so the run goes on with no
      frequency setup at all. */
  function ExperimentConfigsAsWritten(users: seq<UserLos>, dq: Option<seq<real>>, dm: Option<seq<real>>): Result<seq<LoConfig>>
  {
    if dq.Some? && |dq.value| > 0 && dm.Some? && |dm.value| > 0 then
      if |users| > 0 then LoConfigsOf(users, dq.value, dm.value) else Ok([])
    else Ok([])
  }

  /** The evidently intended behaviour: missing defaults are a QiskitError. */
  function ExperimentConfigs(users: seq<UserLos>, dq: Option<seq<real>>, dm: Option<seq<real>>): (r: Result<seq<LoConfig>>)
    ensures !(dq.Some? && |dq.value| > 0 && dm.Some? && |dm.value| > 0) ==> r.Err? && r.error.QiskitError?
    ensures dq.Some? && |dq.value| > 0 && dm.Some? && |dm.value| > 0 ==>
              (r.Ok? <==> AllInRange(users, dq.value, dm.value)) && (r.Err? ==> r.error == IndexError)
    ensures r.Ok? ==> (dq.Some? && dm.Some? && |r.value| == |users|
              && forall u :: 0 <= u < |users| ==> LoConfigOf(users[u], dq.value, dm.value) == Ok(r.value[u]))
  {
    if dq.Some? && |dq.value| > 0 && dm.Some? && |dm.value| > 0 then
      LoConfigsPerDictionary(users, dq.value, dm.value);
      if |users| > 0 then LoConfigsOf(users, dq.value, dm.value) else Ok([])
    else Err(QiskitError("No default LO frequency information is provided."))
  }

  /** Config `u` is built from user dictionary `u`, and the first
      dictionary whose indices fall outside the defaults makes the whole
      list an IndexError. */
  lemma {:induction false} LoConfigsPerDictionary(users: seq<UserLos>, dq: seq<real>, dm: seq<real>)
    ensures var r := LoConfigsOf(users, dq, dm);
            && (r.Ok? <==> AllInRange(users, dq, dm))
            && (r.Err? ==> r.error == IndexError)
            && (r.Ok? ==> |r.value| == |users| && forall u :: 0 <= u < |users| ==> LoConfigOf(users[u], dq, dm) == Ok(r.value[u]))
  {
    if |users| > 0 {
      LoConfigsPerDictionary(users[1..], dq, dm);
      var r := LoConfigsOf(users, dq, dm);
      if r.Ok? {
        forall u | 0 <= u < |users| ensures LoConfigOf(users[u], dq, dm) == Ok(r.value[u]) {
          if u > 0 {
            assert users[u] == users[1..][u - 1];
          }
        }
      }
      if AllInRange(users, dq, dm) {
        assert AllInRange(users[1..], dq, dm) by {
          forall u | 0 <= u < |users[1..]| ensures IndicesInRange(users[1..][u], Drive, |dq|) && IndicesInRange(users[1..][u], Measure, |dm|) {
            assert users[1..][u] == users[u + 1];
          }
        }
      } else {
        var u :| 0 <= u < |users| && !(IndicesInRange(users[u], Drive, |dq|) && IndicesInRange(users[u], Measure, |dm|));
        if u > 0 {
          assert users[u] == users[1..][u - 1];
        }
      }
    }
  }

  /** As written, user frequencies given without defaults vanish silently. */
  lemma MissingDefaultsIgnoredAsWritten()
    ensures ExperimentConfigsAsWritten([[(Drive, 0, 5.0)]], None, None) == Ok([])
    ensures ExperimentConfigs([[(Drive, 0, 5.0)]], None, None).Err?
  {
  }

  /** An assembled pulse experiment: its instructions, its header name and
      its frequency setup (None in the unique setup). */
  datatype PulseExperiment<I> = PulseExperiment(instructions: seq<I>, headerName: string, config: Option<LoConfig>)

  /** The global LO lists: a single config is popped into the global config,
      falling back to the defaults for what it does not set. */
  function GlobalLos(configs: seq<LoConfig>, dq: Option<seq<real>>, dm: Option<seq<real>>): (Option<seq<real>>, Option<seq<real>>)
  {
    if |configs| == 1 then
      (if configs[0].qubitLo.Some? then configs[0].qubitLo else dq,
       if configs[0].measLo.Some? then configs[0].measLo else dm)
    else (dq, dm)
  }

  /** The experiment list given the headers' names and the instruction
      lists. `sweepHeader` is the header the sweep branch uses. */
  function ShapeExperiments<I>(names: seq<string>, instrs: seq<seq<I>>, configs: seq<LoConfig>, sweepHeader: string): Result<seq<PulseExperiment<I>>>
    requires |names| == |instrs|
  {
    var remaining := if |configs| == 1 then [] else configs;
    if |remaining| > 0 then
      if |instrs| == 1 then
        Ok(seq(|remaining|, i requires 0 <= i < |remaining| => PulseExperiment(instrs[0], sweepHeader, Some(remaining[i]))))
      else if |instrs| == |remaining| then
        Ok(seq(|remaining|, i requires 0 <= i < |remaining| => PulseExperiment(instrs[i], names[i], Some(remaining[i]))))
      else Err(QiskitError("Invalid LO setting is specified."))
    else Ok(seq(|instrs|, i requires 0 <= i < |instrs| => PulseExperiment(instrs[i], names[i], None)))
  }

  /** As written, a frequency sweep reads the header of the input schedule
      object (`inputHeader`) instead of the assembled one. */
  function SweepAsWritten<I>(names: seq<string>, instrs: seq<seq<I>>, configs: seq<LoConfig>, inputHeader: string): Result<seq<PulseExperiment<I>>>
    requires |names| == |instrs|
  {
    ShapeExperiments(names, instrs, configs, inputHeader)
  }

  /** The intended sweep, every experiment carrying the assembled header.
      One config is global and the experiments are unique; several configs
      with one schedule sweep it, in config order, under the schedule's
      header; equal counts pair by position; anything else is a QiskitError;
      no config gives one experiment per schedule. */
  function Sweep<I>(names: seq<string>, instrs: seq<seq<I>>, configs: seq<LoConfig>): (r: Result<seq<PulseExperiment<I>>>)
    requires |names| == |instrs|
    ensures |configs| <= 1 ==> r == Ok(seq(|instrs|, i requires 0 <= i < |instrs| => PulseExperiment(instrs[i], names[i], None)))
    ensures |configs| > 1 && |instrs| == 1 ==>
              (r.Ok? && |r.value| == |configs|
               && forall i :: 0 <= i < |configs| ==> r.value[i] == PulseExperiment(instrs[0], names[0], Some(configs[i])))
    ensures |configs| > 1 && |instrs| == |configs| ==>
              (r.Ok? && |r.value| == |configs|
               && forall i :: 0 <= i < |configs| ==> r.value[i] == PulseExperiment(instrs[i], names[i], Some(configs[i])))
    ensures |configs| > 1 && |instrs| != 1 && |instrs| != |configs| ==> r.Err? && r.error.QiskitError?
  {
    ShapeExperiments(names, instrs, configs, if |names| > 0 then names[0] else "")
  }

  /** Whenever the input object's header is not the assembled one, the sweep
      as written labels every experiment with the wrong header. */
  lemma SweepHeaderAsWrittenDiffers<I>(name: string, instr: seq<I>, c1: LoConfig, c2: LoConfig, inputHeader: string)
    requires inputHeader != name
    ensures SweepAsWritten([name], [instr], [c1, c2], inputHeader).Ok?
    ensures SweepAsWritten([name], [instr], [c1, c2], inputHeader).value[0].headerName != name
  {
  }

  /** `assemble_schedules`, frequency part: the experiments and the global
      LO lists, for schedules given by names and converted instruction lists. */
  function AssembleSchedulesLo<I>(schedNames: seq<string>, instrs: seq<seq<I>>, users: seq<UserLos>,
                                  dq: Option<seq<real>>, dm: Option<seq<real>>)
    : (r: Result<(seq<PulseExperiment<I>>, (Option<seq<real>>, Option<seq<real>>))>)
    requires |schedNames| == |instrs|
    ensures ExperimentConfigs(users, dq, dm).Err? ==> r == Err(ExperimentConfigs(users, dq, dm).error)
    ensures ExperimentConfigs(users, dq, dm).Ok? ==>
              var sweep := Sweep(Names(schedNames), instrs, ExperimentConfigs(users, dq, dm).value);
              (r.Ok? <==> sweep.Ok?) && (sweep.Err? ==> r == Err(sweep.error))
    ensures r.Ok? ==> var configs := ExperimentConfigs(users, dq, dm).value;
                      |configs| == |users|
                      && r.value.1 == GlobalLos(configs, dq, dm)
                      && Sweep(Names(schedNames), instrs, configs).Ok?
                      && r.value.0 == Sweep(Names(schedNames), instrs, configs).value
  {
    var configs :- ExperimentConfigs(users, dq, dm);
    var names := Names(schedNames);
    var exps :- Sweep(names, instrs, configs);
    Ok((exps, GlobalLos(configs, dq, dm)))
  }

  /** The header names of the assembled schedules. */
  function Names(schedNames: seq<string>): (r: seq<string>)
    ensures |r| == |schedNames|
    ensures forall i :: 0 <= i < |schedNames| ==> r[i] == ExperimentName(schedNames[i], i)
  {
    seq(|schedNames|, i requires 0 <= i < |schedNames| => ExperimentName(schedNames[i], i))
  }
}
