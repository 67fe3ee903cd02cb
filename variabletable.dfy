/** The look-up table of a circuit's variable parameters: each parameter maps
    to the (instruction, parameter index) slots it is bound to, and assigning
    a value to a bound parameter writes the value into every one of those
    slots, in place. */
module VariableTables {
  import opened Common

  /** A circuit parameter, identified by its name. */
  datatype Parameter = Parameter(name: string)

  /** A value held in an instruction's parameter slot. */
  datatype Value =
    | Number(r: real)
    | Symbol(p: Parameter)
    | BindingList(list: seq<Binding>)    // a binding list, when one is written into a slot as it is

  /** What `table[key] = value` is given: a single value, or a dictionary of
      (parameter, value) items. */
  datatype Assigned = Scalar(v: Value) | Mapping(entries: seq<(Parameter, Value)>)

  /** A circuit instruction, as far as the table touches it: its parameter list. */
  class CircuitInstruction {
    var params: seq<Value>

    constructor(params: seq<Value>)
      ensures this.params == params
    {
      this.params := params;
    }
  }

  /** One binding: an instruction and the index of one of its parameter slots. */
  type Binding = (CircuitInstruction, int)

  predicate Distinct(s: seq<Parameter>)
  {
    forall i, j :: 0 <= i < j < |s| ==> s[i] != s[j]
  }

  /** The instructions a binding list touches. */
  function Instrs(bs: seq<Binding>): set<CircuitInstruction>
  {
    set j | 0 <= j < |bs| :: bs[j].0
  }

  // ---------------------------------------------------------------- Python list indexing

  /** The indices Python accepts for a list of length `n`, negative ones included. */
  predicate InRange(idx: int, n: nat)
  {
    0 <= idx + n && idx < n
  }

  /** The position a Python index denotes. */
  function Slot(idx: int, n: nat): (r: nat)
    requires InRange(idx, n)
    ensures r < n
  {
    if idx < 0 then idx + n else idx
  }

  // ---------------------------------------------------------------- assignment, as a function

  /** The value an assignment ends up writing into each slot: the scalar, or,
      for a dictionary, its last item's value (each item is written in turn);
      an empty dictionary writes nothing. */
  function WrittenValue(value: Assigned): Option<Value>
  {
    match value
    case Scalar(v) => Some(v)
    case Mapping(entries) => if |entries| == 0 then None else Some(entries[|entries| - 1].1)
  }

  /** The parameter list of `o`, initially `p`, after `w` is written into
      each of its slots in `bs`, in order. */
  function Written(p: seq<Value>, o: CircuitInstruction, bs: seq<Binding>, w: Value): (r: seq<Value>)
    requires forall j :: 0 <= j < |bs| && bs[j].0 == o ==> InRange(bs[j].1, |p|)
    ensures |r| == |p|
    decreases |bs|
  {
    if |bs| == 0 then p
    else
      var n := |bs| - 1;
      assert forall j :: 0 <= j < n ==> bs[..n][j] == bs[j];
      var q := Written(p, o, bs[..n], w);
      if bs[n].0 == o then q[Slot(bs[n].1, |p|) := w] else q
  }

  /** Whether slot `i` of `o` (of length `n`) is bound in `bs`. */
  predicate Bound(o: CircuitInstruction, bs: seq<Binding>, i: nat, n: nat)
    requires forall j :: 0 <= j < |bs| && bs[j].0 == o ==> InRange(bs[j].1, n)
  {
    exists j :: 0 <= j < |bs| && bs[j].0 == o && Slot(bs[j].1, n) == i
  }

  /** Writing is independent of the order of the bindings: every bound slot
      holds the written value and every other slot keeps its old value. */
  lemma {:induction false} WrittenMeaning(p: seq<Value>, o: CircuitInstruction, bs: seq<Binding>, w: Value)
    requires forall j :: 0 <= j < |bs| && bs[j].0 == o ==> InRange(bs[j].1, |p|)
    ensures forall i :: 0 <= i < |p| ==> Written(p, o, bs, w)[i] == if Bound(o, bs, i, |p|) then w else p[i]
    decreases |bs|
  {
    if |bs| > 0 {
      var n := |bs| - 1;
      var init := bs[..n];
      assert forall j :: 0 <= j < n ==> init[j] == bs[j];
      WrittenMeaning(p, o, init, w);
      forall i | 0 <= i < |p| ensures Written(p, o, bs, w)[i] == if Bound(o, bs, i, |p|) then w else p[i] {
        if Bound(o, init, i, |p|) {
          var j :| 0 <= j < |init| && init[j].0 == o && Slot(init[j].1, |p|) == i;
          assert bs[j] == init[j];
        } else if Bound(o, bs, i, |p|) {
          var j :| 0 <= j < |bs| && bs[j].0 == o && Slot(bs[j].1, |p|) == i;
          assert j == n;
        }
      }
    }
  }

  /** The first binding whose index is out of range for its instruction's
      current parameter list (`|bs|` when there is none). */
  function FirstOutOfRange(bs: seq<Binding>): (f: nat)
    reads Instrs(bs)
    ensures f <= |bs|
    ensures forall j :: 0 <= j < f ==> InRange(bs[j].1, |bs[j].0.params|)
    ensures f < |bs| ==> !InRange(bs[f].1, |bs[f].0.params|)
    decreases |bs|
  {
    if |bs| == 0 then 0
    else if !InRange(bs[0].1, |bs[0].0.params|) then 0
    else
      assert forall j :: 0 <= j < |bs[1..]| ==> bs[1..][j] == bs[j + 1];
      assert Instrs(bs[1..]) <= Instrs(bs);
      FirstOutOfRange(bs[1..]) + 1
  }

  // ---------------------------------------------------------------- the dictionary it is built from

  /** The keys of `dict(items)`: first occurrences, in order. */
  function KeysOf(items: seq<(Parameter, seq<Binding>)>): seq<Parameter>
    decreases |items|
  {
    if |items| == 0 then []
    else
      var ks := KeysOf(items[..|items| - 1]);
      if items[|items| - 1].0 in ks then ks else ks + [items[|items| - 1].0]
  }

  /** The entries of `dict(items)`: a later item for a key replaces an earlier one. */
  function TableOf(items: seq<(Parameter, seq<Binding>)>): map<Parameter, seq<Binding>>
    decreases |items|
  {
    if |items| == 0 then map[]
    else TableOf(items[..|items| - 1])[items[|items| - 1].0 := items[|items| - 1].1]
  }

  /** `dict(items)` has each key once, the same keys in both views, and the
      last item given for a key. */
  lemma {:induction false} DictOfItems(items: seq<(Parameter, seq<Binding>)>)
    ensures Distinct(KeysOf(items))
    ensures forall k :: k in TableOf(items) <==> k in KeysOf(items)
    ensures forall k :: k in TableOf(items) ==>
              exists j :: 0 <= j < |items| && items[j] == (k, TableOf(items)[k])
                          && forall j' :: j < j' < |items| ==> items[j'].0 != k
    decreases |items|
  {
    if |items| > 0 {
      var n := |items| - 1;
      var init := items[..n];
      DictOfItems(init);
      assert forall j :: 0 <= j < n ==> init[j] == items[j];
      forall k | k in TableOf(items)
        ensures exists j :: 0 <= j < |items| && items[j] == (k, TableOf(items)[k])
                            && forall j' :: j < j' < |items| ==> items[j'].0 != k
      {
        if k == items[n].0 {
          assert items[n] == (k, TableOf(items)[k]);
        } else {
          var j :| 0 <= j < n && init[j] == (k, TableOf(init)[k]) && forall j' :: j < j' < n ==> init[j'].0 != k;
          assert items[j] == (k, TableOf(items)[k]);
        }
      }
    }
  }

  /** A sequence without repetitions has as many elements as its set. */
  lemma {:induction false} DistinctSize(s: seq<Parameter>)
    requires Distinct(s)
    ensures |set x | x in s| == |s|
    decreases |s|
  {
    if |s| > 0 {
      var rest := s[1..];
      assert Distinct(rest) by {
        forall i, j | 0 <= i < j < |rest| ensures rest[i] != rest[j] {
          assert rest[i] == s[i + 1] && rest[j] == s[j + 1];
        }
      }
      DistinctSize(rest);
      assert (set x | x in s) == (set x | x in rest) + {s[0]};
      assert s[0] !in rest by {
        forall j | 0 <= j < |rest| ensures rest[j] != s[0] {
          assert rest[j] == s[j + 1];
        }
      }
    }
  }

  /** `s` without `x`, order kept. */
  function Remove(s: seq<Parameter>, x: Parameter): (r: seq<Parameter>)
    ensures forall y :: y in r <==> y in s && y != x
    decreases |s|
  {
    if |s| == 0 then []
    else
      var rest := Remove(s[1..], x);
      if s[0] == x then rest else [s[0]] + rest
  }

  // ---------------------------------------------------------------- the table

  class VariableTable {
    /** The keys in insertion order, the order a dict iterates them in. */
    var keys: seq<Parameter>
    /** parameter -> the slots bound to it */
    var table: map<Parameter, seq<Binding>>

    ghost predicate Valid()
      reads this
    {
      && (forall k :: k in table <==> k in keys)
      && Distinct(keys)
    }

    /** `VariableTable(items)`: the table of `dict(items)`. */
    constructor(items: seq<(Parameter, seq<Binding>)>)
      ensures Valid()
      ensures keys == KeysOf(items) && table == TableOf(items)
    {
      var ks: seq<Parameter> := [];
      var t: map<Parameter, seq<Binding>> := map[];
      var i := 0;
      while i < |items|
        invariant 0 <= i <= |items|
        invariant ks == KeysOf(items[..i]) && t == TableOf(items[..i])
      {
        assert items[..i + 1][..i] == items[..i] && items[..i + 1][i] == items[i];
        var (k, v) := items[i];
        if k !in ks {
          ks := ks + [k];
        }
        t := t[k := v];
        i := i + 1;
      }
      assert items[..i] == items;
      DictOfItems(items);
      keys := ks;
      table := t;
    }

    /** `table[key]`: the bindings of `key`, a KeyError when it has none. */
    method GetItem(key: Parameter) returns (r: Result<seq<Binding>>)
      requires Valid()
      ensures key in table ==> r == Ok(table[key])
      ensures key !in table ==> r == Err(KeyError)
    {
      if key !in table {
        return Err(KeyError);
      }
      return Ok(table[key]);
    }

    /** `table[key] = value`. A new key stores the binding list it is given
        (iterating a number or a parameter to check it raises a TypeError, and
        an empty dictionary passes the check and is stored as no bindings). An
        existing key keeps its bindings, and the value is written, through
        each binding in turn, into the bound slot of its instruction; an index
        out of range raises an IndexError, leaving the writes before it done. */
    method SetItem(key: Parameter, value: Assigned) returns (r: Outcome)
      requires Valid()
      modifies this, if key in table then Instrs(table[key]) else {}
      ensures Valid()
      ensures old(key !in table) && value.Scalar? && value.v.BindingList? ==>
                r == Pass && table == old(table)[key := value.v.list] && keys == old(keys) + [key]
      ensures old(key !in table) && value.Mapping? && |value.entries| == 0 ==>
                r == Pass && table == old(table)[key := []] && keys == old(keys) + [key]
      ensures old(key !in table) && !(value.Scalar? && value.v.BindingList?) && !(value.Mapping? && |value.entries| == 0) ==>
                r == Fail(TypeError) && table == old(table) && keys == old(keys)
      ensures old(key in table) ==> table == old(table) && keys == old(keys)
      ensures old(key in table) && WrittenValue(value).None? ==>
                r == Pass && forall o :: o in old(Instrs(table[key])) ==> o.params == old(o.params)
      ensures old(key in table) && WrittenValue(value).Some? ==>
                var bs := old(table[key]);
                var f := old(FirstOutOfRange(table[key]));
                && r == (if f < |bs| then Fail(IndexError) else Pass)
                && forall o :: o in Instrs(bs) ==> o.params == Written(old(o.params), o, bs[..f], WrittenValue(value).value)
    {
      if key !in table {
        match value {
          case Scalar(v) =>
            if !v.BindingList? {
              return Fail(TypeError);
            }
            table := table[key := v.list];
          case Mapping(entries) =>
            if |entries| != 0 {
              return Fail(TypeError);
            }
            table := table[key := []];
        }
        keys := keys + [key];
        assert Distinct(keys) by {
          assert forall i :: 0 <= i < |keys| - 1 ==> keys[i] in old(keys);
        }
        return Pass;
      }
      r := Rebind(table[key], value);
    }

    /** `del table[key]`: removes exactly that key, a KeyError when it is absent. */
    method DelItem(key: Parameter) returns (r: Outcome)
      requires Valid()
      modifies this
      ensures Valid()
      ensures old(key in table) ==> r == Pass && table == old(table) - {key} && keys == Remove(old(keys), key)
      ensures old(key !in table) ==> r == Fail(KeyError) && table == old(table) && keys == old(keys)
    {
      if key !in table {
        return Fail(KeyError);
      }
      RemoveDistinct(keys, key);
      table := table - {key};
      keys := Remove(keys, key);
      return Pass;
    }

    /** `len(table)`: the number of keys. */
    method Len() returns (n: nat)
      requires Valid()
      ensures n == |table| == |keys|
    {
      DistinctSize(keys);
      assert table.Keys == set k | k in keys;
      n := |keys|;
    }

    /** `iter(table)`: every key exactly once, in insertion order. */
    method Iter() returns (ks: seq<Parameter>)
      requires Valid()
      ensures Distinct(ks) && forall k :: k in ks <==> k in table
      ensures ks == keys
    {
      ks := keys;
    }
  }

  /** Writing binding `j` into `o` itself. */
  lemma WrittenStep(p: seq<Value>, o: CircuitInstruction, bs: seq<Binding>, j: nat, w: Value)
    requires j < |bs| && bs[j].0 == o
    requires forall jj :: 0 <= jj <= j && bs[jj].0 == o ==> InRange(bs[jj].1, |p|)
    ensures Written(p, o, bs[..j + 1], w) == Written(p, o, bs[..j], w)[Slot(bs[j].1, |p|) := w]
  {
    assert bs[..j + 1][..j] == bs[..j];
  }

  /** Binding `j` leaves every other instruction alone. */
  lemma WrittenOther(p: seq<Value>, o: CircuitInstruction, bs: seq<Binding>, j: nat, w: Value)
    requires j < |bs| && bs[j].0 != o
    requires forall jj :: 0 <= jj < j && bs[jj].0 == o ==> InRange(bs[jj].1, |p|)
    ensures Written(p, o, bs[..j + 1], w) == Written(p, o, bs[..j], w)
  {
    assert bs[..j + 1][..j] == bs[..j];
  }

  /** Removing a key keeps the others distinct. */
  lemma {:induction false} RemoveDistinct(s: seq<Parameter>, x: Parameter)
    requires Distinct(s)
    ensures Distinct(Remove(s, x))
    decreases |s|
  {
    if |s| > 0 {
      var rest := s[1..];
      assert Distinct(rest) by {
        forall i, j | 0 <= i < j < |rest| ensures rest[i] != rest[j] {
          assert rest[i] == s[i + 1] && rest[j] == s[j + 1];
        }
      }
      assert s[0] !in rest by {
        forall j | 0 <= j < |rest| ensures rest[j] != s[0] {
          assert rest[j] == s[j + 1];
        }
      }
      RemoveDistinct(rest, x);
    }
  }

  /** The existing-key half of `table[key] = value`: the value is written,
      through each binding `bs` holds in turn, into the bound slot of its
      instruction; an index out of range for the instruction's parameter
      list raises an IndexError, and the writes before it stay done. */
  method Rebind(bs: seq<Binding>, value: Assigned) returns (r: Outcome)
    modifies Instrs(bs)
    ensures WrittenValue(value).None? ==>
              r == Pass && forall o :: o in Instrs(bs) ==> o.params == old(o.params)
    ensures WrittenValue(value).Some? ==>
              var f := old(FirstOutOfRange(bs));
              && r == (if f < |bs| then Fail(IndexError) else Pass)
              && forall o :: o in Instrs(bs) ==> o.params == Written(old(o.params), o, bs[..f], WrittenValue(value).value)
  {
    if WrittenValue(value).None? {
      // an empty dictionary: each instruction's list is put back unchanged
      return Pass;
    }
    r := WriteThrough(bs, value);
  }

  /** The loop over the bindings, for a value that writes something. */
  method WriteThrough(bs: seq<Binding>, value: Assigned) returns (r: Outcome)
    requires WrittenValue(value).Some?
    modifies Instrs(bs)
    ensures r == (if old(FirstOutOfRange(bs)) < |bs| then Fail(IndexError) else Pass)
    ensures forall o :: o in Instrs(bs) ==>
              o.params == Written(old(o.params), o, bs[..old(FirstOutOfRange(bs))], WrittenValue(value).value)
  {
    ghost var w := WrittenValue(value).value;
    ghost var f := FirstOutOfRange(bs);
    var j := 0;
    while j < |bs|
      invariant 0 <= j <= |bs| && j <= f
      invariant forall o :: o in Instrs(bs) ==> o.params == Written(old(o.params), o, bs[..j], w)
    {
      var (instr, paramIndex) := bs[j];
      assert instr in Instrs(bs);
      assert |instr.params| == |old(instr.params)|;
      if !(0 <= paramIndex + |instr.params| && paramIndex < |instr.params|) {
        assert j == f;
        return Fail(IndexError);
      }
      assert j < f;
      var pos := if paramIndex < 0 then paramIndex + |instr.params| else paramIndex;
      WrittenStep(old(instr.params), instr, bs, j, w);
      label before:
      Assign(instr, pos, value);
      forall o | o in Instrs(bs) ensures o.params == Written(old(o.params), o, bs[..j + 1], w) {
        if o == instr {
          assert o.params == old@before(o.params)[pos := w];
        } else {
          assert o.params == old@before(o.params) == Written(old(o.params), o, bs[..j], w);
          WrittenOther(old(o.params), o, bs, j, w);
        }
      }
      j := j + 1;
    }
    assert bs[..j] == bs[..f];
    return Pass;
  }

  /** The write through one binding: `params = instr.params`, the value (or
      each item's value, for a dictionary) stored at `pos`, then
      `instr.params = params`. */
  method Assign(instr: CircuitInstruction, pos: nat, value: Assigned)
    requires pos < |instr.params| && WrittenValue(value).Some?
    modifies instr
    ensures instr.params == old(instr.params)[pos := WrittenValue(value).value]
  {
    var params := instr.params;
    match value {
      case Scalar(v) =>
        params := params[pos := v];
      case Mapping(entries) =>
        var e := 0;
        while e < |entries|
          invariant 0 <= e <= |entries|
          invariant params == if e == 0 then instr.params else instr.params[pos := entries[e - 1].1]
        {
          params := params[pos := entries[e].1];
          e := e + 1;
        }
    }
    instr.params := params;
  }
}
