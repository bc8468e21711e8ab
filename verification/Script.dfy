/**
 A stack machine for the opcodes the covenant scripts use, with the meanings written
 beside their constants in rgk-covenant, and the assembler that turns instructions into
 script bytes.
 */
module Script {
  import opened Bytes
  import opened ScriptNum

  const OP_TX_OUTPUT_COUNT: byte := 0xb4
  const OP_TX_PAYLOAD_SUBSTR: byte := 0xb8
  const OP_TX_INPUT_INDEX: byte := 0xb9
  const OP_TX_INPUT_SPK: byte := 0xbf
  const OP_TX_OUTPUT_SPK: byte := 0xc3
  const OP_TX_PAYLOAD_LEN: byte := 0xc4
  const OP_INPUT_COVENANT_ID: byte := 0xcf
  const OP_COV_INPUT_COUNT: byte := 0xd0
  const OP_COV_OUTPUT_COUNT: byte := 0xd2
  const OP_COV_OUTPUT_IDX: byte := 0xd3
  const OP_OUTPUT_COVENANT_ID: byte := 0xd5
  const OP_OUTPUT_AUTHORIZING_INPUT: byte := 0xd6
  const OP_EQUAL_VERIFY: byte := 0x88

  // ---- what a script can see ----

  datatype SpentOutput = SpentOutput(spk: Bytes, covenant: Option<Bytes32>)

  datatype CreatedOutput = CreatedOutput(spk: Bytes, covenant: Option<Bytes32>, authorizing: Option<nat>)

  // `noId` and `noAuthorizer` are what the engine pushes where a covenant id or an
  // authorising input is missing, or None where it fails instead. Every statement below
  // holds for either choice.
  datatype Context = Context(
    inputs: seq<SpentOutput>, outputs: seq<CreatedOutput>, payload: Bytes, current: nat,
    noId: Option<Bytes>, noAuthorizer: Option<Bytes>)

  function PushedId(c: Context, id: Option<Bytes32>): Option<Bytes> {
    match id case Some(b) => Some(b) case None => c.noId
  }

  function PushedAuthorizer(c: Context, a: Option<nat>): Option<Bytes> {
    match a case Some(n) => Some(NumBytes(n)) case None => c.noAuthorizer
  }

  function CarryingInputs(s: seq<SpentOutput>, id: Bytes): nat {
    if s == [] then 0
    else CarryingInputs(s[..|s| - 1], id) + if Last(s).covenant.Some? && Last(s).covenant.value == id then 1 else 0
  }

  predicate Carries(o: CreatedOutput, id: Bytes) { o.covenant.Some? && o.covenant.value == id }

  // The indices of the outputs carrying an id, in order.
  function CarryingOutputs(s: seq<CreatedOutput>, id: Bytes): (r: seq<nat>)
    ensures forall k :: k in r <==> 0 <= k < |s| && Carries(s[k], id)
  {
    if s == [] then []
    else
      var rest := CarryingOutputs(s[..|s| - 1], id);
      assert forall k :: 0 <= k < |s| - 1 ==> s[..|s| - 1][k] == s[k];
      if Carries(Last(s), id) then rest + [|s| - 1] else rest
  }

  // ---- one opcode ----

  type Stack = seq<Bytes>

  function Pop(st: Stack): Option<(Bytes, Stack)> {
    if st == [] then None else Some((Last(st), st[..|st| - 1]))
  }

  // The top of the stack as an index below n.
  function PopIndex(st: Stack, n: nat): Option<(nat, Stack)> {
    if st == [] then None
    else
      var k := NumOf(Last(st));
      if 0 <= k < n then Some((k, st[..|st| - 1])) else None
  }

  function Push(st: Stack, b: Bytes): Option<Stack> { Some(st + [b]) }

  function PushOption(st: Stack, b: Option<Bytes>): Option<Stack> {
    match b case Some(x) => Some(st + [x]) case None => None
  }

  function Step(c: Context, op: byte, st: Stack): Option<Stack> {
    if op == OP_TX_INPUT_INDEX then Push(st, NumBytes(c.current))
    else if op == OP_TX_OUTPUT_COUNT then Push(st, NumBytes(|c.outputs|))
    else if op == OP_TX_PAYLOAD_LEN then Push(st, NumBytes(|c.payload|))
    else if op == OP_EQUAL_VERIFY then
      var (a, st1) :- Pop(st);
      var (b, st2) :- Pop(st1);
      if a == b then Some(st2) else None
    else if op == OP_TX_INPUT_SPK then
      var (k, st1) :- PopIndex(st, |c.inputs|);
      Push(st1, c.inputs[k].spk)
    else if op == OP_TX_OUTPUT_SPK then
      var (k, st1) :- PopIndex(st, |c.outputs|);
      Push(st1, c.outputs[k].spk)
    else if op == OP_INPUT_COVENANT_ID then
      var (k, st1) :- PopIndex(st, |c.inputs|);
      PushOption(st1, PushedId(c, c.inputs[k].covenant))
    else if op == OP_OUTPUT_COVENANT_ID then
      var (k, st1) :- PopIndex(st, |c.outputs|);
      PushOption(st1, PushedId(c, c.outputs[k].covenant))
    else if op == OP_OUTPUT_AUTHORIZING_INPUT then
      var (k, st1) :- PopIndex(st, |c.outputs|);
      PushOption(st1, PushedAuthorizer(c, c.outputs[k].authorizing))
    else if op == OP_TX_PAYLOAD_SUBSTR then
      var (hi, st1) :- PopIndex(st, |c.payload| + 1);
      var (lo, st2) :- PopIndex(st1, hi + 1);
      Push(st2, c.payload[lo..hi])
    else if op == OP_COV_INPUT_COUNT then
      var (id, st1) :- Pop(st);
      Push(st1, NumBytes(CarryingInputs(c.inputs, id)))
    else if op == OP_COV_OUTPUT_COUNT then
      var (id, st1) :- Pop(st);
      Push(st1, NumBytes(|CarryingOutputs(c.outputs, id)|))
    else if op == OP_COV_OUTPUT_IDX then
      var (kb, st1) :- Pop(st);
      var (id, st2) :- Pop(st1);
      var idx := CarryingOutputs(c.outputs, id);
      var k := NumOf(kb);
      if 0 <= k < |idx| then Push(st2, NumBytes(idx[k])) else None
    else None
  }

  // ---- running bytes ----

  // A data push at the front of the script: the data and the length of the push.
  function PushAt(s: Bytes): Option<(Bytes, nat)>
    requires s != []
  {
    var op := s[0];
    if op < 0x4c then
      if |s| < 1 + op then None else Some((s[1..1 + op], 1 + op))
    else if op == 0x4c then
      if |s| < 2 then None
      else
        var n: nat := s[1];
        if |s| < 2 + n then None else Some((s[2..2 + n], 2 + n))
    else if op == 0x4d then
      if |s| < 3 || |s| < 3 + FromLE(s[1..3]) then None else Some((s[3..3 + FromLE(s[1..3])], 3 + FromLE(s[1..3])))
    else if op == 0x4e then
      if |s| < 5 || |s| < 5 + FromLE(s[1..5]) then None else Some((s[5..5 + FromLE(s[1..5])], 5 + FromLE(s[1..5])))
    else if op == 0x4f then Some(([0x81], 1))
    else if 0x51 <= op <= 0x60 then Some(([op - 0x50], 1))
    else None
  }

  predicate IsPush(op: byte) { op <= 0x4f || 0x51 <= op <= 0x60 }

  lemma PushAtShrinks(s: Bytes)
    requires s != [] && PushAt(s).Some?
    ensures 1 <= PushAt(s).value.1 <= |s|
  {
  }

  function Run(c: Context, s: Bytes, st: Stack): Option<Stack>
    decreases |s|
  {
    if s == [] then Some(st)
    else if IsPush(s[0]) then
      match PushAt(s)
      case None => None
      case Some((data, n)) =>
        PushAtShrinks(s);
        Run(c, s[n..], st + [data])
    else
      match Step(c, s[0], st)
      case None => None
      case Some(st1) => Run(c, s[1..], st1)
  }

  predicate Truthy(b: Bytes) { exists i :: 0 <= i < |b| && b[i] != 0 }

  // A script accepts when it runs to its end and leaves a true value on top.
  predicate Accepts(c: Context, s: Bytes, st: Stack) {
    match Run(c, s, st)
    case None => false
    case Some(r) => r != [] && Truthy(Last(r))
  }

  // ---- instructions and their assembly ----

  datatype Instr = Op(op: byte) | PushNum(n: int) | PushData(data: Bytes)

  predicate ValidInstr(i: Instr) {
    match i
    case Op(op) => !IsPush(op)
    case PushNum(n) => IsI64(n)
    case PushData(d) => |d| < 0x1_0000_0000
  }

  // `push_data`
  function DataBytes(d: Bytes): Bytes
    requires |d| < 0x1_0000_0000
  {
    if |d| < 0x4c then [|d|] + d
    else if |d| <= 0xff then [0x4c, |d|] + d
    else if |d| <= 0xffff then [0x4d] + LE(2, |d|) + d
    else [0x4e] + LE(4, |d|) + d
  }

  // `push_script_i64`
  function NumPush(n: int): Bytes
    requires IsI64(n)
  {
    if n == 0 then [0]
    else if n == -1 then [0x4f]
    else if 1 <= n <= 16 then [0x50 + n]
    else
      NumLength(n);
      DataBytes(NumBytes(n))
  }

  method PushScriptI64(out: Bytes, n: int) returns (r: Bytes)
    requires IsI64(n)
    ensures r == out + NumPush(n)
  {
    if n == 0 { return out + [0]; }
    if n == -1 { return out + [0x4f]; }
    if 1 <= n <= 16 { return out + [0x50 + n]; }
    var bytes := NumberBytes(n);
    NumLength(n);
    return out + DataBytes(bytes);
  }

  function Bytecode(i: Instr): Bytes
    requires ValidInstr(i)
  {
    match i
    case Op(op) => [op]
    case PushNum(n) => NumPush(n)
    case PushData(d) => DataBytes(d)
  }

  function Execute(c: Context, i: Instr, st: Stack): Option<Stack> {
    match i
    case Op(op) => Step(c, op, st)
    case PushNum(n) => Some(st + [NumBytes(n)])
    case PushData(d) => Some(st + [d])
  }

  predicate ValidProgram(p: seq<Instr>) { forall i :: i in p ==> ValidInstr(i) }

  function Assemble(p: seq<Instr>): Bytes
    requires ValidProgram(p)
  {
    if p == [] then [] else Bytecode(p[0]) + Assemble(p[1..])
  }

  // Instructions in order, over any machine that executes one.
  type Machine = (Instr, Stack) -> Option<Stack>

  function ExecuteAll(x: Machine, p: seq<Instr>, st: Stack): Option<Stack> {
    if p == [] then Some(st)
    else
      match x(p[0], st)
      case None => None
      case Some(st1) => ExecuteAll(x, p[1..], st1)
  }

  function On(c: Context): Machine { (i: Instr, st: Stack) => Execute(c, i, st) }

  // ---- pushed data is never read as an opcode ----

  lemma RunData(c: Context, d: Bytes, rest: Bytes, st: Stack)
    requires |d| < 0x1_0000_0000
    ensures Run(c, DataBytes(d) + rest, st) == Run(c, rest, st + [d])
  {
    var s := DataBytes(d) + rest;
    Pow256Values();
    if |d| < 0x4c {
      assert s[1..1 + |d|] == d && s[1 + |d|..] == rest;
    } else if |d| <= 0xff {
      assert s[2..2 + |d|] == d && s[2 + |d|..] == rest;
    } else if |d| <= 0xffff {
      assert s[1..3] == LE(2, |d|);
      FromLEInvertsLE(2, |d|);
      assert s[3..3 + |d|] == d && s[3 + |d|..] == rest;
    } else {
      assert s[1..5] == LE(4, |d|);
      FromLEInvertsLE(4, |d|);
      assert s[5..5 + |d|] == d && s[5 + |d|..] == rest;
    }
  }

  lemma SmallNumBytes(n: int)
    requires 1 <= n <= 16 || n == -1
    ensures NumBytes(n) == if n == -1 then [0x81] else [n]
  {
    assert Magnitude(Abs(n) / 256) == [];
    assert Magnitude(Abs(n)) == [Abs(n)];
  }

  lemma RunNum(c: Context, n: int, rest: Bytes, st: Stack)
    requires IsI64(n)
    ensures Run(c, NumPush(n) + rest, st) == Run(c, rest, st + [NumBytes(n)])
  {
    var s := NumPush(n) + rest;
    if n == 0 {
      assert s[1..1] == [] && s[1..] == rest;
    } else if n == -1 || 1 <= n <= 16 {
      SmallNumBytes(n);
      assert s[1..] == rest;
    } else {
      NumLength(n);
      RunData(c, NumBytes(n), rest, st);
    }
  }

  // Running assembled bytes is executing the instructions.
  lemma {:induction false} RunAssembled(c: Context, p: seq<Instr>, rest: Bytes, st: Stack)
    requires ValidProgram(p)
    ensures Run(c, Assemble(p) + rest, st)
            == match ExecuteAll(On(c), p, st) case None => None case Some(r) => Run(c, rest, r)
    decreases |p|
  {
    if p == [] {
      assert Assemble(p) + rest == rest;
    } else {
      var tail := Assemble(p[1..]) + rest;
      assert p[0] in p;
      assert Assemble(p) + rest == Bytecode(p[0]) + tail;
      match p[0] {
        case Op(op) => assert ([op] + tail)[1..] == tail;
        case PushNum(n) => RunNum(c, n, tail, st);
        case PushData(d) => RunData(c, d, tail, st);
      }
      if Execute(c, p[0], st).Some? {
        RunAssembled(c, p[1..], rest, Execute(c, p[0], st).value);
      }
    }
  }

  lemma {:induction false} ExecuteAppend(x: Machine, p: seq<Instr>, q: seq<Instr>, st: Stack)
    ensures ExecuteAll(x, p + q, st)
            == match ExecuteAll(x, p, st) case None => None case Some(r) => ExecuteAll(x, q, r)
    decreases |p|
  {
    if p == [] {
      assert p + q == q;
    } else {
      assert (p + q)[0] == p[0] && (p + q)[1..] == p[1..] + q;
      if x(p[0], st).Some? {
        ExecuteAppend(x, p[1..], q, x(p[0], st).value);
      }
    }
  }

  lemma {:induction false} AssembleAppend(p: seq<Instr>, q: seq<Instr>)
    requires ValidProgram(p) && ValidProgram(q)
    ensures ValidProgram(p + q) && Assemble(p + q) == Assemble(p) + Assemble(q)
    decreases |p|
  {
    if p == [] {
      assert p + q == q;
    } else {
      assert (p + q)[0] == p[0] && (p + q)[1..] == p[1..] + q;
      AssembleAppend(p[1..], q);
    }
  }
}
