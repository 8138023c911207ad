/**
  Bitcoin Script: instructions, their byte encoding, and a stack machine for the opcodes the
  redeem scripts use. Signature checking is a parameter of the machine.
 */
module Scripts {
  import opened Common
  import opened BitcoinTypes
  import opened ScriptNums

  datatype Instr = Push(data: Bytes) | Op(code: Byte)

  const OP_1NEGATE: Byte := 0x4f
  const OP_RESERVED: Byte := 0x50
  const OP_16: Byte := 0x60
  const OP_IF: Byte := 0x63
  const OP_ELSE: Byte := 0x67
  const OP_ENDIF: Byte := 0x68
  const OP_DROP: Byte := 0x75
  const OP_SWAP: Byte := 0x7c
  const OP_ADD: Byte := 0x93
  const OP_GREATERTHAN: Byte := 0xa0
  const OP_CHECKSIG: Byte := 0xac

  // ----- bytes -----

  predicate WellFormed(i: Instr) {
    match i
    case Push(data) => |data| < 0x1_0000_0000
    case Op(code) => code >= OP_1NEGATE
  }

  /** The bytes that announce `n` bytes of data. */
  function PushPrefix(n: nat): Bytes {
    if n < 0x4c then [n]
    else if n < 0x100 then [0x4c, n]
    else if n < 0x1_0000 then [0x4d, n % 256, n / 256]
    else [0x4e, n % 256, n / 256 % 256, n / 256 / 256 % 256, n / 256 / 256 / 256 % 256]
  }

  /** A low byte and what stands above it. */
  function Join(low: nat, high: nat): nat {
    low + 256 * high
  }

  function Encode(i: Instr): Bytes {
    match i
    case Push(data) => PushPrefix(|data|) + data
    case Op(code) => [code]
  }

  ghost predicate AllWellFormed(ins: seq<Instr>) {
    forall k :: 0 <= k < |ins| ==> WellFormed(ins[k])
  }

  function Assemble(ins: seq<Instr>): Bytes {
    Flatten(ins, |ins|, Encode)
  }

  /** Sizes of the prefix and of the data of the leading push. */
  function PushSizes(bytes: Bytes): Option<(nat, nat)>
    requires bytes != []
  {
    if bytes[0] < 0x4c then Some((1, bytes[0]))
    else if bytes[0] == 0x4c && |bytes| >= 2 then Some((2, bytes[1]))
    else if bytes[0] == 0x4d && |bytes| >= 3 then Some((3, Join(bytes[1], bytes[2])))
    else if bytes[0] == 0x4e && |bytes| >= 5 then
      Some((5, Join(bytes[1], Join(bytes[2], Join(bytes[3], bytes[4])))))
    else None
  }

  /** The leading instruction and its length in bytes. */
  function Decode(bytes: Bytes): (r: Result<(Instr, nat)>)
    requires bytes != []
    ensures r.Ok? ==> 0 < r.value.1 <= |bytes|
  {
    if bytes[0] >= OP_1NEGATE then Ok((Op(bytes[0]), 1)) else
    match PushSizes(bytes)
    case None => Err(Rejected)
    case Some((prefix, size)) =>
      if prefix + size > |bytes| then Err(Rejected)
      else Ok((Push(Range(bytes, prefix, prefix + size)), prefix + size))
  }

  /** `Script::instructions`. */
  function Disassemble(bytes: Bytes): Result<seq<Instr>>
    decreases |bytes|
  {
    if bytes == [] then Ok([]) else
    var first :- Decode(bytes);
    var rest :- Disassemble(Suffix(bytes, first.1));
    Ok([first.0] + rest)
  }

  lemma Digits(n: nat)
    ensures n == Join(n % 256, n / 256)
  {
  }

  lemma PrefixDecodes(n: nat, bytes: Bytes)
    requires n < 0x1_0000_0000 && PushPrefix(n) <= bytes
    ensures PushPrefix(n)[0] < OP_1NEGATE
    ensures PushSizes(bytes) == Some((|PushPrefix(n)|, n))
  {
    var prefix := PushPrefix(n);
    assert forall k :: 0 <= k < |prefix| ==> bytes[k] == prefix[k];
    Digits(n);
    Digits(n / 256);
    Digits(n / 256 / 256);
  }

  lemma DecodeEncoded(i: Instr, rest: Bytes)
    requires WellFormed(i)
    ensures Encode(i) != []
    ensures Decode(Encode(i) + rest) == Ok((i, |Encode(i)|))
    ensures Suffix(Encode(i) + rest, |Encode(i)|) == rest
  {
    var bytes := Encode(i) + rest;
    match i {
      case Op(code) =>
      case Push(data) =>
        var prefix := PushPrefix(|data|);
        PrefixDecodes(|data|, bytes);
        assert Range(bytes, |prefix|, |prefix| + |data|) == data;
    }
    assert Suffix(bytes, |Encode(i)|) == rest;
  }

  lemma DisassembleOne(i: Instr, rest: Bytes, tail: seq<Instr>)
    requires WellFormed(i) && Disassemble(rest) == Ok(tail)
    ensures Disassemble(Encode(i) + rest) == Ok([i] + tail)
  {
    DecodeEncoded(i, rest);
  }

  lemma {:induction false} RoundTripTo(ins: seq<Instr>, n: nat, rest: Bytes, tail: seq<Instr>)
    requires AllWellFormed(ins) && n <= |ins| && Disassemble(rest) == Ok(tail)
    ensures Disassemble(Flatten(ins, n, Encode) + rest) == Ok(Range(ins, 0, n) + tail)
  {
    if n == 0 {
      assert [] + rest == rest && Range(ins, 0, 0) + tail == tail;
    } else {
      var x := ins[n - 1];
      DisassembleOne(x, rest, tail);
      RoundTripTo(ins, n - 1, Encode(x) + rest, [x] + tail);
      ConcatAssociates(Flatten(ins, n - 1, Encode), Encode(x), rest);
      RangeSnoc(ins, n, tail);
    }
  }

  lemma RangeSnoc(ins: seq<Instr>, n: nat, tail: seq<Instr>)
    requires 0 < n <= |ins|
    ensures Range(ins, 0, n) + tail == Range(ins, 0, n - 1) + ([ins[n - 1]] + tail)
  {
  }

  lemma ConcatAssociates(a: Bytes, b: Bytes, c: Bytes)
    ensures a + (b + c) == (a + b) + c
  {
  }

  /** Disassembling inverts assembling. */
  lemma AssemblyRoundTrip(ins: seq<Instr>)
    requires AllWellFormed(ins)
    ensures Disassemble(Assemble(ins)) == Ok(ins)
  {
    RoundTripTo(ins, |ins|, [], []);
    assert Range(ins, 0, |ins|) + [] == ins && Assemble(ins) + [] == Assemble(ins);
  }

  /** So a script has at most one disassembly. */
  lemma AssembleInjective(a: seq<Instr>, b: seq<Instr>)
    requires AllWellFormed(a) && AllWellFormed(b) && Assemble(a) == Assemble(b)
    ensures a == b
  {
    AssemblyRoundTrip(a);
    AssemblyRoundTrip(b);
  }

  // ----- the stack machine -----

  datatype Stack = Empty | Item(top: Bytes, rest: Stack)

  /** The conditionals entered, innermost first. */
  datatype Conds = NoCond | Cond(taken: bool, outer: Conds)

  datatype Machine = Running(stack: Stack, conds: Conds) | Failed

  /** Whether a signature element is valid for a key; an empty element never is. */
  type Checker = (Bytes, Pubkey) -> bool

  predicate Active(c: Conds) {
    c.NoCond? || (c.taken && Active(c.outer))
  }

  function BoolItem(b: bool): Bytes {
    if b then [1] else []
  }

  function Binary(s: Stack, f: (Bytes, Bytes) -> Option<Bytes>): Option<Stack> {
    match s
    case Item(a, Item(b, rest)) =>
      (match f(a, b)
       case Some(x) => Some(Item(x, rest))
       case None => None)
    case _ => None
  }

  function AddItems(a: Bytes, b: Bytes): Option<Bytes> {
    var x, y := DecodeNum(a), DecodeNum(b);
    if x.Ok? && y.Ok? then Some(EncodeNum(y.value + x.value)) else None
  }

  function GreaterItems(a: Bytes, b: Bytes): Option<Bytes> {
    var x, y := DecodeNum(a), DecodeNum(b);
    if x.Ok? && y.Ok? then Some(BoolItem(y.value > x.value)) else None
  }

  /** An opcode other than a conditional. */
  function Apply(check: Checker, code: Byte, s: Stack): Option<Stack> {
    if OP_RESERVED < code <= OP_16 then Some(Item(EncodeNum(code - OP_RESERVED), s))
    else if code == OP_1NEGATE then Some(Item(EncodeNum(-1), s))
    else if code == OP_CHECKSIG then Binary(s, (key, sig) => Some(BoolItem(check(sig, key))))
    else if code == OP_ADD then Binary(s, AddItems)
    else if code == OP_GREATERTHAN then Binary(s, GreaterItems)
    else if code == OP_SWAP then
      (match s case Item(a, Item(b, rest)) => Some(Item(b, Item(a, rest))) case _ => None)
    else if code == OP_DROP then
      (match s case Item(_, rest) => Some(rest) case Empty => None)
    else None
  }

  function Step(check: Checker, m: Machine, i: Instr): Machine {
    match m
    case Failed => Failed
    case Running(s, c) =>
      match i
      case Push(data) => if Active(c) then Running(Item(data, s), c) else m
      case Op(code) =>
        if code == OP_IF then
          if !Active(c) then Running(s, Cond(false, c))
          else (match s case Empty => Failed case Item(x, rest) => Running(rest, Cond(IsTrue(x), c)))
        else if code == OP_ELSE then
          (match c case NoCond => Failed case Cond(taken, outer) => Running(s, Cond(!taken, outer)))
        else if code == OP_ENDIF then
          (match c case NoCond => Failed case Cond(_, outer) => Running(s, outer))
        else if !Active(c) then m
        else match Apply(check, code, s)
          case None => Failed
          case Some(s') => Running(s', c)
  }

  /** The machine after the first `n` instructions. */
  function RunTo(check: Checker, ins: seq<Instr>, n: nat, m: Machine): Machine
    requires n <= |ins|
  {
    if n == 0 then m else Step(check, RunTo(check, ins, n - 1, m), ins[n - 1])
  }

  function Execute(check: Checker, ins: seq<Instr>, m: Machine): Machine {
    RunTo(check, ins, |ins|, m)
  }

  lemma {:induction false} RunToAgrees(check: Checker, a: seq<Instr>, b: seq<Instr>, n: nat, m: Machine)
    requires n <= |a| && n <= |b| && forall k :: 0 <= k < n ==> a[k] == b[k]
    ensures RunTo(check, a, n, m) == RunTo(check, b, n, m)
  {
    if n > 0 {
      RunToAgrees(check, a, b, n - 1, m);
    }
  }

  lemma {:induction false} RunToConcat(check: Checker, a: seq<Instr>, b: seq<Instr>, n: nat, m: Machine)
    requires n <= |b|
    ensures RunTo(check, a + b, |a| + n, m) == RunTo(check, b, n, Execute(check, a, m))
  {
    if n == 0 {
      RunToAgrees(check, a + b, a, |a|, m);
    } else {
      RunToConcat(check, a, b, n - 1, m);
    }
  }

  /** A script runs part by part. */
  lemma ExecuteConcat(check: Checker, a: seq<Instr>, b: seq<Instr>, m: Machine)
    ensures Execute(check, a + b, m) == Execute(check, b, Execute(check, a, m))
  {
    RunToConcat(check, a, b, |b|, m);
  }

  /** The stack of the first `n` witness elements, the last of them on top. */
  function StackOf(w: seq<Bytes>, n: nat): Stack
    requires n <= |w|
  {
    if n == 0 then Empty else Item(w[n - 1], StackOf(w, n - 1))
  }

  /** A pay-to-witness-script-hash spend succeeds when one true element is left. */
  predicate Accepts(check: Checker, ins: seq<Instr>, w: seq<Bytes>) {
    match Execute(check, ins, Running(StackOf(w, |w|), NoCond))
    case Running(Item(x, Empty), NoCond) => IsTrue(x)
    case _ => false
  }
}
