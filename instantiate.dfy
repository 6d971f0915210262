/** `instantiate_wasi` of src/instantiate.rs: the synthetic module that exports
    every syscall under `prefix + name`, the `WasiCtx` built for it from the
    caller's arguments, environment and pre-opened directories, and the instance
    made of the two. */
module Instantiate {
  import opened Wrappers
  import opened Wasm32
  import Codegen
  import opened Syscalls

  // The 45 `signature!` invocations, in source order, under the four comments
  // that group them. The literal runs are kept short for the proofs below.

  /** The order of the registrations. */
  const RegistrationOrder: seq<Op> :=
    // "unknown"
    [ArgsGet, ArgsSizesGet, EnvironGet, EnvironSizesGet, FdAllocate]
    // "need"
    + [ClockResGet, ClockTimeGet, FdClose, FdRead, FdRenumber, FdSync, FdWrite]
    + [PollOneoff, ProcExit, RandomGet, SchedYield, SockRecv, SockSend, SockShutdown]
    // "when we implement FS support"
    + [FdPrestatGet, FdPrestatDirName, FdDatasync, FdPread, FdPwrite, FdSeek, FdTell]
    + [FdFdstatGet, FdFdstatSetFlags, FdFdstatSetRights, FdAdvise, PathCreateDirectory, PathLink]
    + [PathOpen, FdReaddir, PathReadlink, PathRename, FdFilestatGet, FdFilestatSetTimes]
    + [FdFilestatSetSize, PathFilestatGet, PathFilestatSetTimes, PathSymlink, PathUnlinkFile, PathRemoveDirectory]
    // "want to remove from WASI"
    + [ProcRaise]

  /** Where each syscall stands in `RegistrationOrder`. */
  function RegistrationIndex(op: Op): nat {
    match op
    case ArgsGet => 0 case ArgsSizesGet => 1 case EnvironGet => 2 case EnvironSizesGet => 3
    case FdAllocate => 4 case ClockResGet => 5 case ClockTimeGet => 6 case FdClose => 7
    case FdRead => 8 case FdRenumber => 9 case FdSync => 10 case FdWrite => 11 case PollOneoff => 12
    case ProcExit => 13 case RandomGet => 14 case SchedYield => 15 case SockRecv => 16
    case SockSend => 17 case SockShutdown => 18 case FdPrestatGet => 19 case FdPrestatDirName => 20
    case FdDatasync => 21 case FdPread => 22 case FdPwrite => 23 case FdSeek => 24 case FdTell => 25
    case FdFdstatGet => 26 case FdFdstatSetFlags => 27 case FdFdstatSetRights => 28
    case FdAdvise => 29 case PathCreateDirectory => 30 case PathLink => 31 case PathOpen => 32
    case FdReaddir => 33 case PathReadlink => 34 case PathRename => 35 case FdFilestatGet => 36
    case FdFilestatSetTimes => 37 case FdFilestatSetSize => 38 case PathFilestatGet => 39
    case PathFilestatSetTimes => 40 case PathSymlink => 41 case PathUnlinkFile => 42
    case PathRemoveDirectory => 43 case ProcRaise => 44
  }

  predicate Distinct(ops: seq<Op>) {
    forall i, j :: 0 <= i < j < |ops| ==> ops[i] != ops[j]
  }

  /** Each syscall sits at its registration index. */
  lemma EveryOpRegistered(op: Op)
    ensures RegistrationIndex(op) < |RegistrationOrder| && RegistrationOrder[RegistrationIndex(op)] == op
  {
    match op
    case ArgsGet | ArgsSizesGet | EnvironGet | EnvironSizesGet | FdAllocate
      => UnknownRegistered(op);
    case ClockResGet | ClockTimeGet | FdClose | FdRead | FdRenumber | FdSync | FdWrite
      => NeededLowRegistered(op);
    case PollOneoff | ProcExit | RandomGet | SchedYield | SockRecv | SockSend | SockShutdown
      => NeededHighRegistered(op);
    case FdPrestatGet | FdPrestatDirName | FdDatasync | FdPread | FdPwrite | FdSeek | FdTell
      => Fs1Registered(op);
    case FdFdstatGet | FdFdstatSetFlags | FdFdstatSetRights | FdAdvise | PathCreateDirectory |
      PathLink
      => Fs2Registered(op);
    case PathOpen | FdReaddir | PathReadlink | PathRename | FdFilestatGet | FdFilestatSetTimes
      => Fs3Registered(op);
    case FdFilestatSetSize | PathFilestatGet | PathFilestatSetTimes | PathSymlink | PathUnlinkFile |
      PathRemoveDirectory
      => Fs4Registered(op);
    case ProcRaise
      => RemovalRegistered(op);
  }

  lemma UnknownRegistered(op: Op)
    requires op in {ArgsGet, ArgsSizesGet, EnvironGet, EnvironSizesGet, FdAllocate}
    ensures RegistrationIndex(op) < |RegistrationOrder| && RegistrationOrder[RegistrationIndex(op)] == op
  {
    if op == ArgsGet {
      assert RegistrationOrder[0] == op;
    } else if op == ArgsSizesGet {
      assert RegistrationOrder[1] == op;
    } else if op == EnvironGet {
      assert RegistrationOrder[2] == op;
    } else if op == EnvironSizesGet {
      assert RegistrationOrder[3] == op;
    } else {
      assert RegistrationOrder[4] == op;
    }
  }

  lemma NeededLowRegistered(op: Op)
    requires op in {ClockResGet, ClockTimeGet, FdClose, FdRead, FdRenumber, FdSync, FdWrite}
    ensures RegistrationIndex(op) < |RegistrationOrder| && RegistrationOrder[RegistrationIndex(op)] == op
  {
    if op == ClockResGet {
      assert RegistrationOrder[5] == op;
    } else if op == ClockTimeGet {
      assert RegistrationOrder[6] == op;
    } else if op == FdClose {
      assert RegistrationOrder[7] == op;
    } else if op == FdRead {
      assert RegistrationOrder[8] == op;
    } else if op == FdRenumber {
      assert RegistrationOrder[9] == op;
    } else if op == FdSync {
      assert RegistrationOrder[10] == op;
    } else {
      assert RegistrationOrder[11] == op;
    }
  }

  lemma NeededHighRegistered(op: Op)
    requires op in {PollOneoff, ProcExit, RandomGet, SchedYield, SockRecv, SockSend, SockShutdown}
    ensures RegistrationIndex(op) < |RegistrationOrder| && RegistrationOrder[RegistrationIndex(op)] == op
  {
    if op == PollOneoff {
      assert RegistrationOrder[12] == op;
    } else if op == ProcExit {
      assert RegistrationOrder[13] == op;
    } else if op == RandomGet {
      assert RegistrationOrder[14] == op;
    } else if op == SchedYield {
      assert RegistrationOrder[15] == op;
    } else if op == SockRecv {
      assert RegistrationOrder[16] == op;
    } else if op == SockSend {
      assert RegistrationOrder[17] == op;
    } else {
      assert RegistrationOrder[18] == op;
    }
  }

  lemma Fs1Registered(op: Op)
    requires op in {FdPrestatGet, FdPrestatDirName, FdDatasync, FdPread, FdPwrite, FdSeek, FdTell}
    ensures RegistrationIndex(op) < |RegistrationOrder| && RegistrationOrder[RegistrationIndex(op)] == op
  {
    if op == FdPrestatGet {
      assert RegistrationOrder[19] == op;
    } else if op == FdPrestatDirName {
      assert RegistrationOrder[20] == op;
    } else if op == FdDatasync {
      assert RegistrationOrder[21] == op;
    } else if op == FdPread {
      assert RegistrationOrder[22] == op;
    } else if op == FdPwrite {
      assert RegistrationOrder[23] == op;
    } else if op == FdSeek {
      assert RegistrationOrder[24] == op;
    } else {
      assert RegistrationOrder[25] == op;
    }
  }

  lemma Fs2Registered(op: Op)
    requires op in {FdFdstatGet, FdFdstatSetFlags, FdFdstatSetRights, FdAdvise, PathCreateDirectory,
                PathLink}
    ensures RegistrationIndex(op) < |RegistrationOrder| && RegistrationOrder[RegistrationIndex(op)] == op
  {
    if op == FdFdstatGet {
      assert RegistrationOrder[26] == op;
    } else if op == FdFdstatSetFlags {
      assert RegistrationOrder[27] == op;
    } else if op == FdFdstatSetRights {
      assert RegistrationOrder[28] == op;
    } else if op == FdAdvise {
      assert RegistrationOrder[29] == op;
    } else if op == PathCreateDirectory {
      assert RegistrationOrder[30] == op;
    } else {
      assert RegistrationOrder[31] == op;
    }
  }

  lemma Fs3Registered(op: Op)
    requires op in {PathOpen, FdReaddir, PathReadlink, PathRename, FdFilestatGet, FdFilestatSetTimes}
    ensures RegistrationIndex(op) < |RegistrationOrder| && RegistrationOrder[RegistrationIndex(op)] == op
  {
    if op == PathOpen {
      assert RegistrationOrder[32] == op;
    } else if op == FdReaddir {
      assert RegistrationOrder[33] == op;
    } else if op == PathReadlink {
      assert RegistrationOrder[34] == op;
    } else if op == PathRename {
      assert RegistrationOrder[35] == op;
    } else if op == FdFilestatGet {
      assert RegistrationOrder[36] == op;
    } else {
      assert RegistrationOrder[37] == op;
    }
  }

  lemma Fs4Registered(op: Op)
    requires op in {FdFilestatSetSize, PathFilestatGet, PathFilestatSetTimes, PathSymlink,
                PathUnlinkFile, PathRemoveDirectory}
    ensures RegistrationIndex(op) < |RegistrationOrder| && RegistrationOrder[RegistrationIndex(op)] == op
  {
    if op == FdFilestatSetSize {
      assert RegistrationOrder[38] == op;
    } else if op == PathFilestatGet {
      assert RegistrationOrder[39] == op;
    } else if op == PathFilestatSetTimes {
      assert RegistrationOrder[40] == op;
    } else if op == PathSymlink {
      assert RegistrationOrder[41] == op;
    } else if op == PathUnlinkFile {
      assert RegistrationOrder[42] == op;
    } else {
      assert RegistrationOrder[43] == op;
    }
  }

  lemma RemovalRegistered(op: Op)
    requires op in {ProcRaise}
    ensures RegistrationIndex(op) < |RegistrationOrder| && RegistrationOrder[RegistrationIndex(op)] == op
  {
    assert RegistrationOrder[44] == ProcRaise;
  }

  /** The registration index of the syscall at position `i` is `i`. */
  lemma RegistrationIndexAt(i: nat)
    requires i < |RegistrationOrder|
    ensures RegistrationIndex(RegistrationOrder[i]) == i
  {
    if i < 5 {
      UnknownIndexed(i);
    } else if i < 12 {
      NeededLowIndexed(i);
    } else if i < 19 {
      NeededHighIndexed(i);
    } else if i < 26 {
      Fs1Indexed(i);
    } else if i < 32 {
      Fs2Indexed(i);
    } else if i < 38 {
      Fs3Indexed(i);
    } else if i < 44 {
      Fs4Indexed(i);
    } else {
      RemovalIndexed(i);
    }
  }

  lemma UnknownIndexed(i: nat)
    requires 0 <= i < 5
    ensures i < |RegistrationOrder| && RegistrationIndex(RegistrationOrder[i]) == i
  {
    if i == 0 {
      assert RegistrationOrder[0] == ArgsGet;
    } else if i == 1 {
      assert RegistrationOrder[1] == ArgsSizesGet;
    } else if i == 2 {
      assert RegistrationOrder[2] == EnvironGet;
    } else if i == 3 {
      assert RegistrationOrder[3] == EnvironSizesGet;
    } else {
      assert RegistrationOrder[4] == FdAllocate;
    }
  }

  lemma NeededLowIndexed(i: nat)
    requires 5 <= i < 12
    ensures i < |RegistrationOrder| && RegistrationIndex(RegistrationOrder[i]) == i
  {
    if i == 5 {
      assert RegistrationOrder[5] == ClockResGet;
    } else if i == 6 {
      assert RegistrationOrder[6] == ClockTimeGet;
    } else if i == 7 {
      assert RegistrationOrder[7] == FdClose;
    } else if i == 8 {
      assert RegistrationOrder[8] == FdRead;
    } else if i == 9 {
      assert RegistrationOrder[9] == FdRenumber;
    } else if i == 10 {
      assert RegistrationOrder[10] == FdSync;
    } else {
      assert RegistrationOrder[11] == FdWrite;
    }
  }

  lemma NeededHighIndexed(i: nat)
    requires 12 <= i < 19
    ensures i < |RegistrationOrder| && RegistrationIndex(RegistrationOrder[i]) == i
  {
    if i == 12 {
      assert RegistrationOrder[12] == PollOneoff;
    } else if i == 13 {
      assert RegistrationOrder[13] == ProcExit;
    } else if i == 14 {
      assert RegistrationOrder[14] == RandomGet;
    } else if i == 15 {
      assert RegistrationOrder[15] == SchedYield;
    } else if i == 16 {
      assert RegistrationOrder[16] == SockRecv;
    } else if i == 17 {
      assert RegistrationOrder[17] == SockSend;
    } else {
      assert RegistrationOrder[18] == SockShutdown;
    }
  }

  lemma Fs1Indexed(i: nat)
    requires 19 <= i < 26
    ensures i < |RegistrationOrder| && RegistrationIndex(RegistrationOrder[i]) == i
  {
    if i == 19 {
      assert RegistrationOrder[19] == FdPrestatGet;
    } else if i == 20 {
      assert RegistrationOrder[20] == FdPrestatDirName;
    } else if i == 21 {
      assert RegistrationOrder[21] == FdDatasync;
    } else if i == 22 {
      assert RegistrationOrder[22] == FdPread;
    } else if i == 23 {
      assert RegistrationOrder[23] == FdPwrite;
    } else if i == 24 {
      assert RegistrationOrder[24] == FdSeek;
    } else {
      assert RegistrationOrder[25] == FdTell;
    }
  }

  lemma Fs2Indexed(i: nat)
    requires 26 <= i < 32
    ensures i < |RegistrationOrder| && RegistrationIndex(RegistrationOrder[i]) == i
  {
    if i == 26 {
      assert RegistrationOrder[26] == FdFdstatGet;
    } else if i == 27 {
      assert RegistrationOrder[27] == FdFdstatSetFlags;
    } else if i == 28 {
      assert RegistrationOrder[28] == FdFdstatSetRights;
    } else if i == 29 {
      assert RegistrationOrder[29] == FdAdvise;
    } else if i == 30 {
      assert RegistrationOrder[30] == PathCreateDirectory;
    } else {
      assert RegistrationOrder[31] == PathLink;
    }
  }

  lemma Fs3Indexed(i: nat)
    requires 32 <= i < 38
    ensures i < |RegistrationOrder| && RegistrationIndex(RegistrationOrder[i]) == i
  {
    if i == 32 {
      assert RegistrationOrder[32] == PathOpen;
    } else if i == 33 {
      assert RegistrationOrder[33] == FdReaddir;
    } else if i == 34 {
      assert RegistrationOrder[34] == PathReadlink;
    } else if i == 35 {
      assert RegistrationOrder[35] == PathRename;
    } else if i == 36 {
      assert RegistrationOrder[36] == FdFilestatGet;
    } else {
      assert RegistrationOrder[37] == FdFilestatSetTimes;
    }
  }

  lemma Fs4Indexed(i: nat)
    requires 38 <= i < 44
    ensures i < |RegistrationOrder| && RegistrationIndex(RegistrationOrder[i]) == i
  {
    if i == 38 {
      assert RegistrationOrder[38] == FdFilestatSetSize;
    } else if i == 39 {
      assert RegistrationOrder[39] == PathFilestatGet;
    } else if i == 40 {
      assert RegistrationOrder[40] == PathFilestatSetTimes;
    } else if i == 41 {
      assert RegistrationOrder[41] == PathSymlink;
    } else if i == 42 {
      assert RegistrationOrder[42] == PathUnlinkFile;
    } else {
      assert RegistrationOrder[43] == PathRemoveDirectory;
    }
  }

  lemma RemovalIndexed(i: nat)
    requires 44 <= i < 45
    ensures i < |RegistrationOrder| && RegistrationIndex(RegistrationOrder[i]) == i
  {
    assert RegistrationOrder[44] == ProcRaise;
  }

  /** Every syscall the syscalls module defines is registered, and none twice. */
  lemma AllRegisteredOnce()
    ensures |RegistrationOrder| == 45
    ensures forall op: Op :: op in RegistrationOrder
    ensures Distinct(RegistrationOrder)
  {
    forall op: Op ensures op in RegistrationOrder {
      EveryOpRegistered(op);
    }
    forall i, j | 0 <= i < j < |RegistrationOrder| ensures RegistrationOrder[i] != RegistrationOrder[j] {
      RegistrationIndexAt(i);
      RegistrationIndexAt(j);
    }
  }

  // ---------------------------------------------------------------------------
  // The module definition the `signature!` macro grows.

  /** The host's default calling convention (`CallConv::triple_default(&HOST)`),
      taken as a parameter. */
  datatype CallConv = CallConv(id: nat)

  /** An `ir::Signature`: parameter and return word types and a calling convention. */
  datatype Signature = Signature(params: seq<Codegen.Type>, results: seq<Codegen.Type>, callConv: CallConv)

  /** A module export; the bridge only exports functions, by function index. */
  datatype ModuleExport = FunctionIndexExport(func: nat)

  /** A `Module` as a value: its signature, function and export tables. */
  datatype ModuleDef = ModuleDef(signatures: seq<Signature>, functions: seq<nat>, exports: map<string, ModuleExport>)

  /** The module definition together with `finished_functions`, whose entry `i`
      is the shim (named by its syscall) behind function `i`. */
  datatype Assembly = Assembly(definition: ModuleDef, finished: seq<Op>)

  /** The signature `signature!` pushes for a syscall. */
  function SignatureOf(op: Op, cc: CallConv): Signature {
    Signature(Params(op), Results(op), cc)
  }

  /** One `signature!(op)`: push the signature, push a function using it, export
      that function as `prefix + name`, push the shim. */
  function Register(a: Assembly, prefix: string, cc: CallConv, op: Op): Assembly {
    var sig := |a.definition.signatures|;
    var func := |a.definition.functions|;
    Assembly(
      ModuleDef(a.definition.signatures + [SignatureOf(op, cc)],
                a.definition.functions + [sig],
                a.definition.exports[prefix + Name(op) := FunctionIndexExport(func)]),
      a.finished + [op])
  }

  /** The registrations of `ops`, in order, starting from an empty module. */
  function RegisterAll(prefix: string, cc: CallConv, ops: seq<Op>): Assembly {
    if ops == [] then Assembly(ModuleDef([], [], map[]), [])
    else Register(RegisterAll(prefix, cc, ops[..|ops| - 1]), prefix, cc, ops[|ops| - 1])
  }

  /** The four tables stay index-aligned: function `i` uses signature `i`, which
      is the signature of the syscall whose shim is entry `i`. */
  predicate Aligned(a: Assembly, cc: CallConv) {
    && |a.definition.signatures| == |a.definition.functions| == |a.finished|
    && (forall i :: 0 <= i < |a.finished| ==>
          a.definition.functions[i] == i && a.definition.signatures[i] == SignatureOf(a.finished[i], cc))
  }

  lemma PrefixedNameInjective(prefix: string, a: Op, b: Op)
    ensures prefix + Name(a) == prefix + Name(b) ==> a == b
  {
    if prefix + Name(a) == prefix + Name(b) {
      assert Name(a) == (prefix + Name(a))[|prefix|..];
      assert Name(b) == (prefix + Name(b))[|prefix|..];
      NameInjective(a, b);
    }
  }

  /** The export names of the syscalls in `ops`. */
  function ExportNames(prefix: string, ops: seq<Op>): set<string> {
    if ops == [] then {} else ExportNames(prefix, ops[..|ops| - 1]) + {prefix + Name(ops[|ops| - 1])}
  }

  lemma {:induction false} ExportNamesMembers(prefix: string, ops: seq<Op>, name: string)
    ensures name in ExportNames(prefix, ops) <==> exists i :: 0 <= i < |ops| && name == prefix + Name(ops[i])
  {
    if name in ExportNames(prefix, ops) {
      var i := ExportNameIndex(prefix, ops, name);
    }
    if i :| 0 <= i < |ops| && name == prefix + Name(ops[i]) {
      IndexedExportName(prefix, ops, i);
    }
  }

  /** Each name in `ExportNames` is the export name of some syscall of `ops`. */
  lemma {:induction false} ExportNameIndex(prefix: string, ops: seq<Op>, name: string) returns (i: nat)
    requires name in ExportNames(prefix, ops)
    ensures i < |ops| && name == prefix + Name(ops[i])
  {
    var init := ops[..|ops| - 1];
    if name == prefix + Name(ops[|ops| - 1]) {
      i := |ops| - 1;
    } else {
      i := ExportNameIndex(prefix, init, name);
      assert ops[i] == init[i];
    }
  }

  /** The export name of each syscall of `ops` is in `ExportNames`. */
  lemma {:induction false} IndexedExportName(prefix: string, ops: seq<Op>, i: nat)
    requires i < |ops|
    ensures prefix + Name(ops[i]) in ExportNames(prefix, ops)
  {
    var init := ops[..|ops| - 1];
    if i < |init| {
      IndexedExportName(prefix, init, i);
      assert ops[i] == init[i];
    }
  }

  /** One registration keeps the tables aligned and adds its export name. */
  lemma RegisterKeepsAligned(a: Assembly, prefix: string, cc: CallConv, op: Op)
    requires Aligned(a, cc)
    ensures var a' := Register(a, prefix, cc, op);
            && Aligned(a', cc) && a'.finished == a.finished + [op]
            && a'.definition.exports.Keys == a.definition.exports.Keys + {prefix + Name(op)}
  {
  }

  /** Registering `ops` pushes one entry per syscall onto each table, keeps the
      tables aligned, and exports exactly the names `prefix + name`. */
  lemma {:induction false} RegisterAllAligned(prefix: string, cc: CallConv, ops: seq<Op>)
    ensures var a := RegisterAll(prefix, cc, ops);
            && a.finished == ops
            && Aligned(a, cc)
            && a.definition.exports.Keys == ExportNames(prefix, ops)
  {
    if ops != [] {
      var init := ops[..|ops| - 1];
      RegisterAllAligned(prefix, cc, init);
      RegisterKeepsAligned(RegisterAll(prefix, cc, init), prefix, cc, ops[|ops| - 1]);
    }
  }

  /** The export table has one entry per key, and the `i`-th key exports
      function `i`. */
  predicate NumberedExports(e: map<string, ModuleExport>, keys: seq<string>) {
    && |e| == |keys|
    && forall i :: 0 <= i < |keys| ==> keys[i] in e && e[keys[i]] == FunctionIndexExport(i)
  }

  /** Adding a fresh key as export number `|keys|` extends an export table whose
      entries are exactly `keys`, numbered in order. */
  lemma ExportsStep(e: map<string, ModuleExport>, keys: seq<string>, key: string)
    requires NumberedExports(e, keys)
    requires key !in e
    ensures NumberedExports(e[key := FunctionIndexExport(|keys|)], keys + [key])
  {
    var e', keys' := e[key := FunctionIndexExport(|keys|)], keys + [key];
    forall i | 0 <= i < |keys'| ensures keys'[i] in e' && e'[keys'[i]] == FunctionIndexExport(i) {
      if i < |keys| {
        assert keys'[i] == keys[i];
      }
    }
  }

  /** A syscall not yet registered brings an export name not yet taken. */
  lemma FreshExportName(prefix: string, ops: seq<Op>, op: Op)
    requires op !in ops
    ensures prefix + Name(op) !in ExportNames(prefix, ops)
  {
    var key := prefix + Name(op);
    ExportNamesMembers(prefix, ops, key);
    forall i | 0 <= i < |ops| ensures prefix + Name(ops[i]) != key {
      PrefixedNameInjective(prefix, ops[i], op);
    }
  }

  /** The export names of `ops`, in registration order. */
  function ExportKeys(prefix: string, ops: seq<Op>): (keys: seq<string>)
    ensures |keys| == |ops| && forall i :: 0 <= i < |ops| ==> keys[i] == prefix + Name(ops[i])
  {
    seq(|ops|, i requires 0 <= i < |ops| => prefix + Name(ops[i]))
  }

  /** When the syscalls are distinct, each export `prefix + name` leads to the
      function (and shim) pushed for that syscall, and there is one export per
      syscall. */
  lemma {:induction false} RegisterAllExports(prefix: string, cc: CallConv, ops: seq<Op>)
    requires Distinct(ops)
    ensures NumberedExports(RegisterAll(prefix, cc, ops).definition.exports, ExportKeys(prefix, ops))
  {
    if ops != [] {
      var init := ops[..|ops| - 1];
      var op := ops[|ops| - 1];
      var key := prefix + Name(op);
      DistinctInit(ops);
      RegisterAllExports(prefix, cc, init);
      RegisteredBefore(prefix, cc, init, op);
      var keys := ExportKeys(prefix, init);
      assert ExportKeys(prefix, ops) == keys + [key];
      ExportsStep(RegisterAll(prefix, cc, init).definition.exports, keys, key);
    }
  }

  /** What a registration needs of the module before it: as many functions as
      syscalls registered, and its export name still free. */
  lemma RegisteredBefore(prefix: string, cc: CallConv, init: seq<Op>, op: Op)
    requires op !in init
    ensures var b := RegisterAll(prefix, cc, init);
            && |b.definition.functions| == |init|
            && prefix + Name(op) !in b.definition.exports
  {
    RegisterAllAligned(prefix, cc, init);
    FreshExportName(prefix, init, op);
  }

  /** Dropping the last syscall keeps the rest distinct, and the last one is
      not among them. */
  lemma DistinctInit(ops: seq<Op>)
    requires Distinct(ops) && ops != []
    ensures Distinct(ops[..|ops| - 1]) && ops[|ops| - 1] !in ops[..|ops| - 1]
  {
  }

  /** Looking up a registered syscall's export: it names the function pushed for
      that syscall, whose signature and shim are that syscall's. */
  lemma RegisteredLookup(prefix: string, cc: CallConv, ops: seq<Op>, i: nat)
    requires Distinct(ops) && i < |ops|
    ensures var a, key := RegisterAll(prefix, cc, ops), prefix + Name(ops[i]);
            && key in a.definition.exports
            && var k := a.definition.exports[key].func;
               k == i && k < |a.finished| && a.finished[k] == ops[i]
               && |a.definition.functions| == |a.definition.signatures| == |a.finished|
               && a.definition.functions[k] == k
               && a.definition.signatures[a.definition.functions[k]] == SignatureOf(ops[i], cc)
  {
    RegisterAllAligned(prefix, cc, ops);
    RegisterAllExports(prefix, cc, ops);
    assert ExportKeys(prefix, ops)[i] == prefix + Name(ops[i]);
  }

  /** Every export of a registration of `ops` belongs to one of them. */
  lemma ExportsAreRegistered(prefix: string, cc: CallConv, ops: seq<Op>, name: string)
    requires name in RegisterAll(prefix, cc, ops).definition.exports
    ensures exists i :: 0 <= i < |ops| && name == prefix + Name(ops[i])
  {
    RegisterAllAligned(prefix, cc, ops);
    ExportNamesMembers(prefix, ops, name);
  }

  /** The finished synthetic module: 45 functions, 45 signatures and 45 shims,
      index-aligned, and 45 exports; the export `prefix + name` of every syscall
      leads to a function whose signature is that syscall's `params()` and
      `results()` and whose shim is that syscall's. */
  lemma WasiModuleShape(prefix: string, cc: CallConv)
    ensures var a := RegisterAll(prefix, cc, RegistrationOrder);
            && |a.finished| == 45 && Aligned(a, cc)
            && |a.definition.exports| == 45
            && (forall name :: name in a.definition.exports <==> exists op: Op :: name == prefix + Name(op))
            && (forall op: Op :: prefix + Name(op) in a.definition.exports
                  && var k := a.definition.exports[prefix + Name(op)].func;
                     k < 45 && a.finished[k] == op
                     && a.definition.signatures[a.definition.functions[k]] == SignatureOf(op, cc))
  {
    var ops := RegistrationOrder;
    AllRegisteredOnce();
    RegisterAllAligned(prefix, cc, ops);
    RegisterAllExports(prefix, cc, ops);
    var a := RegisterAll(prefix, cc, ops);
    forall op: Op ensures prefix + Name(op) in a.definition.exports
                          && var k := a.definition.exports[prefix + Name(op)].func;
                             k < 45 && a.finished[k] == op
                             && a.definition.signatures[a.definition.functions[k]] == SignatureOf(op, cc)
    {
      EveryOpRegistered(op);
      RegisteredLookup(prefix, cc, ops, RegistrationIndex(op));
    }
    forall name ensures name in a.definition.exports <==> exists op: Op :: name == prefix + Name(op) {
      if name in a.definition.exports {
        ExportsAreRegistered(prefix, cc, ops, name);
      }
    }
  }

  /** `cranelift`'s `Module`, grown in place by the registrations. */
  class Module {
    var signatures: seq<Signature>
    var functions: seq<nat>
    var exports: map<string, ModuleExport>

    /** `Module::new()`: every table empty. */
    constructor ()
      ensures signatures == [] && functions == [] && exports == map[]
    {
      signatures := [];
      functions := [];
      exports := map[];
    }

    function Def(): ModuleDef
      reads this
    {
      ModuleDef(signatures, functions, exports)
    }

    /** The body of `signature!(op)`; `finished` is `finished_functions`. */
    method RegisterSignature(finished: seq<Op>, prefix: string, cc: CallConv, op: Op)
      returns (finished': seq<Op>)
      modifies this
      ensures Assembly(Def(), finished') == Register(Assembly(old(Def()), finished), prefix, cc, op)
    {
      var sig := |signatures|;
      signatures := signatures + [SignatureOf(op, cc)];
      var func := |functions|;
      functions := functions + [sig];
      exports := exports[prefix + Name(op) := FunctionIndexExport(func)];
      finished' := finished + [op];
    }
  }

  // ---------------------------------------------------------------------------
  // The WASI context.

  /** `InstantiationError`. The bridge itself raises only `Resource`; the other
      variants can come back from the instance constructor. */
  datatype InstantiationError = Resource(message: string) | Link(message: string) | StartTrap(message: string)

  const ContextMessage := "couldn't assemble WASI context object: "
  const CloneMessage := "couldn't clone an instance handle to pre-opened dir: "

  /** How the library and the OS answer the fallible steps, each with the error
      text it fails with: `WasiCtxBuilder::new`, `inherit_stdio`, `args`, `envs`,
      `build`, `File::try_clone` for each handle, and `InstanceHandle::new`. */
  datatype Environment = Environment(
    newError: Option<string>,
    inheritStdioError: Option<string>,
    argsError: Option<string>,
    envsError: Option<string>,
    buildError: Option<string>,
    tryClone: File -> Result<File, string>,
    instanceError: Option<InstantiationError>)

  /** The builder chain before the pre-opened directories:
      `new().and_then(inherit_stdio).and_then(args).and_then(envs)`, the first
      failure winning. */
  function BaseBuilder(argv: seq<string>, environ: seq<(string, string)>, env: Environment)
    : (r: Result<WasiCtxBuilder, string>)
    ensures r.Ok? <==> env.newError.None? && env.inheritStdioError.None?
                       && env.argsError.None? && env.envsError.None?
    ensures r.Ok? ==> r.value == WasiCtxBuilder(true, argv, environ, [])
    ensures r.Err? ==> r.error == (if env.newError.Some? then env.newError.value
                                   else if env.inheritStdioError.Some? then env.inheritStdioError.value
                                   else if env.argsError.Some? then env.argsError.value
                                   else env.envsError.value)
  {
    if env.newError.Some? then Err(env.newError.value)
    else
      var b := WasiCtxBuilder(false, [], [], []);
      if env.inheritStdioError.Some? then Err(env.inheritStdioError.value)
      else
        var b := b.(inheritsStdio := true);
        if env.argsError.Some? then Err(env.argsError.value)
        else
          var b := b.(args := argv);
          if env.envsError.Some? then Err(env.envsError.value)
          else Ok(b.(env := environ))
  }

  /** The handles the pre-opened-dir loop clones, each with its guest path, in
      order; or the error of the first clone that fails. */
  function ClonePreopens(dirs: seq<(string, File)>, tryClone: File -> Result<File, string>)
    : Result<seq<(File, string)>, string>
  {
    if dirs == [] then Ok([])
    else
      match ClonePreopens(dirs[..|dirs| - 1], tryClone)
      case Err(e) => Err(e)
      case Ok(done) =>
        match tryClone(dirs[|dirs| - 1].1)
        case Err(e) => Err(e)
        case Ok(f) => Ok(done + [(f, dirs[|dirs| - 1].0)])
  }

  /** The loop succeeds exactly when every clone does; it then registers the
      clone of each handle under its guest path, in the given order, duplicate
      paths included. */
  lemma {:induction false} ClonePreopensOk(dirs: seq<(string, File)>, tryClone: File -> Result<File, string>)
    ensures ClonePreopens(dirs, tryClone).Ok? <==> forall i :: 0 <= i < |dirs| ==> tryClone(dirs[i].1).Ok?
    ensures var r := ClonePreopens(dirs, tryClone);
            r.Ok? ==> |r.value| == |dirs|
                      && forall i :: 0 <= i < |dirs| ==> r.value[i] == (tryClone(dirs[i].1).value, dirs[i].0)
  {
    if dirs != [] {
      var init := dirs[..|dirs| - 1];
      ClonePreopensOk(init, tryClone);
      forall i | 0 <= i < |init| ensures init[i] == dirs[i] { }
    }
  }

  /** The loop stops at the first clone that fails and reports that clone's error. */
  lemma {:induction false} ClonePreopensFirstFailure(dirs: seq<(string, File)>,
                                                      tryClone: File -> Result<File, string>, k: nat)
    requires k < |dirs| && tryClone(dirs[k].1).Err?
    requires forall i :: 0 <= i < k ==> tryClone(dirs[i].1).Ok?
    ensures ClonePreopens(dirs, tryClone) == Err(tryClone(dirs[k].1).error)
  {
    var init := dirs[..|dirs| - 1];
    if k < |dirs| - 1 {
      ClonePreopensFirstFailure(init, tryClone, k);
    } else {
      ClonePreopensOk(init, tryClone);
      forall i | 0 <= i < |init| ensures init[i] == dirs[i] { }
    }
  }

  /** The whole context build, with each failure turned into a `Resource` error. */
  function BuildContext(argv: seq<string>, environ: seq<(string, string)>,
                        dirs: seq<(string, File)>, env: Environment)
    : Result<WasiCtx, InstantiationError>
  {
    match BaseBuilder(argv, environ, env)
    case Err(e) => Err(Resource(ContextMessage + e))
    case Ok(b) =>
      match ClonePreopens(dirs, env.tryClone)
      case Err(e) => Err(Resource(CloneMessage + e))
      case Ok(preopens) =>
        if env.buildError.Some? then Err(Resource(ContextMessage + env.buildError.value))
        else Ok(WasiCtx(b.inheritsStdio, b.args, b.env, b.preopens + preopens))
  }

  /** A context is built exactly when every step and every clone succeeds; it
      then inherits the standard streams and holds the arguments and the
      environment as given and each pre-opened handle's clone under its path. */
  lemma BuildContextOk(argv: seq<string>, environ: seq<(string, string)>,
                       dirs: seq<(string, File)>, env: Environment)
    ensures BuildContext(argv, environ, dirs, env).Ok? <==>
            && env.newError.None? && env.inheritStdioError.None? && env.argsError.None?
            && env.envsError.None? && env.buildError.None?
            && forall i :: 0 <= i < |dirs| ==> env.tryClone(dirs[i].1).Ok?
    ensures var r := BuildContext(argv, environ, dirs, env);
            r.Ok? ==> && r.value.inheritsStdio && r.value.args == argv && r.value.env == environ
                      && |r.value.preopens| == |dirs|
                      && forall i :: 0 <= i < |dirs| ==>
                           r.value.preopens[i] == (env.tryClone(dirs[i].1).value, dirs[i].0)
  {
    ClonePreopensOk(dirs, env.tryClone);
  }

  /** Every failure is a `Resource` error with the message of its step. */
  lemma BuildContextErrors(argv: seq<string>, environ: seq<(string, string)>,
                           dirs: seq<(string, File)>, env: Environment)
    ensures var r := BuildContext(argv, environ, dirs, env);
            && (BaseBuilder(argv, environ, env).Err? ==>
                  r == Err(Resource(ContextMessage + BaseBuilder(argv, environ, env).error)))
            && (BaseBuilder(argv, environ, env).Ok? && ClonePreopens(dirs, env.tryClone).Err? ==>
                  r == Err(Resource(CloneMessage + ClonePreopens(dirs, env.tryClone).error)))
            && (BaseBuilder(argv, environ, env).Ok? && ClonePreopens(dirs, env.tryClone).Ok?
                && env.buildError.Some? ==>
                  r == Err(Resource(ContextMessage + env.buildError.value)))
  {
  }

  // ---------------------------------------------------------------------------
  // The instance.

  /** An import of the instance; the bridge passes `Imports::none()`. */
  datatype Import = Import(moduleName: string, field: string)

  /** A data initializer of the instance; the bridge passes none. */
  datatype DataInitializer = DataInitializer(memoryIndex: nat, offset: nat, data: seq<bv8>)

  /** What `InstanceHandle::new` is given: the module, the shared global
      exports, the shims, the imports, the data initializers, the shared
      signature table, and the host state. */
  datatype InstanceHandle = InstanceHandle(
    definition: ModuleDef,
    globalExports: GlobalExports,
    finishedFunctions: seq<Op>,
    imports: seq<Import>,
    dataInitializers: seq<DataInitializer>,
    vmSignatures: seq<Signature>,
    hostState: HostState)

  /** What `instantiate_wasi` returns: the finished module and its shims, the
      shared global exports, no imports, no data initializers, an empty signature
      table and the context as host state; or the first error. */
  function Instantiated(prefix: string, cc: CallConv, globalExports: GlobalExports,
                        dirs: seq<(string, File)>, argv: seq<string>,
                        environ: seq<(string, string)>, env: Environment)
    : Result<InstanceHandle, InstantiationError>
  {
    match BuildContext(argv, environ, dirs, env)
    case Err(e) => Err(e)
    case Ok(ctx) =>
      if env.instanceError.Some? then Err(env.instanceError.value)
      else
        var a := RegisterAll(prefix, cc, RegistrationOrder);
        Ok(InstanceHandle(a.definition, globalExports, a.finished, [], [], [], WasiHostState(ctx)))
  }

  /** An instance is created exactly when the context builds and the instance
      constructor accepts it; a context failure is reported before the
      constructor runs. The instance exports every syscall under `prefix + name`
      with its shim, shares the caller's global exports, and carries the built
      context as its host state, which the bodies then resolve. */
  lemma InstantiatedShape(prefix: string, cc: CallConv, globalExports: GlobalExports,
                          dirs: seq<(string, File)>, argv: seq<string>,
                          environ: seq<(string, string)>, env: Environment)
    ensures var r, c := Instantiated(prefix, cc, globalExports, dirs, argv, environ, env),
                        BuildContext(argv, environ, dirs, env);
            && (r.Ok? <==> c.Ok? && env.instanceError.None?)
            && (c.Err? ==> r == Err(c.error))
            && (c.Ok? && env.instanceError.Some? ==> r == Err(env.instanceError.value))
            && (r.Ok? ==>
                  && r.value.globalExports == globalExports
                  && r.value.imports == [] && r.value.dataInitializers == [] && r.value.vmSignatures == []
                  && GetWasiCtx(r.value.hostState) == Ok(c.value)
                  && c.value.args == argv && c.value.env == environ && c.value.inheritsStdio
                  && |r.value.finishedFunctions| == 45
                  && forall op: Op :: prefix + Name(op) in r.value.definition.exports
                       && var k := r.value.definition.exports[prefix + Name(op)].func;
                          k < 45 && r.value.finishedFunctions[k] == op)
  {
    BuildContextOk(argv, environ, dirs, env);
    WasiModuleShape(prefix, cc);
  }

  /** A wired body that needs the context, run on an instance built here, lends
      the host exactly the context built from `argv`, `environ` and the
      pre-opened directories; the memory has to resolve only for the bodies that
      also need it, so `fd_close`, `fd_renumber`, `fd_sync` and `fd_allocate` do
      so on an instance with no "memory" export too. */
  lemma InstanceLendsBuiltContext(prefix: string, cc: CallConv, globalExports: GlobalExports,
                                  dirs: seq<(string, File)>, argv: seq<string>,
                                  environ: seq<(string, string)>, env: Environment,
                                  op: Op, args: seq<int>, host: HostFn)
    requires Instantiated(prefix, cc, globalExports, dirs, argv, environ, env).Ok?
    requires WiringOf(op).Wired? && WiringOf(op).needsCtx
    requires WiringOf(op).needsMemory ==> GetMemory(globalExports).Ok?
    requires ArgsFit(ParamsOf(op), args)
    requires SlicesKeepLength(host)
    ensures var h := Instantiated(prefix, cc, globalExports, dirs, argv, environ, env).value;
            var r := Trampoline(op, Syscalls.Instance(h.hostState, h.globalExports), args, host);
            && r.call.Some? && r.call.value.ctx == Some(BuildContext(argv, environ, dirs, env).value)
            && r.call.value.ctx.value.args == argv && r.call.value.ctx.value.env == environ
  {
    var h := Instantiated(prefix, cc, globalExports, dirs, argv, environ, env).value;
    BuildContextOk(argv, environ, dirs, env);
    ResolvedCallsHost(op, Syscalls.Instance(h.hostState, h.globalExports), args, host);
  }

  /** The 45 `signature!` invocations, in their order, on a fresh module. */
  method AssembleModule(prefix: string, cc: CallConv) returns (m: Module, finished: seq<Op>)
    ensures fresh(m)
    ensures Assembly(m.Def(), finished) == RegisterAll(prefix, cc, RegistrationOrder)
  {
    m := new Module();
    finished := [];
    var ops := RegistrationOrder;
    for i := 0 to |ops|
      invariant Assembly(m.Def(), finished) == RegisterAll(prefix, cc, ops[..i])
    {
      RegisterAllSnoc(prefix, cc, ops, i);
      finished := m.RegisterSignature(finished, prefix, cc, ops[i]);
    }
    assert ops[..|ops|] == ops;
  }

  /** Registering one more syscall of `ops` is one more `Register`. */
  lemma RegisterAllSnoc(prefix: string, cc: CallConv, ops: seq<Op>, i: nat)
    requires i < |ops|
    ensures RegisterAll(prefix, cc, ops[..i + 1]) == Register(RegisterAll(prefix, cc, ops[..i]), prefix, cc, ops[i])
  {
    assert ops[..i + 1][..i] == ops[..i];
  }

  /** The builder chain, the pre-opened-dir loop and `build()`, each failure
      leaving early with its `Resource` error. */
  method AssembleContext(argv: seq<string>, environ: seq<(string, string)>,
                         preopenedDirs: seq<(string, File)>, env: Environment)
    returns (r: Result<WasiCtx, InstantiationError>)
    ensures r == BuildContext(argv, environ, preopenedDirs, env)
  {
    var base := BaseBuilder(argv, environ, env);
    if base.Err? {
      return Err(Resource(ContextMessage + base.error));
    }
    var builder := base.value;
    for i := 0 to |preopenedDirs|
      invariant ClonePreopens(preopenedDirs[..i], env.tryClone).Ok?
      invariant builder == base.value.(preopens := ClonePreopens(preopenedDirs[..i], env.tryClone).value)
    {
      assert preopenedDirs[..i + 1][..i] == preopenedDirs[..i];
      var (dir, f) := preopenedDirs[i];
      var clone := env.tryClone(f);
      if clone.Err? {
        assert ClonePreopens(preopenedDirs[..i + 1], env.tryClone) == Err(clone.error);
        ClonePreopensPrefixErr(preopenedDirs, i + 1, env.tryClone);
        return Err(Resource(CloneMessage + clone.error));
      }
      builder := builder.PreopenedDir(clone.value, dir);
    }
    assert preopenedDirs[..|preopenedDirs|] == preopenedDirs;

    if env.buildError.Some? {
      return Err(Resource(ContextMessage + env.buildError.value));
    }
    assert base.value.preopens == [];
    assert builder.preopens == base.value.preopens + ClonePreopens(preopenedDirs, env.tryClone).value;
    r := Ok(WasiCtx(builder.inheritsStdio, builder.args, builder.env, builder.preopens));
  }

  /** `instantiate_wasi`: register the 45 syscalls, build the context, and hand
      both to the instance constructor; a context failure creates no instance. */
  method InstantiateWasi(prefix: string, cc: CallConv, globalExports: GlobalExports,
                         preopenedDirs: seq<(string, File)>, argv: seq<string>,
                         environ: seq<(string, string)>, env: Environment)
    returns (r: Result<InstanceHandle, InstantiationError>)
    ensures r == Instantiated(prefix, cc, globalExports, preopenedDirs, argv, environ, env)
  {
    var m, finished := AssembleModule(prefix, cc);
    var imports: seq<Import> := [];
    var dataInitializers: seq<DataInitializer> := [];
    var signatures: seq<Signature> := [];

    var wasiCtx := AssembleContext(argv, environ, preopenedDirs, env);
    if wasiCtx.Err? {
      return Err(wasiCtx.error);
    }
    if env.instanceError.Some? {
      return Err(env.instanceError.value);
    }
    r := Ok(InstanceHandle(m.Def(), globalExports, finished, imports, dataInitializers,
                           signatures, WasiHostState(wasiCtx.value)));
  }

  /** Once a prefix of the directories fails to clone, so does the whole list,
      with the same error. */
  lemma {:induction false} ClonePreopensPrefixErr(dirs: seq<(string, File)>, k: nat,
                                                   tryClone: File -> Result<File, string>)
    requires k <= |dirs| && ClonePreopens(dirs[..k], tryClone).Err?
    ensures ClonePreopens(dirs, tryClone) == ClonePreopens(dirs[..k], tryClone)
    decreases |dirs| - k
  {
    if k < |dirs| {
      assert dirs[..k + 1][..k] == dirs[..k];
      ClonePreopensPrefixErr(dirs, k + 1, tryClone);
    } else {
      assert dirs[..k] == dirs;
    }
  }
}
