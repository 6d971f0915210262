/** The per-syscall trampolines of src/syscalls.rs: a descriptor for each of the
    45 `wasi_unstable` functions the `syscalls!` macro defines, the two context
    resolvers, the generated `params()` / `results()` / `shim`, and the bodies,
    which resolve the context and the memory in a fixed order, short-circuit on
    the first failure and hand the rest to a host implementation. */
module Syscalls {
  import opened Wrappers
  import opened Abi
  import opened Wasm32
  import Codegen

  /** One constructor per `pub unsafe extern "C" fn` in the `syscalls!` block,
      in the order the file defines them. */
  datatype Op =
    | ArgsGet | ArgsSizesGet | ClockResGet | ClockTimeGet | EnvironGet | EnvironSizesGet
    | FdPrestatGet | FdPrestatDirName | FdClose | FdDatasync | FdPread | FdPwrite
    | FdRead | FdRenumber | FdSeek | FdTell | FdFdstatGet | FdFdstatSetFlags
    | FdFdstatSetRights | FdSync | FdWrite | FdAdvise | FdAllocate
    | PathCreateDirectory | PathLink | PathOpen | FdReaddir | PathReadlink | PathRename
    | FdFilestatGet | FdFilestatSetTimes | FdFilestatSetSize | PathFilestatGet
    | PathFilestatSetTimes | PathSymlink | PathUnlinkFile | PathRemoveDirectory
    | PollOneoff | ProcExit | ProcRaise | RandomGet | SchedYield
    | SockRecv | SockSend | SockShutdown

  /** How a body is wired: `Enosys` bodies return `__WASI_ENOSYS` and touch
      nothing; `Wired` bodies resolve the context and/or the memory, in that
      order, and then call the host implementation. */
  datatype Wiring = Enosys | Wired(needsCtx: bool, needsMemory: bool)

  // What the `syscalls!` macro knows of each syscall, one function per field of
  // its descriptor: the name, the argument types, the return type, the wiring.

  /** `stringify!($name)`: the name each syscall is defined and exported under. */
  function Name(op: Op): string {
    match op
    case ArgsGet => "args_get"
    case ArgsSizesGet => "args_sizes_get"
    case ClockResGet => "clock_res_get"
    case ClockTimeGet => "clock_time_get"
    case EnvironGet => "environ_get"
    case EnvironSizesGet => "environ_sizes_get"
    case FdPrestatGet => "fd_prestat_get"
    case FdPrestatDirName => "fd_prestat_dir_name"
    case FdClose => "fd_close"
    case FdDatasync => "fd_datasync"
    case FdPread => "fd_pread"
    case FdPwrite => "fd_pwrite"
    case FdRead => "fd_read"
    case FdRenumber => "fd_renumber"
    case FdSeek => "fd_seek"
    case FdTell => "fd_tell"
    case FdFdstatGet => "fd_fdstat_get"
    case FdFdstatSetFlags => "fd_fdstat_set_flags"
    case FdFdstatSetRights => "fd_fdstat_set_rights"
    case FdSync => "fd_sync"
    case FdWrite => "fd_write"
    case FdAdvise => "fd_advise"
    case FdAllocate => "fd_allocate"
    case PathCreateDirectory => "path_create_directory"
    case PathLink => "path_link"
    case PathOpen => "path_open"
    case FdReaddir => "fd_readdir"
    case PathReadlink => "path_readlink"
    case PathRename => "path_rename"
    case FdFilestatGet => "fd_filestat_get"
    case FdFilestatSetTimes => "fd_filestat_set_times"
    case FdFilestatSetSize => "fd_filestat_set_size"
    case PathFilestatGet => "path_filestat_get"
    case PathFilestatSetTimes => "path_filestat_set_times"
    case PathSymlink => "path_symlink"
    case PathUnlinkFile => "path_unlink_file"
    case PathRemoveDirectory => "path_remove_directory"
    case PollOneoff => "poll_oneoff"
    case ProcExit => "proc_exit"
    case ProcRaise => "proc_raise"
    case RandomGet => "random_get"
    case SchedYield => "sched_yield"
    case SockRecv => "sock_recv"
    case SockSend => "sock_send"
    case SockShutdown => "sock_shutdown"
  }

  /** The native types of each syscall's arguments after `vmctx`, in declared order. */
  function ParamsOf(op: Op): seq<NativeTy> {
    match op
    case ArgsGet => [UintptrT, UintptrT]
    case ArgsSizesGet => [UintptrT, UintptrT]
    case ClockResGet => [ClockidT, UintptrT]
    case ClockTimeGet => [ClockidT, TimestampT, UintptrT]
    case EnvironGet => [UintptrT, UintptrT]
    case EnvironSizesGet => [UintptrT, UintptrT]
    case FdPrestatGet => [FdT, UintptrT]
    case FdPrestatDirName => [FdT, UintptrT, SizeT]
    case FdClose => [FdT]
    case FdDatasync => [FdT]
    case FdPread => [FdT, UintptrT, SizeT, FilesizeT, UintptrT]
    case FdPwrite => [FdT, UintptrT, SizeT, FilesizeT, UintptrT]
    case FdRead => [FdT, UintptrT, SizeT, UintptrT]
    case FdRenumber => [FdT, FdT]
    case FdSeek => [FdT, FiledeltaT, WhenceT, UintptrT]
    case FdTell => [FdT, UintptrT]
    case FdFdstatGet => [FdT, UintptrT]
    case FdFdstatSetFlags => [FdT, FdflagsT]
    case FdFdstatSetRights => [FdT, RightsT, RightsT]
    case FdSync => [FdT]
    case FdWrite => [FdT, UintptrT, SizeT, UintptrT]
    case FdAdvise => [FdT, FilesizeT, FilesizeT, AdviceT]
    case FdAllocate => [FdT, FilesizeT, FilesizeT]
    case PathCreateDirectory => [FdT, UintptrT, SizeT]
    case PathLink => [FdT, LookupflagsT, UintptrT, SizeT, FdT, UintptrT, SizeT]
    case PathOpen =>
      [FdT, LookupflagsT, UintptrT, SizeT, OflagsT, RightsT, RightsT, FdflagsT, UintptrT]
    case FdReaddir => [FdT, UintptrT, SizeT, DircookieT, UintptrT]
    case PathReadlink => [FdT, UintptrT, SizeT, UintptrT, SizeT, UintptrT]
    case PathRename => [FdT, UintptrT, SizeT, FdT, UintptrT, SizeT]
    case FdFilestatGet => [FdT, UintptrT]
    case FdFilestatSetTimes => [FdT, TimestampT, TimestampT, FstflagsT]
    case FdFilestatSetSize => [FdT, FilesizeT]
    case PathFilestatGet => [FdT, LookupflagsT, UintptrT, SizeT, UintptrT]
    case PathFilestatSetTimes =>
      [FdT, LookupflagsT, UintptrT, SizeT, TimestampT, TimestampT, FstflagsT]
    case PathSymlink => [UintptrT, SizeT, FdT, UintptrT, SizeT]
    case PathUnlinkFile => [FdT, UintptrT, SizeT]
    case PathRemoveDirectory => [FdT, UintptrT, SizeT]
    case PollOneoff => [UintptrT, UintptrT, SizeT, UintptrT]
    case ProcExit => [U32]
    case ProcRaise => [SignalT]
    case RandomGet => [UintptrT, SizeT]
    case SchedYield => []
    case SockRecv => [FdT, UintptrT, SizeT, RiflagsT, UintptrT, UintptrT]
    case SockSend => [FdT, UintptrT, SizeT, SiflagsT, UintptrT]
    case SockShutdown => [FdT, SdflagsT]
  }

  /** The native return type of each syscall: `__wasi_errno_t`, except `proc_exit`'s `()`. */
  function RetOf(op: Op): RetTy {
    match op
    case ProcExit => Unit
    case _ => Scalar(ErrnoT)
  }

  /** What each body resolves before its host call, read off its body. */
  function WiringOf(op: Op): Wiring {
    match op
    case ArgsGet | ArgsSizesGet | EnvironGet | EnvironSizesGet | FdRead | FdWrite | SockRecv |
      SockSend | SockShutdown
      => Wired(true, true)
    case FdClose | FdRenumber | FdSync | FdAllocate
      => Wired(true, false)
    case ClockResGet | ClockTimeGet | PollOneoff | RandomGet
      => Wired(false, true)
    case ProcExit | SchedYield
      => Wired(false, false)
    case FdPrestatGet | FdPrestatDirName | FdDatasync | FdPread | FdPwrite | FdSeek | FdTell |
      FdFdstatGet | FdFdstatSetFlags | FdFdstatSetRights | FdAdvise | PathCreateDirectory |
      PathLink | PathOpen | FdReaddir | PathReadlink | PathRename | FdFilestatGet |
      FdFilestatSetTimes | FdFilestatSetSize | PathFilestatGet | PathFilestatSetTimes |
      PathSymlink | PathUnlinkFile | PathRemoveDirectory | ProcRaise
      => Enosys
  }

  /** The syscall a name denotes, if any: the inverse of `Name`, looked up by
      length first. */
  function OpNamed(name: string): Option<Op> {
    match |name|
    case 7 =>
      if name == "fd_read" then Some(FdRead)
      else if name == "fd_seek" then Some(FdSeek)
      else if name == "fd_tell" then Some(FdTell)
      else if name == "fd_sync" then Some(FdSync)
      else None
    case 8 =>
      if name == "args_get" then Some(ArgsGet)
      else if name == "fd_close" then Some(FdClose)
      else if name == "fd_pread" then Some(FdPread)
      else if name == "fd_write" then Some(FdWrite)
      else None
    case 9 =>
      if name == "fd_pwrite" then Some(FdPwrite)
      else if name == "fd_advise" then Some(FdAdvise)
      else if name == "path_link" then Some(PathLink)
      else if name == "path_open" then Some(PathOpen)
      else if name == "proc_exit" then Some(ProcExit)
      else if name == "sock_recv" then Some(SockRecv)
      else if name == "sock_send" then Some(SockSend)
      else None
    case 10 =>
      if name == "fd_readdir" then Some(FdReaddir)
      else if name == "proc_raise" then Some(ProcRaise)
      else if name == "random_get" then Some(RandomGet)
      else None
    case 11 =>
      if name == "environ_get" then Some(EnvironGet)
      else if name == "fd_datasync" then Some(FdDatasync)
      else if name == "fd_renumber" then Some(FdRenumber)
      else if name == "fd_allocate" then Some(FdAllocate)
      else if name == "path_rename" then Some(PathRename)
      else if name == "poll_oneoff" then Some(PollOneoff)
      else if name == "sched_yield" then Some(SchedYield)
      else None
    case 12 =>
      if name == "path_symlink" then Some(PathSymlink)
      else None
    case 13 =>
      if name == "clock_res_get" then Some(ClockResGet)
      else if name == "fd_fdstat_get" then Some(FdFdstatGet)
      else if name == "path_readlink" then Some(PathReadlink)
      else if name == "sock_shutdown" then Some(SockShutdown)
      else None
    case 14 =>
      if name == "args_sizes_get" then Some(ArgsSizesGet)
      else if name == "clock_time_get" then Some(ClockTimeGet)
      else if name == "fd_prestat_get" then Some(FdPrestatGet)
      else None
    case 15 =>
      if name == "fd_filestat_get" then Some(FdFilestatGet)
      else None
    case 16 =>
      if name == "path_unlink_file" then Some(PathUnlinkFile)
      else None
    case 17 =>
      if name == "environ_sizes_get" then Some(EnvironSizesGet)
      else if name == "path_filestat_get" then Some(PathFilestatGet)
      else None
    case 19 =>
      if name == "fd_prestat_dir_name" then Some(FdPrestatDirName)
      else if name == "fd_fdstat_set_flags" then Some(FdFdstatSetFlags)
      else None
    case 20 =>
      if name == "fd_fdstat_set_rights" then Some(FdFdstatSetRights)
      else if name == "fd_filestat_set_size" then Some(FdFilestatSetSize)
      else None
    case 21 =>
      if name == "path_create_directory" then Some(PathCreateDirectory)
      else if name == "fd_filestat_set_times" then Some(FdFilestatSetTimes)
      else if name == "path_remove_directory" then Some(PathRemoveDirectory)
      else None
    case 23 =>
      if name == "path_filestat_set_times" then Some(PathFilestatSetTimes)
      else None
    case _ => None
  }

  /** Distinct syscalls have distinct names. */
  lemma NameInjective(a: Op, b: Op)
    ensures Name(a) == Name(b) ==> a == b
  {
    NamedByName(a);
    NamedByName(b);
  }

  /** `OpNamed` inverts `Name`. */
  lemma NamedByName(op: Op)
    ensures OpNamed(Name(op)) == Some(op)
  {
    match op
    case ArgsGet | FdClose | FdPread | FdPwrite | FdRead | FdSeek | FdTell | FdSync | FdWrite |
      FdAdvise | PathLink | PathOpen | ProcExit | SockRecv | SockSend
      => NamedByShortName(op);
    case EnvironGet | FdDatasync | FdRenumber | FdAllocate | FdReaddir | PathRename | PollOneoff |
      ProcRaise | RandomGet | SchedYield
      => NamedByMediumName(op);
    case ArgsSizesGet | ClockResGet | ClockTimeGet | FdPrestatGet | FdFdstatGet | PathReadlink |
      PathSymlink | SockShutdown
      => NamedByLongName(op);
    case EnvironSizesGet | FdPrestatDirName | FdFdstatSetFlags | FdFdstatSetRights |
      PathCreateDirectory | FdFilestatGet | FdFilestatSetTimes | FdFilestatSetSize |
      PathFilestatGet | PathFilestatSetTimes | PathUnlinkFile | PathRemoveDirectory
      => NamedByLongestName(op);
  }

  /** `NamedByName` for the names of 7 to 9 characters. */
  lemma NamedByShortName(op: Op)
    requires op in {ArgsGet, FdClose, FdPread, FdPwrite, FdRead, FdSeek, FdTell, FdSync,
                FdWrite, FdAdvise, PathLink, PathOpen, ProcExit, SockRecv, SockSend}
    ensures OpNamed(Name(op)) == Some(op)
  {
  }

  /** `NamedByName` for the names of 10 to 11 characters. */
  lemma NamedByMediumName(op: Op)
    requires op in {EnvironGet, FdDatasync, FdRenumber, FdAllocate, FdReaddir, PathRename,
                PollOneoff, ProcRaise, RandomGet, SchedYield}
    ensures OpNamed(Name(op)) == Some(op)
  {
  }

  /** `NamedByName` for the names of 12 to 14 characters. */
  lemma NamedByLongName(op: Op)
    requires op in {ArgsSizesGet, ClockResGet, ClockTimeGet, FdPrestatGet, FdFdstatGet,
                PathReadlink, PathSymlink, SockShutdown}
    ensures OpNamed(Name(op)) == Some(op)
  {
  }

  /** `NamedByName` for the names of 15 to 23 characters. */
  lemma NamedByLongestName(op: Op)
    requires op in {EnvironSizesGet, FdPrestatDirName, FdFdstatSetFlags, FdFdstatSetRights,
                PathCreateDirectory, FdFilestatGet, FdFilestatSetTimes, FdFilestatSetSize,
                PathFilestatGet, PathFilestatSetTimes, PathUnlinkFile, PathRemoveDirectory}
    ensures OpNamed(Name(op)) == Some(op)
  {
  }

  // ---------------------------------------------------------------------------
  // Signature synthesis: the generated `params()` and `results()`.

  /** The codegen type of each native type, position by position. */
  function CodegenTyList(tys: seq<NativeTy>): (cs: seq<Codegen.Type>)
    ensures |cs| == |tys|
    ensures forall i :: 0 <= i < |tys| ==> cs[i] == CodegenTy(tys[i])
  {
    if tys == [] then [] else [CodegenTy(tys[0])] + CodegenTyList(tys[1..])
  }

  /** `syscalls::name::params()`. */
  function Params(op: Op): seq<Codegen.Type> {
    CodegenTyList(ParamsOf(op))
  }

  /** `syscalls::name::results()`. */
  function Results(op: Op): seq<Codegen.Type> {
    CodegenTys(RetOf(op))
  }

  /** Every syscall but `proc_exit` returns `__wasi_errno_t` in one `I32` word;
      `proc_exit` returns `()` and so no word. */
  lemma ResultsShape(op: Op)
    ensures RetOf(op) == (if op == ProcExit then Unit else Scalar(ErrnoT))
    ensures Results(op) == (if op == ProcExit then [] else [Codegen.I32])
  {
  }

  // ---------------------------------------------------------------------------
  // Native arguments and guest words.

  /** Native arguments of the given types. */
  predicate ArgsFit(tys: seq<NativeTy>, args: seq<int>) {
    |args| == |tys| && forall i :: 0 <= i < |args| ==> InRange(tys[i], args[i])
  }

  /** Guest words of the given codegen types. */
  predicate WordsFit(cs: seq<Codegen.Type>, words: seq<int>) {
    |words| == |cs| && forall i :: 0 <= i < |words| ==> InWord(cs[i], words[i])
  }

  /** The shim's `<$ty as AbiParam>::convert($arg)` for each argument, in order. */
  function DecodeArgs(tys: seq<NativeTy>, words: seq<int>): (args: seq<int>)
    requires WordsFit(CodegenTyList(tys), words)
    ensures ArgsFit(tys, args)
    ensures forall i :: 0 <= i < |args| ==> args[i] == FromWord(tys[i], words[i])
  {
    if tys == [] then []
    else [FromWord(tys[0], words[0])] + DecodeArgs(tys[1..], words[1..])
  }

  /** How the caller's side of the calling convention puts native arguments in
      words: the same cast as `AbiRet::convert`, argument by argument. */
  function EncodeArgs(tys: seq<NativeTy>, args: seq<int>): (words: seq<int>)
    requires ArgsFit(tys, args)
    ensures WordsFit(CodegenTyList(tys), words)
    ensures forall i :: 0 <= i < |words| ==> words[i] == ToWord(tys[i], args[i])
  {
    if tys == [] then []
    else [ToWord(tys[0], args[0])] + EncodeArgs(tys[1..], args[1..])
  }

  /** The shim neither drops nor reorders arguments: decoding what was encoded
      gives every argument back in its place. */
  lemma DecodeEncodeArgs(tys: seq<NativeTy>, args: seq<int>)
    requires ArgsFit(tys, args)
    ensures DecodeArgs(tys, EncodeArgs(tys, args)) == args
  {
    var back := DecodeArgs(tys, EncodeArgs(tys, args));
    forall i | 0 <= i < |args| ensures back[i] == args[i] {
      RoundTrip(tys[i], args[i]);
    }
  }

  /** What a syscall body returns natively: `()` or an errno. */
  datatype RetValue = UnitValue | ErrnoValue(errno: Errno)

  predicate RetFits(r: RetTy, v: RetValue) {
    match r
    case Unit => v.UnitValue?
    case Scalar(t) => v.ErrnoValue? && InRange(t, v.errno)
  }

  /** The shim's `<$ret as AbiRet>::convert(r)`: no word for `()`, one for a
      scalar; an errno (`u16`) reaches the guest as itself. */
  function EncodeRet(r: RetTy, v: RetValue): (words: seq<int>)
    requires RetFits(r, v)
    ensures WordsFit(CodegenTys(r), words)
    ensures r.Scalar? ==> FromWord(r.ty, words[0]) == v.errno
    ensures r.Scalar? && (Bits(r.ty) < 32 || Signed(r.ty)) ==> words == [v.errno]
  {
    match r
    case Unit => []
    case Scalar(t) => RoundTrip(t, v.errno); [ToWord(t, v.errno)]
  }

  // ---------------------------------------------------------------------------
  // The instance state the resolvers look at.

  /** The instance's opaque host state: the `WasiCtx` the bridge installed, or
      something of another type. */
  datatype HostState = WasiHostState(ctx: WasiCtx) | OtherHostState

  /** A linear memory as the runtime describes it: the bytes mapped from its base
      pointer on (`base`) and how many of them the guest may use now. */
  datatype MemoryDefinition = MemoryDefinition(base: seq<bv8>, currentLength: nat)

  predicate MemoryDefinitionValid(d: MemoryDefinition) {
    d.currentLength <= |d.base|
  }

  /** The kinds of runtime export a global-export lookup can return. */
  datatype Export =
    | FunctionExport
    | TableExport
    | MemoryExport(definition: MemoryDefinition)
    | GlobalExport

  /** The global export table shared between instances. */
  type GlobalExports = map<string, Option<Export>>

  /** `VMContext::lookup_global_export`: the export registered under a name, if any. */
  function LookupGlobalExport(exports: GlobalExports, field: string): Option<Export> {
    if field in exports then exports[field] else None
  }

  /** `get_wasi_ctx`: the host state downcast to `WasiCtx`, or `EINVAL`. */
  function GetWasiCtx(hs: HostState): (r: Result<WasiCtx, Errno>)
    ensures r.Err? <==> !hs.WasiHostState?
    ensures r.Err? ==> r.error == EINVAL
    ensures r.Ok? ==> r.value == hs.ctx
  {
    match hs
    case WasiHostState(ctx) => Ok(ctx)
    case OtherHostState => Err(EINVAL)
  }

  /** `get_memory`: the bytes of the export named "memory", exactly its current
      length of them, or `EINVAL` when there is no such export or it is not a
      memory. */
  function GetMemory(exports: GlobalExports): (r: Result<seq<bv8>, Errno>)
    ensures r.Ok? <==> LookupGlobalExport(exports, "memory").Some?
                       && LookupGlobalExport(exports, "memory").value.MemoryExport?
                       && MemoryDefinitionValid(LookupGlobalExport(exports, "memory").value.definition)
    ensures r.Err? ==> r.error == EINVAL
    ensures r.Ok? ==> var d := exports["memory"].value.definition;
                      |r.value| == d.currentLength && r.value == d.base[..d.currentLength]
  {
    match LookupGlobalExport(exports, "memory")
    case Some(MemoryExport(d)) =>
      if MemoryDefinitionValid(d) then Ok(d.base[..d.currentLength]) else Err(EINVAL)
    case _ => Err(EINVAL)
  }

  /** The guest memory after a host call wrote `bytes` through the slice: the
      first `currentLength` bytes are replaced, the rest is untouched. */
  function StoreMemory(exports: GlobalExports, bytes: seq<bv8>): (r: GlobalExports)
    requires GetMemory(exports).Ok?
    requires |bytes| == |GetMemory(exports).value|
    ensures r.Keys == exports.Keys
    ensures GetMemory(r) == Ok(bytes)
  {
    var d := exports["memory"].value.definition;
    exports["memory" := Some(MemoryExport(d.(base := bytes + d.base[d.currentLength..])))]
  }

  /** The abstract per-instance state a call runs against. */
  datatype Instance = Instance(hostState: HostState, globalExports: GlobalExports)

  // ---------------------------------------------------------------------------
  // The host implementations (`wasi_common::hostcalls::*`), left abstract.

  /** What a body hands to its host call: the resolved context and memory
      (present exactly when the body resolves them) and the arguments. */
  datatype HostCall = HostCall(op: Op, ctx: Option<WasiCtx>, memory: Option<seq<bv8>>, args: seq<int>)

  /** What a host call gives back: its errno, and the new contents of the context
      and of the memory slice it was lent (ignored when it was lent none). */
  datatype HostOutcome = HostOutcome(errno: Errno, ctx: WasiCtx, memory: seq<bv8>)

  type HostFn = HostCall -> HostOutcome

  /** A `&mut [u8]` cannot change length: whatever the host writes, the slice
      keeps the length it was lent with. */
  ghost predicate SlicesKeepLength(host: HostFn) {
    forall c: HostCall :: c.memory.Some? ==> |host(c).memory| == |c.memory.value|
  }

  /** The result of running one body. `call` records the host call made, if any. */
  datatype CallOutcome = CallOutcome(ret: RetValue, after: Instance, call: Option<HostCall>)

  /** `fd_write`'s argument rewriting: a write to fd 2 (stderr) goes to fd 1 (stdout). */
  function Redirect(op: Op, args: seq<int>): seq<int>
    requires |args| == |ParamsOf(op)|
  {
    if op == FdWrite && args[0] == 2 then args[0 := 1] else args
  }

  /** The body of syscall `op` run on `inst`, as a function of its inputs. */
  function Trampoline(op: Op, inst: Instance, args: seq<int>, host: HostFn): (r: CallOutcome)
    requires ArgsFit(ParamsOf(op), args)
    requires SlicesKeepLength(host)
    ensures RetFits(RetOf(op), r.ret)
    ensures r.call.None? ==> r.after == inst && r.ret in {ErrnoValue(EINVAL), ErrnoValue(ENOSYS)}
    ensures r.call.Some? ==> r.call.value.op == op
                             && r.ret == (if op == ProcExit then UnitValue else ErrnoValue(host(r.call.value).errno))
  {
    ResultsShape(op);
    match WiringOf(op)
    case Enosys => CallOutcome(ErrnoValue(ENOSYS), inst, None)
    case Wired(needsCtx, needsMemory) =>
      var args' := Redirect(op, args);
      var ctx := GetWasiCtx(inst.hostState);
      var memory := GetMemory(inst.globalExports);
      if needsCtx && ctx.Err? then CallOutcome(ErrnoValue(ctx.error), inst, None)
      else if needsMemory && memory.Err? then CallOutcome(ErrnoValue(memory.error), inst, None)
      else
        var call := HostCall(op, if needsCtx then Some(ctx.value) else None,
                             if needsMemory then Some(memory.value) else None, args');
        var out := host(call);
        var after := Instance(
          if needsCtx then WasiHostState(out.ctx) else inst.hostState,
          if needsMemory then StoreMemory(inst.globalExports, out.memory) else inst.globalExports);
        CallOutcome(if RetOf(op).Unit? then UnitValue else ErrnoValue(out.errno), after, Some(call))
  }

  // ---------------------------------------------------------------------------
  // What the bodies promise.

  /** An unwired syscall returns `ENOSYS` whatever its arguments (zero lengths
      and maximal pointers included), makes no host call and changes nothing,
      with or without a context and a memory. */
  lemma StubReturnsEnosys(op: Op, inst: Instance, args: seq<int>, host: HostFn)
    requires WiringOf(op).Enosys?
    requires ArgsFit(ParamsOf(op), args)
    requires SlicesKeepLength(host)
    ensures Trampoline(op, inst, args, host) == CallOutcome(ErrnoValue(ENOSYS), inst, None)
  {
  }

  /** A body that needs the context and finds no `WasiCtx` returns `EINVAL`
      before anything else, whether or not the memory would have resolved, and
      makes no host call. */
  lemma MissingCtxShortCircuits(op: Op, inst: Instance, args: seq<int>, host: HostFn)
    requires WiringOf(op).Wired? && WiringOf(op).needsCtx
    requires !inst.hostState.WasiHostState?
    requires ArgsFit(ParamsOf(op), args)
    requires SlicesKeepLength(host)
    ensures Trampoline(op, inst, args, host) == CallOutcome(ErrnoValue(EINVAL), inst, None)
  {
  }

  /** A body that needs the memory and cannot resolve it returns `EINVAL` once
      any context it needs has resolved, and makes no host call. */
  lemma MissingMemoryShortCircuits(op: Op, inst: Instance, args: seq<int>, host: HostFn)
    requires WiringOf(op).Wired? && WiringOf(op).needsMemory
    requires GetMemory(inst.globalExports).Err?
    requires ArgsFit(ParamsOf(op), args)
    requires SlicesKeepLength(host)
    ensures Trampoline(op, inst, args, host) == CallOutcome(ErrnoValue(EINVAL), inst, None)
  {
  }

  /** When everything a wired body needs resolves, it makes exactly one host
      call, lending it the context and the memory it needs and nothing else,
      with the (redirected) arguments, and returns that call's errno unchanged.
      What the host did to the context and to the slice it was lent stays: the
      instance then resolves to the host's new context and bytes. */
  lemma ResolvedCallsHost(op: Op, inst: Instance, args: seq<int>, host: HostFn)
    requires WiringOf(op).Wired?
    requires WiringOf(op).needsCtx ==> inst.hostState.WasiHostState?
    requires WiringOf(op).needsMemory ==> GetMemory(inst.globalExports).Ok?
    requires ArgsFit(ParamsOf(op), args)
    requires SlicesKeepLength(host)
    ensures var r := Trampoline(op, inst, args, host);
            var w := WiringOf(op);
            r.call == Some(HostCall(op,
                                    if w.needsCtx then Some(inst.hostState.ctx) else None,
                                    if w.needsMemory then Some(GetMemory(inst.globalExports).value) else None,
                                    Redirect(op, args)))
            && (op != ProcExit ==> r.ret == ErrnoValue(host(r.call.value).errno))
            && (w.needsCtx ==> GetWasiCtx(r.after.hostState) == Ok(host(r.call.value).ctx))
            && (w.needsMemory ==> GetMemory(r.after.globalExports) == Ok(host(r.call.value).memory))
  {
  }

  /** `fd_write` to fd 2 reaches the host as a write to fd 1 with every other
      argument as given; a write to any other fd reaches it unchanged. */
  lemma FdWriteRedirectsStderr(inst: Instance, args: seq<int>, host: HostFn)
    requires ArgsFit(ParamsOf(FdWrite), args)
    requires SlicesKeepLength(host)
    ensures var r := Trampoline(FdWrite, inst, args, host);
            r.call.Some? ==> r.call.value.args == (if args[0] == 2 then [1] + args[1..] else args)
  {
  }

  /** A call changes only what its body was lent: the host state only if the
      context was resolved, the memory export only if the memory was, and then
      only the bytes below its current length. Other exports, the current length
      and the bytes past it stay as they were. */
  lemma CallKeepsFootprint(op: Op, inst: Instance, args: seq<int>, host: HostFn)
    requires ArgsFit(ParamsOf(op), args)
    requires SlicesKeepLength(host)
    ensures var r := Trampoline(op, inst, args, host);
            var w := WiringOf(op);
            && (w.Enosys? || !w.needsCtx ==> r.after.hostState == inst.hostState)
            && r.after.globalExports.Keys == inst.globalExports.Keys
            && (forall k :: k in inst.globalExports && k != "memory" ==>
                  r.after.globalExports[k] == inst.globalExports[k])
            && (GetMemory(inst.globalExports).Ok? ==>
                  var d := inst.globalExports["memory"].value.definition;
                  var d' := r.after.globalExports["memory"].value.definition;
                  d'.currentLength == d.currentLength && d'.base[d.currentLength..] == d.base[d.currentLength..])
            && (w.Enosys? || !w.needsMemory ==> r.after.globalExports == inst.globalExports)
  {
    var r := Trampoline(op, inst, args, host);
    var w := WiringOf(op);
    if w.Wired? && w.needsMemory && r.call.Some? {
      var exports := inst.globalExports;
      var d := exports["memory"].value.definition;
      var bytes := host(r.call.value).memory;
      assert r.after.globalExports == StoreMemory(exports, bytes);
      assert |bytes| == d.currentLength;
      var d' := r.after.globalExports["memory"].value.definition;
      assert d'.base == bytes + d.base[d.currentLength..];
      assert d'.base[d.currentLength..] == d.base[d.currentLength..];
    }
  }

  /** Seen from the guest, an unwired syscall and a wired one whose host call
      fails with `ENOSYS` give the same result word. */
  lemma StubIndistinguishableFromRejection(stub: Op, wired: Op, inst: Instance, args: seq<int>,
                                           wiredArgs: seq<int>, host: HostFn)
    requires WiringOf(stub).Enosys? && WiringOf(wired).Wired? && wired != ProcExit
    requires ArgsFit(ParamsOf(stub), args) && ArgsFit(ParamsOf(wired), wiredArgs)
    requires SlicesKeepLength(host)
    requires var r := Trampoline(wired, inst, wiredArgs, host); r.call.Some? && host(r.call.value).errno == ENOSYS
    ensures EncodeRet(RetOf(stub), Trampoline(stub, inst, args, host).ret)
         == EncodeRet(RetOf(wired), Trampoline(wired, inst, wiredArgs, host).ret)
         == [52]
  {
    StubReturnsEnosys(stub, inst, args, host);
    ResultsShape(stub);
    ResultsShape(wired);
  }

  // ---------------------------------------------------------------------------
  // The VMContext the generated code calls with.

  /** The part of wasmtime's `VMContext` the bodies use: the host state and the
      global exports, both changed in place by the host calls they are lent to. */
  class VMContext {
    var hostState: HostState
    var globalExports: GlobalExports

    constructor (hs: HostState, exports: GlobalExports)
      ensures hostState == hs && globalExports == exports
    {
      hostState := hs;
      globalExports := exports;
    }

    function State(): Instance
      reads this
    {
      Instance(hostState, globalExports)
    }

    /** The `pub unsafe extern "C" fn` body of syscall `op`: early returns through
        `ok_or_errno!`, `fd_write`'s rebinding of `fd`, and the write-back of what
        the host call changed through the borrowed context and memory. */
    method Call(op: Op, args: seq<int>, host: HostFn) returns (ret: RetValue, ghost call: Option<HostCall>)
      requires ArgsFit(ParamsOf(op), args)
      requires SlicesKeepLength(host)
      modifies this
      ensures CallOutcome(ret, State(), call) == Trampoline(op, old(State()), args, host)
    {
      ghost var spec := Trampoline(op, State(), args, host);
      var w := WiringOf(op);
      if w.Enosys? {
        assert spec == CallOutcome(ErrnoValue(ENOSYS), State(), None);
        return ErrnoValue(ENOSYS), None;
      }
      var fdArgs := Redirect(op, args);
      var ctx: Option<WasiCtx> := None;
      if w.needsCtx {
        var c := GetWasiCtx(hostState);
        if c.Err? {
          return ErrnoValue(c.error), None;
        }
        ctx := Some(c.value);
      }
      var memory: Option<seq<bv8>> := None;
      if w.needsMemory {
        var m := GetMemory(globalExports);
        if m.Err? {
          return ErrnoValue(m.error), None;
        }
        memory := Some(m.value);
      }
      var hc := HostCall(op, ctx, memory, fdArgs);
      var out := host(hc);
      if w.needsCtx {
        hostState := WasiHostState(out.ctx);
      }
      if w.needsMemory {
        globalExports := StoreMemory(globalExports, out.memory);
      }
      ret := if RetOf(op).Unit? then UnitValue else ErrnoValue(out.errno);
      call := Some(hc);
    }

    /** The generated `shim`: decode each word positionally, run the body,
        encode its result. */
    method Shim(op: Op, words: seq<int>, host: HostFn) returns (out: seq<int>)
      requires WordsFit(Params(op), words)
      requires SlicesKeepLength(host)
      modifies this
      ensures var o := Trampoline(op, old(State()), DecodeArgs(ParamsOf(op), words), host);
              out == EncodeRet(RetOf(op), o.ret) && State() == o.after
      ensures WordsFit(Results(op), out)
    {
      var args := DecodeArgs(ParamsOf(op), words);
      var ret, _ := Call(op, args, host);
      out := EncodeRet(RetOf(op), ret);
    }
  }
}
