/** The part of `wasi_common` the bridge consumes: the `wasm32` type aliases of
    the `wasi_unstable` ABI, the errno values the bridge itself produces, and the
    per-instance context (`WasiCtx`) with its builder. */
module Wasm32 {
  import opened Abi

  // Native types of the `wasm32::*` aliases the syscall signatures use.
  const FdT: NativeTy := U32
  const UintptrT: NativeTy := U32
  const SizeT: NativeTy := U32
  const ErrnoT: NativeTy := U16
  const ClockidT: NativeTy := U32
  const TimestampT: NativeTy := U64
  const FilesizeT: NativeTy := U64
  const FiledeltaT: NativeTy := I64
  const WhenceT: NativeTy := U8
  const FdflagsT: NativeTy := U16
  const RightsT: NativeTy := U64
  const AdviceT: NativeTy := U8
  const LookupflagsT: NativeTy := U32
  const OflagsT: NativeTy := U16
  const DircookieT: NativeTy := U64
  const FstflagsT: NativeTy := U16
  const SignalT: NativeTy := U8
  const RiflagsT: NativeTy := U16
  const SiflagsT: NativeTy := U16
  const SdflagsT: NativeTy := U8

  /** A value of `__wasi_errno_t`. */
  type Errno = e: int | 0 <= e < 0x1_0000

  /** `__WASI_EINVAL`, returned when the context or the memory cannot be resolved. */
  const EINVAL: Errno := 28
  /** `__WASI_ENOSYS`, returned by every syscall the bridge does not wire up. */
  const ENOSYS: Errno := 52

  /** An open host file handle; `id` stands for the OS descriptor behind it. */
  datatype File = File(id: nat)

  /** The per-instance WASI context: standard streams (inherited or not), the
      argument vector, the environment, and the pre-opened directories, each a
      handle paired with the path the guest sees it under. What the host calls
      keep in it besides (the descriptor table) is theirs and not modelled. */
  datatype WasiCtx = WasiCtx(
    inheritsStdio: bool,
    args: seq<string>,
    env: seq<(string, string)>,
    preopens: seq<(File, string)>)

  /** `WasiCtxBuilder`: the same data, still being assembled. */
  datatype WasiCtxBuilder = WasiCtxBuilder(
    inheritsStdio: bool,
    args: seq<string>,
    env: seq<(string, string)>,
    preopens: seq<(File, string)>)
  {
    /** `preopened_dir(dir, guest_path)`: infallible, appends one entry, and
        does not reject a guest path already present. */
    function PreopenedDir(f: File, guestPath: string): WasiCtxBuilder {
      this.(preopens := preopens + [(f, guestPath)])
    }
  }
}
