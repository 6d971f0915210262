# enarx-wasi-prototype: the WASI bridge, modelled in Dafny

The bridge sits between a sandboxed WebAssembly guest and host-side
implementations of the `wasi_unstable` system calls. It has three parts:

- **ABI conversion layer.** Each native integer type travels in one guest
  word (`I32` or `I64`). Encoding and decoding are Rust `as` casts.
- **The 45 syscall bodies.** Each one resolves what it needs, in a fixed
  order: the per-instance `WasiCtx` host state first, then the `memory`
  export. It returns `EINVAL` at the first failure. Otherwise it hands the
  arguments to the host implementation and returns that implementation's
  errno unchanged. `fd_write` sends fd 2 to fd 1. The 26 bodies that are not
  wired up return `ENOSYS` whatever their arguments.
- **`instantiate_wasi`.** It builds a synthetic module. Each syscall pushes
  one signature, one function, one export named `prefix + name` and one shim.
  It then builds the `WasiCtx` through `WasiCtxBuilder`, cloning every
  pre-opened directory handle. Finally it hands both to the instance
  constructor.

Files:

- `wrappers.dfy`: `Option` and `Result`.
- `abi.dfy`: the `Codegen` word types, and `Abi`, which holds the native
  types, `Cast` (the `as` cast) and the two conversions.
- `wasm32.dfy`: the widths of the `wasm32::*` type aliases, the errno
  constants and the `WasiCtx` value.
  - The widths come from the `wasi_unstable` ABI. `fd`, `uintptr`, `size`,
    `clockid` and `lookupflags` are `u32`. `errno` and the 16-bit flag sets
    are `u16`. `whence`, `advice`, `signal` and `sdflags` are `u8`.
    `filesize`, `timestamp`, `rights` and `dircookie` are `u64`.
    `filedelta` is `i64`.
  - The errno constants are `EINVAL` = 28 and `ENOSYS` = 52.
- `syscalls.dfy`:
  - a descriptor for every syscall: name, argument types, return type and
    wiring;
  - the resolvers and the generated `params()`, `results()` and `shim`;
  - the bodies, as the specification function `Trampoline`;
  - the class `VMContext`, whose method `Call` runs a body by updating the
    host state and the memory in place, proved equal to `Trampoline`.
- `instantiate.dfy`:
  - the class `Module`, whose tables `RegisterSignature` grows in place;
  - the 45 registrations, as a loop over `RegistrationOrder`, which lists the
    `signature!` invocations in source order;
  - the builder chain and the pre-opened-dir loop, specified by
    `BuildContext`;
  - `InstantiateWasi`, specified by `Instantiated`.

Host implementations are a function parameter, `HostFn`. It gets the
resolved context, the borrowed memory slice and the arguments. It returns an
errno and the new context and slice contents. Two things are assumed of it:
`SlicesKeepLength` (a `&mut [u8]` cannot change length), and that, being a
function, it gives the same outcome for the same call. Every fallible library
or OS step is an `Environment` parameter carrying that step's error, if any:
`WasiCtxBuilder::new`, `inherit_stdio`, `args`, `envs`, `build`,
`File::try_clone` and `InstanceHandle::new`.

## Model

| member | source | states |
|---|---|---|
| Abi.Cast | src/syscalls.rs:23-25 | an `as` cast to `b` bits gives a value of the target type, leaves a value that already fits unchanged, reads a too-large unsigned value as signed by subtracting 2^b, and reads a negative value as unsigned by adding 2^b |
| Abi.CastCongruent | src/syscalls.rs:23-25 | an `as` cast keeps its input modulo 2^b: the two differ by a whole number of moduli |
| Abi.CodegenTy | src/syscalls.rs:37 | the word type of a native type is wide enough to hold it, and it is `I64` exactly for the 64-bit types (`cast32!` gives `I32`, `cast64!` gives `I64`) |
| Abi.CodegenTys | src/syscalls.rs:23-75 | `()` has no result word; a scalar has exactly one, its `codegen_ty` (`I32` for the `cast32!` types, `I64` for the `cast64!` ones), wide enough to hold it |
| Abi.ToWord | src/syscalls.rs:23-49 | `AbiRet::convert` gives a value of the word type, equal to the input for signed types and types narrower than 32 bits |
| Abi.FromWord | src/syscalls.rs:33-59 | `AbiParam::convert` gives a value of the native type, equal to the word when the word is already in range |
| Abi.RoundTrip | src/syscalls.rs:23-59 | for every value of every native type, min and max included, decoding the encoded word gives the value back |
| Abi.WordRoundTrip | src/syscalls.rs:47-59 | for a type exactly as wide as its word, encoding a decoded word gives the word back |
| Abi.NarrowDecodeTruncates | src/syscalls.rs:33-35 | decoding a word into a narrower type truncates: the word 256 reads as the `u8` 0 and 128 as the `i8` -128 |
| Abi.ExtremesRoundTrip | src/syscalls.rs:66-67 | the minimum and maximum of each of the eight types survive the round trip |
| Syscalls.NameInjective | src/syscalls.rs:163-851 | distinct syscalls have distinct names |
| Syscalls.NamedByName | src/syscalls.rs:163-851 | looking a syscall's name up gives back that syscall |
| Syscalls.CodegenTyList | src/syscalls.rs:129-131 | `params()` has one word type per declared argument after `vmctx`, in declared order, each the codegen type of that argument |
| Syscalls.ResultsShape | src/syscalls.rs:135-137 | every syscall but `proc_exit` returns `__wasi_errno_t` in exactly `[I32]`; `proc_exit` returns `()` and so `[]` |
| Syscalls.DecodeArgs | src/syscalls.rs:148-154 | the shim decodes word `i` into argument `i` with that argument's type, and the result is a valid argument list |
| Syscalls.EncodeArgs | src/syscalls.rs:148-154 | the caller's encoding puts argument `i` into word `i` by its `AbiRet` cast, and gives words of the declared word types |
| Syscalls.DecodeEncodeArgs | src/syscalls.rs:148-154 | the shim neither drops nor reorders arguments: decoding encoded arguments gives them all back in place |
| Syscalls.EncodeRet | src/syscalls.rs:152-153 | the encoded result has the word types of `results()`; a scalar result decodes back to the errno, and for a type narrower than 32 bits or signed (the `u16` errno among them) the word is the value itself |
| Syscalls.GetWasiCtx | src/syscalls.rs:77-84 | fails exactly when the host state is not a `WasiCtx`, and then with `EINVAL`; otherwise yields that context |
| Syscalls.GetMemory | src/syscalls.rs:86-106 | succeeds exactly when there is an export named "memory" and it is a memory, yielding its first `current_length` bytes; otherwise `EINVAL` |
| Syscalls.StoreMemory | src/syscalls.rs:86-106 | writing through the borrowed slice keeps the export names, and the memory then resolves to the bytes written |
| Syscalls.Trampoline | src/syscalls.rs:108-118 | a body returns a value of its return type; without a host call it changes nothing and returns `EINVAL` or `ENOSYS`; with one it returns the host's errno unchanged (`()` for `proc_exit`) |
| Syscalls.StubReturnsEnosys | src/syscalls.rs:357-372 | an unwired syscall returns `ENOSYS` for every argument value and every instance state, makes no host call and changes nothing |
| Syscalls.MissingCtxShortCircuits | src/syscalls.rs:174-176 | a body needing the context, run without a `WasiCtx`, returns `EINVAL` before it looks at memory, makes no call and changes nothing |
| Syscalls.MissingMemoryShortCircuits | src/syscalls.rs:189-191 | a body needing the memory, run where it cannot be resolved, returns `EINVAL`, makes no call and changes nothing |
| Syscalls.ResolvedCallsHost | src/syscalls.rs:342-344 | once everything it needs resolves, a wired body makes exactly one host call with the resolved context, the memory and the (redirected) arguments, and returns that call's errno unchanged; afterwards the instance resolves to the context and the memory bytes the host left |
| Syscalls.FdWriteRedirectsStderr | src/syscalls.rs:444-453 | `fd_write` hands fd 2 to the host as fd 1, with every other argument as given; any other fd passes through unchanged |
| Syscalls.CallKeepsFootprint | src/syscalls.rs:108-118 | a call changes only what it was lent: the host state only if it resolved the context; other exports, the memory's length and the bytes past it never |
| Syscalls.StubIndistinguishableFromRejection | src/syscalls.rs:254-261 | an unwired syscall and a wired one whose host call fails with `ENOSYS` give the guest the same result word, 52 |
| Syscalls.VMContext.Call | src/syscalls.rs:163-851 | running a body on the context updates its host state and global exports in place, exactly as `Trampoline` says |
| Syscalls.VMContext.Shim | src/syscalls.rs:148-154 | the shim's result is the body's result encoded into `results()`'s word types, run on the positionally decoded arguments; the new state is the body's |
| Instantiate.EveryOpRegistered | src/instantiate.rs:55-117 | every syscall appears in the registration sequence, at its registration index |
| Instantiate.RegistrationIndexAt | src/instantiate.rs:55-117 | the registration index of the syscall at position `i` is `i` |
| Instantiate.AllRegisteredOnce | src/instantiate.rs:55-117 | all 45 syscalls are registered, each exactly once |
| Instantiate.Module.RegisterSignature | src/instantiate.rs:29-52 | one `signature!` pushes the syscall's signature, a function using it, the export `prefix + name` for that function and the shim, updating the module in place |
| Instantiate.RegisterKeepsAligned | src/instantiate.rs:29-52 | one registration keeps function `i`, signature `i` and shim `i` aligned, and adds exactly its export name |
| Instantiate.RegisterAllAligned | src/instantiate.rs:29-117 | after registering a sequence, the shims are that sequence; the tables are index-aligned, with each signature being its syscall's `params()` and `results()`; the export names are exactly `prefix + name` of the syscalls registered |
| Instantiate.ExportNamesMembers | src/instantiate.rs:46-49 | a name is exported exactly when it is `prefix + name` of a registered syscall |
| Instantiate.FreshExportName | src/instantiate.rs:46-49 | a syscall not yet registered brings an export name not yet taken |
| Instantiate.RegisterAllExports | src/instantiate.rs:46-49 | for distinct syscalls there is one export per syscall, and the export of the `i`-th maps to function `i` |
| Instantiate.RegisteredLookup | src/instantiate.rs:31-50 | the export of a registered syscall leads to the function pushed for it, whose signature and shim are that syscall's |
| Instantiate.WasiModuleShape | src/instantiate.rs:29-117 | the finished module has 45 aligned functions, signatures and shims and 45 exports, exactly `prefix + name` of every syscall, each leading to that syscall's signature and shim |
| Instantiate.BaseBuilder | src/instantiate.rs:123-129 | the builder chain succeeds exactly when `new`, `inherit_stdio`, `args` and `envs` all do; it then holds the inherited streams, `argv` and `environ` and no pre-opened directory; otherwise it fails with the first step's error |
| Instantiate.ClonePreopensOk | src/instantiate.rs:131-141 | the loop succeeds exactly when every clone does, and then registers the clone of each handle under its guest path, in the given order, duplicates included |
| Instantiate.ClonePreopensFirstFailure | src/instantiate.rs:131-141 | the loop stops at the first clone that fails and reports that clone's error |
| Instantiate.ClonePreopensPrefixErr | src/instantiate.rs:131-141 | once a prefix of the directories fails to clone, the whole loop fails with the same error |
| Instantiate.BuildContextOk | src/instantiate.rs:123-145 | a context is built exactly when every builder step, every clone and `build` succeed; it then inherits the streams and holds `argv`, `environ` and each clone under its guest path |
| Instantiate.BuildContextErrors | src/instantiate.rs:123-145 | a builder or `build` failure becomes `Resource("couldn't assemble WASI context object: " + error)`; a clone failure becomes `Resource("couldn't clone an instance handle to pre-opened dir: " + error)` |
| Instantiate.AssembleModule | src/instantiate.rs:24-117 | the 45 registrations, grown in place on a fresh module, give the module `RegisterAll` describes |
| Instantiate.AssembleContext | src/instantiate.rs:123-145 | the builder chain, the clone loop with its early exits, and `build` give the context, or the error, that `BuildContext` describes |
| Instantiate.InstantiatedShape | src/instantiate.rs:119-156 | an instance exists exactly when the context builds and the constructor accepts it, and a context error is reported first; the instance has the caller's global exports, no imports, no data initializers, an empty signature table, every syscall exported with its shim, and the built context as host state |
| Instantiate.InstanceLendsBuiltContext | src/instantiate.rs:147-156 | on an instance built here, a body that needs the context lends the host exactly the context built from `argv`, `environ` and the pre-opened directories; the memory must resolve only for bodies that also need it |
| Instantiate.InstantiateWasi | src/instantiate.rs:16-157 | `instantiate_wasi` returns the instance, or the error, that `Instantiated` describes |

## Left out

- Host implementations: what `wasi_common::hostcalls::*` do (files, clocks,
  sockets, polling, randomness) is not modelled. They are the parameter
  `HostFn`. They are assumed to keep the memory slice's length and to be
  deterministic: the same call always gives the same outcome, whereas a real
  host call may depend on the clock, randomness or the OS.
- The `WasiCtx` has no descriptor table: it holds only the streams, the
  arguments, the environment and the pre-opened directories. So a host call
  that only changes the descriptor table, such as `fd_close` or
  `fd_renumber`, hands back an unchanged `WasiCtx`. Writing the host's new
  context back into the instance therefore says nothing about descriptor
  changes.
- `proc_exit` is modelled as returning `()`. The host call terminating the
  process is outside the model.
- Diagnostics: `trace!`, `debug!` and `println!` are left out, on the
  assumption that they never affect a result.
- Syscalls.StubReturnsEnosys: assumes that formatting `fd_seek`'s trace
  record cannot fail. That record calls `wasm32::whence_to_str(whence)`
  (src/syscalls.rs:368), which lives in `wasi_common` and is not part of
  this model; "`ENOSYS` for every argument value" holds only if it accepts
  every `whence`, or when tracing is off.
- Raw pointers and `VMContext` internals are modelled as values: the
  `downcast_mut` of the host state, `slice::from_raw_parts_mut` and
  `lookup_global_export`.
  - The host state is `HostState`. The global export table is a `map`.
  - The guest memory is a byte sequence, of which the first `current_length`
    bytes are lent.
- Syscalls.GetMemory: returns `EINVAL` for a memory definition whose
  `current_length` exceeds its mapping. The source has no such check: it
  trusts the runtime, and for such inputs its behaviour is undefined.
- `translate_signature` adds the `vmctx` pointer parameter to each
  signature. The model stores the `ir::Signature` as built from `params()`
  and `results()`, without that parameter.
- `triple_pointer_type` and `CallConv::triple_default` for the `HOST` target
  are replaced by the parameter `cc`.
- `InstanceHandle::new` is modelled only as a step that may fail. With no
  imports and no data initializers, its internals are not shown. Its last
  argument, the debug registration (passed as `None`, src/instantiate.rs:154),
  has no field in `InstanceHandle`.
- `PrimaryMap`, `Rc` and `RefCell` are modelled as plain sequences and maps.
  Sharing of the global-export table between instances is not modelled.
- `File::try_clone` is modelled as a possibly failing function
  `tryClone`, and `inherit_stdio` as a possibly failing step. A clone being a
  second OS descriptor on the same file is not modelled.
- The 45 `signature!` invocations are modelled as a loop over
  `RegistrationOrder`, which lists them in their source order. The split
  into `AssembleModule`, `AssembleContext` and `InstantiateWasi` follows the
  two halves of the one Rust function.
- Concurrency is not modelled. The bridge runs one call at a time on an
  instance.
