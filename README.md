# typed_python / object_database core, modelled in Dafny

This project models five core files of the typed_python / object_database
repository and proves properties of the model:

- **`typed_python/internals.py`** (`Internals.dfy`). Covers the ordered
  namespace a typed class body runs in, and `makeFunctionType`, which turns a
  Python argument spec into a typed overload: positional arguments with their
  defaults and annotations, then `*args`, then `**kwargs`, plus the
  magic-method return-type check. Also covers class construction by
  `ClassMetaclass.__new__`: members, methods, static methods and properties,
  with repeated method names merged into one overload set. Then the
  `issubclass`/`isinstance` hooks, and the `FunctionOverload` argument queries.
- **`typed_python/compiler/type_wrappers/python_typed_function_wrapper.py`**
  (`TypedFunctionWrapper.dfy`). Covers how the compiler matches argument
  types against overloads (Yes/Maybe/No) and picks one overload when only one
  can match. It also covers which return types a dispatch can produce, which
  signature an overload is specialised to, and what `convert_call` produces.
- **`object_database/service_manager/SubprocessServiceManager.py`**
  (`ServiceManager.dfy`). Covers log-file names (timestamp format, parsing the
  instance identity back out) and the supervisor's map of worker handles. That
  includes idempotent start, stop, and the cleanup sweep that reaps exited
  workers, kills overdue ones and retires orphaned log files to `old/`.
- **`object_database/tcp_server.py`** (`TcpServer.dfy`). Covers both protocol
  ends of a connection: buffering before the client handler is installed,
  heartbeats, disconnection, and write suppression on a dead server-side
  connection. Also covers the event-loop thread's single start, the server's
  sweep gate, and the client `connect` retry loop.
- **`nativepython/native_function_conversion_context.py`**
  (`NativeFunctionContext.dfy`). Covers the variable-name counter and the
  native signature built for a helper function.

Shared pieces: `Wrappers.dfy` (Option, Result) and `Text.dfy` (decimal
rendering, `%02d`/`%4d` padding, suffix and last-separator splitting).

Time is an integer number of milliseconds, or microseconds for the connect
backoff, which is computed exactly. Clocks, `time.localtime`, process polling,
the object store's view of an instance, the network's answers, and the
compiler's conversion services are all parameters.

Three behaviours of the code are worth noting:

- On the client, every `connection_lost` call delivers a `Disconnected`
  message; nothing guards against a second one.
- `connect` sleeps the same `min(timeout, max(timeout/100, 0.01))` seconds
  after each failed attempt. The sleep does not grow.
- A failed attempt is re-raised once 80% of the timeout has passed, not
  100%.

## Model

| member | source | states |
|---|---|---|
| `Internals.LatestValuesMeaning` | typed_python/internals.py:90-103 | a name is bound iff it was assigned, and it is bound to the value of its last assignment |
| `Internals.ClassMetaNamespace.constructor` | typed_python/internals.py:91-93 | starts with an empty mapping and an empty assignment history |
| `Internals.ClassMetaNamespace.SetItem` | typed_python/internals.py:98-100 | the pair is appended to `order`, repeats included, and `ns[k]` becomes `v`; `ns` stays the last-value view of `order` |
| `Internals.ClassMetaNamespace.GetItem` | typed_python/internals.py:95-96 | no value (KeyError) iff `k` was never assigned; otherwise the value of its last assignment |
| `Internals.ClassMetaNamespace.Get` | typed_python/internals.py:102-103 | the default when `k` was never assigned; otherwise the value of its last assignment |
| `Internals.GetAnn` | typed_python/internals.py:154-166 | None iff annotations are ignored or the argument is unannotated; a `None` annotation means NoneType |
| `Internals.GetDefault` | typed_python/internals.py:168-178 | a default exists iff defaults exist and the index falls among the last `len(defaults)` arguments; it is the matching default, counted from the end |
| `Internals.ArgListShape` | typed_python/internals.py:180-214 | one plain entry per positional argument, then `*args` flagged star, then `**kwargs` flagged keyword; star only at position `len(args)`, keyword only last |
| `Internals.ReturnTypeOf` | typed_python/internals.py:186-203 | raises iff a magic method of a class declares a return type other than the required one; an override wins; otherwise a magic method gets its required type and anything else its declared type |
| `Internals.FunctionTypeOf` | typed_python/internals.py:130-223 | a typed function is returned as it is; a plain one fails iff it has keyword-only arguments or a bad magic return type, and otherwise yields one overload named `name` with qualname `Class.name` for methods, the argument list `ArgList` and the checked return type |
| `Internals.MakeFunctionType` | typed_python/internals.py:130-223 | the step-by-step construction (argument loop, return type, raises in source order) yields exactly `FunctionTypeOf` |
| `Internals.RecordedBases` | typed_python/internals.py:238 | keeps exactly the bases other than `Class` and `Final`; a single base is kept iff it is neither |
| `Internals.RecordedBasesAppend` | typed_python/internals.py:238 | the filter distributes over concatenation, so the kept bases stay in their order with their repeats |
| `Internals.Assign` | typed_python/internals.py:243-272 | dictionary assignment: the key maps to the new value, other keys are unchanged, and the entry count grows only for a new key |
| `Internals.AddOverloads` | typed_python/internals.py:252-270 | a repeated name's overload set becomes the earlier overloads followed by the new ones; other names are untouched |
| `Internals.StepFunctions` | typed_python/internals.py:245-278 | sorting one namespace entry extends only the overload set of its own name and kind |
| `Internals.OverloadsMergeFrom` | typed_python/internals.py:245-278 | after the loop, each method or static-method name holds the concatenation, in namespace order, of the overloads of every function defined under it |
| `Internals.NewClass` | typed_python/internals.py:231-291 | the loop over the namespace order produces exactly `ClassOf`: for no bases a plain class, or a TypeError when a `__name__` keyword is passed; otherwise the typed class or the first exception raised |
| `Internals.ClassConstruction` | typed_python/internals.py:231-291 | a typed class is made iff there are bases; a plain class is made only without the `__name__` keyword, from the namespace's mapping; a typed class is final iff `Final` is a base; it records the bases through `RecordedBases`; it takes the `__name__` keyword as its name; and under each method or static method name it holds the overloads of every function so named, in namespace order, none overwritten |
| `Internals.ClassBodyContents` | typed_python/internals.py:245-291 | the members are the `Member` declarations in namespace order; the class members are the members and plain values in namespace order, with `__module__` repeated as `__typed_python_module__`; each property name holds the type of the last getter so named |
| `Internals.MembersListFrom` | typed_python/internals.py:245-249 | building from any entry appends exactly that entry's and the later entries' `Member` declarations, in order |
| `Internals.ClassMembersListFrom` | typed_python/internals.py:245-284 | building from any entry appends exactly the class members of that entry and the later ones, in order |
| `Internals.PropertiesFrom` | typed_python/internals.py:250-251 | building from any entry leaves each property name with the last later getter so named, or with what it had |
| `Internals.SubclassCheck` | typed_python/internals.py:293-300 | false for non-Class categories, true for the root `Class`, otherwise membership in the MRO |
| `Internals.InstanceCheck` | typed_python/internals.py:302-309 | `isinstance` agrees with `issubclass` applied to the instance's type |
| `Internals.ArgRepr` | typed_python/internals.py:347-359 | the name follows the `*`/`**` prefix, and a bare argument renders as just its prefixed name |
| `Internals.FunctionOverload.constructor` | typed_python/internals.py:363-386 | records name, index and return type, with no arguments |
| `Internals.FunctionOverload.MinPositionalCount` | typed_python/internals.py:405-410 | the length of the longest prefix of arguments without default, star or keyword flag |
| `Internals.FunctionOverload.MaxPositionalCount` | typed_python/internals.py:412-417 | unbounded iff some argument is a star argument, otherwise the argument count |
| `Internals.FunctionOverload.AddArg` | typed_python/internals.py:419-420 | appends exactly one argument and keeps the earlier ones |
| `TypedFunctionWrapper.OverloadMatchesSignature` | typed_python/compiler/type_wrappers/python_typed_function_wrapper.py:165-189 | equals the declarative match: No on a shape mismatch or any impossible conversion, Yes when all surely convert, Maybe otherwise |
| `TypedFunctionWrapper.PickSingleOverloadForCall` | typed_python/compiler/type_wrappers/python_typed_function_wrapper.py:216-250 | the two-pass scan yields exactly the `PickFrom` specification |
| `TypedFunctionWrapper.PickFromSound` | typed_python/compiler/type_wrappers/python_typed_function_wrapper.py:216-250 | whatever the scan returns is the sole candidate, given what it has seen so far: a candidate that only might match is the only overload that might match in either pass, and an implicit one cannot match explicitly |
| `TypedFunctionWrapper.PickSingleOverloadMeaning` | typed_python/compiler/type_wrappers/python_typed_function_wrapper.py:216-250 | a picked overload can match and no earlier one matches implicitly; an explicit pick means no other overload matches implicitly; a pick that only might match is the only overload that might match at all, and an implicit one would otherwise have been promoted; nothing is picked when nothing can match; the first sure implicit match after non-matches is picked |
| `TypedFunctionWrapper.PickFromNone` | typed_python/compiler/type_wrappers/python_typed_function_wrapper.py:227-250 | when no remaining position can match, nothing is picked |
| `TypedFunctionWrapper.PickFromFirstYes` | typed_python/compiler/type_wrappers/python_typed_function_wrapper.py:227-241 | a sure implicit match preceded only by non-matches is returned without explicit conversion |
| `TypedFunctionWrapper.PickFromSkip` | typed_python/compiler/type_wrappers/python_typed_function_wrapper.py:227-229 | positions that cannot match leave the scan's answer unchanged |
| `TypedFunctionWrapper.ScanToExplicit` | typed_python/compiler/type_wrappers/python_typed_function_wrapper.py:227-248 | when only overload `o` might match implicitly, the scan reaches `o`'s explicit position remembering exactly `o`'s own possible implicit match |
| `TypedFunctionWrapper.ExplicitYesPicked` | typed_python/compiler/type_wrappers/python_typed_function_wrapper.py:230-237 | the first explicit sure match, with no other implicit match before, is picked explicitly: both after an implicit pass where nothing matched and as the promotion of the overload's own possible implicit match |
| `TypedFunctionWrapper.OnlyPossibleOverloadPicked` | typed_python/compiler/type_wrappers/python_typed_function_wrapper.py:242-250 | the only overload that might match in either pass, and surely matches in neither, is picked, explicitly iff it might match explicitly |
| `TypedFunctionWrapper.TwoCandidatesNone` | typed_python/compiler/type_wrappers/python_typed_function_wrapper.py:230-248 | two different overloads that might match, with no sure match scanned before the second, give no pick |
| `TypedFunctionWrapper.DeterminePossibleReturnTypes` | typed_python/compiler/type_wrappers/python_typed_function_wrapper.py:191-214 | the two-pass loop yields exactly the `ReturnTypesFrom` specification |
| `TypedFunctionWrapper.ReturnTypesMeaning` | typed_python/compiler/type_wrappers/python_typed_function_wrapper.py:191-214 | a type is possible iff some position that might match contributes it, up to and including the first sure match |
| `TypedFunctionWrapper.ReturnTypeSource` | typed_python/compiler/type_wrappers/python_typed_function_wrapper.py:195-212 | every collected type comes from a reached position that might match |
| `TypedFunctionWrapper.ReturnTypeIncluded` | typed_python/compiler/type_wrappers/python_typed_function_wrapper.py:195-212 | every type contributed by a reached position that might match is collected |
| `TypedFunctionWrapper.CallSignatureFor` | typed_python/compiler/type_wrappers/python_typed_function_wrapper.py:68-109 | fails iff the argument counts differ; otherwise keeps names, defaults and flags, gives every argument a type (its filter, or the actual type when unfiltered), and returns the declared type or `object` |
| `TypedFunctionWrapper.PickCallSignatureToImplement` | typed_python/compiler/type_wrappers/python_typed_function_wrapper.py:68-109 | the argument loop yields exactly `CallSignatureFor` |
| `TypedFunctionWrapper.SpecializationIdempotent` | typed_python/compiler/type_wrappers/python_typed_function_wrapper.py:89-102 | specialising an already specialised signature for the same arguments gives it back |
| `TypedFunctionWrapper.CompileCall` | typed_python/compiler/type_wrappers/python_typed_function_wrapper.py:111-163 | a single-overload target is the sole candidate with its compiled output type; a dispatcher appears only when no single overload is picked, and carries the merged possible return types |
| `TypedFunctionWrapper.ConvertCall` | typed_python/compiler/type_wrappers/python_typed_function_wrapper.py:36-66 | refuses keyword arguments; runs a lone no-compile overload in the interpreter, with no value when that call yields none and otherwise converted to its declared type or `object`; otherwise calls the target `CompileCallSpec` finds, or raises TypeError when there is none |
| `ServiceManager.TimestampToFileString` | object_database/service_manager/SubprocessServiceManager.py:31-41 | the time stamp never contains `-`, so it cannot disturb the log-name split |
| `ServiceManager.TimestampFields` | object_database/service_manager/SubprocessServiceManager.py:31-41 | for four-digit years, the stamp is 19 characters `YYYYMMDD_HHMMSS_mmm` with each field at its place, holding the field's value |
| `ServiceManager.ParseLogfileToInstanceid` | object_database/service_manager/SubprocessServiceManager.py:43-46 | no identity iff the name lacks the `.log.txt` suffix or has no `-`; otherwise a dash-free identity with the name ending in `-<identity>.log.txt` |
| `ServiceManager.LogfileNameRoundTrip` | object_database/service_manager/SubprocessServiceManager.py:43-46 | parsing the name `_startServiceWorker` builds gives back the instance identity, whatever the service name and stamp |
| `ServiceManager.Reap` | object_database/service_manager/SubprocessServiceManager.py:118-121 | keeps exactly the handles whose process has not exited, unchanged |
| `ServiceManager.DropOverdue` | object_database/service_manager/SubprocessServiceManager.py:124-132 | keeps exactly the handles whose instance is not past its shutdown grace period at the clock reading taken for it, unchanged |
| `ServiceManager.SubprocessServiceManager.constructor` | object_database/service_manager/SubprocessServiceManager.py:48-65 | starts with no worker handles and the given log directory contents |
| `ServiceManager.SubprocessServiceManager.StartServiceWorker` | object_database/service_manager/SubprocessServiceManager.py:67-104 | a no-op for a known identity; otherwise creates the stamped log file (when logging to a directory) and records the handle when the spawn succeeds |
| `ServiceManager.SubprocessServiceManager.Stop` | object_database/service_manager/SubprocessServiceManager.py:106-115 | forgets every handle and leaves log files alone |
| `ServiceManager.SubprocessServiceManager.Cleanup` | object_database/service_manager/SubprocessServiceManager.py:117-134 | the handles become the reaped and then overdue-filtered map, each instance judged at its own clock reading, and log files are retired against that map |
| `ServiceManager.SubprocessServiceManager.CleanupOldLogfiles` | object_database/service_manager/SubprocessServiceManager.py:136-144 | exactly the retired files move from the top level to `old/`; nothing moves without a log directory |
| `ServiceManager.CleanupLeavesNoStaleHandle` | object_database/service_manager/SubprocessServiceManager.py:117-134 | after a sweep every handle is an original one, not exited and not overdue, and every such original handle survives |
| `ServiceManager.CleanupIdempotent` | object_database/service_manager/SubprocessServiceManager.py:117-144 | a second sweep with the same observations removes no handle and retires no file |
| `ServiceManager.LiveWorkerLogKept` | object_database/service_manager/SubprocessServiceManager.py:136-144 | the log file of a worker that still has a handle is never retired |
| `ServiceManager.OrphanLogsRetired` | object_database/service_manager/SubprocessServiceManager.py:136-144 | every log file of an identity without a handle ends up in `old/` and not at the top level |
| `TcpServer.ServerToClientProtocol.constructor` | object_database/tcp_server.py:17-20 | a live connection with no handler, nothing sent or delivered |
| `TcpServer.ServerToClientProtocol.SetClientToServerHandler` | object_database/tcp_server.py:22-23 | installs the handler |
| `TcpServer.ServerToClientProtocol.MessageReceived` | object_database/tcp_server.py:25-26 | hands the message to the installed handler; fails when none is installed |
| `TcpServer.ServerToClientProtocol.OnConnected` | object_database/tcp_server.py:28-29 | registers the connection with the database server |
| `TcpServer.ServerToClientProtocol.Write` | object_database/tcp_server.py:31-33 | sends iff the connection is not dead |
| `TcpServer.ServerToClientProtocol.ConnectionLost` | object_database/tcp_server.py:35-37 | marks the connection dead and schedules one more drop |
| `TcpServer.ServerToClientProtocol.CompleteDropConnection` | object_database/tcp_server.py:39-40 | tells the database server to drop the connection |
| `TcpServer.ServerToClientProtocol.Close` | object_database/tcp_server.py:42-44 | marks the connection dead and closes the transport |
| `TcpServer.ClientToServerProtocol.constructor` | object_database/tcp_server.py:47-56 | no handler, an empty buffer, connected, heartbeating |
| `TcpServer.ClientToServerProtocol.StopHeartbeating` | object_database/tcp_server.py:58-59 | sets the stop-heartbeating flag |
| `TcpServer.ClientToServerProtocol.SetServerToClientHandler` | object_database/tcp_server.py:61-66 | hands every buffered message to the new handler in arrival order and retires the buffer; afterwards the handler has been given every message that arrived |
| `TcpServer.ClientToServerProtocol.MessageReceived` | object_database/tcp_server.py:68-73 | buffers the message while there is no handler, otherwise submits it to the handler; no message is lost or reordered |
| `TcpServer.ClientToServerProtocol.OnConnected` | object_database/tcp_server.py:75-76 | schedules the first heartbeat |
| `TcpServer.ClientToServerProtocol.Heartbeat` | object_database/tcp_server.py:78-81 | sends a heartbeat and reschedules iff neither disconnected nor told to stop |
| `TcpServer.ClientToServerProtocol.ConnectionLost` | object_database/tcp_server.py:83-85 | marks the connection disconnected and feeds `Disconnected` through the receive path |
| `TcpServer.ClientToServerProtocol.Write` | object_database/tcp_server.py:87-88 | submits the message for sending |
| `TcpServer.EventLoopInThread.constructor` | object_database/tcp_server.py:91-95 | not started |
| `TcpServer.EventLoopInThread.Start` | object_database/tcp_server.py:102-105 | however often it is called, the thread is started exactly once |
| `TcpServer.TcpServer.constructor` | object_database/tcp_server.py:157-164 | not stopped and not listening |
| `TcpServer.TcpServer.Start` | object_database/tcp_server.py:166-174 | listens and schedules the first sweep |
| `TcpServer.TcpServer.CheckHeartbeatsCallback` | object_database/tcp_server.py:176-179 | sweeps and reschedules iff the server is not stopped |
| `TcpServer.TcpServer.Stop` | object_database/tcp_server.py:181-186 | marks the server stopped and closes a listening socket |
| `TcpServer.BackoffMicros` | object_database/tcp_server.py:141 | the sleep is at most the timeout, and otherwise at least a hundredth of it and at least 10 ms |
| `TcpServer.InitWaitMs` | object_database/tcp_server.py:147 | the handshake wait is the remaining timeout, never negative |
| `TcpServer.Connect` | object_database/tcp_server.py:127-151 | the retry loop yields exactly the `ConnectFrom` specification |
| `TcpServer.ConnectFromMeaning` | object_database/tcp_server.py:127-151 | the named attempt is the first that connected or gave up; every earlier one failed early enough to retry; one backoff sleep follows each failure; the handshake wait is never negative |
| `TcpServer.NoRetryFailsImmediately` | object_database/tcp_server.py:138-140 | without retry, a refused first attempt is re-raised at once, with no sleep |
| `TcpServer.RetryReachesListener` | object_database/tcp_server.py:131-141 | with retry, the first accepting attempt is reached when every earlier failure came within 80% of the timeout |
| `NativeFunctionContext.NativeFunctionConversionContext.constructor` | nativepython/native_function_conversion_context.py:25-31 | the counter starts at zero; types and identity are kept |
| `NativeFunctionContext.NativeFunctionConversionContext.LetVarname` | nativepython/native_function_conversion_context.py:37-39 | bumps the counter and returns `.var_<counter>`, so names never repeat (see `VarNameInjective`) |
| `NativeFunctionContext.NativeFunctionConversionContext.StackVarname` | nativepython/native_function_conversion_context.py:41-42 | shares the counter and naming of `let` variables |
| `NativeFunctionContext.NativeFunctionConversionContext.TypesAreUnstable` | nativepython/native_function_conversion_context.py:44-45 | native helpers never report unstable types |
| `NativeFunctionContext.NativeFunctionConversionContext.CurrentReturnType` | nativepython/native_function_conversion_context.py:53-54 | the return type is the fixed output type |
| `NativeFunctionContext.NativeFunctionConversionContext.ConvertToNativeFunction` | nativepython/native_function_conversion_context.py:50-51 | pairs the built signature with the unchanged output type |
| `NativeFunctionContext.VarNameInjective` | nativepython/native_function_conversion_context.py:37-39 | distinct counter values give distinct variable names |
| `NativeFunctionContext.ArgNameInjective` | nativepython/native_function_conversion_context.py:68-77 | distinct input indices give distinct argument names |
| `NativeFunctionContext.InputArgs` | nativepython/native_function_conversion_context.py:68-70 | one slot per input: an empty type gets a null POD, any other type an argument named `a_<i>` |
| `NativeFunctionContext.NonEmptyIndices` | nativepython/native_function_conversion_context.py:74-77 | exactly the indices of the non-empty inputs, in increasing order |
| `NativeFunctionContext.GetFunctionShape` | nativepython/native_function_conversion_context.py:56-90 | `.return` comes first, with a Void result, exactly when the output is passed by reference; then there is an `a_<i>` argument with its passing type iff input `i` is non-empty, in input order |
| `NativeFunctionContext.NativeArgsMembership` | nativepython/native_function_conversion_context.py:56-90 | input `i` gets a native argument, named `a_<i>` with its passing type, iff it is non-empty |
| `NativeFunctionContext.GetFunctionNamesDistinct` | nativepython/native_function_conversion_context.py:74-82 | no two native arguments share a name |
| `NativeFunctionContext.NativeArgNamesDistinct` | nativepython/native_function_conversion_context.py:74-77 | every input argument name starts with `a`, and no two input arguments share a name |

## Left out

- Sockets, the asyncio event loop, threads and locks are not modelled. Callbacks handed to the loop are recorded in submission order, not run. `create_connection`/`create_server` and their 10-second result waits become parameters.
- The database server's `addConnection`, `dropConnection` and `checkForDeadConnections`, the `Server` base class, and `DatabaseConnection` live outside the modelled files. They appear only as flags and counters.
- `TcpServer.connect(useSecondaryLoop)` and `__enter__`/`__exit__` are thin wrappers and are not modelled.
- `TcpServer.Connect`: the model takes one elapsed-time reading per attempt. The code reads the clock again for the handshake wait. The model's `NoMoreAttempts` outcome only marks the end of a finite list of attempt results.
- `TcpServer.ServerToClientProtocol.MessageReceived` with no handler: the code fails with an attribute error. The model returns `false` instead.
- `TcpServer.ClientToServerProtocol.SetServerToClientHandler` on a second call: the code replaces the handler and then fails with a TypeError, iterating over the retired buffer. The model replaces the handler and returns `false` instead.
- `subprocess.Popen`, `terminate`, `wait`, `poll`, `os.listdir`, `shutil.move`, `os.makedirs`, opening files and `logging` are not modelled. Process exits and the current time are parameters, and the log directory is a set of file names.
- `ServiceManager.SubprocessServiceManager.StartServiceWorker`: a failed spawn still leaves the log file created, as in the code. The exception itself is not modelled.
- `ServiceManager.SubprocessServiceManager.constructor`: the model has only a boolean for whether a log directory is configured, and leaves out the empty name. The code tests `is not None` before creating the directory (object_database/service_manager/SubprocessServiceManager.py:56-58, where `os.makedirs("")` raises) and before opening a worker's log file (:74-75, which with an empty name opens it in the working directory), but tests truthiness at :92 and :137, where an empty name counts as no directory.
- `ServiceManager.SubprocessServiceManager.Stop`: `stopAllServices` and the `ServiceManager` base class are not part of this model.
- `ServiceManager.TimestampToFileString`: `time.localtime` is a parameter. Years below 1000 are rendered space-padded, as `%4d` does, but `TimestampFields` covers only four-digit years.
- `Internals.MakeFunctionType`: rebuilding a typed function that has non-global closures (`assumeClosuresGlobal`) is not modelled. Such a function comes back as it is. Forward-type resolution in `typeFilter` is not modelled either.
- `Internals.AddOverloads`: the C++ `_types.Function(a, b)` merge is assumed to concatenate the overload lists, earlier first. The C++ code is not part of this model.
- The `_types.Class` and `_types.Function` constructors are represented by the records they receive. The order of the names in the method, static-method and property tables is not stated: the model keeps them in order of first definition, but the lemmas describe each name's entry only.
- `Internals.NewClass`: on the plain-class path only the `__name__` keyword is modelled, and it is refused; other class keywords are not modelled. `Member`'s default-value checks and `Member.__eq__` are not modelled.
- `Internals.ArgRepr`: `str` of a type and of a value are parameters. Only the prefix and name placement are stated.
- `Internals.FunctionOverload`: code objects, globals, closures and `realizedGlobals` are not modelled.
- `TypedFunctionWrapper`: `can_convert_to_type`, `converter.convert`, `OneOfWrapper.mergeTypes` and whether the interpreter call yields a value are parameters. `defineNativeFunction` is assumed to succeed. `generateMethodImplementation` and the printed diagnostic are not modelled.
- `NativeFunctionContext.NativeFunctionConversionContext.ConvertToNativeFunction`: the function body, produced by the generating callback through an `ExpressionConversionContext`, is not part of this model. Only the signature is built.
