# TrustMeAlready hook engine, modelled in Dafny

TrustMeAlready is an Xposed module. When the Android zygote starts, its
`initZygote` installs method replacements on four parts of the platform TLS
stack, so that every certificate chain is accepted:

1. `com.android.org.conscrypt.TrustManagerImpl`: every `checkTrustedRecursive`
   overload that passes the signature matcher `checkSSLMethod` is replaced by
   one that returns an empty certificate list.
2. `com.android.org.conscrypt.ConscryptFileDescriptorSocket`: every
   `verifyCertificateChain` overload is replaced by one that returns `null`.
3. `javax.net.ssl.HttpsURLConnection`: `setHostnameVerifier`,
   `setSSLSocketFactory` and `setDefaultHostnameVerifier` become no-ops.
4. `javax.net.ssl.SSLContext`: every `init` overload is replaced by a callback.
   The callback puts a one-element array holding the module's own trust
   manager into argument slot 1, then calls the original method.

Each installation bumps the counter `hookedMethods`. The first failure, from
`findClass` or from `findAndHookMethod`, propagates out of `initZygote`.

The project has six modules:

- `Reflection` (`reflection.dfy`) holds the method metadata: name, parameter
  types, return class and generic return type. It also holds the host runtime
  as a value. That value gives the declared methods of each resolvable class,
  the "assignable to `List`" relation as an abstract predicate, and the
  call-sites the runtime refuses to hook.
- `Matcher` (`matcher.dfy`) holds `checkSSLMethod` as a guard chain, and the
  surface filters.
- `Callbacks` (`callbacks.dfy`) holds the four replacement behaviours and the
  in-place rewrite of `param.args` that `SSLContext.init` performs.
- `Hooks` (`hooks.dfy`) holds the `Object[]` list given to
  `findAndHookMethod`, how the host reads it back, and the host's hook table
  as a class that `FindAndHookMethod` extends.
- `Bootstrap` (`bootstrap.dfy`) holds the reference semantics of the bootstrap
  as functions (`SurfaceRun`, `RunSurfaces`, `BootstrapRun`) and the plan of
  hooks that each surface should receive (`Plan`, `FullPlan`). It also holds
  the imperative `InitZygote`, proved against them, and the lemmas connecting
  the runs to the plans.
- `Scenarios` (`scenarios.dfy`) holds lemmas over small host shapes (every host
  that declares the listed methods) and the runs they give.

The four `for` loops of `initZygote` have the same shape. Each is modelled by
one method, `HookSurface`. It takes a `Surface` descriptor that records what
differs between the loops: the class name, the filter, the callback, and the
method name passed to `findAndHookMethod`. That name is a constant in loops 1,
2 and 4 and `method.getName()` in loop 3. `InitZygote` calls `HookSurface`
four times, in the source's order, with an early return after any failure.

The model follows Main.java, where:

- `checkSSLMethod` does not check parameter arity.
- The socket replacement returns `null`.

## Model

| member | source | states |
|---|---|---|
| `Matcher.CheckSSLMethodIsSignature` | app/src/main/java/com/hato/trustmealready/Main.java:125-144 | `checkSSLMethod` accepts a method if and only if all four hold: its name is `checkTrustedRecursive`, its return class is assignable to List, and its generic return type is a parameterized type whose type arguments are exactly `[X509Certificate]`. |
| `Matcher.WrongNameRejected` | app/src/main/java/com/hato/trustmealready/Main.java:126-128 | Any name other than exactly `checkTrustedRecursive` is rejected (case-sensitive), whatever the rest of the signature. |
| `Matcher.NotAListRejected` | app/src/main/java/com/hato/trustmealready/Main.java:130-133 | A return class that is not assignable to List is rejected. |
| `Matcher.RawReturnTypeRejected` | app/src/main/java/com/hato/trustmealready/Main.java:135-139 | A non-parameterized generic return type is rejected, even when the name and the return class match. |
| `Matcher.TypeArgumentsDecide` | app/src/main/java/com/hato/trustmealready/Main.java:141-143 | Once name, class and parameterization pass, the method is accepted if and only if the type arguments are exactly one `X509Certificate`. Another element type, no arguments or extra arguments are rejected. |
| `Bootstrap.SurfaceFilters` | app/src/main/java/com/hato/trustmealready/Main.java:37-93 | TrustManagerImpl keeps exactly the methods `checkSSLMethod` accepts. The socket keeps exactly `verifyCertificateChain`. HttpsURLConnection keeps exactly the three setter names. SSLContext keeps exactly `init`. |
| `Bootstrap.SelectedIsFilter` | app/src/main/java/com/hato/trustmealready/Main.java:36-39 | A method is selected if and only if it is declared and its surface's filter keeps it. The selection is no longer than the declared list and holds no extra copies. |
| `Bootstrap.SelectedMultiplicity` | app/src/main/java/com/hato/trustmealready/Main.java:36-39 | Each overload is taken on its own: a kept method occurs in the selection exactly as often as it is declared, and a method the filter rejects not at all. |
| `Bootstrap.HookedNameIsMethodName` | app/src/main/java/com/hato/trustmealready/Main.java:52-117 | On all four surfaces, the name and parameter types passed to `findAndHookMethod` are the selected method's own. |
| `Hooks.HookParams` | app/src/main/java/com/hato/trustmealready/Main.java:41-43 | The argument list is the method's parameter types in order, followed by exactly one callback as the last element. |
| `Hooks.SplitHookParams` | app/src/main/java/com/hato/trustmealready/Main.java:41-52 | When the host reads back a list built by HookParams, it gets the same parameter types and callback (round trip). |
| `Hooks.SplitHookArgsInverse` | app/src/main/java/com/hato/trustmealready/Main.java:41-52 | Every list the host accepts is the HookParams list of what it reads from it (the other direction of the round trip). |
| `Hooks.HookCallOnBuiltParams` | app/src/main/java/com/hato/trustmealready/Main.java:52 | On a resolvable class, installing with a built list fails exactly when the runtime refuses the call-site. On success it records that name, those parameter types and that callback. |
| `Hooks.HookTable.FindAndHookMethod` | app/src/main/java/com/hato/trustmealready/Main.java:52 | On success the hook table gains exactly the new record. On failure it is unchanged and the error is returned. |
| `Bootstrap.SurfaceRunFollowsPlan` | app/src/main/java/com/hato/trustmealready/Main.java:36-54 | One loop installs a prefix of its plan, in enumeration order. It completes exactly when no planned call-site is refused, and then it has installed the whole plan. Otherwise it stops at the first refused call-site with HookFailed and installs nothing after it. |
| `Bootstrap.AbortIsFinal` | app/src/main/java/com/hato/trustmealready/Main.java:52 | Once a loop has failed, the methods after the failing one change nothing. |
| `Bootstrap.HookableSurfaceCompletes` | app/src/main/java/com/hato/trustmealready/Main.java:36-54 | When a surface's class resolves and none of its selected call-sites is refused, the surface installs all of its plan and completes. |
| `Bootstrap.PlanElements` | app/src/main/java/com/hato/trustmealready/Main.java:36-52 | Every planned hook belongs to a declared method that the filter selects. |
| `Bootstrap.FullPlanElements` | app/src/main/java/com/hato/trustmealready/Main.java:36-120 | Every hook in the four-surface plan belongs to a selected method of one of the surfaces. |
| `Bootstrap.RunFollowsPlan` | app/src/main/java/com/hato/trustmealready/Main.java:32-120 | Over the surfaces in order, the bootstrap installs a prefix of the plan. It completes exactly when every class resolves and no planned call-site is refused, and then it has installed the whole plan. When a class fails to resolve, everything planned before that class is installed. When the runtime refuses a call-site, the run stops at the first refused planned call-site with HookFailed for it. |
| `Bootstrap.NoFailureInstallsEverySelectedMethod` | app/src/main/java/com/hato/trustmealready/Main.java:34-122 | When all four surfaces are hookable, the bootstrap completes and installs the four plans in order. Its count is the sum of the four numbers of selected methods. |
| `Bootstrap.AbortingSurfaceEndsRun` | app/src/main/java/com/hato/trustmealready/Main.java:32-120 | When the surfaces before surface k are hookable and surface k fails, the bootstrap ends with that failure. It has installed the earlier plans plus what surface k installed before failing. No later surface is visited. |
| `Bootstrap.NoSpeculativeHooks` | app/src/main/java/com/hato/trustmealready/Main.java:36-120 | Every installed hook, up to a failure or to the end, is on a selected declared method of one of the four surfaces. It uses that method's own name and parameter types and the surface's callback. |
| `Bootstrap.HookSurface` | app/src/main/java/com/hato/trustmealready/Main.java:36-54 | One loop extends the hook table by exactly the loop's run and adds that run's length to the counter. Its outcome is the run's outcome. |
| `Bootstrap.InitZygote` | app/src/main/java/com/hato/trustmealready/Main.java:32-123 | The counter starts at 0 and ends equal to the number of hooks installed. The hook table grows by exactly `BootstrapRun`. The outcome is completion or the first failure. |
| `Callbacks.ReadFailure` | app/src/main/java/com/hato/trustmealready/Main.java:100-102 | Reading the three casted arguments succeeds exactly when there are at least three and slots 0, 1 and 2 are null or a key-manager array, trust-manager array and SecureRandom respectively. Otherwise the first failing read is reported. |
| `Callbacks.RewriteInitArgs` | app/src/main/java/com/hato/trustmealready/Main.java:104-109 | The forwarded arguments have the original length. Slot 1 is the one-element array of the module's trust manager, and every other slot is unchanged. |
| `Callbacks.RewriteKeepsKeyManagersAndRandom` | app/src/main/java/com/hato/trustmealready/Main.java:100-112 | Whatever trust managers were passed (null, none, one or many), init is forwarded with the same key managers and random source, and exactly one trust manager: the module's own. |
| `Callbacks.ReplaceInit` | app/src/main/java/com/hato/trustmealready/Main.java:98-113 | When a read fails, the exception is thrown and the array is unchanged. Otherwise `param.args` becomes RewriteInitArgs of the old arguments in place, and the result is exactly what the original method returns on them. |
| `Callbacks.ReplaceHookedMethod` | app/src/main/java/com/hato/trustmealready/Main.java:43-114 | The TrustManagerImpl callback returns an empty list. The socket and setter callbacks return null. None of these three touches the arguments. The SSLContext callback is ReplaceInit. |
| `Scenarios.OneConformingOverload` | app/src/main/java/com/hato/trustmealready/Main.java:36-54 | A TrustManagerImpl with one conforming overload gets exactly one hook, on that overload. |
| `Scenarios.MismatchedOverloadSkipped` | app/src/main/java/com/hato/trustmealready/Main.java:36-54 | With one conforming overload and one returning `List<String>`, exactly one hook is installed, on the conforming overload. |
| `Scenarios.ThreeSetterHooks` | app/src/main/java/com/hato/trustmealready/Main.java:73-90 | An HttpsURLConnection with the three setters and a getter gets exactly three no-op hooks, one per setter, under each setter's own name. |
| `Scenarios.MissingSSLContextAborts` | app/src/main/java/com/hato/trustmealready/Main.java:92-120 | When SSLContext does not resolve and the earlier surfaces are hookable, the first three plans are installed and the bootstrap fails with ClassNotFound for `javax.net.ssl.SSLContext`. |

## Left out

- Logging is not modelled, because it is output only. This covers the start line, the "Hooking method:" lines with `method.toString()`, and the final `String.format` summary (lines 33, 50-51, 66-67, 84-85, 115-116, 122).
- InitZygote: returns `hookedMethods` on both paths. In Java the counter is lost when an exception propagates, and the final summary is logged only on completion.
- Xposed and reflection (`findClass`, `getDeclaredMethods`, `findAndHookMethod`, `invokeOriginalMethod`) are not part of this model. They are foreign runtime calls.
  - `findClass(...).getDeclaredMethods()` is the stand-in `FindClass`: a lookup in the host's map of resolvable classes. The lookup gives ClassNotFound for a name the map lacks.
  - `findAndHookMethod` is modelled by `HookCall` with three failure causes: the class does not resolve, the list is not parameter types followed by exactly one callback, or the runtime refuses the call-site. The refused set is an input.
  - The order of `getDeclaredMethods` is whatever the host value lists.
- Java's type system is not modelled. `isAssignableFrom` is the abstract predicate `isListAssignable`. Classes are identified by name, ignoring class loaders. `Type.equals` is datatype equality. No consistency is assumed between a method's return class and its generic return type.
- `com.hato.trustmealready.CustomClass.TrustManager` is not part of this model. The instance placed in `args[1]` is the opaque token `AlwaysTrust`, and its accept-everything checks are not modelled.
- ReplaceInit: the new trust-manager array is a value, not a fresh heap object, so aliasing of that array is not modelled.
- ReplaceInit: the original method is a pure function of the call-site, receiver and arguments. Any change it makes to the argument array, and its other side effects, are not modelled.
- The `StartupParam` argument of `initZygote` is not modelled, because it is never read.
- Concurrency is not modelled. This covers the installed callbacks running concurrently on host threads, and the process-wide effect of the hook table on every caller.
