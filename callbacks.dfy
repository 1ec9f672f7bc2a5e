// The four replacement callbacks installed by the bootstrap, and the
// argument rewrite the SSLContext.init replacement performs before it
// forwards to the original method.

module Callbacks {
  import opened Reflection

  /** The four replacement behaviours, one per hooked surface. */
  datatype Replacement =
    | EmptyTrustedChain      // TrustManagerImpl.checkTrustedRecursive: return an empty list
    | SkipChainVerification  // ConscryptFileDescriptorSocket.verifyCertificateChain: return null
    | DiscardSetter          // HttpsURLConnection setters: return null, ignore the argument
    | ForceTrustManager      // SSLContext.init: replace the trust managers, call the original

  /** A trust manager object: the module's own accept-everything manager
      (an opaque token here) or one the application supplied. */
  datatype TrustManager = AlwaysTrust | AppTrustManager(id: nat)

  /** The Java values that flow through the hooked calls. */
  datatype Obj =
    | Null
    | KeyManagerArray(keyManagers: seq<nat>)
    | TrustManagerArray(trustManagers: seq<TrustManager>)
    | SecureRandomObj(id: nat)
    | ListObj(items: seq<Obj>)
    | OtherObj(id: nat)

  /** Exceptions a hooked call can end in. */
  datatype Throwable =
    | ArrayIndexOutOfBounds(index: nat)
    | ClassCast(index: nat)
    | Thrown(id: nat)

  datatype CallResult = Returned(value: Obj) | Threw(exception: Throwable)

  /** The replacement's own trust-manager array: one AlwaysTrust element. */
  const CUSTOM_TRUST_MANAGERS: Obj := TrustManagerArray([AlwaysTrust])

  /** Java reference casts: null passes every cast. */
  predicate IsKeyManagers(o: Obj) { o.Null? || o.KeyManagerArray? }
  predicate IsTrustManagers(o: Obj) { o.Null? || o.TrustManagerArray? }
  predicate IsSecureRandom(o: Obj) { o.Null? || o.SecureRandomObj? }

  /** The first exception the three casting reads of args[0], args[1] and
      args[2] raise, in that order; None when all three succeed. */
  function ReadFailure(args: seq<Obj>): (e: Option<Throwable>)
    ensures e.None? <==>
      |args| >= 3 && IsKeyManagers(args[0]) && IsTrustManagers(args[1]) && IsSecureRandom(args[2])
  {
    if |args| < 1 then Some(ArrayIndexOutOfBounds(0))
    else if !IsKeyManagers(args[0]) then Some(ClassCast(0))
    else if |args| < 2 then Some(ArrayIndexOutOfBounds(1))
    else if !IsTrustManagers(args[1]) then Some(ClassCast(1))
    else if |args| < 3 then Some(ArrayIndexOutOfBounds(2))
    else if !IsSecureRandom(args[2]) then Some(ClassCast(2))
    else None
  }

  /** The arguments SSLContext.init is forwarded with. */
  function RewriteInitArgs(args: seq<Obj>): (r: seq<Obj>)
    requires |args| >= 2
    ensures |r| == |args|
    ensures r[1] == CUSTOM_TRUST_MANAGERS
    ensures forall i :: 0 <= i < |args| && i != 1 ==> r[i] == args[i]
  {
    args[1 := CUSTOM_TRUST_MANAGERS]
  }

  /** Whatever trust managers the application passed (null, none, one or
      many), init is forwarded with the same key managers and randomness
      source and exactly the one accept-everything manager. */
  lemma RewriteKeepsKeyManagersAndRandom(km: Obj, tms: Obj, random: Obj)
    requires IsKeyManagers(km) && IsTrustManagers(tms) && IsSecureRandom(random)
    ensures ReadFailure([km, tms, random]).None?
    ensures RewriteInitArgs([km, tms, random]) == [km, TrustManagerArray([AlwaysTrust]), random]
  {
  }

  /** Xposed's MethodHookParam: the hooked call's method, receiver and
      argument array (param.method, param.thisObject, param.args); a
      callback may overwrite the array's elements in place. */
  class MethodHookParam {
    const hookedMethod: CallSite
    const thisObject: Obj
    const args: array<Obj>

    constructor (hookedMethod: CallSite, thisObject: Obj, args: array<Obj>)
      ensures this.hookedMethod == hookedMethod && this.thisObject == thisObject && this.args == args
    {
      this.hookedMethod := hookedMethod;
      this.thisObject := thisObject;
      this.args := args;
    }
  }

  /** The SSLContext.init replacement: read the three arguments with their
      casts, put a fresh one-element trust-manager array in slot 1 and return
      whatever the original method does with the rewritten arguments.
      invokeOriginal stands for XposedBridge.invokeOriginalMethod. */
  method ReplaceInit(param: MethodHookParam, invokeOriginal: (CallSite, Obj, seq<Obj>) -> CallResult)
    returns (r: CallResult)
    modifies param.args
    ensures var failure := ReadFailure(old(param.args[..]));
      if failure.Some? then
        r == Threw(failure.value) && param.args[..] == old(param.args[..])
      else
        param.args[..] == RewriteInitArgs(old(param.args[..]))
        && r == invokeOriginal(param.hookedMethod, param.thisObject, param.args[..])
  {
    var args := param.args;
    if args.Length < 1 { return Threw(ArrayIndexOutOfBounds(0)); }
    if !IsKeyManagers(args[0]) { return Threw(ClassCast(0)); }
    if args.Length < 2 { return Threw(ArrayIndexOutOfBounds(1)); }
    if !IsTrustManagers(args[1]) { return Threw(ClassCast(1)); }
    if args.Length < 3 { return Threw(ArrayIndexOutOfBounds(2)); }
    if !IsSecureRandom(args[2]) { return Threw(ClassCast(2)); }
    args[1] := CUSTOM_TRUST_MANAGERS;
    r := invokeOriginal(param.hookedMethod, param.thisObject, args[..]);
  }

  /** Dispatch of an installed callback: three behaviours return a constant
      and never read or change the arguments; the fourth is ReplaceInit. */
  method ReplaceHookedMethod(behavior: Replacement, param: MethodHookParam,
                             invokeOriginal: (CallSite, Obj, seq<Obj>) -> CallResult)
    returns (r: CallResult)
    modifies param.args
    ensures behavior == EmptyTrustedChain ==> r == Returned(ListObj([])) && unchanged(param.args)
    ensures behavior in {SkipChainVerification, DiscardSetter} ==> r == Returned(Null) && unchanged(param.args)
    ensures behavior == ForceTrustManager ==>
      var failure := ReadFailure(old(param.args[..]));
      if failure.Some? then
        r == Threw(failure.value) && param.args[..] == old(param.args[..])
      else
        param.args[..] == RewriteInitArgs(old(param.args[..]))
        && r == invokeOriginal(param.hookedMethod, param.thisObject, param.args[..])
  {
    match behavior
    case EmptyTrustedChain => r := Returned(ListObj([]));
    case SkipChainVerification => r := Returned(Null);
    case DiscardSetter => r := Returned(Null);
    case ForceTrustManager => r := ReplaceInit(param, invokeOriginal);
  }
}
