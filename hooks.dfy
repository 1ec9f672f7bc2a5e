// Installing a hook: the Object[] argument list that initZygote hands to
// findAndHookMethod (the method's parameter types, then one callback), how
// that list is read back as a call-site, and the host's hook table.

module Hooks {
  import opened Reflection
  import opened Callbacks

  /** One element of the varargs list of findAndHookMethod. */
  datatype HookArg = ParamType(typeName: string) | Callback(behavior: Replacement)

  /** What the host makes of a well-formed varargs list. */
  datatype HookRequest = HookRequest(parameterTypes: seq<string>, callback: Replacement)

  /** An installed hook: the exact call-site and its replacement callback. */
  datatype HookRecord = HookRecord(site: CallSite, callback: Replacement)

  /** The list initZygote builds for a matched method: its parameter types,
      in order, followed by exactly one replacement callback. */
  function HookParams(parameterTypes: seq<string>, callback: Replacement): (params: seq<HookArg>)
    ensures |params| == |parameterTypes| + 1
    ensures forall i :: 0 <= i < |parameterTypes| ==> params[i] == ParamType(parameterTypes[i])
    ensures params[|parameterTypes|] == Callback(callback)
    ensures forall i :: 0 <= i < |params| && params[i].Callback? ==> i == |parameterTypes|
  {
    seq(|parameterTypes|, i requires 0 <= i < |parameterTypes| => ParamType(parameterTypes[i]))
      + [Callback(callback)]
  }

  /** How the host reads the varargs list: the last element must be the
      callback and every earlier one a parameter type. */
  function SplitHookArgs(args: seq<HookArg>): Option<HookRequest>
  {
    if |args| == 0 || !args[|args| - 1].Callback? then None
    else if exists i :: 0 <= i < |args| - 1 && args[i].Callback? then None
    else Some(HookRequest(
      seq(|args| - 1, i requires 0 <= i < |args| - 1 => args[i].typeName),
      args[|args| - 1].behavior))
  }

  /** Reading back the list initZygote builds gives its parts back. */
  lemma SplitHookParams(parameterTypes: seq<string>, callback: Replacement)
    ensures SplitHookArgs(HookParams(parameterTypes, callback)) == Some(HookRequest(parameterTypes, callback))
  {
    var params := HookParams(parameterTypes, callback);
    var types := seq(|params| - 1, i requires 0 <= i < |params| - 1 => params[i].typeName);
    assert types == parameterTypes;
  }

  /** Every list the host accepts is one initZygote can build. */
  lemma SplitHookArgsInverse(args: seq<HookArg>)
    requires SplitHookArgs(args).Some?
    ensures var req := SplitHookArgs(args).value;
      HookParams(req.parameterTypes, req.callback) == args
  {
  }

  /** findAndHookMethod(className, null, methodName, args...): resolve the
      class, split the list, and install unless the runtime refuses the call-site. */
  function HookCall(host: Host, className: string, methodName: string, args: seq<HookArg>): Result<HookRecord>
  {
    if className !in host.declaredMethods then Err(ClassNotFound(className))
    else match SplitHookArgs(args)
      case None => Err(IllegalArgument)
      case Some(req) =>
        var site := CallSite(className, methodName, req.parameterTypes);
        if site in host.refused then Err(HookFailed(site))
        else Ok(HookRecord(site, req.callback))
  }

  /** For a list built by HookParams on a resolvable class, installation
      fails exactly when the runtime refuses that call-site, and otherwise
      records the given name, parameter types and callback. */
  lemma HookCallOnBuiltParams(host: Host, className: string, methodName: string,
                              parameterTypes: seq<string>, callback: Replacement)
    requires className in host.declaredMethods
    ensures var site := CallSite(className, methodName, parameterTypes);
      HookCall(host, className, methodName, HookParams(parameterTypes, callback))
        == if site in host.refused then Err(HookFailed(site)) else Ok(HookRecord(site, callback))
  {
    SplitHookParams(parameterTypes, callback);
  }

  /** The host's process-wide hook table, which findAndHookMethod extends. */
  class HookTable {
    var hooks: seq<HookRecord>

    constructor ()
      ensures hooks == []
    {
      hooks := [];
    }

    method FindAndHookMethod(host: Host, className: string, methodName: string, args: seq<HookArg>)
      returns (r: Result<HookRecord>)
      modifies this
      ensures r == HookCall(host, className, methodName, args)
      ensures hooks == old(hooks) + (if r.Ok? then [r.value] else [])
    {
      r := HookCall(host, className, methodName, args);
      if r.Ok? {
        hooks := hooks + [r.value];
      }
    }
  }
}
