// Method metadata as Java reflection reports it, and the two host
// capabilities the hook engine consumes: class lookup with method
// enumeration, and the class hierarchy question "is this class assignable
// to java.util.List".

module Reflection {

  /** A java.lang.reflect.Type: a plain class, a parameterized type such as
      List<X509Certificate>, or anything else (type variable, wildcard,
      generic array), which never equals a class. */
  datatype JType =
    | ClassType(name: string)
    | ParameterizedType(rawType: string, typeArguments: seq<JType>)
    | OtherType(description: string)

  /** What the engine reads of a java.lang.reflect.Method. */
  datatype MethodInfo = MethodInfo(
    name: string,
    parameterTypes: seq<string>,
    returnType: string,
    genericReturnType: JType)

  /** A call-site: owner class, method name and exact parameter types. */
  datatype CallSite = CallSite(className: string, methodName: string, parameterTypes: seq<string>)

  /** The failures that end the bootstrap. */
  datatype Error =
    | ClassNotFound(className: string)   // findClass cannot resolve the owner class
    | IllegalArgument                    // the hook argument list is not parameter types followed by exactly one callback
    | HookFailed(site: CallSite)         // the runtime refuses to hook this call-site

  datatype Result<T> = Ok(value: T) | Err(error: Error)

  datatype Option<T> = None | Some(value: T)

  /** The runtime the module is loaded into: the declared methods of each
      class it can resolve (in the order getDeclaredMethods reports them),
      the List-assignability relation of its class hierarchy, and the
      call-sites it refuses to hook. */
  datatype Host = Host(
    declaredMethods: map<string, seq<MethodInfo>>,
    isListAssignable: string -> bool,
    refused: set<CallSite>)

  /** Stand-in for findClass(name, null).getDeclaredMethods(): a lookup in
      the host's map of resolvable classes. */
  function FindClass(host: Host, className: string): Result<seq<MethodInfo>>
  {
    if className in host.declaredMethods then Ok(host.declaredMethods[className])
    else Err(ClassNotFound(className))
  }
}
