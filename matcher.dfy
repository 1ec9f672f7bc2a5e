// The signature matcher checkSSLMethod and the name filters that pick the
// methods hooked on each of the four trust-related surfaces.

module Matcher {
  import opened Reflection

  const SSL_CLASS_NAME: string := "com.android.org.conscrypt.TrustManagerImpl"
  const SSL_METHOD_NAME: string := "checkTrustedRecursive"
  const SSL_RETURN_PARAM_TYPE: JType := ClassType("java.security.cert.X509Certificate")

  /** checkSSLMethod: a chain of guards, cheapest first. */
  predicate CheckSSLMethod(m: MethodInfo, isListAssignable: string -> bool)
  {
    if m.name != SSL_METHOD_NAME then false
    else if !isListAssignable(m.returnType) then false
    else if !m.genericReturnType.ParameterizedType? then false
    else
      var args := m.genericReturnType.typeArguments;
      |args| == 1 && args[0] == SSL_RETURN_PARAM_TYPE
  }

  /** The shape checkSSLMethod accepts, stated as one declaration:
      checkTrustedRecursive returning some List<X509Certificate>. */
  ghost predicate IsTrustedRecursiveSignature(m: MethodInfo, isListAssignable: string -> bool)
  {
    && m.name == SSL_METHOD_NAME
    && isListAssignable(m.returnType)
    && exists raw :: m.genericReturnType == ParameterizedType(raw, [SSL_RETURN_PARAM_TYPE])
  }

  /** checkSSLMethod holds exactly for the declared shape. */
  lemma CheckSSLMethodIsSignature(m: MethodInfo, isListAssignable: string -> bool)
    ensures CheckSSLMethod(m, isListAssignable) <==> IsTrustedRecursiveSignature(m, isListAssignable)
  {
    if CheckSSLMethod(m, isListAssignable) {
      var raw := m.genericReturnType.rawType;
      assert m.genericReturnType == ParameterizedType(raw, [SSL_RETURN_PARAM_TYPE]);
    }
  }

  /** Any name other than exactly "checkTrustedRecursive" is rejected. */
  lemma WrongNameRejected(m: MethodInfo, isListAssignable: string -> bool)
    requires m.name != SSL_METHOD_NAME
    ensures !CheckSSLMethod(m, isListAssignable)
  {
  }

  /** A declared return class not assignable to List is rejected. */
  lemma NotAListRejected(m: MethodInfo, isListAssignable: string -> bool)
    requires !isListAssignable(m.returnType)
    ensures !CheckSSLMethod(m, isListAssignable)
  {
  }

  /** A raw generic return type is rejected even when name and class fit. */
  lemma RawReturnTypeRejected(m: MethodInfo, isListAssignable: string -> bool)
    requires m.name == SSL_METHOD_NAME && isListAssignable(m.returnType)
    requires !m.genericReturnType.ParameterizedType?
    ensures !CheckSSLMethod(m, isListAssignable)
  {
  }

  /** A parameterized return type is accepted only with the one type argument
      X509Certificate: another element type, no argument or extra arguments
      are rejected. */
  lemma TypeArgumentsDecide(m: MethodInfo, isListAssignable: string -> bool)
    requires m.name == SSL_METHOD_NAME && isListAssignable(m.returnType)
    requires m.genericReturnType.ParameterizedType?
    ensures CheckSSLMethod(m, isListAssignable) <==> m.genericReturnType.typeArguments == [SSL_RETURN_PARAM_TYPE]
  {
  }

  /** Which declared methods a surface keeps: the full signature check, or
      equality of the name with one of a fixed set of names. */
  datatype Filter = SignatureCheck | NameIn(names: set<string>)

  predicate Selects(f: Filter, m: MethodInfo, isListAssignable: string -> bool)
  {
    match f
    case SignatureCheck => CheckSSLMethod(m, isListAssignable)
    case NameIn(names) => m.name in names
  }
}
