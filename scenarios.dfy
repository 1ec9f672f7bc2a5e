// Runs of the bootstrap on small host shapes: the expected counts for one
// conforming overload, a conforming and a mismatched overload, the three
// HTTPS setters, and a missing SSLContext class.

module Scenarios {
  import opened Reflection
  import opened Matcher
  import opened Callbacks
  import opened Hooks
  import opened Bootstrap

  const LIST: string := "java.util.List"
  const STRING_TYPE: JType := ClassType("java.lang.String")

  /** checkTrustedRecursive returning List<X509Certificate>. */
  function Conforming(parameterTypes: seq<string>): MethodInfo
  {
    MethodInfo(SSL_METHOD_NAME, parameterTypes, LIST, ParameterizedType(LIST, [SSL_RETURN_PARAM_TYPE]))
  }

  /** checkTrustedRecursive returning List<String>. */
  function WrongElement(parameterTypes: seq<string>): MethodInfo
  {
    MethodInfo(SSL_METHOD_NAME, parameterTypes, LIST, ParameterizedType(LIST, [STRING_TYPE]))
  }

  /** One correctly shaped overload: exactly one hook, on that overload. */
  lemma OneConformingOverload(host: Host, ps: seq<string>)
    requires SSL_CLASS_NAME in host.declaredMethods
    requires host.declaredMethods[SSL_CLASS_NAME] == [Conforming(ps)]
    requires host.isListAssignable(LIST)
    requires CallSite(SSL_CLASS_NAME, SSL_METHOD_NAME, ps) !in host.refused
    ensures SurfaceStep(host, TRUST_MANAGER_IMPL)
      == Run([HookRecord(CallSite(SSL_CLASS_NAME, SSL_METHOD_NAME, ps), EmptyTrustedChain)], Completed)
  {
    var ms := [Conforming(ps)];
    assert ms[..0] == [];
    assert Selected(TRUST_MANAGER_IMPL, ms, host.isListAssignable) == [Conforming(ps)];
    assert Hookable(host, TRUST_MANAGER_IMPL);
    HookableSurfaceCompletes(host, TRUST_MANAGER_IMPL);
  }

  /** A conforming overload and one with the element type String: only the
      conforming one is hooked. */
  lemma MismatchedOverloadSkipped(host: Host, ps1: seq<string>, ps2: seq<string>)
    requires SSL_CLASS_NAME in host.declaredMethods
    requires host.declaredMethods[SSL_CLASS_NAME] == [Conforming(ps1), WrongElement(ps2)]
    requires host.isListAssignable(LIST)
    requires CallSite(SSL_CLASS_NAME, SSL_METHOD_NAME, ps1) !in host.refused
    ensures SurfaceStep(host, TRUST_MANAGER_IMPL)
      == Run([HookRecord(CallSite(SSL_CLASS_NAME, SSL_METHOD_NAME, ps1), EmptyTrustedChain)], Completed)
  {
    var ms := [Conforming(ps1), WrongElement(ps2)];
    assert ms[..1] == [Conforming(ps1)] && ms[..1][..0] == [];
    assert STRING_TYPE.name[5] != SSL_RETURN_PARAM_TYPE.name[5];
    assert !CheckSSLMethod(WrongElement(ps2), host.isListAssignable);
    assert Selected(TRUST_MANAGER_IMPL, ms[..1], host.isListAssignable) == [Conforming(ps1)];
    assert Selected(TRUST_MANAGER_IMPL, ms, host.isListAssignable) == [Conforming(ps1)];
    assert Hookable(host, TRUST_MANAGER_IMPL);
    HookableSurfaceCompletes(host, TRUST_MANAGER_IMPL);
  }

  function Setter(name: string, parameterType: string): MethodInfo
  {
    MethodInfo(name, [parameterType], "void", ClassType("void"))
  }

  /** HttpsURLConnection declaring the three setters and a getter: three
      no-op hooks, one per setter, each on the setter's own name. */
  lemma ThreeSetterHooks(host: Host)
    requires HTTPS_URL_CONNECTION.className in host.declaredMethods
    requires host.declaredMethods[HTTPS_URL_CONNECTION.className] == [
      Setter("setHostnameVerifier", "javax.net.ssl.HostnameVerifier"),
      Setter("setSSLSocketFactory", "javax.net.ssl.SSLSocketFactory"),
      Setter("setDefaultHostnameVerifier", "javax.net.ssl.HostnameVerifier"),
      MethodInfo("getHostnameVerifier", [], "javax.net.ssl.HostnameVerifier", ClassType("javax.net.ssl.HostnameVerifier"))]
    requires host.refused == {}
    ensures var run := SurfaceStep(host, HTTPS_URL_CONNECTION);
      && run.outcome == Completed
      && run.installed == [
        HookRecord(CallSite(HTTPS_URL_CONNECTION.className, "setHostnameVerifier", ["javax.net.ssl.HostnameVerifier"]), DiscardSetter),
        HookRecord(CallSite(HTTPS_URL_CONNECTION.className, "setSSLSocketFactory", ["javax.net.ssl.SSLSocketFactory"]), DiscardSetter),
        HookRecord(CallSite(HTTPS_URL_CONNECTION.className, "setDefaultHostnameVerifier", ["javax.net.ssl.HostnameVerifier"]), DiscardSetter)]
  {
    var c := HTTPS_URL_CONNECTION.className;
    var ms := host.declaredMethods[c];
    var s := HTTPS_URL_CONNECTION;
    SetterFilter(host.isListAssignable);
    SelectedOfFour(s, ms, host.isListAssignable);
    assert Hookable(host, s);
    HookableSurfaceCompletes(host, s);
    var p := SurfacePlan(host, s);
    assert p == [Expected(s, ms[0]), Expected(s, ms[1]), Expected(s, ms[2])];
  }

  /** Which of the declared HttpsURLConnection methods the filter keeps. */
  lemma SetterFilter(isListAssignable: string -> bool)
    ensures Selects(HTTPS_URL_CONNECTION.filter, Setter("setHostnameVerifier", "javax.net.ssl.HostnameVerifier"), isListAssignable)
    ensures Selects(HTTPS_URL_CONNECTION.filter, Setter("setSSLSocketFactory", "javax.net.ssl.SSLSocketFactory"), isListAssignable)
    ensures Selects(HTTPS_URL_CONNECTION.filter, Setter("setDefaultHostnameVerifier", "javax.net.ssl.HostnameVerifier"), isListAssignable)
    ensures !Selects(HTTPS_URL_CONNECTION.filter,
      MethodInfo("getHostnameVerifier", [], "javax.net.ssl.HostnameVerifier", ClassType("javax.net.ssl.HostnameVerifier")), isListAssignable)
  {
    assert "getHostnameVerifier"[0] != "setHostnameVerifier"[0];
    assert "getHostnameVerifier"[0] != "setSSLSocketFactory"[0];
    assert "getHostnameVerifier"[0] != "setDefaultHostnameVerifier"[0];
  }

  /** Four enumerated methods of which the filter keeps the first three. */
  lemma SelectedOfFour(s: Surface, ms: seq<MethodInfo>, isListAssignable: string -> bool)
    requires |ms| == 4
    requires Selects(s.filter, ms[0], isListAssignable) && Selects(s.filter, ms[1], isListAssignable)
    requires Selects(s.filter, ms[2], isListAssignable) && !Selects(s.filter, ms[3], isListAssignable)
    ensures Selected(s, ms, isListAssignable) == [ms[0], ms[1], ms[2]]
  {
    assert ms[..3][..2][..1][..0] == [];
    assert ms[..3][..2][..1] == ms[..1];
    assert ms[..3][..2] == ms[..2];
    assert Selected(s, ms[..1], isListAssignable) == [ms[0]];
    assert Selected(s, ms[..2], isListAssignable) == [ms[0], ms[1]];
    assert Selected(s, ms[..3], isListAssignable) == [ms[0], ms[1], ms[2]];
  }

  /** The SSLContext class does not resolve while the other three surfaces
      are hookable: the first three plans are installed and the bootstrap
      fails with ClassNotFound for javax.net.ssl.SSLContext. */
  lemma MissingSSLContextAborts(host: Host)
    requires Hookable(host, TRUST_MANAGER_IMPL) && Hookable(host, FILE_DESCRIPTOR_SOCKET)
    requires Hookable(host, HTTPS_URL_CONNECTION)
    requires SSL_CONTEXT.className !in host.declaredMethods
    ensures BootstrapRun(host) == Run(
      SurfacePlan(host, TRUST_MANAGER_IMPL) + SurfacePlan(host, FILE_DESCRIPTOR_SOCKET) + SurfacePlan(host, HTTPS_URL_CONNECTION),
      Aborted(ClassNotFound("javax.net.ssl.SSLContext")))
  {
    var s0 := [TRUST_MANAGER_IMPL, FILE_DESCRIPTOR_SOCKET, HTTPS_URL_CONNECTION];
    var s1 := [FILE_DESCRIPTOR_SOCKET, HTTPS_URL_CONNECTION];
    var s2 := [HTTPS_URL_CONNECTION];
    assert SURFACES[..3] == s0 && s0[1..] == s1 && s1[1..] == s2 && s2[1..] == [];
    assert FullPlan(host, s2) == SurfacePlan(host, HTTPS_URL_CONNECTION);
    assert FullPlan(host, s1) == SurfacePlan(host, FILE_DESCRIPTOR_SOCKET) + FullPlan(host, s2);
    assert FullPlan(host, s0) == SurfacePlan(host, TRUST_MANAGER_IMPL) + FullPlan(host, s1);
    AbortingSurfaceEndsRun(host, SURFACES, 3);
  }
}
