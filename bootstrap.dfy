// initZygote: for four trust-related classes in a fixed order, enumerate
// the declared methods, keep those the surface's filter selects, install a
// hook for each and count the installations. The first failure ends the
// whole bootstrap.

module Bootstrap {
  import opened Reflection
  import opened Matcher
  import opened Callbacks
  import opened Hooks

  /** One hooked surface: the class searched, the filter over its declared
      methods, the method name passed to findAndHookMethod (a constant, or
      None where the source passes method.getName()), and the callback. */
  datatype Surface = Surface(className: string, filter: Filter, hookName: Option<string>, behavior: Replacement)

  const TRUST_MANAGER_IMPL: Surface :=
    Surface(SSL_CLASS_NAME, SignatureCheck, Some(SSL_METHOD_NAME), EmptyTrustedChain)
  const FILE_DESCRIPTOR_SOCKET: Surface :=
    Surface("com.android.org.conscrypt.ConscryptFileDescriptorSocket",
            NameIn({"verifyCertificateChain"}), Some("verifyCertificateChain"), SkipChainVerification)
  const HTTPS_URL_CONNECTION: Surface :=
    Surface("javax.net.ssl.HttpsURLConnection",
            NameIn({"setHostnameVerifier", "setSSLSocketFactory", "setDefaultHostnameVerifier"}), None, DiscardSetter)
  const SSL_CONTEXT: Surface :=
    Surface("javax.net.ssl.SSLContext", NameIn({"init"}), Some("init"), ForceTrustManager)

  /** The order in which initZygote visits the surfaces. */
  const SURFACES: seq<Surface> := [TRUST_MANAGER_IMPL, FILE_DESCRIPTOR_SOCKET, HTTPS_URL_CONNECTION, SSL_CONTEXT]

  function HookedName(s: Surface, m: MethodInfo): string
  {
    if s.hookName.Some? then s.hookName.value else m.name
  }

  /** The hook a selected method should receive. */
  function Expected(s: Surface, m: MethodInfo): HookRecord
  {
    HookRecord(CallSite(s.className, HookedName(s, m), m.parameterTypes), s.behavior)
  }

  /** What each surface's filter keeps: the full signature check on
      TrustManagerImpl, and on the other three exactly the methods with the
      listed names, compared case-sensitively. */
  lemma SurfaceFilters(m: MethodInfo, isListAssignable: string -> bool)
    ensures Selects(TRUST_MANAGER_IMPL.filter, m, isListAssignable) <==> CheckSSLMethod(m, isListAssignable)
    ensures Selects(FILE_DESCRIPTOR_SOCKET.filter, m, isListAssignable) <==> m.name == "verifyCertificateChain"
    ensures Selects(HTTPS_URL_CONNECTION.filter, m, isListAssignable) <==>
      m.name == "setHostnameVerifier" || m.name == "setSSLSocketFactory" || m.name == "setDefaultHostnameVerifier"
    ensures Selects(SSL_CONTEXT.filter, m, isListAssignable) <==> m.name == "init"
  {
  }

  /** On every surface the name handed to findAndHookMethod is the selected
      method's own name. */
  lemma HookedNameIsMethodName(k: nat, m: MethodInfo, isListAssignable: string -> bool)
    requires k < |SURFACES|
    requires Selects(SURFACES[k].filter, m, isListAssignable)
    ensures Expected(SURFACES[k], m).site == CallSite(SURFACES[k].className, m.name, m.parameterTypes)
  {
  }

  datatype Outcome = Completed | Aborted(error: Error)

  /** What a run installed, in order, and how it ended. */
  datatype Run = Run(installed: seq<HookRecord>, outcome: Outcome)

  /** Sequencing: a second stage runs only when the first completed. */
  function Then(first: Run, rest: Run): Run
  {
    if first.outcome.Aborted? then first else Run(first.installed + rest.installed, rest.outcome)
  }

  /** The loop over one class's declared methods, ms in enumeration order. */
  function SurfaceRun(host: Host, s: Surface, ms: seq<MethodInfo>): Run
    decreases |ms|
  {
    if ms == [] then Run([], Completed)
    else
      var prev := SurfaceRun(host, s, ms[..|ms| - 1]);
      var m := ms[|ms| - 1];
      if prev.outcome.Aborted? || !Selects(s.filter, m, host.isListAssignable) then prev
      else match HookCall(host, s.className, HookedName(s, m), HookParams(m.parameterTypes, s.behavior))
        case Err(e) => Run(prev.installed, Aborted(e))
        case Ok(record) => Run(prev.installed + [record], Completed)
  }

  /** One surface: resolve its class, then loop over its declared methods. */
  function SurfaceStep(host: Host, s: Surface): Run
  {
    match FindClass(host, s.className)
    case Err(e) => Run([], Aborted(e))
    case Ok(ms) => SurfaceRun(host, s, ms)
  }

  function RunSurfaces(host: Host, ss: seq<Surface>): Run
  {
    if ss == [] then Run([], Completed)
    else Then(SurfaceStep(host, ss[0]), RunSurfaces(host, ss[1..]))
  }

  /** The whole of initZygote. */
  function BootstrapRun(host: Host): Run
  {
    RunSurfaces(host, SURFACES)
  }

  // ---------------------------------------------------------------------
  // The reference: which methods each surface selects, and the hooks they
  // should receive when nothing fails.

  function Selected(s: Surface, ms: seq<MethodInfo>, isListAssignable: string -> bool): seq<MethodInfo>
    decreases |ms|
  {
    if ms == [] then []
    else
      var m := ms[|ms| - 1];
      Selected(s, ms[..|ms| - 1], isListAssignable) + (if Selects(s.filter, m, isListAssignable) then [m] else [])
  }

  function Plan(s: Surface, ms: seq<MethodInfo>, isListAssignable: string -> bool): seq<HookRecord>
  {
    var sel := Selected(s, ms, isListAssignable);
    seq(|sel|, i requires 0 <= i < |sel| => Expected(s, sel[i]))
  }

  /** The selected methods are exactly the enumerated ones the filter keeps,
      and none is invented. */
  lemma {:induction false} SelectedIsFilter(s: Surface, ms: seq<MethodInfo>, isListAssignable: string -> bool)
    ensures var sel := Selected(s, ms, isListAssignable);
      && (forall m :: m in sel <==> m in ms && Selects(s.filter, m, isListAssignable))
      && |sel| <= |ms|
      && multiset(sel) <= multiset(ms)
    decreases |ms|
  {
    if ms != [] {
      var front := ms[..|ms| - 1];
      SelectedIsFilter(s, front, isListAssignable);
      assert ms == front + [ms[|ms| - 1]];
    }
  }

  /** Overloads are selected each on their own: a kept method occurs in the
      selection exactly as often as it is enumerated, any other not at all. */
  lemma {:induction false} SelectedMultiplicity(s: Surface, ms: seq<MethodInfo>, isListAssignable: string -> bool)
    ensures forall m ::
      multiset(Selected(s, ms, isListAssignable))[m] == if Selects(s.filter, m, isListAssignable) then multiset(ms)[m] else 0
    decreases |ms|
  {
    if ms != [] {
      var front := ms[..|ms| - 1];
      var last := ms[|ms| - 1];
      SelectedMultiplicity(s, front, isListAssignable);
      assert ms == front + [last];
      assert multiset(ms) == multiset(front) + multiset{last};
    }
  }

  lemma PlanSnoc(s: Surface, ms: seq<MethodInfo>, isListAssignable: string -> bool)
    requires ms != []
    ensures var m := ms[|ms| - 1];
      Plan(s, ms, isListAssignable)
        == Plan(s, ms[..|ms| - 1], isListAssignable) + (if Selects(s.filter, m, isListAssignable) then [Expected(s, m)] else [])
  {
  }

  /** The loop over one class installs a prefix of the plan, in order. It
      completes exactly when the runtime refuses none of the planned
      call-sites, and then it installed the whole plan; otherwise it stopped
      at the first refused call-site and installed nothing after it. */
  lemma {:induction false} SurfaceRunFollowsPlan(host: Host, s: Surface, ms: seq<MethodInfo>)
    requires s.className in host.declaredMethods
    ensures var r := SurfaceRun(host, s, ms);
      var p := Plan(s, ms, host.isListAssignable);
      && r.installed <= p
      && (r.outcome.Completed? <==> forall k :: 0 <= k < |p| ==> p[k].site !in host.refused)
      && (r.outcome.Completed? ==> r.installed == p)
      && (r.outcome.Aborted? ==>
            && |r.installed| < |p|
            && p[|r.installed|].site in host.refused
            && r.outcome.error == HookFailed(p[|r.installed|].site))
      && (forall k :: 0 <= k < |r.installed| ==> r.installed[k].site !in host.refused)
    decreases |ms|
  {
    if ms != [] {
      var front := ms[..|ms| - 1];
      var m := ms[|ms| - 1];
      SurfaceRunFollowsPlan(host, s, front);
      PlanSnoc(s, ms, host.isListAssignable);
      var prev := SurfaceRun(host, s, front);
      var pf := Plan(s, front, host.isListAssignable);
      var p := Plan(s, ms, host.isListAssignable);
      assert pf <= p;
      if prev.outcome.Aborted? {
        assert p[|prev.installed|] == pf[|prev.installed|];
        assert !(forall k :: 0 <= k < |p| ==> p[k].site !in host.refused);
      } else if Selects(s.filter, m, host.isListAssignable) {
        HookCallOnBuiltParams(host, s.className, HookedName(s, m), m.parameterTypes, s.behavior);
        assert p == pf + [Expected(s, m)];
        assert p[|pf|] == Expected(s, m);
        assert (forall k :: 0 <= k < |p| ==> p[k].site !in host.refused)
          <==> (forall k :: 0 <= k < |pf| ==> pf[k].site !in host.refused) && Expected(s, m).site !in host.refused;
      } else {
        assert p == pf;
      }
    }
  }

  /** A loop that aborted stays aborted: later methods change nothing. */
  lemma {:induction false} AbortIsFinal(host: Host, s: Surface, ms: seq<MethodInfo>, k: nat)
    requires k <= |ms|
    requires SurfaceRun(host, s, ms[..k]).outcome.Aborted?
    ensures SurfaceRun(host, s, ms) == SurfaceRun(host, s, ms[..k])
    decreases |ms| - k
  {
    if k < |ms| {
      assert ms[..|ms| - 1][..k] == ms[..k];
      AbortIsFinal(host, s, ms[..|ms| - 1], k);
    } else {
      assert ms[..k] == ms;
    }
  }

  /** A surface is hookable when its class resolves and the runtime refuses
      none of the call-sites its filter selects. */
  ghost predicate Hookable(host: Host, s: Surface)
  {
    && s.className in host.declaredMethods
    && forall m :: m in host.declaredMethods[s.className] && Selects(s.filter, m, host.isListAssignable)
         ==> Expected(s, m).site !in host.refused
  }

  function SurfacePlan(host: Host, s: Surface): seq<HookRecord>
  {
    if s.className in host.declaredMethods then Plan(s, host.declaredMethods[s.className], host.isListAssignable)
    else []
  }

  /** The plan of a sequence of surfaces up to the first unresolvable class. */
  function FullPlan(host: Host, ss: seq<Surface>): seq<HookRecord>
  {
    if ss == [] || ss[0].className !in host.declaredMethods then []
    else SurfacePlan(host, ss[0]) + FullPlan(host, ss[1..])
  }

  /** rec is the hook planned for a method of ms that s's filter selects. */
  ghost predicate HookOfSelected(s: Surface, ms: seq<MethodInfo>, isListAssignable: string -> bool, rec: HookRecord)
  {
    exists m :: m in ms && Selects(s.filter, m, isListAssignable) && rec == Expected(s, m)
  }

  lemma PlanElements(s: Surface, ms: seq<MethodInfo>, isListAssignable: string -> bool)
    ensures forall k :: 0 <= k < |Plan(s, ms, isListAssignable)| ==>
      HookOfSelected(s, ms, isListAssignable, Plan(s, ms, isListAssignable)[k])
  {
    var sel := Selected(s, ms, isListAssignable);
    SelectedIsFilter(s, ms, isListAssignable);
    var p := Plan(s, ms, isListAssignable);
    forall k | 0 <= k < |p| ensures HookOfSelected(s, ms, isListAssignable, p[k]) {
      assert sel[k] in sel;
      assert sel[k] in ms && Selects(s.filter, sel[k], isListAssignable) && p[k] == Expected(s, sel[k]);
    }
  }

  /** A hookable surface installs its whole plan and completes. */
  lemma HookableSurfaceCompletes(host: Host, s: Surface)
    requires Hookable(host, s)
    ensures SurfaceStep(host, s) == Run(SurfacePlan(host, s), Completed)
  {
    var ms := host.declaredMethods[s.className];
    SurfaceRunFollowsPlan(host, s, ms);
    PlanElements(s, ms, host.isListAssignable);
  }

  /** No call-site of a concatenated plan is refused exactly when none of
      either part is. */
  lemma NoneRefusedAppend(host: Host, p0: seq<HookRecord>, pr: seq<HookRecord>)
    ensures (forall k :: 0 <= k < |p0 + pr| ==> (p0 + pr)[k].site !in host.refused)
      <==> (forall k :: 0 <= k < |p0| ==> p0[k].site !in host.refused)
           && (forall k :: 0 <= k < |pr| ==> pr[k].site !in host.refused)
  {
    forall k | 0 <= k < |p0| ensures (p0 + pr)[k] == p0[k] { }
    forall k | 0 <= k < |pr| ensures (p0 + pr)[|p0| + k] == pr[k] { }
  }

  /** initZygote over any sequence of surfaces installs a prefix of the
      plan; it completes exactly when every class resolves and no planned
      call-site is refused, and then installed the whole plan; when a class
      fails to resolve, everything planned before it is installed. */
  lemma {:induction false} RunFollowsPlan(host: Host, ss: seq<Surface>)
    ensures var r := RunSurfaces(host, ss);
      var p := FullPlan(host, ss);
      && r.installed <= p
      && (r.outcome.Completed? <==>
            && (forall j :: 0 <= j < |ss| ==> ss[j].className in host.declaredMethods)
            && (forall k :: 0 <= k < |p| ==> p[k].site !in host.refused))
      && (r.outcome.Completed? ==> r.installed == p)
      && (r.outcome.Aborted? && r.outcome.error.ClassNotFound? ==> r.installed == p)
      && (r.outcome.Aborted? && r.outcome.error.HookFailed? ==>
            && |r.installed| < |p|
            && p[|r.installed|].site in host.refused
            && r.outcome.error == HookFailed(p[|r.installed|].site))
      && (forall k :: 0 <= k < |r.installed| ==> r.installed[k].site !in host.refused)
    decreases |ss|
  {
    if ss != [] {
      var s := ss[0];
      RunFollowsPlan(host, ss[1..]);
      if s.className in host.declaredMethods {
        var ms := host.declaredMethods[s.className];
        SurfaceRunFollowsPlan(host, s, ms);
        var first := SurfaceRun(host, s, ms);
        var rest := RunSurfaces(host, ss[1..]);
        var p0 := SurfacePlan(host, s);
        var pr := FullPlan(host, ss[1..]);
        assert FullPlan(host, ss) == p0 + pr;
        if first.outcome.Completed? {
          assert forall j :: 1 <= j < |ss| ==> ss[j] == ss[1..][j - 1];
          NoneRefusedAppend(host, p0, pr);
          if rest.outcome.Aborted? && rest.outcome.error.HookFailed? {
            assert (p0 + pr)[|p0| + |rest.installed|] == pr[|rest.installed|];
          }
        } else {
          assert !(forall k :: 0 <= k < |p0| ==> p0[k].site !in host.refused);
          assert FullPlan(host, ss)[|first.installed|] == p0[|first.installed|];
        }
      }
    }
  }

  /** With every surface hookable, the bootstrap completes, installs the
      four plans in surface order, and its count is the sum of the numbers
      of methods selected on each surface. */
  lemma NoFailureInstallsEverySelectedMethod(host: Host)
    requires Hookable(host, TRUST_MANAGER_IMPL) && Hookable(host, FILE_DESCRIPTOR_SOCKET)
    requires Hookable(host, HTTPS_URL_CONNECTION) && Hookable(host, SSL_CONTEXT)
    ensures var r := BootstrapRun(host);
      && r.outcome == Completed
      && r.installed == SurfacePlan(host, TRUST_MANAGER_IMPL) + SurfacePlan(host, FILE_DESCRIPTOR_SOCKET)
                        + SurfacePlan(host, HTTPS_URL_CONNECTION) + SurfacePlan(host, SSL_CONTEXT)
      && |r.installed| ==
           |Selected(TRUST_MANAGER_IMPL, host.declaredMethods[TRUST_MANAGER_IMPL.className], host.isListAssignable)|
         + |Selected(FILE_DESCRIPTOR_SOCKET, host.declaredMethods[FILE_DESCRIPTOR_SOCKET.className], host.isListAssignable)|
         + |Selected(HTTPS_URL_CONNECTION, host.declaredMethods[HTTPS_URL_CONNECTION.className], host.isListAssignable)|
         + |Selected(SSL_CONTEXT, host.declaredMethods[SSL_CONTEXT.className], host.isListAssignable)|
  {
    HookableSurfaceCompletes(host, TRUST_MANAGER_IMPL);
    HookableSurfaceCompletes(host, FILE_DESCRIPTOR_SOCKET);
    HookableSurfaceCompletes(host, HTTPS_URL_CONNECTION);
    HookableSurfaceCompletes(host, SSL_CONTEXT);
    BootstrapUnfolds(host);
    ThenOfFour(SurfaceStep(host, TRUST_MANAGER_IMPL), SurfaceStep(host, FILE_DESCRIPTOR_SOCKET),
               SurfaceStep(host, HTTPS_URL_CONNECTION), SurfaceStep(host, SSL_CONTEXT));
  }

  /** When the surfaces before surface k are hookable and surface k aborts
      (its class does not resolve, or the runtime refuses one of its
      call-sites), the bootstrap ends with that failure after installing
      exactly the plans of the earlier surfaces and what surface k installed
      before failing; no later surface is visited. */
  lemma {:induction false} AbortingSurfaceEndsRun(host: Host, ss: seq<Surface>, k: nat)
    requires k < |ss|
    requires forall j :: 0 <= j < k ==> Hookable(host, ss[j])
    requires SurfaceStep(host, ss[k]).outcome.Aborted?
    ensures RunSurfaces(host, ss)
      == Run(FullPlan(host, ss[..k]) + SurfaceStep(host, ss[k]).installed, SurfaceStep(host, ss[k]).outcome)
    decreases k
  {
    var failing := SurfaceStep(host, ss[k]);
    if k == 0 {
      assert ss[..0] == [];
      assert RunSurfaces(host, ss) == failing;
    } else {
      var tail := ss[1..];
      assert Hookable(host, ss[0]);
      HookableSurfaceCompletes(host, ss[0]);
      forall j | 0 <= j < k - 1 ensures Hookable(host, tail[j]) {
        assert tail[j] == ss[j + 1];
      }
      assert tail[k - 1] == ss[k];
      AbortingSurfaceEndsRun(host, tail, k - 1);
      var rest := RunSurfaces(host, tail);
      assert rest == Run(FullPlan(host, tail[..k - 1]) + failing.installed, failing.outcome);
      assert RunSurfaces(host, ss) == Run(SurfacePlan(host, ss[0]) + rest.installed, rest.outcome);
      assert tail[..k - 1] == ss[..k][1..];
      assert FullPlan(host, ss[..k]) == SurfacePlan(host, ss[0]) + FullPlan(host, tail[..k - 1]);
      AppendAssoc(SurfacePlan(host, ss[0]), FullPlan(host, tail[..k - 1]), failing.installed);
    }
  }

  /** rec is the hook planned on one of the surfaces ss for a declared
      method of its class that the surface's filter selects. */
  ghost predicate PlannedOn(host: Host, ss: seq<Surface>, rec: HookRecord)
  {
    exists j, m :: && 0 <= j < |ss|
                   && ss[j].className in host.declaredMethods
                   && m in host.declaredMethods[ss[j].className]
                   && Selects(ss[j].filter, m, host.isListAssignable)
                   && rec == Expected(ss[j], m)
  }

  lemma {:induction false} FullPlanElements(host: Host, ss: seq<Surface>)
    ensures forall k :: 0 <= k < |FullPlan(host, ss)| ==> PlannedOn(host, ss, FullPlan(host, ss)[k])
    decreases |ss|
  {
    if ss == [] || ss[0].className !in host.declaredMethods {
      assert FullPlan(host, ss) == [];
    } else {
      var ms := host.declaredMethods[ss[0].className];
      var p0 := Plan(ss[0], ms, host.isListAssignable);
      var pr := FullPlan(host, ss[1..]);
      PlanElements(ss[0], ms, host.isListAssignable);
      FullPlanElements(host, ss[1..]);
      var p := FullPlan(host, ss);
      assert p == p0 + pr;
      forall k | 0 <= k < |p| ensures PlannedOn(host, ss, p[k]) {
        if k < |p0| {
          assert p[k] == p0[k];
          assert HookOfSelected(ss[0], ms, host.isListAssignable, p0[k]);
          var m :| m in ms && Selects(ss[0].filter, m, host.isListAssignable) && p0[k] == Expected(ss[0], m);
          assert ss[0].className in host.declaredMethods && m in host.declaredMethods[ss[0].className];
        } else {
          assert p[k] == pr[k - |p0|];
          assert PlannedOn(host, ss[1..], pr[k - |p0|]);
          var j, m :| && 0 <= j < |ss[1..]|
                      && ss[1..][j].className in host.declaredMethods
                      && m in host.declaredMethods[ss[1..][j].className]
                      && Selects(ss[1..][j].filter, m, host.isListAssignable)
                      && pr[k - |p0|] == Expected(ss[1..][j], m);
          assert ss[1..][j] == ss[j + 1];
        }
      }
    }
  }

  /** rec hooks, on one of the four surfaces, a declared method of that
      surface's class which the surface's filter selects: with the method's
      own name, its parameter types and the surface's callback. */
  ghost predicate HookOfSelectedMethod(host: Host, rec: HookRecord)
  {
    exists j, m :: && 0 <= j < |SURFACES|
                   && SURFACES[j].className in host.declaredMethods
                   && m in host.declaredMethods[SURFACES[j].className]
                   && Selects(SURFACES[j].filter, m, host.isListAssignable)
                   && rec == HookRecord(CallSite(SURFACES[j].className, m.name, m.parameterTypes), SURFACES[j].behavior)
  }

  /** No partial or speculative hooks: whatever the bootstrap installed, up
      to a failure or to completion, hooks a method some surface selected. */
  lemma NoSpeculativeHooks(host: Host)
    ensures forall k :: 0 <= k < |BootstrapRun(host).installed| ==>
      HookOfSelectedMethod(host, BootstrapRun(host).installed[k])
  {
    var r := BootstrapRun(host);
    var p := FullPlan(host, SURFACES);
    RunFollowsPlan(host, SURFACES);
    FullPlanElements(host, SURFACES);
    forall k | 0 <= k < |r.installed| ensures HookOfSelectedMethod(host, r.installed[k]) {
      assert r.installed[k] == p[k];
      assert PlannedOn(host, SURFACES, p[k]);
      var j, m :| && 0 <= j < |SURFACES|
                  && SURFACES[j].className in host.declaredMethods
                  && m in host.declaredMethods[SURFACES[j].className]
                  && Selects(SURFACES[j].filter, m, host.isListAssignable)
                  && p[k] == Expected(SURFACES[j], m);
      HookedNameIsMethodName(j, m, host.isListAssignable);
    }
  }

  /** The four-surface composition initZygote performs. */
  lemma BootstrapUnfolds(host: Host)
    ensures BootstrapRun(host) ==
      Then(SurfaceStep(host, TRUST_MANAGER_IMPL),
        Then(SurfaceStep(host, FILE_DESCRIPTOR_SOCKET),
          Then(SurfaceStep(host, HTTPS_URL_CONNECTION),
            Then(SurfaceStep(host, SSL_CONTEXT), Run([], Completed)))))
  {
    var s1 := [FILE_DESCRIPTOR_SOCKET, HTTPS_URL_CONNECTION, SSL_CONTEXT];
    var s2 := [HTTPS_URL_CONNECTION, SSL_CONTEXT];
    var s3 := [SSL_CONTEXT];
    assert SURFACES[1..] == s1 && s1[1..] == s2 && s2[1..] == s3 && s3[1..] == [];
    assert RunSurfaces(host, s3) == Then(SurfaceStep(host, SSL_CONTEXT), Run([], Completed));
    assert RunSurfaces(host, s2) == Then(SurfaceStep(host, HTTPS_URL_CONNECTION), RunSurfaces(host, s3));
    assert RunSurfaces(host, s1) == Then(SurfaceStep(host, FILE_DESCRIPTOR_SOCKET), RunSurfaces(host, s2));
  }

  lemma AppendAssoc(a: seq<HookRecord>, b: seq<HookRecord>, c: seq<HookRecord>)
    ensures a + b + c == a + (b + c)
  {
  }

  /** Four stages in sequence: the run is that of the first stage to abort,
      after everything the earlier stages installed, or the concatenation of
      all four when none aborts. */
  lemma ThenOfFour(r1: Run, r2: Run, r3: Run, r4: Run)
    ensures var r := Then(r1, Then(r2, Then(r3, Then(r4, Run([], Completed)))));
      if r1.outcome.Aborted? then r == r1
      else if r2.outcome.Aborted? then r == Run(r1.installed + r2.installed, r2.outcome)
      else if r3.outcome.Aborted? then r == Run(r1.installed + r2.installed + r3.installed, r3.outcome)
      else r == Run(r1.installed + r2.installed + r3.installed + r4.installed, r4.outcome)
  {
    assert r4.installed + [] == r4.installed;
  }

  // ---------------------------------------------------------------------
  // The imperative bootstrap.

  /** One of initZygote's four loops: findClass(...).getDeclaredMethods(),
      then for each method the filter keeps, build the argument list, call
      findAndHookMethod and bump the counter. */
  method HookSurface(host: Host, table: HookTable, s: Surface, hookedMethods: nat)
    returns (count: nat, outcome: Outcome)
    modifies table
    ensures var run := SurfaceStep(host, s);
      && table.hooks == old(table.hooks) + run.installed
      && count == hookedMethods + |run.installed|
      && outcome == run.outcome
  {
    count := hookedMethods;
    var found := FindClass(host, s.className);
    if found.Err? {
      return count, Aborted(found.error);
    }
    var methods := found.value;
    for i := 0 to |methods|
      invariant SurfaceRun(host, s, methods[..i]).outcome == Completed
      invariant table.hooks == old(table.hooks) + SurfaceRun(host, s, methods[..i]).installed
      invariant count == hookedMethods + |SurfaceRun(host, s, methods[..i]).installed|
    {
      var m := methods[i];
      assert methods[..i + 1][..i] == methods[..i];
      if !Selects(s.filter, m, host.isListAssignable) {
        continue;
      }
      var params := HookParams(m.parameterTypes, s.behavior);
      var r := table.FindAndHookMethod(host, s.className, HookedName(s, m), params);
      if r.Err? {
        AbortIsFinal(host, s, methods, i + 1);
        return count, Aborted(r.error);
      }
      AppendAssoc(old(table.hooks), SurfaceRun(host, s, methods[..i]).installed, [r.value]);
      count := count + 1;
    }
    assert methods[..|methods|] == methods;
    outcome := Completed;
  }

  /** initZygote: hookedMethods starts at 0; the four surfaces are visited
      in order and the first failure propagates out, leaving the hooks
      installed before it in place. */
  method InitZygote(host: Host, table: HookTable) returns (hookedMethods: nat, outcome: Outcome)
    modifies table
    ensures var run := BootstrapRun(host);
      && table.hooks == old(table.hooks) + run.installed
      && hookedMethods == |run.installed|
      && outcome == run.outcome
  {
    BootstrapUnfolds(host);
    ghost var before := table.hooks;
    ghost var r1 := SurfaceStep(host, TRUST_MANAGER_IMPL);
    ghost var r2 := SurfaceStep(host, FILE_DESCRIPTOR_SOCKET);
    ghost var r3 := SurfaceStep(host, HTTPS_URL_CONNECTION);
    ghost var r4 := SurfaceStep(host, SSL_CONTEXT);
    ThenOfFour(r1, r2, r3, r4);
    hookedMethods := 0;
    hookedMethods, outcome := HookSurface(host, table, TRUST_MANAGER_IMPL, hookedMethods);
    if outcome.Aborted? {
      return;
    }
    hookedMethods, outcome := HookSurface(host, table, FILE_DESCRIPTOR_SOCKET, hookedMethods);
    AppendAssoc(before, r1.installed, r2.installed);
    if outcome.Aborted? {
      return;
    }
    hookedMethods, outcome := HookSurface(host, table, HTTPS_URL_CONNECTION, hookedMethods);
    AppendAssoc(before, r1.installed + r2.installed, r3.installed);
    if outcome.Aborted? {
      return;
    }
    hookedMethods, outcome := HookSurface(host, table, SSL_CONTEXT, hookedMethods);
    AppendAssoc(before, r1.installed + r2.installed + r3.installed, r4.installed);
  }
}
