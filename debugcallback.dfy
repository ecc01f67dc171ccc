// GL::DebugCallback: the driver debug-message hook. Three range-guarded
// tables name the source, type and (AMD) category tokens of a message, the
// severity picks the log level, and `install` registers the hook through
// KHR_debug, then ARB_debug_output, then AMD_debug_output, stopping at the
// first that the driver accepts.
//
// Token values are those of the "New Tokens" sections of the OpenGL
// KHR_debug and AMD_debug_output extension specifications.
module DebugCallback {

  const GL_NO_ERROR: int := 0
  const GL_DEBUG_OUTPUT_SYNCHRONOUS: int := 0x8242

  const GL_DEBUG_SOURCE_API: int := 0x8246
  const GL_DEBUG_SOURCE_WINDOW_SYSTEM: int := 0x8247
  const GL_DEBUG_SOURCE_SHADER_COMPILER: int := 0x8248
  const GL_DEBUG_SOURCE_THIRD_PARTY: int := 0x8249
  const GL_DEBUG_SOURCE_APPLICATION: int := 0x824A
  const GL_DEBUG_SOURCE_OTHER: int := 0x824B

  const GL_DEBUG_TYPE_ERROR: int := 0x824C
  const GL_DEBUG_TYPE_DEPRECATED_BEHAVIOR: int := 0x824D
  const GL_DEBUG_TYPE_UNDEFINED_BEHAVIOR: int := 0x824E
  const GL_DEBUG_TYPE_PORTABILITY: int := 0x824F
  const GL_DEBUG_TYPE_PERFORMANCE: int := 0x8250
  const GL_DEBUG_TYPE_OTHER: int := 0x8251
  const GL_DEBUG_TYPE_MARKER: int := 0x8268
  const GL_DEBUG_TYPE_PUSH_GROUP: int := 0x8269
  const GL_DEBUG_TYPE_POP_GROUP: int := 0x826A

  const GL_DEBUG_SEVERITY_HIGH: int := 0x9146
  const GL_DEBUG_SEVERITY_MEDIUM: int := 0x9147
  const GL_DEBUG_SEVERITY_LOW: int := 0x9148
  const GL_DEBUG_SEVERITY_NOTIFICATION: int := 0x826B

  const GL_DEBUG_SEVERITY_HIGH_AMD: int := 0x9146
  const GL_DEBUG_SEVERITY_MEDIUM_AMD: int := 0x9147
  const GL_DEBUG_SEVERITY_LOW_AMD: int := 0x9148

  const GL_DEBUG_CATEGORY_API_ERROR_AMD: int := 0x9149
  const GL_DEBUG_CATEGORY_WINDOW_SYSTEM_AMD: int := 0x914A
  const GL_DEBUG_CATEGORY_DEPRECATION_AMD: int := 0x914B
  const GL_DEBUG_CATEGORY_UNDEFINED_BEHAVIOR_AMD: int := 0x914C
  const GL_DEBUG_CATEGORY_PERFORMANCE_AMD: int := 0x914D
  const GL_DEBUG_CATEGORY_SHADER_COMPILER_AMD: int := 0x914E
  const GL_DEBUG_CATEGORY_APPLICATION_AMD: int := 0x914F
  const GL_DEBUG_CATEGORY_OTHER_AMD: int := 0x9150

  /** The facts the static_asserts check: each token group is contiguous, and AMD's severities are KHR's. */
  lemma TokenGroupsAreContiguous()
    ensures GL_DEBUG_SOURCE_OTHER - GL_DEBUG_SOURCE_API == 5
    ensures GL_DEBUG_TYPE_OTHER - GL_DEBUG_TYPE_ERROR == 5
    ensures GL_DEBUG_TYPE_POP_GROUP - GL_DEBUG_TYPE_MARKER == 2
    ensures GL_DEBUG_CATEGORY_OTHER_AMD - GL_DEBUG_CATEGORY_API_ERROR_AMD == 7
    ensures GL_DEBUG_SEVERITY_LOW_AMD == GL_DEBUG_SEVERITY_LOW
    ensures GL_DEBUG_TYPE_OTHER < GL_DEBUG_TYPE_MARKER
  {
  }

  const SourceStrings: seq<string> := ["API", "System", "ShaderCompiler", "ThirdParty", "Application", "Other"]
  const TypeStrings: seq<string> := ["Error", "Deprecated", "UndefinedBehavior", "Portability", "Performance", "Other"]
  const TypeStrings2: seq<string> := ["Marker", "PushGroup", "PopGroup"]
  const CategoryStrings: seq<string> :=
    ["API", "System", "Deprecation", "UndefinedBehavior", "Performance", "ShaderCompiler", "Application", "Other"]

  function SourceToString(source: int): string
  {
    if GL_DEBUG_SOURCE_API <= source <= GL_DEBUG_SOURCE_OTHER then SourceStrings[source - GL_DEBUG_SOURCE_API]
    else "Unknown"
  }

  function TypeToString(t: int): string
  {
    if GL_DEBUG_TYPE_ERROR <= t <= GL_DEBUG_TYPE_OTHER then TypeStrings[t - GL_DEBUG_TYPE_ERROR]
    else if GL_DEBUG_TYPE_MARKER <= t <= GL_DEBUG_TYPE_POP_GROUP then TypeStrings2[t - GL_DEBUG_TYPE_MARKER]
    else "Unknown"
  }

  function CategoryToString(category: int): string
  {
    if GL_DEBUG_CATEGORY_API_ERROR_AMD <= category <= GL_DEBUG_CATEGORY_OTHER_AMD then
      CategoryStrings[category - GL_DEBUG_CATEGORY_API_ERROR_AMD]
    else "Unknown"
  }

  /** The name of every source token, one token at a time, as the comments beside the table give it. */
  function SourceName(source: int): string
  {
    if source == GL_DEBUG_SOURCE_API then "API"
    else if source == GL_DEBUG_SOURCE_WINDOW_SYSTEM then "System"
    else if source == GL_DEBUG_SOURCE_SHADER_COMPILER then "ShaderCompiler"
    else if source == GL_DEBUG_SOURCE_THIRD_PARTY then "ThirdParty"
    else if source == GL_DEBUG_SOURCE_APPLICATION then "Application"
    else if source == GL_DEBUG_SOURCE_OTHER then "Other"
    else "Unknown"
  }

  function TypeName(t: int): string
  {
    if t == GL_DEBUG_TYPE_ERROR then "Error"
    else if t == GL_DEBUG_TYPE_DEPRECATED_BEHAVIOR then "Deprecated"
    else if t == GL_DEBUG_TYPE_UNDEFINED_BEHAVIOR then "UndefinedBehavior"
    else if t == GL_DEBUG_TYPE_PORTABILITY then "Portability"
    else if t == GL_DEBUG_TYPE_PERFORMANCE then "Performance"
    else if t == GL_DEBUG_TYPE_OTHER then "Other"
    else if t == GL_DEBUG_TYPE_MARKER then "Marker"
    else if t == GL_DEBUG_TYPE_PUSH_GROUP then "PushGroup"
    else if t == GL_DEBUG_TYPE_POP_GROUP then "PopGroup"
    else "Unknown"
  }

  function CategoryName(category: int): string
  {
    if category == GL_DEBUG_CATEGORY_API_ERROR_AMD then "API"
    else if category == GL_DEBUG_CATEGORY_WINDOW_SYSTEM_AMD then "System"
    else if category == GL_DEBUG_CATEGORY_DEPRECATION_AMD then "Deprecation"
    else if category == GL_DEBUG_CATEGORY_UNDEFINED_BEHAVIOR_AMD then "UndefinedBehavior"
    else if category == GL_DEBUG_CATEGORY_PERFORMANCE_AMD then "Performance"
    else if category == GL_DEBUG_CATEGORY_SHADER_COMPILER_AMD then "ShaderCompiler"
    else if category == GL_DEBUG_CATEGORY_APPLICATION_AMD then "Application"
    else if category == GL_DEBUG_CATEGORY_OTHER_AMD then "Other"
    else "Unknown"
  }

  /**
   * The range-guarded lookups name each token as its table comment says;
   * a token gets a name other than "Unknown" exactly when it lies in one
   * of the guarded ranges.
   */
  lemma SourceTable(source: int)
    ensures SourceToString(source) == SourceName(source)
    ensures SourceToString(source) != "Unknown" <==> GL_DEBUG_SOURCE_API <= source <= GL_DEBUG_SOURCE_OTHER
  {
  }

  lemma TypeTable(t: int)
    ensures TypeToString(t) == TypeName(t)
    ensures TypeToString(t) != "Unknown" <==>
      GL_DEBUG_TYPE_ERROR <= t <= GL_DEBUG_TYPE_OTHER || GL_DEBUG_TYPE_MARKER <= t <= GL_DEBUG_TYPE_POP_GROUP
  {
  }

  lemma CategoryTable(category: int)
    ensures CategoryToString(category) == CategoryName(category)
    ensures CategoryToString(category) != "Unknown" <==>
      GL_DEBUG_CATEGORY_API_ERROR_AMD <= category <= GL_DEBUG_CATEGORY_OTHER_AMD
  {
  }

  /** Distinct tokens of one range get distinct names. */
  lemma SourceNamesDistinct(s1: int, s2: int)
    requires GL_DEBUG_SOURCE_API <= s1 <= GL_DEBUG_SOURCE_OTHER && GL_DEBUG_SOURCE_API <= s2 <= GL_DEBUG_SOURCE_OTHER
    requires SourceToString(s1) == SourceToString(s2)
    ensures s1 == s2
  {
    SourceTable(s1);
    SourceTable(s2);
  }

  datatype Level = Info | Warning | Critical

  /** A logged debug message: the qInfo/qWarning/qCritical level, the bracketed severity tag and the named fields. */
  datatype LogEntry = LogEntry(level: Level, tag: string, names: seq<string>, id: int, message: string)

  /** The switch on severity: unknown severities fall into the notification case. */
  function SeverityLevel(severity: int): (Level, string)
  {
    if severity == GL_DEBUG_SEVERITY_LOW then (Warning, "Low")
    else if severity == GL_DEBUG_SEVERITY_MEDIUM then (Warning, "Medium")
    else if severity == GL_DEBUG_SEVERITY_HIGH then (Critical, "High")
    else (Info, "Notification")
  }

  /** debugMessageCallback, the KHR_debug / ARB_debug_output hook. */
  function KhrMessage(source: int, t: int, id: int, severity: int, message: string): (e: LogEntry)
    ensures e.names == [SourceToString(source), TypeToString(t)] && e.id == id && e.message == message
  {
    var (level, tag) := SeverityLevel(severity);
    LogEntry(level, tag, [SourceToString(source), TypeToString(t)], id, message)
  }

  /** debugMessageCallbackAMD, the AMD_debug_output hook. */
  function AmdMessage(id: int, category: int, severity: int, message: string): (e: LogEntry)
    ensures e.names == [CategoryToString(category)] && e.id == id && e.message == message
  {
    var (level, tag) := SeverityLevel(severity);
    LogEntry(level, tag, [CategoryToString(category)], id, message)
  }

  /**
   * HIGH is critical, MEDIUM and LOW are warnings, anything else is
   * information; the AMD hook grades a severity exactly as the KHR hook.
   */
  lemma SeverityGrading(source: int, t: int, category: int, id: int, severity: int, message: string)
    ensures KhrMessage(source, t, id, severity, message).level == Critical <==> severity == GL_DEBUG_SEVERITY_HIGH
    ensures KhrMessage(source, t, id, severity, message).level == Warning <==>
      severity == GL_DEBUG_SEVERITY_MEDIUM || severity == GL_DEBUG_SEVERITY_LOW
    ensures KhrMessage(source, t, id, severity, message).level == Info <==>
      severity !in {GL_DEBUG_SEVERITY_HIGH, GL_DEBUG_SEVERITY_MEDIUM, GL_DEBUG_SEVERITY_LOW}
    ensures AmdMessage(id, category, severity, message).level == KhrMessage(source, t, id, severity, message).level
    ensures AmdMessage(id, category, severity, message).tag == KhrMessage(source, t, id, severity, message).tag
  {
  }

  // install.

  datatype Extension = Khr | Arb | Amd

  datatype DebugCall =
    | GetError(result: int)
    | DebugMessageCallback(extension: Extension)
    | EnableSynchronous
    | GetProcAddress(extension: Extension)
    /** A qCritical naming the step that raised `error`. */
    | ReportError(step: string, error: int)
    /** qFatal("Could not initialize DebugCallback!"). */
    | Fatal

  datatype Outcome = Installed(via: Extension) | Failed

  /**
   * The answer of the n-th glGetError call. `errors` lists the pending
   * errors in the order the driver reports them; once they are exhausted
   * the driver answers GL_NO_ERROR.
   */
  function ErrorAt(errors: seq<int>, n: nat): int
  {
    if n < |errors| then errors[n] else GL_NO_ERROR
  }

  /** The index of the first GL_NO_ERROR answer from `n` on. */
  function FirstClear(errors: seq<int>, n: nat): (k: nat)
    requires n <= |errors|
    ensures n <= k <= |errors| && ErrorAt(errors, k) == GL_NO_ERROR
    ensures forall i :: n <= i < k ==> errors[i] != GL_NO_ERROR
    decreases |errors| - n
  {
    if ErrorAt(errors, n) == GL_NO_ERROR then n else FirstClear(errors, n + 1)
  }

  /** The glGetError calls that answer errors[lo..hi]. */
  function ErrorCalls(errors: seq<int>, lo: nat, hi: nat): (r: seq<DebugCall>)
    requires lo <= hi
    ensures |r| == hi - lo
    ensures forall i :: 0 <= i < |r| ==> r[i] == GetError(ErrorAt(errors, lo + i))
    decreases hi - lo
  {
    if lo == hi then [] else ErrorCalls(errors, lo, hi - 1) + [GetError(ErrorAt(errors, hi - 1))]
  }

  /** The AMD attempt, with the next glGetError answer at n. */
  function TryAmd(errors: seq<int>, n: nat, amdFound: bool): (seq<DebugCall>, Outcome)
  {
    var e := ErrorAt(errors, n);
    if !amdFound then ([GetProcAddress(Amd), Fatal], Failed)
    else if e != GL_NO_ERROR then
      ([GetProcAddress(Amd), DebugMessageCallback(Amd), GetError(e), ReportError("glDebugMessageCallbackAMD", e), Fatal], Failed)
    else ([GetProcAddress(Amd), DebugMessageCallback(Amd), GetError(e)], Installed(Amd))
  }

  /** The calls of a KHR-style attempt (register, check, enable synchronous output, check) and whether it succeeded. */
  function Register(errors: seq<int>, n: nat, x: Extension, name: string): (seq<DebugCall>, bool)
  {
    var e1 := ErrorAt(errors, n);
    var e2 := ErrorAt(errors, n + 1);
    if e1 != GL_NO_ERROR then ([DebugMessageCallback(x), GetError(e1), ReportError(name, e1)], false)
    else if e2 != GL_NO_ERROR then
      ([DebugMessageCallback(x), GetError(e1), EnableSynchronous, GetError(e2), ReportError("GL_DEBUG_OUTPUT_SYNCHRONOUS", e2)], false)
    else ([DebugMessageCallback(x), GetError(e1), EnableSynchronous, GetError(e2)], true)
  }

  /** How many glGetError answers a KHR-style attempt consumes. */
  function RegisterAnswers(errors: seq<int>, n: nat): nat
  {
    if ErrorAt(errors, n) != GL_NO_ERROR then 1 else 2
  }

  function TryArb(errors: seq<int>, n: nat, arbFound: bool, amdFound: bool): (seq<DebugCall>, Outcome)
  {
    if !arbFound then
      var (rest, outcome) := TryAmd(errors, n, amdFound);
      ([GetProcAddress(Arb)] + rest, outcome)
    else
      var (calls, ok) := Register(errors, n, Arb, "glDebugMessageCallbackARB");
      if ok then ([GetProcAddress(Arb)] + calls, Installed(Arb))
      else
        var (rest, outcome) := TryAmd(errors, n + RegisterAnswers(errors, n), amdFound);
        ([GetProcAddress(Arb)] + calls + rest, outcome)
  }

  /**
   * The whole of install, given the driver's glGetError answers and whether
   * the ARB and AMD entry points are found.
   */
  function InstallTrace(errors: seq<int>, arbFound: bool, amdFound: bool): (seq<DebugCall>, Outcome)
  {
    var k := FirstClear(errors, 0);
    var drain := ErrorCalls(errors, 0, k + 1);
    var (calls, ok) := Register(errors, k + 1, Khr, "glDebugMessageCallback");
    if ok then (drain + calls, Installed(Khr))
    else
      var (rest, outcome) := TryArb(errors, k + 1 + RegisterAnswers(errors, k + 1), arbFound, amdFound);
      (drain + calls + rest, outcome)
  }

  /** Whether a KHR-style attempt whose first answer is at n succeeds. */
  predicate RegisterOk(errors: seq<int>, n: nat)
  {
    ErrorAt(errors, n) == GL_NO_ERROR && ErrorAt(errors, n + 1) == GL_NO_ERROR
  }

  /**
   * The ARB attempt and what follows it: it starts by looking up the ARB
   * entry point, succeeds exactly when that is found and registers
   * cleanly, and is fatal exactly when it ends with qFatal, after trying
   * every extension that was found.
   */
  lemma TryArbOutcome(errors: seq<int>, m: nat, arbFound: bool, amdFound: bool)
    ensures var (rest, outcome) := TryArb(errors, m, arbFound, amdFound);
      && |rest| > 0 && rest[0] == GetProcAddress(Arb)
      && outcome != Installed(Khr)
      && (outcome == Installed(Arb) <==> arbFound && RegisterOk(errors, m))
      && (outcome == Failed <==> rest[|rest| - 1] == Fatal)
      && (outcome == Failed ==>
            && (arbFound ==> DebugMessageCallback(Arb) in rest)
            && (amdFound ==> DebugMessageCallback(Amd) in rest))
  {
    var (amd, amdOutcome) := TryAmd(errors, m, amdFound);
    var (calls, ok) := Register(errors, m, Arb, "glDebugMessageCallbackARB");
    var (later, laterOutcome) := TryAmd(errors, m + RegisterAnswers(errors, m), amdFound);
    assert ([GetProcAddress(Arb)] + amd)[1 + |amd| - 1] == amd[|amd| - 1];
    assert ([GetProcAddress(Arb)] + calls + later)[1 + |calls| + |later| - 1] == later[|later| - 1];
  }

  /**
   * install drains the pending errors first: its first calls are one
   * glGetError per pending error and one that answers GL_NO_ERROR, then
   * the KHR_debug registration.
   */
  lemma InstallDrainsFirst(errors: seq<int>, arbFound: bool, amdFound: bool)
    ensures var (calls, outcome) := InstallTrace(errors, arbFound, amdFound);
      var k := FirstClear(errors, 0);
      && |calls| > k + 1
      && (forall i :: 0 <= i < k ==> calls[i] == GetError(errors[i]) && errors[i] != GL_NO_ERROR)
      && calls[k] == GetError(GL_NO_ERROR)
      && calls[k + 1] == DebugMessageCallback(Khr)
  {
    var k := FirstClear(errors, 0);
    var n := k + 1;
    var drain := ErrorCalls(errors, 0, n);
    var (calls, ok) := Register(errors, n, Khr, "glDebugMessageCallback");
    if !ok {
      var m := n + RegisterAnswers(errors, n);
      var (rest, outcome) := TryArb(errors, m, arbFound, amdFound);
      assert InstallTrace(errors, arbFound, amdFound) == (drain + calls + rest, outcome);
      assert (drain + calls + rest)[n] == calls[0];
    } else {
      assert InstallTrace(errors, arbFound, amdFound) == (drain + calls, Installed(Khr));
      assert (drain + calls)[n] == calls[0];
    }
  }

  /**
   * After the drain, install registers through KHR_debug; later
   * extensions are tried only after every earlier one failed, the first
   * success ends it, and it is fatal exactly when all three failed.
   */
  lemma InstallOrder(errors: seq<int>, arbFound: bool, amdFound: bool)
    ensures var (calls, outcome) := InstallTrace(errors, arbFound, amdFound);
      var n := FirstClear(errors, 0) + 1;
      && (outcome == Installed(Khr) <==> RegisterOk(errors, n))
      && (outcome == Installed(Arb) <==>
            !RegisterOk(errors, n) && arbFound && RegisterOk(errors, n + RegisterAnswers(errors, n)))
      && (GetProcAddress(Arb) in calls <==> !RegisterOk(errors, n))
      && (outcome == Failed <==> calls[|calls| - 1] == Fatal)
      && (outcome == Failed ==>
            && DebugMessageCallback(Khr) in calls
            && (arbFound ==> DebugMessageCallback(Arb) in calls)
            && (amdFound ==> DebugMessageCallback(Amd) in calls))
  {
    var n := FirstClear(errors, 0) + 1;
    var drain := ErrorCalls(errors, 0, n);
    var (calls, ok) := Register(errors, n, Khr, "glDebugMessageCallback");
    assert calls[0] == DebugMessageCallback(Khr);
    if !ok {
      var m := n + RegisterAnswers(errors, n);
      var (rest, outcome) := TryArb(errors, m, arbFound, amdFound);
      TryArbOutcome(errors, m, arbFound, amdFound);
      var all := drain + calls + rest;
      assert InstallTrace(errors, arbFound, amdFound) == (all, outcome);
      assert all[|drain| + |calls|] == rest[0];
      assert all[|all| - 1] == rest[|rest| - 1];
      assert forall c :: c in rest ==> c in all;
      assert DebugMessageCallback(Khr) in all;
    } else {
      var all := drain + calls;
      assert InstallTrace(errors, arbFound, amdFound) == (all, Installed(Khr));
      assert forall c :: c in all ==> c in drain || c in calls;
      assert all[|all| - 1] == calls[|calls| - 1];
    }
  }

  /** The drain loop: glGetError until it answers GL_NO_ERROR; n is the next answer's index. */
  method DrainErrors(errors: seq<int>) returns (calls: seq<DebugCall>, n: nat)
    ensures n == FirstClear(errors, 0) + 1 && calls == ErrorCalls(errors, 0, n)
  {
    n := 0;
    calls := [];
    var err := ErrorAt(errors, n);
    calls := calls + [GetError(err)];
    n := n + 1;
    while err != GL_NO_ERROR
      invariant 0 < n <= |errors| + 1
      invariant n - 1 <= FirstClear(errors, 0)
      invariant err == ErrorAt(errors, n - 1)
      invariant calls == ErrorCalls(errors, 0, n)
      decreases |errors| + 1 - n
    {
      err := ErrorAt(errors, n);
      calls := calls + [GetError(err)];
      n := n + 1;
    }
  }

  /**
   * One KHR-style attempt with the next answer at n: register the callback,
   * check, enable synchronous output, check; each failing check is reported.
   */
  method RegisterCallback(errors: seq<int>, n: nat, x: Extension, name: string)
    returns (calls: seq<DebugCall>, ok: bool, next: nat)
    ensures (calls, ok) == Register(errors, n, x, name)
    ensures ok <==> RegisterOk(errors, n)
    ensures next == n + RegisterAnswers(errors, n)
  {
    calls := [DebugMessageCallback(x)];
    var err := ErrorAt(errors, n);
    calls := calls + [GetError(err)];
    next := n + 1;
    if err != GL_NO_ERROR {
      calls := calls + [ReportError(name, err)];
      assert calls == [DebugMessageCallback(x), GetError(err), ReportError(name, err)];
      ok := false;
      return;
    }
    calls := calls + [EnableSynchronous];
    err := ErrorAt(errors, next);
    calls := calls + [GetError(err)];
    next := next + 1;
    if err != GL_NO_ERROR {
      calls := calls + [ReportError("GL_DEBUG_OUTPUT_SYNCHRONOUS", err)];
      ok := false;
      assert !Register(errors, n, x, name).1;
      assert calls == Register(errors, n, x, name).0;
    } else {
      ok := true;
      assert Register(errors, n, x, name).1;
      assert calls == Register(errors, n, x, name).0;
    }
  }

  /** The AMD attempt with the next answer at n; `Failed` includes the final qFatal. */
  method AttemptAmd(errors: seq<int>, n: nat, amdFound: bool) returns (calls: seq<DebugCall>, outcome: Outcome)
    ensures calls == TryAmd(errors, n, amdFound).0 && outcome == TryAmd(errors, n, amdFound).1
    ensures outcome == Installed(Amd) <==> amdFound && ErrorAt(errors, n) == GL_NO_ERROR
  {
    calls := [GetProcAddress(Amd)];
    if amdFound {
      calls := calls + [DebugMessageCallback(Amd)];
      var err := ErrorAt(errors, n);
      calls := calls + [GetError(err)];
      if err == GL_NO_ERROR {
        assert calls == [GetProcAddress(Amd), DebugMessageCallback(Amd), GetError(err)];
        return calls, Installed(Amd);
      }
      calls := calls + [ReportError("glDebugMessageCallbackAMD", err)];
    }
    calls := calls + [Fatal];
    outcome := Failed;
  }

  /**
   * install, given the driver's glGetError answers and whether
   * getProcAddress finds glDebugMessageCallbackARB and
   * glDebugMessageCallbackAMD. `Failed` stands for the qFatal.
   */
  method Install(errors: seq<int>, arbFound: bool, amdFound: bool) returns (calls: seq<DebugCall>, outcome: Outcome)
    ensures (calls, outcome) == InstallTrace(errors, arbFound, amdFound)
  {
    var drain, n := DrainErrors(errors);
    // KHR_debug.
    var khr, ok, next := RegisterCallback(errors, n, Khr, "glDebugMessageCallback");
    if ok {
      return drain + khr, Installed(Khr);
    }
    ghost var arbStart := next;
    assert InstallTrace(errors, arbFound, amdFound).0 == drain + khr + TryArb(errors, arbStart, arbFound, amdFound).0;
    assert InstallTrace(errors, arbFound, amdFound).1 == TryArb(errors, arbStart, arbFound, amdFound).1;
    // ARB_debug_output.
    var arb: seq<DebugCall> := [GetProcAddress(Arb)];
    n := next;
    if arbFound {
      var attempt;
      attempt, ok, next := RegisterCallback(errors, n, Arb, "glDebugMessageCallbackARB");
      arb := arb + attempt;
      if ok {
        assert TryArb(errors, arbStart, arbFound, amdFound).0 == arb;
        return drain + khr + arb, Installed(Arb);
      }
      n := next;
    }
    // AMD_debug_output.
    var amd, amdOutcome := AttemptAmd(errors, n, amdFound);
    assert TryArb(errors, arbStart, arbFound, amdFound).0 == arb + amd;
    assert TryArb(errors, arbStart, arbFound, amdFound).1 == amdOutcome;
    calls := drain + khr + arb + amd;
    outcome := amdOutcome;
    assert calls == drain + khr + (arb + amd);
  }
}
