/**
The nine-stage digest chain of one analysis execution, and the trace rows it
is stored as.
*/
module LivingAnatomy {
  import opened Common
  import opened Json

  datatype Spec = Spec(sequence: nat, stage: string, description: string, organ: string, operation: string)

  const STAGES := [
    Spec(1, "sense", "Acquire an allowlisted source or explicit caller observation.", "source", "analysis.sense"),
    Spec(2, "normalize", "Validate request schema, aggregate bounds, units, and currency.",
         "signal", "analysis.normalize"),
    Spec(3, "context", "Bind authenticated tenant/workspace, declared service, and evidence references.", "signal",
         "analysis.context"),
    Spec(4, "formula", "Calculate reliability and economic results with explicit availability.", "reasoning",
         "analysis.formula"),
    Spec(5, "policy", "Deny effectors, unsupported authority, and unsupported causality.",
         "trust_gate", "analysis.policy"),
    Spec(6, "decide", "Return REVIEW, ABSTAIN, or DENY for a human owner.", "trust_gate", "analysis.decide"),
    Spec(7, "verify", "Check scoped evidence, receipt integrity, and runtime source; mark missing freshness.",
         "trust_gate", "analysis.verify"),
    Spec(8, "remember", "Persist scoped summaries and evidence references, never raw tokens.", "second_brain",
         "analysis.remember"),
    Spec(9, "receipt", "Append a finite canonical record to the scoped hash chain.", "receipt_bus", "analysis.receipt")]

  const STATES: seq<set<string>> := [
    {"OBSERVED"}, {"VALIDATED"}, {"BOUND"}, {"CALCULATED", "PARTIAL", "UNAVAILABLE"}, {"ENFORCED", "DENIED"},
    {"REVIEW", "ABSTAIN", "DENY"}, {"VERIFIED", "PARTIAL", "FAILED", "UNAVAILABLE"}, {"PERSISTED"}, {"APPENDED"}]

  /** The digest of canonical JSON, and state.strip().upper(). */
  datatype Env = Env(sha256: Json -> string, normalize: string -> string)

  datatype Inputs = Inputs(input: string, truth: string, revision: Option<string>, results: seq<(string, Json)>)

  datatype Stage = Stage(
    spec: Spec, state: string, input: string, basis: string, output: string, truth: string, revision: Option<string>)

  function Basis(spec: Spec, input: string, truth: string, revision: Option<string>): Json {
    Obj(map[
      "schema" := Str("szl.lyte.analysis-stage-basis/v1"),
      "sequence" := Int(spec.sequence),
      "stage" := Str(spec.stage),
      "operation" := Str(spec.operation),
      "input_sha256" := Str(input),
      "truth_label" := Str(truth),
      "source_revision" := TextOrNull(revision)])
  }

  function Output(spec: Spec, state: string, basis: string, result: Json): Json {
    Obj(map[
      "schema" := Str("szl.lyte.analysis-stage-output/v1"),
      "stage" := Str(spec.stage),
      "state" := Str(state),
      "basis_sha256" := Str(basis),
      "result" := result])
  }

  function StageOf(env: Env, spec: Spec, x: Inputs, state: string, input: string, result: Json): Stage {
    var basis := env.sha256(Basis(spec, input, x.truth, x.revision));
    Stage(spec, state, input, basis, env.sha256(Output(spec, state, basis, result)), x.truth, x.revision)
  }

  /** Digest carried into stage n: the caller's input, then the previous stage's output. */
  function Carried(x: Inputs, stages: seq<Stage>): string {
    if stages == [] then x.input else stages[|stages| - 1].output
  }

  /** The first n stages. */
  function Build(env: Env, x: Inputs, n: nat): Result<seq<Stage>>
    requires |x.results| == |STAGES| == |STATES| && n <= |STAGES|
  {
    if n == 0 then Ok([])
    else
      var before := Build(env, x, n - 1);
      if before.Err? then before
      else
        var state := env.normalize(x.results[n - 1].0);
        if state !in STATES[n - 1] then Err("invalid state for analysis stage")
        else Ok(before.value + [StageOf(env, STAGES[n - 1], x, state, Carried(x, before.value), x.results[n - 1].1)])
  }

  function Anatomy(env: Env, x: Inputs): Result<seq<Stage>> {
    if |x.results| != |STAGES| then Err("analysis anatomy requires exactly nine stage results")
    else Build(env, x, |STAGES|)
  }

  method BuildAnalysisAnatomy(env: Env, x: Inputs) returns (r: Result<seq<Stage>>)
    ensures r == Anatomy(env, x)
  {
    hide StageOf;
    if |x.results| != |STAGES| {
      return Err("analysis anatomy requires exactly nine stage results");
    }
    var stages: seq<Stage> := [];
    var input := x.input;
    for k := 0 to |STAGES|
      invariant Build(env, x, k) == Ok(stages) && input == Carried(x, stages)
    {
      var state := env.normalize(x.results[k].0);
      if state !in STATES[k] {
        ErrorPersists(env, x, k + 1, |STAGES|);
        return Err("invalid state for analysis stage");
      }
      var stage := StageOf(env, STAGES[k], x, state, input, x.results[k].1);
      stages := stages + [stage];
      input := stage.output;
    }
    return Ok(stages);
  }

  lemma {:induction false} ErrorPersists(env: Env, x: Inputs, m: nat, n: nat)
    requires |x.results| == |STAGES| && m <= n <= |STAGES| && Build(env, x, m).Err?
    ensures Build(env, x, n) == Build(env, x, m)
    decreases n - m
  {
    if m < n {
      ErrorPersists(env, x, m, n - 1);
    }
  }

  // What a stage says.

  /** Which results the k-th stage may end in. */
  ghost predicate Allowed(k: nat, state: string) {
    match k
    case 0 => state == "OBSERVED"
    case 1 => state == "VALIDATED"
    case 2 => state == "BOUND"
    case 3 => state == "CALCULATED" || state == "PARTIAL" || state == "UNAVAILABLE"
    case 4 => state == "ENFORCED" || state == "DENIED"
    case 5 => state == "REVIEW" || state == "ABSTAIN" || state == "DENY"
    case 6 => state == "VERIFIED" || state == "PARTIAL" || state == "FAILED" || state == "UNAVAILABLE"
    case 7 => state == "PERSISTED"
    case 8 => state == "APPENDED"
    case _ => false
  }

  ghost function NameOf(k: nat): string
    requires k < 9
  {
    ["sense", "normalize", "context", "formula", "policy", "decide", "verify", "remember", "receipt"][k]
  }

  ghost function OrganOf(k: nat): string {
    if k == 0 then "source" else if k < 3 then "signal" else if k == 3 then "reasoning" else if k < 7 then "trust_gate"
    else if k == 7 then "second_brain" else "receipt_bus"
  }

  lemma EarlyStages(k: nat, state: string)
    requires k < 4
    ensures state in STATES[k] <==> Allowed(k, state)
    ensures STAGES[k].sequence == k + 1 && STAGES[k].stage == NameOf(k)
    ensures STAGES[k].operation == "analysis." + NameOf(k) && STAGES[k].organ == OrganOf(k)
  {
  }

  lemma LateStages(k: nat, state: string)
    requires 4 <= k < 9
    ensures state in STATES[k] <==> Allowed(k, state)
    ensures STAGES[k].sequence == k + 1 && STAGES[k].stage == NameOf(k)
    ensures STAGES[k].operation == "analysis." + NameOf(k) && STAGES[k].organ == OrganOf(k)
  {
  }

  ghost predicate BasisSays(v: Json, k: nat, input: string, x: Inputs)
    requires k < 9
  {
    && v.Obj?
    && v.fields.Keys
       == {"schema", "sequence", "stage", "operation", "input_sha256", "truth_label", "source_revision"}
    && v.fields["schema"] == Str("szl.lyte.analysis-stage-basis/v1")
    && v.fields["sequence"] == Int(k + 1)
    && v.fields["stage"] == Str(NameOf(k))
    && v.fields["operation"] == Str("analysis." + NameOf(k))
    && v.fields["input_sha256"] == Str(input)
    && v.fields["truth_label"] == Str(x.truth)
    && v.fields["source_revision"] == (if x.revision.Some? then Str(x.revision.value) else Null)
  }

  ghost predicate OutputSays(v: Json, k: nat, state: string, basis: string, result: Json)
    requires k < 9
  {
    && v.Obj?
    && v.fields.Keys == {"schema", "stage", "state", "basis_sha256", "result"}
    && v.fields["schema"] == Str("szl.lyte.analysis-stage-output/v1")
    && v.fields["stage"] == Str(NameOf(k))
    && v.fields["state"] == Str(state)
    && v.fields["basis_sha256"] == Str(basis)
    && v.fields["result"] == result
  }

  /** Stage k carries on from the stage before it and digests its own result. */
  ghost predicate StageSays(env: Env, x: Inputs, stages: seq<Stage>, k: nat)
    requires k < |stages| <= 9 && |x.results| == 9
  {
    var s := stages[k];
    && s.spec == STAGES[k] && s.spec.organ == OrganOf(k) && s.truth == x.truth && s.revision == x.revision
    && s.state == env.normalize(x.results[k].0)
    && s.input == (if k == 0 then x.input else stages[k - 1].output)
    && (exists v :: BasisSays(v, k, s.input, x) && s.basis == env.sha256(v))
    && exists v :: OutputSays(v, k, s.state, s.basis, x.results[k].1) && s.output == env.sha256(v)
  }

  lemma StageNamed(k: nat, state: string)
    requires k < 9
    ensures state in STATES[k] <==> Allowed(k, state)
    ensures STAGES[k].sequence == k + 1 && STAGES[k].stage == NameOf(k)
    ensures STAGES[k].operation == "analysis." + NameOf(k) && STAGES[k].organ == OrganOf(k)
  {
    hide NameOf, STAGES, STATES, Allowed;
    if k < 4 {
      EarlyStages(k, state);
    } else {
      LateStages(k, state);
    }
  }

  lemma BasisIsWritten(k: nat, input: string, x: Inputs)
    requires k < 9
    ensures BasisSays(Basis(STAGES[k], input, x.truth, x.revision), k, input, x)
  {
    hide NameOf, STAGES, STATES, Allowed;
    StageNamed(k, "");
  }

  lemma OutputIsWritten(k: nat, state: string, basis: string, result: Json)
    requires k < 9
    ensures OutputSays(Output(STAGES[k], state, basis, result), k, state, basis, result)
  {
    hide NameOf, STAGES, STATES, Allowed;
    StageNamed(k, "");
  }

  lemma StageIsWritten(env: Env, x: Inputs, k: nat, stages: seq<Stage>)
    requires |x.results| == 9 && k + 1 == |stages| <= 9
    requires stages[k] == StageOf(env, STAGES[k], x, env.normalize(x.results[k].0), Carried(x, stages[..k]),
                                  x.results[k].1)
    ensures StageSays(env, x, stages, k)
  {
    hide NameOf, OrganOf, STATES, Allowed, Basis, Output, BasisSays, OutputSays;
    StageNamed(k, "");
    var state, input := env.normalize(x.results[k].0), Carried(x, stages[..k]);
    var basis := Basis(STAGES[k], input, x.truth, x.revision);
    BasisIsWritten(k, input, x);
    OutputIsWritten(k, state, env.sha256(basis), x.results[k].1);
    assert OutputSays(Output(STAGES[k], state, env.sha256(basis), x.results[k].1), k, state, env.sha256(basis),
                      x.results[k].1);
  }

  lemma StageSaysEarlier(env: Env, x: Inputs, before: seq<Stage>, stages: seq<Stage>, k: nat)
    requires |x.results| == 9 && k < |before| && |stages| == |before| + 1 <= 9 && stages[..|before|] == before
    requires StageSays(env, x, before, k)
    ensures StageSays(env, x, stages, k)
  {
    hide BasisSays, OutputSays, STAGES;
    assert stages[k] == before[k] && (k > 0 ==> stages[k - 1] == before[k - 1]);
  }

  lemma {:induction false} BuiltSays(env: Env, x: Inputs, n: nat)
    requires |x.results| == 9 && n <= 9 && Build(env, x, n).Ok?
    ensures |Build(env, x, n).value| == n
    ensures forall k :: 0 <= k < n ==> StageSays(env, x, Build(env, x, n).value, k)
  {
    hide StageSays, StageOf, Build, Carried;
    BuildLength(env, x, n);
    if n > 0 {
      BuildStep(env, x, n);
      BuiltSays(env, x, n - 1);
      var before, stages := Build(env, x, n - 1).value, Build(env, x, n).value;
      StageIsWritten(env, x, n - 1, stages);
      forall k | 0 <= k < n - 1
        ensures StageSays(env, x, stages, k)
      {
        StageSaysEarlier(env, x, before, stages, k);
      }
    }
  }

  lemma {:induction false} BuiltExactly(env: Env, x: Inputs, n: nat)
    requires |x.results| == 9 && n <= 9
    ensures Build(env, x, n).Ok? <==> forall k :: 0 <= k < n ==> Allowed(k, env.normalize(x.results[k].0))
  {
    hide Allowed, StageOf, STATES, STAGES;
    if n > 0 {
      BuiltExactly(env, x, n - 1);
      StageNamed(n - 1, env.normalize(x.results[n - 1].0));
    }
  }

  /** An anatomy is built exactly from nine results in allowed states, and each of its stages says so. */
  lemma AnatomyExactly(env: Env, x: Inputs)
    ensures Anatomy(env, x).Ok? <==>
              |x.results| == 9 && forall k :: 0 <= k < 9 ==> Allowed(k, env.normalize(x.results[k].0))
    ensures Anatomy(env, x).Ok? ==>
              && |Anatomy(env, x).value| == 9
              && forall k :: 0 <= k < 9 ==> StageSays(env, x, Anatomy(env, x).value, k)
  {
    hide Build, Allowed, StageSays;
    if |x.results| == 9 {
      BuiltExactly(env, x, 9);
      if Anatomy(env, x).Ok? {
        BuiltSays(env, x, 9);
      }
    }
  }

  // The chain determines everything that went into it.

  lemma OutputBinds(spec: Spec, s: string, t: string, b: string, c: string, p: Json, q: Json)
    requires Output(spec, s, b, p) == Output(spec, t, c, q)
    ensures s == t && b == c && p == q
  {
    var m, n := Output(spec, s, b, p).fields, Output(spec, t, c, q).fields;
    assert m["state"] == Str(s) && n["state"] == Str(t);
    assert m["basis_sha256"] == Str(b) && n["basis_sha256"] == Str(c);
    assert m["result"] == p && n["result"] == q;
  }

  lemma BasisBinds(spec: Spec, i: string, j: string, t: string, u: string, r: Option<string>, s: Option<string>)
    requires Basis(spec, i, t, r) == Basis(spec, j, u, s)
    ensures i == j && t == u && r == s
  {
    var m, n := Basis(spec, i, t, r).fields, Basis(spec, j, u, s).fields;
    assert m["input_sha256"] == Str(i) && n["input_sha256"] == Str(j);
    assert m["truth_label"] == Str(t) && n["truth_label"] == Str(u);
    assert m["source_revision"] == TextOrNull(r) && n["source_revision"] == TextOrNull(s);
  }

  lemma BuildStep(env: Env, x: Inputs, n: nat)
    requires |x.results| == |STAGES| && 1 <= n <= |STAGES| && Build(env, x, n).Ok?
    ensures Build(env, x, n - 1).Ok? && |Build(env, x, n).value| == |Build(env, x, n - 1).value| + 1
    ensures var before, stages := Build(env, x, n - 1).value, Build(env, x, n).value;
            var state := env.normalize(x.results[n - 1].0);
            && stages[..|before|] == before
            && stages[|before|] == StageOf(env, STAGES[n - 1], x, state, Carried(x, before), x.results[n - 1].1)
  {
    hide StageOf;
  }

  lemma {:induction false} BuildLength(env: Env, x: Inputs, n: nat)
    requires |x.results| == |STAGES| && n <= |STAGES| && Build(env, x, n).Ok?
    ensures |Build(env, x, n).value| == n
  {
    if n > 0 {
      BuildLength(env, x, n - 1);
      BuildStep(env, x, n);
    }
  }

  /** The same input digest, truth label, revision and first n (state, result) pairs, states normalized. */
  ghost predicate SameInputs(env: Env, x: Inputs, y: Inputs, n: nat)
    requires |x.results| == |y.results| && n <= |x.results|
  {
    && x.input == y.input && x.truth == y.truth && x.revision == y.revision
    && forall k :: 0 <= k < n ==>
         env.normalize(x.results[k].0) == env.normalize(y.results[k].0) && x.results[k].1 == y.results[k].1
  }

  /** Inputs that reach the same digest after n stages are the same inputs so far. */
  lemma {:induction false} DigestDeterminesPrefix(env: Env, x: Inputs, y: Inputs, n: nat)
    requires Injective(env.sha256) && |x.results| == |y.results| == |STAGES| && 1 <= n <= |STAGES|
    requires Build(env, x, n).Ok? && Build(env, y, n).Ok?
    requires Carried(x, Build(env, x, n).value) == Carried(y, Build(env, y, n).value)
    ensures SameInputs(env, x, y, n)
  {
    hide Build, Output, Basis;
    BuildStep(env, x, n);
    BuildStep(env, y, n);
    BuildLength(env, x, n - 1);
    BuildLength(env, y, n - 1);
    var spec := STAGES[n - 1];
    var a, b := Carried(x, Build(env, x, n - 1).value), Carried(y, Build(env, y, n - 1).value);
    var s, t := env.normalize(x.results[n - 1].0), env.normalize(y.results[n - 1].0);
    var d, e := env.sha256(Basis(spec, a, x.truth, x.revision)), env.sha256(Basis(spec, b, y.truth, y.revision));
    OutputBinds(spec, s, t, d, e, x.results[n - 1].1, y.results[n - 1].1);
    BasisBinds(spec, a, b, x.truth, y.truth, x.revision, y.revision);
    if n > 1 {
      DigestDeterminesPrefix(env, x, y, n - 1);
    }
  }

  /**
  The last digest of an anatomy binds the input digest, the truth label, the
  revision and all nine states and results.
  */
  lemma LastDigestBindsEverything(env: Env, x: Inputs, y: Inputs)
    requires Injective(env.sha256) && Anatomy(env, x).Ok? && Anatomy(env, y).Ok?
    ensures |Anatomy(env, x).value| == |Anatomy(env, y).value| == 9
    ensures Anatomy(env, x).value[8].output == Anatomy(env, y).value[8].output <==> SameInputs(env, x, y, 9)
  {
    hide Build;
    BuildLength(env, x, 9);
    BuildLength(env, y, 9);
    if Anatomy(env, x).value[8].output == Anatomy(env, y).value[8].output {
      DigestDeterminesPrefix(env, x, y, 9);
    } else if SameInputs(env, x, y, 9) {
      SameInputsSameStages(env, x, y, 9);
    }
  }

  lemma {:induction false} SameInputsSameStages(env: Env, x: Inputs, y: Inputs, n: nat)
    requires |x.results| == |y.results| == |STAGES| && n <= |STAGES|
    requires SameInputs(env, x, y, n)
    ensures Build(env, x, n) == Build(env, y, n)
  {
    hide Basis, Output;
    if n > 0 {
      SameInputsSameStages(env, x, y, n - 1);
    }
  }

  // Stored traces.

  datatype Trace = Trace(
    traceId: string, spanId: string, parentSpanId: Option<string>, organ: string, operation: string, state: string,
    truth: string, input: string, output: string, attributes: map<string, Json>)

  const SCHEMA := "szl.lyte.analysis-anatomy/v1"

  function TraceOf(stage: Stage, traceId: string, spanId: string, parent: Option<string>): Trace {
    Trace(traceId, spanId, parent, stage.spec.organ, stage.spec.operation, "COMPLETED", stage.truth,
          stage.input, stage.output,
          map["schema" := Str(SCHEMA),
              "sequence" := Int(stage.spec.sequence),
              "stage" := Str(stage.spec.stage),
              "stage_state" := Str(stage.state),
              "basis_sha256" := Str(stage.basis),
              "description" := Str(stage.spec.description),
              "source_revision" := TextOrNull(stage.revision),
              "human_approval_required" := Bool(true),
              "can_authorize" := Bool(false),
              "can_execute" := Bool(false),
              "effectors_enabled" := Bool(false)])
  }

  /** What a trace demands of its stage; the keys of its attributes are fixed and hold no credential. */
  predicate Traceable(stage: Stage) {
    IsName(stage.spec.operation) && IsSha256(stage.input) && IsSha256(stage.output)
  }

  /** Each span's parent is the span before it. */
  function ParentOf(spanIds: seq<string>, i: nat): Option<string>
    requires i <= |spanIds|
  {
    if i == 0 then None else Some(spanIds[i - 1])
  }

  /** One span per stage, or a refusal; the span identifiers are drawn by the caller. */
  method ToTraces(stages: seq<Stage>, traceId: string, spanIds: seq<string>) returns (r: Option<seq<Trace>>)
    requires |spanIds| == |stages|
    ensures r.Some? <==> forall i :: 0 <= i < |stages| ==> Traceable(stages[i])
    ensures r.Some? ==> |r.value| == |stages|
    ensures r.Some? ==> forall i :: 0 <= i < |stages| ==>
              && r.value[i] == TraceOf(stages[i], traceId, spanIds[i], ParentOf(spanIds, i))
              && TraceSays(r.value[i], stages[i], traceId, spanIds[i],
                           if i == 0 then None else Some(spanIds[i - 1]))
  {
    hide TraceOf, TraceSays, IsName, IsSha256;
    var traces: seq<Trace> := [];
    var parent: Option<string> := None;
    for i := 0 to |stages|
      invariant |traces| == i && parent == ParentOf(spanIds, i)
      invariant forall k :: 0 <= k < i ==> Traceable(stages[k])
      invariant forall k :: 0 <= k < i ==>
                  && traces[k] == TraceOf(stages[k], traceId, spanIds[k], ParentOf(spanIds, k))
                  && TraceSays(traces[k], stages[k], traceId, spanIds[k], ParentOf(spanIds, k))
    {
      var stage := stages[i];
      if !IsName(stage.spec.operation) || !IsSha256(stage.input) {
        assert !Traceable(stages[i]);
        return None;
      }
      if !IsSha256(stage.output) {
        assert !Traceable(stages[i]);
        return None;
      }
      TraceKeepsStage(stage, traceId, spanIds[i], parent);
      traces := traces + [TraceOf(stage, traceId, spanIds[i], parent)];
      parent := Some(spanIds[i]);
    }
    return Some(traces);
  }

  /** A stored span says what its stage says, and claims no authority. */
  ghost predicate TraceSays(t: Trace, stage: Stage, traceId: string, spanId: string, parent: Option<string>) {
    && t.traceId == traceId && t.spanId == spanId && t.parentSpanId == parent
    && t.organ == stage.spec.organ && t.operation == stage.spec.operation && t.state == "COMPLETED"
    && t.truth == stage.truth && t.input == stage.input && t.output == stage.output
    && t.attributes.Keys
       == {"schema", "sequence", "stage", "stage_state", "basis_sha256", "description", "source_revision",
           "human_approval_required", "can_authorize", "can_execute", "effectors_enabled"}
    && t.attributes["schema"] == Str("szl.lyte.analysis-anatomy/v1")
    && t.attributes["sequence"] == Int(stage.spec.sequence)
    && t.attributes["stage"] == Str(stage.spec.stage)
    && t.attributes["stage_state"] == Str(stage.state)
    && t.attributes["basis_sha256"] == Str(stage.basis)
    && t.attributes["description"] == Str(stage.spec.description)
    && t.attributes["source_revision"] == (if stage.revision.Some? then Str(stage.revision.value) else Null)
    && t.attributes["human_approval_required"] == Bool(true)
    && t.attributes["can_authorize"] == t.attributes["can_execute"] == t.attributes["effectors_enabled"] == Bool(false)
  }

  lemma EarlyOperations(k: nat)
    requires k < 4
    ensures IsName(STAGES[k].operation)
  {
  }

  lemma LateOperations(k: nat)
    requires 4 <= k < |STAGES|
    ensures IsName(STAGES[k].operation)
  {
  }

  lemma {:induction false} BuiltStages(env: Env, x: Inputs, n: nat)
    requires |x.results| == |STAGES| && n <= |STAGES| && Build(env, x, n).Ok?
    requires forall v :: IsSha256(env.sha256(v))
    ensures var stages := Build(env, x, n).value;
            && |stages| == n
            && (n > 0 ==> ((forall i :: 0 <= i < n ==> Traceable(stages[i])) <==> IsSha256(x.input)))
            && (n > 0 ==> IsSha256(stages[n - 1].output))
  {
    hide IsName, IsSha256, Build, Basis, Output;
    if n == 0 {
      BuildLength(env, x, 0);
    } else {
      BuildStep(env, x, n);
      BuiltStages(env, x, n - 1);
      if n <= 4 {
        EarlyOperations(n - 1);
      } else {
        LateOperations(n - 1);
      }
      var before, stages := Build(env, x, n - 1).value, Build(env, x, n).value;
      assert forall i :: 0 <= i < n - 1 ==> stages[i] == before[i];
    }
  }

  /** The anatomy of any caller can be traced exactly when the input digest it was given is one. */
  lemma TraceableExactly(env: Env, x: Inputs)
    requires Anatomy(env, x).Ok? && forall v :: IsSha256(env.sha256(v))
    ensures var stages := Anatomy(env, x).value;
            (forall i :: 0 <= i < |stages| ==> Traceable(stages[i])) <==> IsSha256(x.input)
  {
    hide Build, Traceable, IsSha256;
    BuiltStages(env, x, 9);
  }

  function ToApi(stage: Stage, traceId: string): map<string, Json> {
    map["sequence" := Int(stage.spec.sequence),
        "stage" := Str(stage.spec.stage),
        "operation" := Str(stage.spec.operation),
        "organ" := Str(stage.spec.organ),
        "state" := Str(stage.state),
        "execution_state" := Str("COMPLETED"),
        "input_sha256" := Str(stage.input),
        "basis_sha256" := Str(stage.basis),
        "output_sha256" := Str(stage.output),
        "truth_label" := Str(stage.truth),
        "source_revision" := TextOrNull(stage.revision),
        "trace_id" := Str(traceId),
        "notes" := Arr([Str(stage.spec.description)])]
  }

  predicate HasStageAttributes(t: Trace) {
    {"sequence", "stage", "stage_state", "basis_sha256", "description"} <= t.attributes.Keys
  }

  function StoredToApi(t: Trace): map<string, Json>
    requires HasStageAttributes(t)
  {
    map["sequence" := t.attributes["sequence"],
        "stage" := t.attributes["stage"],
        "operation" := Str(t.operation),
        "organ" := Str(t.organ),
        "state" := t.attributes["stage_state"],
        "execution_state" := Str(t.state),
        "input_sha256" := Str(t.input),
        "basis_sha256" := t.attributes["basis_sha256"],
        "output_sha256" := Str(t.output),
        "truth_label" := Str(t.truth),
        "source_revision" := (if "source_revision" in t.attributes then t.attributes["source_revision"] else Null),
        "trace_id" := Str(t.traceId),
        "span_id" := Str(t.spanId),
        "parent_span_id" := TextOrNull(t.parentSpanId),
        "notes" := Arr([t.attributes["description"]])]
  }

  lemma TraceKeepsStage(stage: Stage, traceId: string, spanId: string, parent: Option<string>)
    ensures TraceSays(TraceOf(stage, traceId, spanId, parent), stage, traceId, spanId, parent)
    ensures HasStageAttributes(TraceOf(stage, traceId, spanId, parent))
  {
  }

  /** Storing a stage and projecting the row back gives the public stage, plus its span links. */
  lemma StoredTraceRoundTrip(stage: Stage, traceId: string, spanId: string, parent: Option<string>)
    ensures HasStageAttributes(TraceOf(stage, traceId, spanId, parent))
    ensures StoredToApi(TraceOf(stage, traceId, spanId, parent))
         == ToApi(stage, traceId) + map["span_id" := Str(spanId), "parent_span_id" := TextOrNull(parent)]
  {
    hide HasStageAttributes, TraceOf;
    TraceKeepsStage(stage, traceId, spanId, parent);
  }
}
