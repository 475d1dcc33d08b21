/**
  Workflows whose runs do not depend on the order of keys: every path that a step names finds a value
  that has no order to lose, or lies in the trigger or the run, which are never read back. For them
  pausing at gates preserves the meaning of the run, whatever order the outputs come in.
 */
module OrderFree {
  import opened Base
  import opened Json
  import opened Workflow
  import opened Repository
  import opened ReferenceRun
  import opened Authz
  import opened Protocol
  import opened RunContext
  import opened StepBodies
  import opened Jsonb
  import opened Rigidity
  import opened Templates
  import opened TemplateLaws
  import opened Rereading
  import opened Alike
  import Conditions
  import JsonText
  import Retry

  // ---------------------------------------------------------------- contexts with distinct keys

  ghost predicate EntriesDistinct(steps: seq<NamedEntry>) {
    && (forall e :: e in steps ==> Distinct(e.entry.output))
    && (forall i, j :: 0 <= i < j < |steps| ==> steps[i].position != steps[j].position)
  }

  ghost predicate ContextDistinct(ctx: Context) {
    Distinct(ctx.trigger) && (ctx.previous.Some? ==> Distinct(ctx.previous.value)) && EntriesDistinct(ctx.steps)
  }

  lemma {:induction false} StepsJsonAt(steps: seq<NamedEntry>, i: nat)
    requires i < |steps|
    ensures |StepsJson(steps)| == |steps|
    ensures StepsJson(steps)[i] == Field(JsonText.Decimal(steps[i].position), EntryJson(steps[i].entry))
  {
    if |steps| > 1 {
      StepsJsonAt(steps[1..], if i == 0 then 0 else i - 1);
    }
  }

  lemma {:induction false} EntryDistinct(e: Entry)
    requires Distinct(e.output)
    ensures Distinct(EntryJson(e))
  {
    var fields := EntryJson(e).fields;
    DistinctExactly(fields);
  }

  lemma {:induction false} StepsDistinct(steps: seq<NamedEntry>)
    requires EntriesDistinct(steps)
    ensures Distinct(Obj(StepsJson(steps)))
  {
    var fields := StepsJson(steps);
    if steps != [] {
      StepsJsonAt(steps, 0);
    }
    forall i | 0 <= i < |fields| ensures Distinct(fields[i].value) {
      StepsJsonAt(steps, i);
      EntryDistinct(steps[i].entry);
    }
    forall i, j | 0 <= i < j < |fields| ensures fields[i].key != fields[j].key {
      StepsJsonAt(steps, i);
      StepsJsonAt(steps, j);
      JsonText.DecimalIsInjective(steps[i].position, steps[j].position);
    }
    DistinctExactly(fields);
  }

  lemma {:induction false} AsJsonDistinct(ctx: Context)
    requires ContextDistinct(ctx)
    ensures Distinct(AsJson(ctx))
  {
    var fields := AsJson(ctx).fields;
    StepsDistinct(ctx.steps);
    DistinctExactly(PreviousFields(ctx.previous));
    DistinctExactly(fields[3].value.fields);
    DistinctExactly(fields);
  }

  function PreviousFields(previous: Option<Json>): seq<Field> {
    match previous
    case None => []
    case Some(output) => [Field("output", output), Field("status", Str("completed"))]
  }

  lemma {:induction false} ExtendedDistinct(ctx: Context, step: Step, output: Json)
    requires ContextDistinct(ctx) && Distinct(output) && Below(ctx.steps, step.position)
    ensures ContextDistinct(Extended(ctx, step, output))
  {
    PutBehind(ctx.steps, step.position, Entry(output, step.name, step.kind));
    assert forall i :: 0 <= i < |ctx.steps| ==> ctx.steps[i] in ctx.steps;
  }

  /** The outputs of `recs[..count]` have distinct keys. */
  ghost predicate RecordsDistinct(recs: seq<Rec>, count: nat) {
    forall i :: 0 <= i < count <= |recs| && recs[i].Done? ==> Distinct(recs[i].output)
  }

  ghost predicate StoreKeepsDistinct(w: World) { forall j :: Distinct(j) ==> Distinct(w.store(j)) }

  lemma {:induction false} ContextsDistinct(w: World, recs: seq<Rec>, count: nat)
    requires ValidSteps(w.steps) && count <= |recs| <= |w.steps| && RecordsDistinct(recs, count)
    requires Distinct(w.trigger) && StoreKeepsDistinct(w)
    ensures ContextDistinct(RereadContext(w, recs, count)) && ContextDistinct(ContextAt(w, recs, count))
  {
    if count > 0 {
      ContextsDistinct(w, recs, count - 1);
      EntriesBelow(w, recs, count - 1, count - 1);
      var step := w.steps[count - 1];
      match recs[count - 1]
      case Done(_, output, _) =>
        ExtendedDistinct(RereadContext(w, recs, count - 1), step, w.store(output));
        ExtendedDistinct(ContextAt(w, recs, count - 1), step, output);
      case Approved(_) => ExtendedDistinct(RereadContext(w, recs, count - 1), step, Null);
      case _ =>
    }
  }

  // ---------------------------------------------------------------- configs and outputs with distinct keys

  lemma {:induction false} WalkDistinct(j: Json, parts: seq<string>)
    requires Distinct(j)
    ensures Walk(Some(j), parts).Some? ==> Distinct(Walk(Some(j), parts).value)
    decreases |parts|
  {
    if parts != [] {
      PropertyKept(j, parts[0]);
      match Property(Some(j), parts[0])
      case None => WalkFromNothing(parts[1..]);
      case Some(v) => WalkDistinct(v, parts[1..]);
    }
  }

  lemma {:induction false} FilledDistinct(value: Json, ctx: Json)
    requires Distinct(value) && Distinct(ctx)
    ensures Distinct(Templates.Filled(value, ctx))
    decreases value, 0
  {
    match value
    case Str(s) =>
      if WholeHole(s).Some? {
        WalkDistinct(ctx, Parts(WholeHole(s).value));
      }
    case Arr(items) => FilledItemsDistinct(items, ctx);
    case Obj(fields) =>
      DistinctExactly(fields);
      FilledFieldsDistinct(fields, ctx);
    case _ =>
  }

  lemma {:induction false} FilledItemsDistinct(items: seq<Json>, ctx: Json)
    requires DistinctItems(items) && Distinct(ctx)
    ensures DistinctItems(FilledItems(items, ctx))
    decreases items, 0
  {
    if items != [] {
      FilledDistinct(items[0], ctx);
      FilledItemsDistinct(items[1..], ctx);
      assert FilledItems(items, ctx)[1..] == FilledItems(items[1..], ctx);
    }
  }

  /** A member with the key in the filled object comes from one in the config. */
  lemma {:induction false} FilledKeys(fields: seq<Field>, ctx: Json, key: string)
    requires forall i :: 0 <= i < |fields| ==> fields[i].key != key
    ensures forall i :: 0 <= i < |FilledFields(fields, ctx)| ==> FilledFields(fields, ctx)[i].key != key
    decreases |fields|
  {
    if fields != [] {
      assert forall i :: 0 <= i < |fields| - 1 ==> fields[1..][i] == fields[i + 1];
      FilledKeys(fields[1..], ctx, key);
    }
  }

  lemma {:induction false} FilledFieldsDistinct(fields: seq<Field>, ctx: Json)
    requires KeysDiffer(fields) && (forall i :: 0 <= i < |fields| ==> Distinct(fields[i].value)) && Distinct(ctx)
    ensures DistinctFields(FilledFields(fields, ctx))
    decreases fields, 0
  {
    var out := FilledFields(fields, ctx);
    if fields != [] {
      var rest := FilledFields(fields[1..], ctx);
      FilledFieldsDistinct(fields[1..], ctx);
      DistinctExactly(rest);
      if !Dangerous(fields[0].key) {
        FilledDistinct(fields[0].value, ctx);
        FilledKeys(fields[1..], ctx, fields[0].key);
        assert forall i :: 0 < i < |out| ==> out[i] == rest[i - 1];
      }
    }
    DistinctExactly(out);
  }

  // ---------------------------------------------------------------- what a path finds after reading back

  lemma {:induction false} ColumnsAgree(f: seq<Field>, g: seq<Field>)
    requires |f| == |g|
    requires forall i :: 0 <= i < |f| ==> f[i].key == g[i].key && Column(f[i].value) == Column(g[i].value)
    ensures ColumnFields(f) == ColumnFields(g)
    decreases |f|
  {
    if f != [] {
      ColumnsAgree(f[..|f| - 1], g[..|g| - 1]);
    }
  }

  /** The columns of this world are those of jsonb. */
  ghost predicate StoresJsonb(w: World) { forall j :: w.store(j) == Column(j) }

  lemma {:induction false} RereadStepAt(w: World, steps: seq<NamedEntry>, i: nat)
    requires i < |steps|
    ensures |RereadSteps(w, steps)| == |steps|
    ensures RereadSteps(w, steps)[i] == steps[i].(entry := steps[i].entry.(output := w.store(steps[i].entry.output)))
  {
    if |steps| > 1 {
      RereadStepAt(w, steps[1..], if i == 0 then 0 else i - 1);
    }
  }

  lemma {:induction false} EntryReread(w: World, e: Entry)
    requires StoresJsonb(w)
    ensures Column(EntryJson(e.(output := w.store(e.output)))) == Column(EntryJson(e))
  {
    FixedExactly(e.output);
    ColumnsAgree(EntryJson(e.(output := w.store(e.output))).fields, EntryJson(e).fields);
  }

  lemma {:induction false} StepsReread(w: World, steps: seq<NamedEntry>)
    requires StoresJsonb(w)
    ensures Column(Obj(StepsJson(RereadSteps(w, steps)))) == Column(Obj(StepsJson(steps)))
  {
    var after := RereadSteps(w, steps);
    var f, g := StepsJson(after), StepsJson(steps);
    if steps != [] {
      RereadStepAt(w, steps, 0);
      StepsJsonAt(steps, 0);
      StepsJsonAt(after, 0);
    }
    forall i | 0 <= i < |f| ensures f[i].key == g[i].key && Column(f[i].value) == Column(g[i].value) {
      RereadStepAt(w, steps, i);
      StepsJsonAt(after, i);
      StepsJsonAt(steps, i);
      EntryReread(w, steps[i].entry);
    }
    ColumnsAgree(f, g);
  }

  lemma {:induction false} PreviousReread(w: World, previous: Option<Json>)
    requires StoresJsonb(w)
    ensures Column(PreviousJson(match previous case None => None case Some(output) => Some(w.store(output))))
         == Column(PreviousJson(previous))
  {
    if previous.Some? {
      FixedExactly(previous.value);
      ColumnsAgree(PreviousFields(Some(w.store(previous.value))), PreviousFields(previous));
    }
  }

  lemma {:induction false} ContextReread(w: World, ctx: Context)
    requires StoresJsonb(w)
    ensures Column(AsJson(Reread(w, ctx))) == Column(AsJson(ctx))
  {
    StepsReread(w, ctx.steps);
    PreviousReread(w, ctx.previous);
    ColumnsAgree(AsJson(Reread(w, ctx)).fields, AsJson(ctx).fields);
  }

  /** The path lies in the trigger or the run, or finds nothing, or a value without an order to lose. */
  predicate Settles(ctx: Context, path: string) {
    || (Parts(path) != [] && (Parts(path)[0] == "trigger" || Parts(path)[0] == "run"))
    || Found(ctx, path).None?
    || Rigid(Found(ctx, path).value)
  }

  lemma {:induction false} KeyOfContext(ctx: Context, parts: seq<string>)
    requires parts != [] && (parts[0] == "trigger" || parts[0] == "run")
    ensures Walk(Some(AsJson(ctx)), parts)
         == Walk(Some(if parts[0] == "trigger" then ctx.trigger else AsJson(ctx).fields[3].value), parts[1..])
  {
    ContextFields(ctx);
  }

  /** In two contexts that read back the same, such a path finds the same value. */
  lemma {:induction false} SameFound(w: World, a: Context, b: Context, path: string)
    requires StoresJsonb(w) && ContextDistinct(a) && ContextDistinct(b) && Reread(w, a) == Reread(w, b)
    requires Settles(b, path)
    ensures Found(a, path) == Found(b, path)
  {
    var parts := Parts(path);
    if parts != [] && (parts[0] == "trigger" || parts[0] == "run") {
      KeyOfContext(a, parts);
      KeyOfContext(b, parts);
      assert a.trigger == Reread(w, a).trigger == Reread(w, b).trigger == b.trigger;
      assert a.run == Reread(w, a).run == Reread(w, b).run == b.run;
    } else {
      ContextReread(w, a);
      ContextReread(w, b);
      AsJsonDistinct(a);
      AsJsonDistinct(b);
      SameWhereRigid(AsJson(a), AsJson(b), parts);
    }
  }

  lemma {:induction false} SameWhereRigid(a: Json, b: Json, parts: seq<string>)
    requires Distinct(a) && Distinct(b) && Column(a) == Column(b)
    requires var found := Walk(Some(b), parts); found.None? || Rigid(found.value)
    ensures Walk(Some(a), parts) == Walk(Some(b), parts)
  {
    PathsKept(a, parts);
    PathsKept(b, parts);
    WalkDistinct(a, parts);
    WalkDistinct(b, parts);
    var found := Walk(Some(b), parts);
    if found.Some? {
      RigidDetermined(found.value, Walk(Some(a), parts).value);
    }
  }

  // ---------------------------------------------------------------- outputs of a run

  /** As in the host language, no object of the inputs or answers has two members with one key. */
  ghost predicate InputsDistinct(steps: seq<Step>, trigger: Json, x: Surroundings) {
    && Distinct(trigger)
    && (forall s :: s in steps ==> Distinct(s.config))
    && forall step, cfg, k: nat :: x.service(step, cfg)(k).Returned? ==> Distinct(x.service(step, cfg)(k).value.output)
  }

  /** The world of `StepBodies.Concrete`, with columns of whatever kind. */
  ghost predicate Runs(v: World, steps: seq<Step>, trigger: Json, x: Surroundings) {
    && v == Concrete(steps, v.run, trigger, x).(store := v.store)
    && ValidSteps(steps) && InputsDistinct(steps, trigger, x) && StoreKeepsDistinct(v)
  }

  lemma {:induction false} FieldDistinct(v: Option<Json>, key: string)
    requires v.Some? ==> Distinct(v.value)
    ensures FieldOf(v, key).Some? ==> Distinct(FieldOf(v, key).value)
  {
    if v.Some? && v.value.Obj? {
      OnlyMember(v.value.fields, key);
    }
  }

  lemma {:induction false} BranchOutputDistinct(host: Conditions.Host, cfg: Json, ctx: Context)
    requires Distinct(cfg) && Distinct(AsJson(ctx))
    ensures var result := BranchBody(host, cfg, ctx); result.Returned? ==> Distinct(result.value.output)
  {
    var result := BranchBody(host, cfg, ctx);
    if result.Returned? {
      var condition := FieldOf(Some(cfg), "condition");
      FieldDistinct(Some(cfg), "condition");
      FieldDistinct(condition, "value");
      FieldDistinct(condition, "path");
      FieldDistinct(Some(cfg), "on_true");
      FieldDistinct(Some(cfg), "on_false");
      WalkDistinct(AsJson(ctx), Parts(FieldOf(condition, "path").value.s));
      DistinctExactly(result.value.output.fields);
    }
  }

  lemma {:induction false} TriedDistinct(v: World, steps: seq<Step>, trigger: Json, x: Surroundings, step: Step, ctx: Context)
    requires Runs(v, steps, trigger, x) && step in steps && ContextDistinct(ctx)
    ensures var tried := Tried(v, step, v.resolve(step.config, ctx), ctx); tried.Succeeded? ==> Distinct(tried.value.output)
  {
    var cfg := v.resolve(step.config, ctx);
    AsJsonDistinct(ctx);
    FilledDistinct(step.config, AsJson(ctx));
    BranchOutputDistinct(x.host, cfg, ctx);
    var body := v.body(step, cfg, ctx);
    var limit := Retry.Limit(v.policy(cfg));
    Retry.StopsAtFirstLast(body, limit, 1);
    var k := Retry.Outcome(body, limit, 1).attempts;
    assert body(k) == BodyOf(x, step, cfg, ctx)(k);
  }

  /** Every output of a run has distinct keys. */
  lemma {:induction false} OutputsDistinct(v: World, steps: seq<Step>, trigger: Json, x: Surroundings, recs: seq<Rec>)
    requires Runs(v, steps, trigger, x) && |recs| <= |steps| && RecordsDistinct(recs, |recs|)
    ensures RecordsDistinct(Reference(v, recs).recs, |Reference(v, recs).recs|)
    decreases |steps| - |recs|
  {
    if |recs| < |steps| {
      ContextsDistinct(v, recs, |recs|);
      TriedDistinct(v, steps, trigger, x, steps[|recs|], ContextAt(v, recs, |recs|));
    }
    NextDistinct(v, recs);
    if Next(v, recs).Go? {
      OutputsDistinct(v, steps, trigger, x, Next(v, recs).recs);
    }
  }

  lemma {:induction false} NextDistinct(v: World, recs: seq<Rec>)
    requires |recs| <= |v.steps| && RecordsDistinct(recs, |recs|)
    requires |recs| < |v.steps| ==>
               var tried := Tried(v, v.steps[|recs|], ConfigAt(v, recs, |recs|), ContextAt(v, recs, |recs|));
               tried.Succeeded? ==> Distinct(tried.value.output)
    ensures RecordsDistinct(Next(v, recs).recs, |Next(v, recs).recs|)
  {
    assert forall i :: 0 <= i < |recs| ==> Next(v, recs).recs[i] == recs[i];
  }

  // ---------------------------------------------------------------- steps that ignore the order of keys

  /** The path on which a branch config decides settles. */
  predicate BranchSettles(ctx: Context, cfg: Json) {
    var path := FieldOf(FieldOf(Some(cfg), "condition"), "path");
    path.Some? && path.value.Str? ==> Settles(ctx, path.value.s)
  }

  /** Every path that step `p` names settles where the run stands at it. */
  ghost predicate OrderFreeAt(v: World, u: RefRun, p: nat)
    requires |u.recs| <= |v.steps|
  {
    p in u.heads && p < |v.steps| && p <= |u.recs| ==>
      var ctx := ContextAt(v, u.recs, p);
      && (forall path :: path in Named(v.steps[p].config) ==> Settles(ctx, path))
      && (v.steps[p].kind.ConditionalBranch? ==> BranchSettles(ctx, ConfigAt(v, u.recs, p)))
  }

  lemma {:induction false} SameBranch(w: World, host: Conditions.Host, cfg: Json, a: Context, b: Context)
    requires StoresJsonb(w) && ContextDistinct(a) && ContextDistinct(b) && Reread(w, a) == Reread(w, b)
    requires BranchSettles(b, cfg)
    ensures BranchBody(host, cfg, a) == BranchBody(host, cfg, b)
  {
    var path := FieldOf(FieldOf(Some(cfg), "condition"), "path");
    if path.Some? && path.value.Str? {
      SameFound(w, a, b, path.value.s);
    }
  }

  /** Where its paths settle, a step does the same in two contexts that read back the same. */
  lemma {:induction false} SettledStepActsAlike(w: World, steps: seq<Step>, trigger: Json, x: Surroundings,
                                                p: nat, a: Context, b: Context)
    requires Runs(w, steps, trigger, x) && StoresJsonb(w) && p < |steps|
    requires ContextDistinct(a) && ContextDistinct(b) && Reread(w, a) == Reread(w, b)
    requires forall path :: path in Named(steps[p].config) ==> Settles(b, path)
    requires steps[p].kind.ConditionalBranch? ==> BranchSettles(b, w.resolve(steps[p].config, b))
    ensures ActsAlike(w, p, a, b)
  {
    var step := steps[p];
    forall path | path in Named(step.config) ensures Templates.Resolved(AsJson(a), path) == Templates.Resolved(AsJson(b), path) {
      SameFound(w, a, b, path);
    }
    Locality(step.config, AsJson(a), AsJson(b));
    var cfg := w.resolve(step.config, b);
    assert w.resolve(step.config, a) == cfg;
    if step.kind.ConditionalBranch? {
      SameBranch(w, x.host, cfg, a, b);
    }
    forall k: nat ensures w.body(step, cfg, a)(k) == w.body(step, cfg, b)(k) {
      assert w.body(step, cfg, a)(k) == BodyOf(x, step, cfg, a)(k) && w.body(step, cfg, b)(k) == BodyOf(x, step, cfg, b)(k);
    }
    Retry.SameOutcome(w.body(step, cfg, a), w.body(step, cfg, b), Retry.Limit(w.policy(cfg)), 1);
  }

  lemma {:induction false} OrderFreeActsAlike(w: World, steps: seq<Step>, trigger: Json, x: Surroundings,
                                              f: RefRun, u: RefRun, p: nat)
    requires Runs(w, steps, trigger, x) && Runs(Uncut(w), steps, trigger, x) && StoresJsonb(w) && StoreSettles(w)
    requires |f.recs| <= |steps| && |u.recs| <= |steps|
    requires RecordsDistinct(f.recs, |f.recs|) && RecordsDistinct(u.recs, |u.recs|)
    requires OrderFreeAt(Uncut(w), u, p)
    ensures ActsAlikeAt(w, f, u, p)
  {
    if p in u.heads && p < |steps| && p <= |f.recs| && p <= |u.recs| && AlikeUpTo(w, f.recs, u.recs, p) {
      AlikeContexts(w, f.recs, u.recs, p);
      ContextsDistinct(w, f.recs, p);
      ContextsDistinct(Uncut(w), u.recs, p);
      SettledStepActsAlike(w, steps, trigger, x, p, ContextAt(w, f.recs, p), ContextAt(Uncut(w), u.recs, p));
    }
  }

  /**
    Pause and resume preserve meaning: in a workflow whose steps name only paths that settle in the
    uncut run, every finished run is, row for row, that uncut run, in whatever order outputs have their keys.
   */
  lemma {:induction false} OrderFreeRunsAgree(w: World, steps: seq<Step>, trigger: Json, x: Surroundings, u: RefRun,
                                              roles: map<UserId, Role>, events: seq<Event>)
    requires w == Concrete(steps, w.run, trigger, x) && ValidSteps(steps) && InputsDistinct(steps, trigger, x)
    requires u == Reference(Uncut(w), []) && forall p: nat :: OrderFreeAt(Uncut(w), u, p)
    requires Terminal(Run(w, roles, events).db.run.status)
    ensures RowsTell(w, Run(w, roles, events).db, u)
  {
    var f, v := Reference(w, []), Uncut(w);
    ConcreteRuns(w, steps, trigger, x);
    OutputsDistinct(w, steps, trigger, x, []);
    OutputsDistinct(v, steps, trigger, x, []);
    forall p: nat ensures ActsAlikeAt(w, f, u, p) {
      assert OrderFreeAt(v, u, p);
      OrderFreeActsAlike(w, steps, trigger, x, f, u, p);
    }
    MeaningSurvives(w, u, roles, events);
  }

  lemma {:induction false} ConcreteRuns(w: World, steps: seq<Step>, trigger: Json, x: Surroundings)
    requires w == Concrete(steps, w.run, trigger, x) && ValidSteps(steps) && InputsDistinct(steps, trigger, x)
    ensures Runs(w, steps, trigger, x) && Runs(Uncut(w), steps, trigger, x) && StoresJsonb(w) && StoreSettles(w)
  {
    forall j ensures Distinct(Column(j)) && Column(Column(j)) == Column(j) {
      ColumnDistinct(j);
      FixedExactly(j);
    }
    assert Uncut(w) == Concrete(steps, Uncut(w).run, trigger, x).(store := Uncut(w).store);
  }
}
