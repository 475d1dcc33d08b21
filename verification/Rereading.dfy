/**
  What pausing changes. A gate ends a segment, and the next one reads the outputs back from jsonb
  columns, which do not keep the order of keys. Here the context in memory is compared with the one
  read back, and the run that gates cut into segments with the run that is never cut.
 */
module Rereading {
  import opened Base
  import opened Json
  import opened Workflow
  import opened Repository
  import opened ReferenceRun
  import opened Authz
  import opened Frontier
  import opened Protocol
  import opened Theorems
  import opened RunProperties

  // ---------------------------------------------------------------- the context in memory and the one read back

  function RereadSteps(w: World, steps: seq<NamedEntry>): seq<NamedEntry> {
    if steps == [] then []
    else [steps[0].(entry := steps[0].entry.(output := w.store(steps[0].entry.output)))] + RereadSteps(w, steps[1..])
  }

  /** The context with each of its outputs passed through the column. */
  function Reread(w: World, ctx: Context): Context {
    ctx.(steps := RereadSteps(w, ctx.steps),
         previous := match ctx.previous case None => None case Some(output) => Some(w.store(output)))
  }

  /** A value read back and stored again is as it was, and null stays null. */
  ghost predicate StoreSettles(w: World) {
    (forall j :: w.store(w.store(j)) == w.store(j)) && w.store(Null) == Null
  }

  lemma {:induction false} PutReread(w: World, steps: seq<NamedEntry>, position: int, entry: Entry)
    ensures RereadSteps(w, PutEntry(steps, position, entry))
         == PutEntry(RereadSteps(w, steps), position, entry.(output := w.store(entry.output)))
  {
    var after := PutEntry(steps, position, entry);
    if steps == [] || position < steps[0].position {
      assert after[1..] == steps;
    } else if position == steps[0].position {
      assert after[1..] == steps[1..] && RereadSteps(w, steps)[1..] == RereadSteps(w, steps[1..]);
    } else {
      PutReread(w, steps[1..], position, entry);
      assert after[1..] == PutEntry(steps[1..], position, entry);
      assert RereadSteps(w, steps)[1..] == RereadSteps(w, steps[1..]);
    }
  }

  lemma {:induction false} ExtendedReread(w: World, ctx: Context, step: Step, output: Json)
    ensures Reread(w, Extended(ctx, step, output)) == Extended(Reread(w, ctx), step, w.store(output))
  {
    PutReread(w, ctx.steps, step.position, Entry(output, step.name, step.kind));
  }

  /** Reading back the context is passing the outputs of the one in memory through the column. */
  lemma {:induction false} RereadOfContext(w: World, recs: seq<Rec>, count: nat)
    requires StoreSettles(w) && count <= |recs| <= |w.steps|
    ensures Reread(w, RereadContext(w, recs, count)) == RereadContext(w, recs, count)
    ensures Reread(w, ContextAt(w, recs, count)) == RereadContext(w, recs, count)
  {
    if count > 0 {
      RereadOfContext(w, recs, count - 1);
      var step := w.steps[count - 1];
      match recs[count - 1]
      case Done(_, output, _) =>
        ExtendedReread(w, ContextAt(w, recs, count - 1), step, output);
        ExtendedReread(w, RereadContext(w, recs, count - 1), step, w.store(output));
      case Approved(_) =>
        ExtendedReread(w, RereadContext(w, recs, count - 1), step, Null);
      case _ =>
    }
  }

  /** At every loop head the context rebuilt from the rows is the one in memory, read back. */
  lemma {:induction false} RebuiltIsReread(w: World, roles: map<UserId, Role>, events: seq<Event>, t: nat)
    requires ValidSteps(w.steps) && StoreSettles(w)
    requires var s := Run(w, roles, events); t < |s.threads| && s.threads[t].phase.Head?
    ensures var s := Run(w, roles, events);
      Rebuilt(w, s.db.rows, |w.steps|) == Reread(w, s.threads[t].phase.l.ctx)
  {
    var p := ContextAtHead(w, roles, events, t);
    RereadOfContext(w, Reference(w, []).recs, p);
  }

  // ---------------------------------------------------------------- when the two are equal

  /** Where the segment that reaches `recs[count]` began: behind the last approved gate. */
  function SegmentStart(recs: seq<Rec>, count: nat): (start: nat)
    requires count <= |recs|
    ensures start <= count
  {
    if count == 0 || recs[count - 1].Approved? then count else SegmentStart(recs, count - 1)
  }

  /** The outputs of `recs[from..to]` come back from their columns as they were written. */
  ghost predicate OutputsKept(w: World, recs: seq<Rec>, from: nat, to: nat) {
    forall i :: from <= i < to <= |recs| && recs[i].Done? ==> w.store(recs[i].output) == recs[i].output
  }

  ghost predicate Below(steps: seq<NamedEntry>, position: int) {
    forall e :: e in steps ==> e.position < position
  }

  lemma {:induction false} PutBehind(steps: seq<NamedEntry>, position: int, entry: Entry)
    requires Below(steps, position)
    ensures PutEntry(steps, position, entry) == steps + [NamedEntry(position, entry)]
  {
    if steps != [] {
      assert steps[0] in steps && forall e :: e in steps[1..] ==> e in steps;
      PutBehind(steps[1..], position, entry);
      assert steps + [NamedEntry(position, entry)] == [steps[0]] + (steps[1..] + [NamedEntry(position, entry)]);
    }
  }

  /** Entries of the first `count` steps have positions below that of any later step. */
  lemma {:induction false} EntriesBelow(w: World, recs: seq<Rec>, count: nat, later: nat)
    requires ValidSteps(w.steps) && count <= |recs| <= |w.steps| && count <= later < |w.steps|
    ensures Below(RereadContext(w, recs, count).steps, w.steps[later].position)
    ensures Below(ContextAt(w, recs, count).steps, w.steps[later].position)
  {
    if count > 0 {
      EntriesBelow(w, recs, count - 1, later);
      EntriesBelow(w, recs, count - 1, count - 1);
      var position := w.steps[count - 1].position;
      forall output: Json, name: string, kind: StepKind, steps: seq<NamedEntry>
        | Below(steps, position) && Below(steps, w.steps[later].position)
        ensures Below(PutEntry(steps, position, Entry(output, name, kind)), w.steps[later].position)
      {
        PutBehind(steps, position, Entry(output, name, kind));
      }
    }
  }

  /**
    The context in memory equals the one read back if and only if every output since the segment
    began comes back from its column as it was written.
   */
  lemma {:induction false} SameContextExactly(w: World, recs: seq<Rec>, count: nat)
    requires ValidSteps(w.steps) && count <= |recs| <= |w.steps|
    ensures ContextAt(w, recs, count).steps == RereadContext(w, recs, count).steps
      <==> OutputsKept(w, recs, SegmentStart(recs, count), count)
    ensures ContextAt(w, recs, count) == RereadContext(w, recs, count)
      <==> OutputsKept(w, recs, SegmentStart(recs, count), count)
  {
    if count > 0 && !recs[count - 1].Approved? {
      SameContextExactly(w, recs, count - 1);
      if recs[count - 1].Done? {
        var step, output := w.steps[count - 1], recs[count - 1].output;
        var a, b := ContextAt(w, recs, count - 1).steps, RereadContext(w, recs, count - 1).steps;
        EntriesBelow(w, recs, count - 1, count - 1);
        PutBehind(a, step.position, Entry(output, step.name, step.kind));
        PutBehind(b, step.position, Entry(w.store(output), step.name, step.kind));
        LastDiffers(a, b, NamedEntry(step.position, Entry(output, step.name, step.kind)),
                    NamedEntry(step.position, Entry(w.store(output), step.name, step.kind)));
      }
    }
  }

  lemma {:induction false} LastDiffers(a: seq<NamedEntry>, b: seq<NamedEntry>, x: NamedEntry, y: NamedEntry)
    ensures a + [x] == b + [y] <==> a == b && x == y
  {
    if a + [x] == b + [y] {
      assert (a + [x])[..|a|] == a && (b + [y])[..|b|] == b;
      assert (a + [x])[|a|] == x && (b + [y])[|b|] == y;
    }
  }

  /** At every loop head the context in memory is the rebuilt one exactly when this segment's outputs are kept. */
  lemma {:induction false} ContextIsRebuiltExactly(w: World, roles: map<UserId, Role>, events: seq<Event>, t: nat)
    requires ValidSteps(w.steps)
    requires var s := Run(w, roles, events); t < |s.threads| && s.threads[t].phase.Head?
    ensures var s, recs := Run(w, roles, events), Reference(w, []).recs;
      var l := s.threads[t].phase.l;
      && l.index <= |recs|
      && (l.ctx == Rebuilt(w, s.db.rows, |w.steps|) <==> OutputsKept(w, recs, SegmentStart(recs, l.index), l.index))
  {
    var p := ContextAtHead(w, roles, events, t);
    SameContextExactly(w, Reference(w, []).recs, p);
  }

  // ---------------------------------------------------------------- the run that is never cut

  /** The same world, with outputs that stay in memory: gates cost nothing but a null output. */
  function Uncut(w: World): World { w.(store := (j: Json) => j) }

  /** Every output that a gate is approved behind comes back as it was written. */
  ghost predicate OutputsSurvive(w: World, recs: seq<Rec>, count: nat) {
    forall i, j :: 0 <= i < j < count <= |recs| && recs[i].Done? && recs[j].Approved? ==>
      w.store(recs[i].output) == recs[i].output
  }

  lemma {:induction false} SameReread(w: World, recs: seq<Rec>, count: nat)
    requires count <= |recs| <= |w.steps| && OutputsKept(w, recs, 0, count)
    ensures RereadContext(w, recs, count) == RereadContext(Uncut(w), recs, count)
  {
    if count > 0 {
      SameReread(w, recs, count - 1);
    }
  }

  lemma {:induction false} SameContext(w: World, recs: seq<Rec>, count: nat)
    requires count <= |recs| <= |w.steps| && OutputsSurvive(w, recs, count)
    ensures ContextAt(w, recs, count) == ContextAt(Uncut(w), recs, count)
  {
    if count > 0 {
      if recs[count - 1].Approved? {
        assert OutputsKept(w, recs, 0, count);
        SameReread(w, recs, count);
      } else {
        SameContext(w, recs, count - 1);
      }
    }
  }

  lemma {:induction false} SurvivesInPrefix(w: World, recs: seq<Rec>, all: seq<Rec>)
    requires |recs| <= |all| && recs == all[..|recs|] && OutputsSurvive(w, all, |all|)
    ensures OutputsSurvive(w, recs, |recs|)
  {
    assert forall i :: 0 <= i < |recs| ==> recs[i] == all[i];
  }

  /** A special case: where outputs survive, in the run cut by gates or in the uncut one, both are the same run. */
  lemma {:induction false} SameRun(w: World, recs: seq<Rec>)
    requires |recs| <= |w.steps|
    requires || OutputsSurvive(w, Reference(w, recs).recs, |Reference(w, recs).recs|)
             || OutputsSurvive(w, Reference(Uncut(w), recs).recs, |Reference(Uncut(w), recs).recs|)
    ensures Reference(w, recs) == Reference(Uncut(w), recs)
    decreases |w.steps| - |recs|
  {
    var u := Uncut(w);
    ReferenceExtends(w, recs);
    ReferenceExtends(u, recs);
    var all := if OutputsSurvive(w, Reference(w, recs).recs, |Reference(w, recs).recs|)
               then Reference(w, recs).recs else Reference(u, recs).recs;
    SurvivesInPrefix(w, recs, all);
    SameContext(w, recs, |recs|);
    assert |recs| < |w.steps| ==> ConfigAt(w, recs, |recs|) == ConfigAt(u, recs, |recs|);
    assert Next(w, recs) == Next(u, recs);
    if Next(w, recs).Go? {
      SameRun(w, Next(w, recs).recs);
    }
  }
}
