/**
  The meaning of a run, without rows, pauses or duplicate deliveries: one pass over the step list
  in which an approved gate is a step with null output.
 */
module ReferenceRun {
  import opened Base
  import opened Json
  import opened Workflow

  /** What became of one step. */
  datatype Rec =
    | Done(input: Json, output: Json, attempts: nat)
    | Approved(input: Json)
    | Jumped
    | BodyFailed(input: Json, attempts: nat, error: Message)
    | BadBranch(input: Json, output: Json, attempts: nat, error: Message)

  datatype Ending = Completes | Fails(error: Message)

  /**
    A whole run: what became of `steps[..|recs|]`, in order, how the run ended, and the indices at
    which the loop stood on its way.
   */
  datatype RefRun = RefRun(recs: seq<Rec>, ending: Ending, heads: set<nat>)

  function Jumps(count: nat): (r: seq<Rec>)
    ensures |r| == count && forall i :: 0 <= i < count ==> r[i] == Jumped
  {
    seq(count, _ => Jumped)
  }

  /** The context read back from the rows of `recs[..count]`: every output as its column hands it back. */
  function RereadContext(w: World, recs: seq<Rec>, count: nat): Context
    requires count <= |recs| <= |w.steps|
  {
    if count == 0 then EmptyContext(w)
    else
      var before := RereadContext(w, recs, count - 1);
      match recs[count - 1]
      case Done(_, output, _) => Extended(before, w.steps[count - 1], w.store(output))
      case Approved(_) => Extended(before, w.steps[count - 1], Null)
      case _ => before
  }

  /**
    The template context once `recs[..count]` is what became of the first steps. An output is fed
    forward as its body produced it; behind an approved gate the earlier ones are those read back.
   */
  function ContextAt(w: World, recs: seq<Rec>, count: nat): Context
    requires count <= |recs| <= |w.steps|
  {
    if count == 0 then EmptyContext(w)
    else
      match recs[count - 1]
      case Done(_, output, _) => Extended(ContextAt(w, recs, count - 1), w.steps[count - 1], output)
      case Approved(_) => RereadContext(w, recs, count)
      case _ => ContextAt(w, recs, count - 1)
  }

  /** The resolved configuration of the step behind `recs[..count]`. */
  function ConfigAt(w: World, recs: seq<Rec>, count: nat): Json
    requires count <= |recs| <= |w.steps| && count < |w.steps|
  {
    w.resolve(w.steps[count].config, ContextAt(w, recs, count))
  }

  datatype Move = Go(recs: seq<Rec>) | Stop(recs: seq<Rec>, ending: Ending)

  /** One step of the reference: what happens at the first step `recs` does not cover. */
  function Next(w: World, recs: seq<Rec>): (m: Move)
    requires |recs| <= |w.steps|
    ensures |recs| <= |m.recs| <= |w.steps| && (m.Go? ==> |recs| < |m.recs|)
    ensures recs == m.recs[..|recs|]
  {
    var n, i := |w.steps|, |recs|;
    if i == n then Stop(recs, Completes)
    else
      var step := w.steps[i];
      var cfg := ConfigAt(w, recs, i);
      if step.kind.ApprovalGate? then Go(recs + [Approved(cfg)])
      else
        match Tried(w, step, cfg, ContextAt(w, recs, i))
        case GaveUp(k, e) => Stop(recs + [BodyFailed(cfg, k, e)] + Jumps(n - i - 1), Fails(StepFailed(step.name, e)))
        case Succeeded(k, res) =>
          match Route(w.steps, res.branch, i)
          case Index(j) => Go(recs + [Done(cfg, res.output, k)] + Jumps(j - i - 1))
          case EndOfRun => Stop(recs + [Done(cfg, res.output, k)] + Jumps(n - i - 1), Completes)
          case Invalid(e) => Stop(recs + [BadBranch(cfg, res.output, k, e)], Fails(e))
  }

  function Reference(w: World, recs: seq<Rec>): (f: RefRun)
    requires |recs| <= |w.steps|
    ensures |recs| <= |f.recs| <= |w.steps|
    decreases |w.steps| - |recs|
  {
    match Next(w, recs)
    case Go(more) => var f := Reference(w, more); f.(heads := {|recs|} + f.heads)
    case Stop(all, ending) => RefRun(all, ending, {|recs|})
  }

  /** The reference run of a world. */
  ghost predicate IsReference(w: World, f: RefRun) { f == Reference(w, []) }

  // ---------------------------------------------------------------- what the reference does at a head

  /** The reference run extends what it was started with. */
  lemma {:induction false} ReferenceExtends(w: World, recs: seq<Rec>)
    requires |recs| <= |w.steps|
    ensures recs == Reference(w, recs).recs[..|recs|]
    decreases |w.steps| - |recs|
  {
    var m := Next(w, recs);
    if m.Go? {
      ReferenceExtends(w, m.recs);
      var f := Reference(w, recs);
      assert recs == m.recs[..|recs|] == f.recs[..|m.recs|][..|recs|];
    }
  }

  /** At each of its heads the run made the move of that head. */
  lemma {:induction false} HeadMove(w: World, recs: seq<Rec>, p: nat)
    requires |recs| <= |w.steps| && p in Reference(w, recs).heads
    ensures var f := Reference(w, recs);
      && |recs| <= p <= |f.recs|
      && match Next(w, f.recs[..p])
         case Go(more) => |more| <= |f.recs| && more == f.recs[..|more|] && |more| in f.heads
         case Stop(all, ending) => all == f.recs && ending == f.ending
    decreases |w.steps| - |recs|
  {
    ReferenceExtends(w, recs);
    var m := Next(w, recs);
    if m.Go? {
      ReferenceExtends(w, m.recs);
      if p != |recs| {
        HeadMove(w, m.recs, p);
      } else {
        assert m.recs == Reference(w, m.recs).recs[..|m.recs|];
        FirstHead(w, m.recs);
      }
    }
  }

  lemma {:induction false} FirstHead(w: World, recs: seq<Rec>)
    requires |recs| <= |w.steps|
    ensures |recs| in Reference(w, recs).heads
  {
  }

  lemma {:induction false} ContextOfPrefix(w: World, recs: seq<Rec>, p: nat, count: nat)
    requires count <= p <= |recs| <= |w.steps|
    ensures RereadContext(w, recs[..p], count) == RereadContext(w, recs, count)
    ensures ContextAt(w, recs[..p], count) == ContextAt(w, recs, count)
  {
    if count > 0 {
      ContextOfPrefix(w, recs, p, count - 1);
    }
  }

  /** All of `recs[from..to]` are steps that were jumped over. */
  ghost predicate AllJumped(recs: seq<Rec>, from: nat, to: nat) {
    from <= to <= |recs| && forall i :: from <= i < to ==> recs[i] == Jumped
  }

  /** What a run looks like from a head `p` on, read off its records. */
  ghost predicate HeadFacts(w: World, f: RefRun, p: nat)
    requires p <= |f.recs| <= |w.steps|
  {
    if p == |w.steps| then |f.recs| == p && f.ending == Completes
    else
      var cfg := ConfigAt(w, f.recs, p);
      p < |f.recs| &&
      if w.steps[p].kind.ApprovalGate? then f.recs[p] == Approved(cfg) && p + 1 in f.heads
      else
        match Tried(w, w.steps[p], cfg, ContextAt(w, f.recs, p))
        case GaveUp(k, e) =>
          && f.recs[p] == BodyFailed(cfg, k, e) && f.ending == Fails(StepFailed(w.steps[p].name, e))
          && |f.recs| == |w.steps| && AllJumped(f.recs, p + 1, |f.recs|)
        case Succeeded(k, res) =>
          match Route(w.steps, res.branch, p)
          case Index(j) => f.recs[p] == Done(cfg, res.output, k) && j in f.heads && AllJumped(f.recs, p + 1, j)
          case EndOfRun =>
            && f.recs[p] == Done(cfg, res.output, k) && f.ending == Completes
            && |f.recs| == |w.steps| && AllJumped(f.recs, p + 1, |f.recs|)
          case Invalid(e) =>
            f.recs[p] == BadBranch(cfg, res.output, k, e) && f.ending == Fails(e) && |f.recs| == p + 1
  }

  /** What follows at a head from a move that goes on. */
  lemma {:induction false} GoingOn(w: World, f: RefRun, p: nat)
    requires p < |f.recs| <= |w.steps| && ContextAt(w, f.recs[..p], p) == ContextAt(w, f.recs, p)
    requires Next(w, f.recs[..p]).Go?
    requires var more := Next(w, f.recs[..p]).recs; |more| <= |f.recs| && more == f.recs[..|more|] && |more| in f.heads
    ensures HeadFacts(w, f, p)
  {
    var more := Next(w, f.recs[..p]).recs;
    assert ConfigAt(w, f.recs[..p], p) == ConfigAt(w, f.recs, p);
    assert forall i :: 0 <= i < |more| ==> more[i] == f.recs[i];
  }

  /** What follows at a head from a move that stops. */
  lemma {:induction false} Stopping(w: World, f: RefRun, p: nat)
    requires p <= |f.recs| <= |w.steps| && ContextAt(w, f.recs[..p], p) == ContextAt(w, f.recs, p)
    requires Next(w, f.recs[..p]) == Stop(f.recs, f.ending)
    ensures HeadFacts(w, f, p)
  {
    assert p < |w.steps| ==> ConfigAt(w, f.recs[..p], p) == ConfigAt(w, f.recs, p);
  }

  lemma {:induction false} AtHead(w: World, f: RefRun, p: nat)
    requires IsReference(w, f) && p in f.heads
    ensures p <= |f.recs| <= |w.steps| && HeadFacts(w, f, p)
  {
    HeadMove(w, [], p);
    ContextOfPrefix(w, f.recs, p, p);
    if Next(w, f.recs[..p]).Go? {
      GoingOn(w, f, p);
    } else {
      Stopping(w, f, p);
    }
  }
}
