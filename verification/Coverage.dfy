/** Which steps a run covers, and how: read off the reference, so true of the rows of every run. */
module Coverage {
  import opened Workflow
  import opened ReferenceRun

  predicate Good(rec: Rec) { rec.Done? || rec.Approved? || rec.Jumped? }

  /** A completed run covers every step; a failed one a good prefix, one bad step, and what follows. */
  ghost predicate Shape(f: RefRun, n: nat) {
    match f.ending
    case Completes => |f.recs| == n && forall i :: 0 <= i < n ==> Good(f.recs[i])
    case Fails(_) =>
      exists i :: 0 <= i < |f.recs| && (forall j :: 0 <= j < i ==> Good(f.recs[j])) &&
        ((f.recs[i].BodyFailed? && |f.recs| == n && AllJumped(f.recs, i + 1, n))
         || (f.recs[i].BadBranch? && |f.recs| == i + 1))
  }

  /** Gates are approved or jumped over; no other step is ever approved. */
  predicate FitsKind(step: Step, rec: Rec) {
    if step.kind.ApprovalGate? then rec.Approved? || rec.Jumped? else !rec.Approved?
  }

  lemma {:induction false} ShapeFrom(w: World, recs: seq<Rec>)
    requires |recs| <= |w.steps| && forall i :: 0 <= i < |recs| ==> Good(recs[i])
    ensures Shape(Reference(w, recs), |w.steps|)
    decreases |w.steps| - |recs|
  {
    var m := Next(w, recs);
    match m
    case Go(more) =>
      ShapeFrom(w, more);
    case Stop(all, ending) =>
      assert forall j :: 0 <= j < |recs| ==> all[j] == recs[j];
      if ending.Fails? {
        assert !Good(all[|recs|]);
      }
  }

  lemma {:induction false} KindsFrom(w: World, recs: seq<Rec>)
    requires |recs| <= |w.steps| && forall i :: 0 <= i < |recs| ==> FitsKind(w.steps[i], recs[i])
    ensures var f := Reference(w, recs); forall i :: 0 <= i < |f.recs| ==> FitsKind(w.steps[i], f.recs[i])
    decreases |w.steps| - |recs|
  {
    var m := Next(w, recs);
    assert forall i :: 0 <= i < |recs| ==> m.recs[i] == recs[i];
    if m.Go? {
      KindsFrom(w, m.recs);
    }
  }

  /** The reference stands at step `i`, and what it does there leaves step `m` behind unreached. */
  ghost predicate JumpsOver(w: World, f: RefRun, i: nat, m: nat)
    requires |f.recs| <= |w.steps|
  {
    && i < m < |f.recs| && i in f.heads && !w.steps[i].kind.ApprovalGate?
    && match Tried(w, w.steps[i], ConfigAt(w, f.recs, i), ContextAt(w, f.recs, i))
       case GaveUp(_, _) => true
       case Succeeded(_, res) =>
         match Route(w.steps, res.branch, i)
         case Index(j) => m < j
         case EndOfRun => true
         case Invalid(_) => false
  }

  lemma {:induction false} JumpHasOrigin(w: World, f: RefRun, p: nat, m: nat) returns (i: nat)
    requires IsReference(w, f) && |f.recs| <= |w.steps|
    requires p in f.heads && p <= m < |f.recs| && f.recs[m].Jumped?
    ensures JumpsOver(w, f, i, m)
    decreases m - p
  {
    i := p;
    AtHead(w, f, p);
    if w.steps[p].kind.ApprovalGate? {
      i := JumpHasOrigin(w, f, p + 1, m);
    } else {
      var tried := Tried(w, w.steps[p], ConfigAt(w, f.recs, p), ContextAt(w, f.recs, p));
      if tried.Succeeded? && Route(w.steps, tried.value.branch, p).Index? {
        var j := Route(w.steps, tried.value.branch, p).index;
        if j <= m {
          i := JumpHasOrigin(w, f, j, m);
        }
      }
    }
  }

  /** Exactly the steps behind a taken jump, an end or a failed body are skipped. */
  lemma {:induction false} SkippedExactly(w: World, f: RefRun, m: nat)
    requires IsReference(w, f) && m < |f.recs| <= |w.steps|
    ensures f.recs[m].Jumped? <==> exists i: nat :: JumpsOver(w, f, i, m)
  {
    if f.recs[m].Jumped? {
      FirstHead(w, []);
      var i := JumpHasOrigin(w, f, 0, m);
    }
    forall i: nat | JumpsOver(w, f, i, m) ensures f.recs[m].Jumped? {
      AtHead(w, f, i);
    }
  }

  // ---------------------------------------------------------------- where a run fails

  /** The loop stands at step `i`, whose body gives up. */
  ghost predicate BodyGivesUp(w: World, f: RefRun, i: nat)
    requires |f.recs| <= |w.steps|
  {
    && i in f.heads && i < |f.recs| && !w.steps[i].kind.ApprovalGate?
    && Tried(w, w.steps[i], ConfigAt(w, f.recs, i), ContextAt(w, f.recs, i)).GaveUp?
  }

  /** The loop stands at step `i`, whose body succeeds with a branch that cannot be followed. */
  ghost predicate TargetIsRefused(w: World, f: RefRun, i: nat)
    requires |f.recs| <= |w.steps|
  {
    && i in f.heads && i < |f.recs| && !w.steps[i].kind.ApprovalGate?
    && var tried := Tried(w, w.steps[i], ConfigAt(w, f.recs, i), ContextAt(w, f.recs, i));
       tried.Succeeded? && Route(w.steps, tried.value.branch, i).Invalid?
  }

  lemma {:induction false} BadIsAtHead(w: World, f: RefRun, p: nat, m: nat)
    requires IsReference(w, f) && |f.recs| <= |w.steps|
    requires p in f.heads && p <= m < |f.recs| && !Good(f.recs[m])
    ensures BodyGivesUp(w, f, m) || TargetIsRefused(w, f, m)
    decreases m - p
  {
    AtHead(w, f, p);
    if p < m {
      if w.steps[p].kind.ApprovalGate? {
        BadIsAtHead(w, f, p + 1, m);
      } else {
        var tried := Tried(w, w.steps[p], ConfigAt(w, f.recs, p), ContextAt(w, f.recs, p));
        if tried.Succeeded? && Route(w.steps, tried.value.branch, p).Index? {
          BadIsAtHead(w, f, Route(w.steps, tried.value.branch, p).index, m);
        }
      }
    }
  }

  /** The loop stood at every step that it did not jump over. */
  lemma {:induction false} ReachedIsHead(w: World, f: RefRun, p: nat, m: nat)
    requires IsReference(w, f) && |f.recs| <= |w.steps|
    requires p in f.heads && p <= m < |f.recs| && !f.recs[m].Jumped?
    ensures m in f.heads
    decreases m - p
  {
    AtHead(w, f, p);
    if p < m {
      if w.steps[p].kind.ApprovalGate? {
        ReachedIsHead(w, f, p + 1, m);
      } else {
        var tried := Tried(w, w.steps[p], ConfigAt(w, f.recs, p), ContextAt(w, f.recs, p));
        if tried.Succeeded? && Route(w.steps, tried.value.branch, p).Index? {
          ReachedIsHead(w, f, Route(w.steps, tried.value.branch, p).index, m);
        }
      }
    }
  }
}
