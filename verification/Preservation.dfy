/** Every enabled step keeps the invariant. */
module Preservation {
  import opened Protocol
  import opened Metrics
  import opened Invariants
  import opened LocalSteps
  import opened Interference
  import opened Conservation

  function Acted(s: State, st: Step): Outcome
    requires st.pid < |s.procs| && (st.recv.Some? ==> st.recv.value < |s.bag|)
  {
    Act(s.w, s.procs[st.pid], st.action, Incoming(s, st))
  }

  /** The acting process starts from what its own lemmas ask for. */
  lemma StepPre(s: State, st: Step)
    requires Inv(s) && Enabled(s, st)
    ensures LocalPre(s.w, s.procs[st.pid], st.action, Incoming(s, st))
    ensures var inc := Incoming(s, st);
            inc.Some? && inc.value.payload.MatchPayload? ==> inc.value.payload.matchId !in s.w.served
  {
    var inc := Incoming(s, st);
    if inc.Some? && inc.value.payload.MatchPayload? {
      var x := inc.value.payload.matchId;
      BagSumBound(Tokens(x), s.bag, st.recv.value);
      assert Total(Tokens(x), s) > 0;
    }
  }

  lemma ActLocal(s: State, st: Step)
    requires Inv(s) && Enabled(s, st)
    ensures LocalPost(s.w, Acted(s, st))
  {
    StepPre(s, st);
    var p := s.procs[st.pid];
    if p.Frontend? {
      FrontendLocal(s.w, p, st.action);
    } else if p.Accumulator? {
      AccumulatorLocal(s.w, p, st.action, Incoming(s, st));
    } else if p.Matcher? {
      MatcherLocal(s.w, p, st.action, Incoming(s, st));
    } else {
      DispenserLocal(s.w, p, st.action, Incoming(s, st));
    }
  }

  /** At most one dispenser handles a match. */
  lemma HandlersDistinct(s: State, p: nat, x: string)
    requires TokensInv(s) && p < |s.procs| && s.procs[p].Dispenser? && Handles(s.procs[p].ds, x)
    ensures forall q :: 0 <= q < |s.procs| && q != p && s.procs[q].Dispenser? ==> !Handles(s.procs[q].ds, x)
  {
    ProcSumBounds(Tokens(x), s.procs, p);
    assert Total(Tokens(x), s) <= 1;
  }

  lemma ProcsKept(s: State, st: Step)
    requires Inv(s) && Enabled(s, st)
    ensures forall q :: 0 <= q < |s.procs| ==> ProcInv(Next(s, st).w, Next(s, st).procs[q])
  {
    ActLocal(s, st);
    var p := s.procs[st.pid];
    ActFootprint(s.w, p, st.action, Incoming(s, st));
    forall q | 0 <= q < |s.procs| && q != st.pid ensures ProcInv(Acted(s, st).w, s.procs[q]) {
      forall x | s.procs[q].Dispenser? && Handles(s.procs[q].ds, x) ensures !(p.Dispenser? && Handles(p.ds, x)) {
        HandlersDistinct(s, q, x);
      }
      OthersKeep(s.w, Acted(s, st).w, p, s.procs[q]);
    }
  }

  lemma BagKept(s: State, st: Step)
    requires Inv(s) && Enabled(s, st)
    ensures forall i :: 0 <= i < |Next(s, st).bag| ==> EnvInv(Next(s, st).w, Next(s, st).bag[i])
  {
    ActLocal(s, st);
    var o := Acted(s, st);
    var rest := Without(s.bag, st.recv);
    forall e | e in s.bag ensures EnvInv(o.w, e) {
      EnvStable(s.w, o.w, e);
    }
    forall e | e in rest ensures e in s.bag {
    }
    forall i | 0 <= i < |rest + o.out| ensures EnvInv(o.w, (rest + o.out)[i]) {
      assert if i < |rest| then rest[i] in rest else o.out[i - |rest|] in o.out;
    }
  }

  lemma ClaimsKept(s: State, st: Step)
    requires Inv(s) && Enabled(s, st)
    ensures ClaimsDistinct(Next(s, st).procs)
  {
    ClaimStep(s.w, s.procs[st.pid], st.action, Incoming(s, st));
    var r := Acted(s, st).proc;
    forall q | 0 <= q < |s.procs| && q != st.pid && ClaimOf(r).Some? ensures ClaimOf(s.procs[q]) != ClaimOf(r) {
      ClaimRange(s.w, s.procs[q]);
      assert ClaimOf(s.procs[st.pid]).Some? ==> ClaimOf(s.procs[st.pid]) != ClaimOf(s.procs[q]);
    }
  }

  lemma OwnerKept(s: State, st: Step, id: string)
    requires Owned(s) && Enabled(s, st) && id in Next(s, st).w.allocs && Next(s, st).w.allocs[id] !in Next(s, st).w.committed
    requires s.w.committed.Keys <= Next(s, st).w.committed.Keys
    requires OwnerMoves(s.w, Next(s, st).w, s.procs[st.pid], Next(s, st).procs[st.pid])
    ensures exists q :: 0 <= q < |s.procs| && Creates(Next(s, st).procs[q], Next(s, st).w.allocs[id])
  {
    var n := Next(s, st);
    var x := n.w.allocs[id];
    if Creates(n.procs[st.pid], x) {
      return;
    }
    var q :| 0 <= q < |s.procs| && Creates(s.procs[q], x);
    assert q != st.pid;
    assert Creates(n.procs[q], x);
  }

  lemma OwnersKept(s: State, st: Step)
    requires Inv(s) && Enabled(s, st)
    ensures Owned(Next(s, st))
  {
    ActLocal(s, st);
    OwnerStep(s.w, s.procs[st.pid], st.action, Incoming(s, st));
    var n := Next(s, st);
    forall id | id in n.w.allocs && n.w.allocs[id] !in n.w.committed
      ensures exists q :: 0 <= q < |n.procs| && Creates(n.procs[q], n.w.allocs[id])
    {
      OwnerKept(s, st, id);
    }
  }

  lemma TokensKept(s: State, st: Step)
    requires Inv(s) && Enabled(s, st)
    ensures TokensInv(Next(s, st))
  {
    StepPre(s, st);
    var n := Next(s, st);
    forall x: string ensures Total(Tokens(x), n) == Indicator(x in n.w.committed && x !in n.w.served) {
      StepTotal(Tokens(x), s, st);
      TokensLocal(s.w, s.procs[st.pid], st.action, Incoming(s, st), x);
      assert Total(Tokens(x), s) == Indicator(Pending(s.w, x));
    }
  }

  /** The matcher creating a match still has the match's tickets in its map. */
  lemma OwnerHolds(s: State, id: string) returns (q: nat)
    requires Inv(s) && id in s.w.allocs && s.w.allocs[id] !in s.w.committed
    ensures q < |s.procs| && Creates(s.procs[q], s.w.allocs[id]) && ProcMetric(Copies(id), s.procs[q]) > 0
  {
    q :| 0 <= q < |s.procs| && Creates(s.procs[q], s.w.allocs[id]);
    HolderHasLive(s.w, s.procs[q], id);
    LiveIsCopy(s.procs[q], id);
  }

  lemma HolderHasLive(w: Store, p: Proc, id: string)
    requires ProcInv(w, p) && id in w.allocs && Creates(p, w.allocs[id])
    ensures id in p.live
  {
  }

  lemma BystanderKeepsCopy(s: State, st: Step, id: string, q: nat)
    requires Enabled(s, st) && q < |s.procs| && q != st.pid && ProcMetric(Copies(id), s.procs[q]) > 0
    ensures Total(Copies(id), Next(s, st)) > 0
  {
    ProcSumBounds(Copies(id), Next(s, st).procs, q);
  }

  lemma StepCopies(s: State, st: Step, id: string)
    requires Enabled(s, st) && Total(Copies(id), s) > 0
    requires var inc := Incoming(s, st);
             HasCopy(s.procs[st.pid], if inc.Some? then [inc.value] else [], id)
             ==> HasCopy(Acted(s, st).proc, Acted(s, st).out, id)
    ensures Total(Copies(id), Next(s, st)) > 0
  {
    var inc := Incoming(s, st);
    StepTotal(Copies(id), s, st);
    ProcSumBounds(Copies(id), s.procs, st.pid);
    if inc.Some? {
      BagSumBound(Copies(id), s.bag, st.recv.value);
      assert BagSum(Copies(id), [inc.value]) == EnvMetric(Copies(id), inc.value);
    }
  }

  lemma CopySurvives(s: State, st: Step, id: string)
    requires Inv(s) && Enabled(s, st) && Total(Copies(id), s) > 0
    requires !InCommittedMatch(Next(s, st).w, id) && !InCommittedMatch(s.w, id)
    ensures Total(Copies(id), Next(s, st)) > 0
  {
    var p := s.procs[st.pid];
    var inc := Incoming(s, st);
    if p.Matcher? && p.ms.Reading? && id in s.w.allocs {
      // what the snapshot of a requeue drops is held by the matcher the ticket is allocated to
      var q := OwnerHolds(s, id);
      BystanderKeepsCopy(s, st, id, q);
    } else {
      if HasCopy(p, if inc.Some? then [inc.value] else [], id) {
        StepPre(s, st);
        CopiesLocal(s.w, p, st.action, inc, id);
      }
      StepCopies(s, st, id);
    }
  }

  lemma FreshCopy(s: State, st: Step, id: string)
    requires Enabled(s, st) && HasCopy(Acted(s, st).proc, Acted(s, st).out, id)
    ensures Total(Copies(id), Next(s, st)) > 0
  {
    BagSumConcat(Copies(id), Without(s.bag, st.recv), Acted(s, st).out);
    ProcSumBounds(Copies(id), Next(s, st).procs, st.pid);
  }

  lemma LossKept(s: State, st: Step)
    requires Inv(s) && Enabled(s, st)
    ensures NothingLost(Next(s, st))
  {
    ActLocal(s, st);
    var n := Next(s, st);
    forall id | id in n.w.published && !InCommittedMatch(n.w, id) ensures Total(Copies(id), n) > 0 {
      if id in s.w.published {
        assert !InCommittedMatch(s.w, id);
        CopySurvives(s, st, id);
      } else {
        FirstCopy(s.w, s.procs[st.pid], st.action, Incoming(s, st), id);
        FreshCopy(s, st, id);
      }
    }
  }

  lemma StepKeepsInv(s: State, st: Step)
    requires Inv(s) && Enabled(s, st)
    ensures Inv(Next(s, st))
  {
    ActLocal(s, st);
    ProcsKept(s, st);
    BagKept(s, st);
    ClaimsKept(s, st);
    OwnersKept(s, st);
    TokensKept(s, st);
    LossKept(s, st);
  }

  lemma {:induction false} IdleTotals(m: Metric, procs: seq<Proc>)
    requires forall p :: p in procs ==> ProcMetric(m, p) == 0
    ensures ProcSum(m, procs) == 0
  {
    if procs != [] {
      IdleTotals(m, procs[..|procs| - 1]);
      assert procs[|procs| - 1] in procs;
    }
  }

  lemma InitInv(s: State)
    requires Init(s)
    ensures Inv(s)
  {
    forall x: string ensures Total(Tokens(x), s) == 0 {
      forall p | p in s.procs ensures ProcMetric(Tokens(x), p) == 0 {
        var i :| 0 <= i < |s.procs| && s.procs[i] == p;
      }
      IdleTotals(Tokens(x), s.procs);
    }
    forall p | 0 <= p < |s.procs| ensures ProcInv(s.w, s.procs[p]) && ClaimOf(s.procs[p]).None? {
    }
  }

  /** The invariant holds at the end of every run. */
  lemma {:induction false} RunKeepsInv(s: State, steps: seq<Step>)
    requires Inv(s) && IsRun(s, steps)
    ensures Inv(Final(s, steps))
    decreases |steps|
  {
    if steps != [] {
      StepKeepsInv(s, steps[0]);
      RunKeepsInv(Next(s, steps[0]), steps[1..]);
    }
  }
}
