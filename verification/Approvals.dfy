/**
 Which image a commit installs, traced back through a whole run to the three reads of the attempt that made it.
 */
module Approvals {
  import opened Basics
  import opened Upgrade

  // ---------------------------------------------------------------- the states along a run

  ghost predicate StepOf(states: seq<System>, evs: seq<Event>, n: nat)
    requires n < |evs| && |states| == |evs| + 1
  {
    Possible(states[n], evs[n]) && states[n + 1] == Apply(states[n], evs[n])
  }

  /** A run with every state it goes through. */
  ghost predicate History(states: seq<System>, evs: seq<Event>) {
    |states| == |evs| + 1 && forall n: nat :: n < |evs| ==> StepOf(states, evs, n)
  }

  lemma {:induction false} RunHasHistory(s: System, evs: seq<Event>) returns (states: seq<System>)
    requires RunOf(s, evs)
    ensures History(states, evs) && states[0] == s && states[|evs|] == After(s, evs)
    decreases |evs|
  {
    if evs == [] {
      return [s];
    }
    var rest := RunHasHistory(Apply(s, evs[0]), evs[1..]);
    states := [s] + rest;
    forall n: nat | n < |evs| ensures StepOf(states, evs, n) {
      assert n > 0 ==> StepOf(rest, evs[1..], n - 1);
    }
  }

  lemma {:induction false} InvAt(states: seq<System>, evs: seq<Event>, n: nat)
    requires History(states, evs) && n <= |evs| && Initial(states[0])
    ensures Inv(states[n])
  {
    if n == 0 {
      InitialSatisfiesInv(states[0]);
    } else {
      InvAt(states, evs, n - 1);
      StepKeepsInv(states, evs, n);
    }
  }

  lemma InitialSatisfiesInv(s: System)
    requires Initial(s)
    ensures Inv(s)
  {}

  lemma StepKeepsInv(states: seq<System>, evs: seq<Event>, n: nat)
    requires History(states, evs) && 0 < n <= |evs| && Inv(states[n - 1])
    ensures Inv(states[n])
  {
    assert StepOf(states, evs, n - 1);
    EventKeepsInv(states[n - 1], evs[n - 1]);
  }

  lemma LockAt(states: seq<System>, evs: seq<Event>, n: nat)
    requires History(states, evs) && Initial(states[0]) && n <= |evs|
    ensures LockInv(states[n])
  {
    InvAt(states, evs, n);
  }

  /** While the candidate is read no transaction is under way, so what is installed is what ought to be. */
  lemma ReaderSeesInstalled(states: seq<System>, evs: seq<Event>, n: nat, w: nat)
    requires History(states, evs) && Initial(states[0]) && n <= |evs|
    requires w in states[n].workers && states[n].workers[w].pc.Digested?
    ensures states[n].disk.target == states[n].disk.Installed()
  {
    InvAt(states, evs, n);
    var u := states[n];
    DigestedMeansInstalled(u.disk, w, u.workers[w]);
  }

  lemma DigestedMeansInstalled(d: Disk, w: nat, k: Worker)
    requires DiskInv(d) && WorkerInv(d, w, k) && k.pc.Digested?
    ensures d.target == d.Installed()
  {}

  // ---------------------------------------------------------------- one attempt

  /** An event that neither ends the attempt of worker `w` nor reads its candidate again. */
  predicate Continues(ev: Event, w: nat) {
    match ev
    case Launch(v) => v != w
    case Die(v) => v != w
    case Work(v, step) => v == w ==> !step.VerifySignatures? && !step.TakeDigest? && !step.ReadVersion?
    case _ => true
  }

  ghost predicate ContinuesBetween(evs: seq<Event>, w: nat, i: nat, j: nat)
    requires j <= |evs|
  {
    forall m :: i < m < j ==> Continues(evs[m], w)
  }

  /** What the candidate of `w` is just before event `n`. */
  ghost function CandidateAt(states: seq<System>, evs: seq<Event>, w: nat, n: nat): Option<Image>
    requires History(states, evs) && n <= |evs|
  {
    var d := states[n].disk;
    if w in d.stages then d.stages[w].candidate else None
  }

  /** The worker has checked the signature, and nothing else yet. */
  lemma SignedBefore(u: System, ev: Event, w: nat)
    requires Possible(u, ev)
    requires w in Apply(u, ev).workers && Apply(u, ev).workers[w].pc.Signed?
    ensures ev == Work(w, VerifySignatures(true)) ||
            (w in u.workers && u.workers[w] == Apply(u, ev).workers[w] && Continues(ev, w))
    ensures ev == Work(w, VerifySignatures(true)) ==>
            w in u.disk.stages && u.disk.stages[w].candidate.Some?
              && Apply(u, ev).workers[w].signed == u.disk.stages[w].candidate
  {}

  lemma DigestedBefore(u: System, ev: Event, w: nat)
    requires Possible(u, ev)
    requires w in Apply(u, ev).workers && Apply(u, ev).workers[w].pc.Digested?
    ensures ev == Work(w, TakeDigest) ||
            (w in u.workers && u.workers[w] == Apply(u, ev).workers[w] && Continues(ev, w))
    ensures ev == Work(w, TakeDigest) ==>
            && w in u.disk.stages && w in u.workers && u.workers[w].pc.Signed? && u.disk.stages[w].candidate.Some?
            && Apply(u, ev).workers[w].verified == u.disk.stages[w].candidate
            && Apply(u, ev).workers[w].signed == u.workers[w].signed
  {}

  lemma {:induction false} FindSignature(states: seq<System>, evs: seq<Event>, n: nat, w: nat) returns (h: nat)
    requires History(states, evs) && Initial(states[0]) && n <= |evs|
    requires w in states[n].workers && states[n].workers[w].pc.Signed?
    ensures h < n && evs[h] == Work(w, VerifySignatures(true)) && ContinuesBetween(evs, w, h, n)
    ensures CandidateAt(states, evs, w, h).Some? && states[n].workers[w].signed == CandidateAt(states, evs, w, h)
    decreases n
  {
    assert StepOf(states, evs, n - 1);
    SignedBefore(states[n - 1], evs[n - 1], w);
    if evs[n - 1] == Work(w, VerifySignatures(true)) {
      h := n - 1;
    } else {
      h := FindSignature(states, evs, n - 1, w);
    }
  }

  lemma {:induction false} FindDigest(states: seq<System>, evs: seq<Event>, n: nat, w: nat) returns (h: nat, i: nat)
    requires History(states, evs) && Initial(states[0]) && n <= |evs|
    requires w in states[n].workers && states[n].workers[w].pc.Digested?
    ensures h < i < n && evs[h] == Work(w, VerifySignatures(true)) && evs[i] == Work(w, TakeDigest)
    ensures ContinuesBetween(evs, w, h, i) && ContinuesBetween(evs, w, i, n)
    ensures CandidateAt(states, evs, w, h).Some? && states[n].workers[w].signed == CandidateAt(states, evs, w, h)
    ensures CandidateAt(states, evs, w, i).Some? && states[n].workers[w].verified == CandidateAt(states, evs, w, i)
    decreases n
  {
    assert StepOf(states, evs, n - 1);
    DigestedBefore(states[n - 1], evs[n - 1], w);
    if evs[n - 1] == Work(w, TakeDigest) {
      i := n - 1;
      h := FindSignature(states, evs, i, w);
    } else {
      h, i := FindDigest(states, evs, n - 1, w);
    }
  }

  // ---------------------------------------------------------------- from the last read to the outcome

  /** All three reads are over, and the attempt can still succeed. */
  predicate PastReads(pc: Pc) {
    pc.Checked? || pc.Copying? || pc.BackedUp? || InForwardPath(pc) || pc == Finishing(Succeeded)
  }

  /** What the last read recorded is what the worker still holds, and was newer than what is installed. */
  ghost predicate Recorded(u: System, w: nat, approval: Approval) {
    && w in u.workers && PastReads(u.workers[w].pc)
    && u.workers[w].signed == Some(approval.signed) && u.workers[w].verified == Some(approval.digested)
    && w in u.disk.approved && u.disk.approved[w] == approval
  }

  lemma OwnReadRecords(u: System, ev: Event, w: nat)
    requires Possible(u, ev) && ev.Work? && ev.w == w && ev.step.ReadVersion?
    requires w in Apply(u, ev).workers && PastReads(Apply(u, ev).workers[w].pc)
    ensures w in u.workers && u.workers[w].pc.Digested? && u.workers[w].signed.Some? && u.workers[w].verified.Some?
    ensures w in u.disk.stages && u.disk.stages[w].candidate.Some?
    ensures Recorded(Apply(u, ev), w,
              Approval(u.workers[w].signed.value, u.workers[w].verified.value, u.disk.stages[w].candidate.value))
    ensures u.disk.Installed() == Apply(u, ev).disk.Installed()
  {}

  lemma OwnStepCarries(d: Disk, w: nat, k: Worker, step: Step)
    requires CanStep(d, w, k, step) && !step.ReadVersion? && PastReads(WorkPc(d, w, k, step).pc)
    ensures PastReads(k.pc) && !step.VerifySignatures? && !step.TakeDigest? && !step.WriteResult?
    ensures var k' := WorkPc(d, w, k, step); k'.signed == k.signed && k'.verified == k.verified
  {}

  lemma StepCarriesApproval(d: Disk, v: nat, k: Worker, step: Step)
    requires CanStep(d, v, k, step)
    ensures var d' := WorkDisk(d, v, k, step);
            && d'.initial == d.initial && (!step.WriteResult? ==> d'.committed == d.committed)
            && forall w :: w != v || !step.ReadVersion? ==>
                 (w in d'.approved <==> w in d.approved) && (w in d.approved ==> d'.approved[w] == d.approved[w])
  {}

  /** Only the holder of the lock commits. */
  lemma OthersDoNotCommit(u: System, v: nat, step: Step, w: nat)
    requires LockInv(u) && Possible(u, Work(v, step)) && v != w && w in u.workers && u.workers[w].pc.HoldsLock()
    ensures !step.WriteResult?
  {}

  lemma WorkCarries(u: System, v: nat, step: Step, w: nat)
    requires LockInv(u) && Possible(u, Work(v, step)) && (v == w ==> !step.ReadVersion?)
    requires w in Apply(u, Work(v, step)).workers && PastReads(Apply(u, Work(v, step)).workers[w].pc)
    ensures Carries(u, Apply(u, Work(v, step)), w) && Continues(Work(v, step), w)
  {
    StepCarriesApproval(u.disk, v, u.workers[v], step);
    if v == w {
      OwnStepCarries(u.disk, w, u.workers[w], step);
    } else {
      OthersDoNotCommit(u, v, step, w);
    }
  }

  /** Everything that was recorded for `w` before the event still is, and nothing else got installed. */
  ghost predicate Carries(u: System, u': System, w: nat) {
    && w in u.workers && w in u'.workers && PastReads(u.workers[w].pc)
    && u.workers[w].signed == u'.workers[w].signed && u.workers[w].verified == u'.workers[w].verified
    && (w in u.disk.approved <==> w in u'.disk.approved)
    && (w in u.disk.approved ==> u'.disk.approved[w] == u.disk.approved[w])
    && u'.disk.Installed() == u.disk.Installed()
  }

  lemma ReadBefore(u: System, ev: Event, w: nat)
    requires LockInv(u) && Possible(u, ev) && !(ev.Work? && ev.w == w && ev.step.ReadVersion?)
    requires w in Apply(u, ev).workers && PastReads(Apply(u, ev).workers[w].pc)
    ensures Carries(u, Apply(u, ev), w) && Continues(ev, w)
  {
    if ev.Work? {
      WorkCarries(u, ev.w, ev.step, w);
    } else {
      EnvironmentCarries(u, ev, w);
    }
  }

  lemma EnvironmentCarries(u: System, ev: Event, w: nat)
    requires Possible(u, ev) && !ev.Work?
    requires w in Apply(u, ev).workers && PastReads(Apply(u, ev).workers[w].pc)
    ensures Carries(u, Apply(u, ev), w) && Continues(ev, w)
  {}

  /** The three reads of `w`'s attempt under way at `n`, what they found, and what was installed at the last of them. */
  ghost predicate Reads(states: seq<System>, evs: seq<Event>, w: nat, h: nat, i: nat, j: nat, n: nat,
          approval: Approval)
    requires History(states, evs) && n <= |evs|
  {
    && h < i < j < n
    && evs[h] == Work(w, VerifySignatures(true)) && evs[i] == Work(w, TakeDigest)
    && evs[j].Work? && evs[j].w == w && evs[j].step.ReadVersion?
    && ContinuesBetween(evs, w, h, i) && ContinuesBetween(evs, w, i, j) && ContinuesBetween(evs, w, j, n)
    && CandidateAt(states, evs, w, h) == Some(approval.signed)
    && CandidateAt(states, evs, w, i) == Some(approval.digested)
    && CandidateAt(states, evs, w, j) == Some(approval.measured)
  }

  lemma {:induction false} FindReads(states: seq<System>, evs: seq<Event>, n: nat, w: nat)
    returns (h: nat, i: nat, j: nat, approval: Approval)
    requires History(states, evs) && Initial(states[0]) && n <= |evs|
    requires w in states[n].workers && PastReads(states[n].workers[w].pc)
    ensures Reads(states, evs, w, h, i, j, n, approval) && Recorded(states[n], w, approval)
    ensures states[j].disk.target == states[n].disk.Installed()
    decreases n
  {
    j := n - 1;
    if evs[j].Work? && evs[j].w == w && evs[j].step.ReadVersion? {
      h, i, approval := LastRead(states, evs, j, w);
    } else {
      EventCarries(states, evs, n - 1, w);
      h, i, j, approval := FindReads(states, evs, n - 1, w);
      ReadsCarry(states, evs, w, h, i, j, n - 1, approval);
    }
  }

  lemma EventCarries(states: seq<System>, evs: seq<Event>, m: nat, w: nat)
    requires History(states, evs) && Initial(states[0]) && m < |evs|
             && !(evs[m].Work? && evs[m].w == w && evs[m].step.ReadVersion?)
    requires w in states[m + 1].workers && PastReads(states[m + 1].workers[w].pc)
    ensures Carries(states[m], states[m + 1], w) && Continues(evs[m], w)
    ensures w in states[m].workers && PastReads(states[m].workers[w].pc)
    ensures states[m + 1].disk.Installed() == states[m].disk.Installed()
  {
    assert StepOf(states, evs, m);
    LockAt(states, evs, m);
    ReadBefore(states[m], evs[m], w);
  }

  lemma ReadsCarry(states: seq<System>, evs: seq<Event>, w: nat, h: nat, i: nat, j: nat, m: nat, approval: Approval)
    requires History(states, evs) && m < |evs| && Carries(states[m], states[m + 1], w) && Continues(evs[m], w)
    requires Reads(states, evs, w, h, i, j, m, approval) && Recorded(states[m], w, approval)
    requires w in states[m + 1].workers && PastReads(states[m + 1].workers[w].pc)
    ensures Reads(states, evs, w, h, i, j, m + 1, approval) && Recorded(states[m + 1], w, approval)
  {
    assert StepOf(states, evs, m);
  }

  lemma LastRead(states: seq<System>, evs: seq<Event>, j: nat, w: nat) returns (h: nat, i: nat, approval: Approval)
    requires History(states, evs) && Initial(states[0]) && j < |evs|
    requires evs[j].Work? && evs[j].w == w && evs[j].step.ReadVersion?
    requires w in states[j + 1].workers && PastReads(states[j + 1].workers[w].pc)
    ensures Reads(states, evs, w, h, i, j, j + 1, approval) && Recorded(states[j + 1], w, approval)
    ensures states[j].disk.target == states[j + 1].disk.Installed()
  {
    assert StepOf(states, evs, j);
    var u := states[j];
    OwnReadRecords(u, evs[j], w);
    ReaderSeesInstalled(states, evs, j, w);
    h, i := FindDigest(states, evs, j, w);
    approval := Approval(u.workers[w].signed.value, u.workers[w].verified.value, u.disk.stages[w].candidate.value);
  }

  // ---------------------------------------------------------------- commits

  /** A commit is made by the worker of its stage, which then still holds what it read. */
  lemma CommitStep(u: System, ev: Event)
    requires Possible(u, ev)
    ensures var d, d' := u.disk, Apply(u, ev).disk;
            && d'.initial == d.initial
            && (d'.committed == d.committed
                || (ev.Work? && ev.step.WriteResult? && ev.w in u.workers && PastReads(u.workers[ev.w].pc)
                    && ev.w in d.approved
                    && d'.committed == d.committed + [Commit(ev.w, d.approved[ev.w])]))
  {
    if ev.Work? {
      StepCarriesApproval(u.disk, ev.w, u.workers[ev.w], ev.step);
    }
  }

  /** Events `h`, `i` and `j` are the reads and event `k` the durable success that make commit `c`. */
  ghost predicate Makes(states: seq<System>, evs: seq<Event>, h: nat, i: nat, j: nat, k: nat, c: nat, commit: Commit)
    requires History(states, evs) && k < |evs|
  {
    && evs[k] == Work(commit.stage, WriteResult) && |states[k].disk.committed| == c
    && Reads(states, evs, commit.stage, h, i, j, k, commit.approval)
    && states[j].disk.target == states[k].disk.Installed()
  }

  lemma {:induction false} FindCommit(states: seq<System>, evs: seq<Event>, n: nat, c: nat)
    returns (h: nat, i: nat, j: nat, k: nat)
    requires History(states, evs) && n <= |evs| && Initial(states[0])
    requires c < |states[n].disk.committed|
    ensures k < n && Makes(states, evs, h, i, j, k, c, states[n].disk.committed[c])
    ensures var d := states[n].disk;
            states[j].disk.target.version == Before(d.initial, d.committed, c)
    decreases n
  {
    var m := n - 1;
    assert StepOf(states, evs, m);
    var u := states[m];
    CommitStep(u, evs[m]);
    if c < |u.disk.committed| {
      h, i, j, k := FindCommit(states, evs, m, c);
    } else {
      var approval: Approval;
      h, i, j, approval := FindReads(states, evs, m, evs[m].w);
      k := m;
    }
  }

  /** Every commit, over every run: three reads of one attempt lead to it. The committed image is the one whose
      signature was checked if and only if the candidate that was hashed was, and it is newer than what it replaced if
      and only if that candidate was newer than the target when the version was read, whatever was there to have its
      version read. */
  lemma CommitIsWhatWasHashed(s: System, evs: seq<Event>, c: nat)
    returns (states: seq<System>, h: nat, i: nat, j: nat, k: nat)
    requires Initial(s) && RunOf(s, evs) && c < |After(s, evs).disk.committed|
    ensures History(states, evs) && states[0] == s && states[|evs|] == After(s, evs)
    ensures k < |evs| && Makes(states, evs, h, i, j, k, c, After(s, evs).disk.committed[c])
    ensures var d := After(s, evs).disk;
            var w, image := d.committed[c].stage, d.committed[c].Image();
            var hashed, target := CandidateAt(states, evs, w, i), states[j].disk.target;
            && hashed == Some(image)
            && (image == d.committed[c].approval.signed <==> hashed == CandidateAt(states, evs, w, h))
            && (image.version.NewerThan(Before(d.initial, d.committed, c)) <==>
                hashed.value.version.NewerThan(target.version))
  {
    states := RunHasHistory(s, evs);
    h, i, j, k := FindCommit(states, evs, |evs|, c);
  }
}
