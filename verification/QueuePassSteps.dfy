/** The steps of the network passes keep the invariant. */
module QueuePassSteps {
  import opened Wrappers
  import opened QueueModel
  import opened QueueFacts
  import opened QueueWorld
  import opened QueueInvariant
  import opened QueueSections
  import opened QueueHistory
  import opened QueueDataSteps
  import FlushPass

  /** Another list of passes for a window whose fields stay. */
  lemma ReplaceWindow(w: World, win: nat, window: Window)
    requires Inv(w) && win in w.windows && window.queue == w.windows[win].queue && WindowInv(w.disk, w.past, window)
    ensures Inv(w.(windows := w.windows[win := window]))
  {
    var end := w.(windows := w.windows[win := window]);
    forall x | x in end.windows ensures WindowInv(w.disk, w.past, end.windows[x]) {
      if x != win {
        assert WindowInv(w.disk, w.past, w.windows[x]);
      }
    }
  }

  lemma TrackSwapped(d: Disk, past: History, window: Window, i: nat, t: Track)
    requires WindowInv(d, past, window) && i < |window.tracks| && TrackInv(past, window.queue, t)
    ensures WindowInv(d, past, window.(tracks := window.tracks[i := t]))
  {
  }

  /** One pass moves, its window's fields and the disk may move with it. */
  lemma TrackStepInv(w: World, win: nat, i: nat, s: Section, t: Track, past: History)
    requires HasTrack(w, win, i)
    requires Inv(With(w, win, s).(past := past))
    requires TrackInv(past, s.queue, t)
    ensures Inv(WithTrack(w, win, i, s.queue, t).(disk := s.disk, past := past))
  {
    var mid := With(w, win, s).(past := past);
    var window := Window(s.queue, w.windows[win].tracks);
    var swapped := Window(s.queue, w.windows[win].tracks[i := t]);
    assert mid.windows[win] == window;
    assert WindowInv(s.disk, past, mid.windows[win]);
    TrackSwapped(s.disk, past, window, i, t);
    ReplaceWindow(mid, win, swapped);
    assert mid.windows[win := swapped] == w.windows[win := swapped];
  }

  lemma PastStepInv(w: World, past: History)
    requires Inv(w) && PastInv(w.disk, past, w.protect) && Extends(w.past, past)
    ensures Inv(w.(past := past))
  {
    forall win | win in w.windows ensures WindowInv(w.disk, past, w.windows[win]) {
      assert WindowInv(w.disk, w.past, w.windows[win]);
      WindowKept(w.disk, w.disk, w.past, past, w.windows[win], w.windows[win].queue);
    }
  }

  /** A check of the scope invalidates a window that has lost it, and changes nothing else. */
  lemma CheckFacts(d: Disk, q: Queue, readable: bool)
    requires DiskInv(d) && QueueInv(d, q)
    ensures var s := Checked(d, q, readable);
            && s.disk == d && (s.queue == q || (s.queue == Invalidate(q) && !Matches(q, Current(d))))
            && (CheckOf(s, readable) == FlushPass.Holds ==> s.queue == q && Matches(q, Current(d)))
            && PassFrame(q, s.queue) && BindingFrame(q, s.queue) && QueueInv(d, s.queue)
  {
  }

  lemma CheckStepInv(w: World, win: nat, readable: bool)
    requires Inv(w) && win in w.windows && w.windows[win].tracks != []
    ensures Inv(With(w, win, Checked(w.disk, w.windows[win].queue, readable)).(past := w.past))
  {
    var q := w.windows[win].queue;
    assert WindowInv(w.disk, w.past, w.windows[win]);
    CheckFacts(w.disk, q, readable);
    CheckedStep(w, win, Checked(w.disk, q, readable));
  }

  lemma CheckedStep(w: World, win: nat, s: Section)
    requires Inv(w) && win in w.windows && w.windows[win].queue.loaded
    requires var q := w.windows[win].queue;
             && s.disk == w.disk && (s.queue == q || (s.queue == Invalidate(q) && !Matches(q, Current(w.disk))))
             && BindingFrame(q, s.queue) && QueueInv(w.disk, s.queue)
    ensures Inv(With(w, win, s).(past := w.past))
  {
    ExtendsSelf(w.past);
    if s.queue == w.windows[win].queue {
      WithSelf(w, win, s);
    } else {
      StepInv(w, win, s, w.past);
    }
  }

  lemma PhotographTrack(d: Disk, q: Queue, past: History, protect: bool)
    requires DiskInv(d) && PastInv(d, past, protect) && q.bound.Some? && !q.clearing && InSync(d, q)
    ensures TrackInv(past, q, NewTrack(q, past.births))
  {
    forall i | 0 <= i < |q.entries| ensures q.entries[i].id in past.born {
      assert q.entries[i].id in EntryIds(q.entries);
    }
  }

  lemma AddTrackInv(w: World, win: nat, t: Track)
    requires Inv(w) && win in w.windows && w.windows[win].queue.loaded && TrackInv(w.past, w.windows[win].queue, t)
    ensures Inv(WithNewTrack(w, win, t))
  {
    var end := WithNewTrack(w, win, t);
    assert WindowInv(w.disk, w.past, w.windows[win]);
    assert WindowInv(w.disk, w.past, end.windows[win]);
    forall x | x in w.windows && x != win ensures WindowInv(w.disk, w.past, end.windows[x]) {
      assert WindowInv(w.disk, w.past, w.windows[x]);
    }
  }

  lemma PhotographInv(w: World, win: nat)
    requires Inv(w)
    ensures Inv(PhotographNext(w, win))
  {
    if win in w.windows && Gate(w.windows[win].queue) == Done {
      var s := Refresh(w.disk, w.windows[win].queue);
      var mid := With(w, win, s);
      assert WindowInv(w.disk, w.past, w.windows[win]);
      RefreshFacts(w.disk, w.windows[win].queue);
      RefreshStepInv(w, win);
      if s.verdict == Done {
        PhotographTrack(w.disk, s.queue, w.past, w.protect);
        AddTrackInv(mid, win, NewTrack(s.queue, w.past.births));
        PhotographIs(w, win);
      }
    }
  }

  lemma PhotographIs(w: World, win: nat)
    requires win in w.windows && Gate(w.windows[win].queue) == Done
    requires Refresh(w.disk, w.windows[win].queue).verdict == Done
    ensures var s := Refresh(w.disk, w.windows[win].queue);
            PhotographNext(w, win) == WithNewTrack(With(w, win, s), win, NewTrack(s.queue, w.past.births))
  {
    var s := Refresh(w.disk, w.windows[win].queue);
    assert s.disk == w.disk;
  }

  lemma HeadTrack(past: History, q: Queue, t: Track)
    requires TrackInv(past, q, t)
    ensures TrackInv(past, q, t.(pass := FlushPass.Head(t.pass, IsCurrent(q, t))))
  {
  }

  /** The pass moves on, nothing else does. */
  lemma OnlyTrackInv(w: World, win: nat, i: nat, t: Track)
    requires Inv(w) && HasTrack(w, win, i) && TrackInv(w.past, w.windows[win].queue, t)
    ensures Inv(WithTrack(w, win, i, w.windows[win].queue, t))
  {
    var s := Section(w.disk, w.windows[win].queue, Done);
    WithSelf(w, win, s);
    TrackStepInv(w, win, i, s, t, w.past);
    var end := WithTrack(w, win, i, w.windows[win].queue, t);
    assert end == end.(disk := w.disk, past := w.past);
  }

  lemma PassHeadInv(w: World, win: nat, i: nat)
    requires Inv(w)
    ensures Inv(HeadNext(w, win, i))
  {
    if HasTrack(w, win, i) {
      var q, t := w.windows[win].queue, w.windows[win].tracks[i];
      assert TrackInv(w.past, q, t) by {
        assert WindowInv(w.disk, w.past, w.windows[win]);
      }
      var t' := t.(pass := FlushPass.Head(t.pass, IsCurrent(q, t)));
      HeadTrack(w.past, q, t);
      OnlyTrackInv(w, win, i, t');
      assert HeadNext(w, win, i) == WithTrack(w, win, i, q, t');
    }
  }

  lemma CheckedTrack(past: History, q: Queue, t: Track, c: FlushPass.Check)
    requires TrackInv(past, q, t) && t.pass.stage == FlushPass.Checking
    ensures TrackInv(past, q, t.(pass := FlushPass.Checked(t.pass, c)))
  {
    var p, t' := t.pass, t.(pass := FlushPass.Checked(t.pass, c));
    assert t'.pass.eligible == p.eligible && t'.pass.outcomes == p.outcomes && t'.pass.blocked == p.blocked;
    assert PhotoInv(past, t');
    assert OutcomeInv(past, t'.pass);
    CheckedProgress(past, p, c);
  }

  lemma CheckedProgress(past: History, p: FlushPass.Pass, c: FlushPass.Check)
    requires p.WellFormed() && p.stage == FlushPass.Checking && Progress(past, p)
    ensures Progress(past, FlushPass.Checked(p, c))
  {
  }

  lemma PassCheckInv(w: World, win: nat, i: nat, readable: bool)
    requires Inv(w)
    ensures Inv(CheckNext(w, win, i, readable))
  {
    if HasTrack(w, win, i) && w.windows[win].tracks[i].pass.stage == FlushPass.Checking {
      var window := w.windows[win];
      assert WindowInv(w.disk, w.past, window);
      var t := window.tracks[i];
      var s := Checked(w.disk, window.queue, readable);
      var t' := t.(pass := FlushPass.Checked(t.pass, CheckOf(s, readable)));
      CheckFacts(w.disk, window.queue, readable);
      CheckStepInv(w, win, readable);
      ExtendsSelf(w.past);
      TrackKept(w.past, w.past, window.queue, s.queue, t);
      CheckedTrack(w.past, s.queue, t, CheckOf(s, readable));
      TrackStepInv(w, win, i, s, t', w.past);
      assert CheckNext(w, win, i, readable) == WithTrack(w, win, i, s.queue, t').(disk := w.disk, past := w.past);
    }
  }

  // ─── Sending ───

  lemma IssueTrack(past: History, q: Queue, t: Track)
    requires TrackInv(past, q, t) && t.pass.stage == FlushPass.Ready
    ensures TrackInv(past, q, Sends(q, t))
  {
  }

  lemma PassIssueInv(w: World, win: nat, i: nat)
    requires Inv(w)
    ensures Inv(IssueNext(w, win, i))
  {
    if HasTrack(w, win, i) && w.windows[win].tracks[i].pass.stage == FlushPass.Ready {
      assert WindowInv(w.disk, w.past, w.windows[win]);
      IssueTrack(w.past, w.windows[win].queue, w.windows[win].tracks[i]);
      OnlyTrackInv(w, win, i, Sends(w.windows[win].queue, w.windows[win].tracks[i]));
    }
  }

  lemma AnswerTrack(past: History, q: Queue, t: Track, reply: FlushPass.Reply)
    requires TrackInv(past, q, t) && t.pass.stage == FlushPass.InFlight
    ensures TrackInv(Answers(past, t.pass.eligible[t.pass.index].id, reply), q, t.(pass := FlushPass.Answer(t.pass, reply)))
  {
    var past' := Answers(past, t.pass.eligible[t.pass.index].id, reply);
    assert Extends(past, past');
    TrackKept(past, past', q, q, t);
  }

  lemma PassReplyInv(w: World, win: nat, i: nat, reply: FlushPass.Reply)
    requires Inv(w)
    ensures Inv(ReplyNext(w, win, i, reply))
  {
    if HasTrack(w, win, i) && w.windows[win].tracks[i].pass.stage == FlushPass.InFlight {
      assert WindowInv(w.disk, w.past, w.windows[win]);
      var t := w.windows[win].tracks[i];
      var past := Answers(w.past, t.pass.eligible[t.pass.index].id, reply);
      AnswerPast(w.disk, w.past, t.pass.eligible[t.pass.index].id, reply, w.protect);
      PastStepInv(w, past);
      AnswerTrack(w.past, w.windows[win].queue, t, reply);
      OnlyTrackInv(w.(past := past), win, i, t.(pass := FlushPass.Answer(t.pass, reply)));
    }
  }

  lemma RecordProgress(past: History, p: FlushPass.Pass, now: int)
    requires StageInv(past, p) && Progress(past, p) && p.stage.Answered?
    ensures Progress(past, FlushPass.Record(p, p.stage.reply, now))
  {
  }

  lemma RecordOutcomes(past: History, p: FlushPass.Pass, now: int)
    requires StageInv(past, p) && OutcomeInv(past, p) && p.stage.Answered? && ValidEntry(p.eligible[p.index])
    requires var e := p.eligible[p.index]; e.id in past.born && SamePayload(e, past.born[e.id].entry)
    ensures OutcomeInv(past, FlushPass.Record(p, p.stage.reply, now))
  {
    assert p.eligible[p.index].id in EntryIds(p.eligible);
  }

  lemma RecordTrack(past: History, q: Queue, t: Track, now: int)
    requires TrackInv(past, q, t) && t.pass.stage.Answered? && IsCurrent(q, t)
    ensures TrackInv(past, q, t.(pass := FlushPass.Record(t.pass, t.pass.stage.reply, now)))
  {
    var t' := t.(pass := FlushPass.Record(t.pass, t.pass.stage.reply, now));
    RecordProgress(past, t.pass, now);
    RecordOutcomes(past, t.pass, now);
    assert t'.pass.eligible == t.pass.eligible;
    assert PhotoInv(past, t') && StageInv(past, t'.pass) && CutInv(q, t');
  }

  lemma ResumeTrack(past: History, q: Queue, t: Track, current: bool, c: FlushPass.Check, now: int)
    requires TrackInv(past, q, t) && t.pass.stage.Answered?
    requires current ==> c != FlushPass.Holds || IsCurrent(q, t)
    ensures TrackInv(past, q, t.(pass := FlushPass.Resume(t.pass, current, c, now)))
  {
    if current && c == FlushPass.Holds {
      RecordTrack(past, q, t, now);
    }
  }

  lemma PassResumeInv(w: World, win: nat, i: nat, readable: bool, now: int)
    requires Inv(w)
    ensures Inv(ResumeNext(w, win, i, readable, now))
  {
    if HasTrack(w, win, i) && w.windows[win].tracks[i].pass.stage.Answered? {
      var window := w.windows[win];
      assert WindowInv(w.disk, w.past, window);
      var t := window.tracks[i];
      if !IsCurrent(window.queue, t) {
        ResumeTrack(w.past, window.queue, t, false, FlushPass.Holds, now);
        OnlyTrackInv(w, win, i, t.(pass := FlushPass.Resume(t.pass, false, FlushPass.Holds, now)));
      } else {
        var s := Checked(w.disk, window.queue, readable);
        var t' := t.(pass := FlushPass.Resume(t.pass, true, CheckOf(s, readable), now));
        CheckFacts(w.disk, window.queue, readable);
        CheckStepInv(w, win, readable);
        ExtendsSelf(w.past);
        TrackKept(w.past, w.past, window.queue, s.queue, t);
        ResumeTrack(w.past, s.queue, t, true, CheckOf(s, readable), now);
        TrackStepInv(w, win, i, s, t', w.past);
        assert ResumeNext(w, win, i, readable, now)
            == WithTrack(w, win, i, s.queue, t').(disk := w.disk, past := w.past);
      }
    }
  }

  // ─── Committing ───

  lemma OverTrack(past: History, q: Queue, t: Track)
    requires TrackInv(past, q, t)
    ensures TrackInv(past, q, Ended(t))
  {
  }

  lemma CommitTame(d: Disk, q: Queue, t: Track, k: nat, published: bool, past: History, protect: bool)
    requires DiskInv(d) && QueueInv(d, q) && PastInv(d, past, protect) && q.bound.Some?
    requires OutcomeInv(past, t.pass)
    ensures var s := CommitSection(d, q, t.pass.outcomes, t.pass.generation, k, published);
            Tame(d, q, s) && PastInv(s.disk, past, protect)
  {
    var cur := Current(d);
    var r := Refresh(d, q);
    var outcomes := t.pass.outcomes;
    RefreshTame(d, q);
    RefreshFacts(d, q);
    if r.verdict == Done && t.pass.generation == r.queue.generation {
      assert FinalOutcomes(outcomes) && OutcomesCarryIds(outcomes);
      CommitValid(cur.entries, cur.rejected, outcomes);
      PersistFacts(d, r.queue, StillQueued(cur.entries, outcomes), NewlyRejected(cur.entries, outcomes) + cur.rejected, k, published);
      if 0 < k {
        CommitPast(d, CommitSection(d, q, outcomes, t.pass.generation, k, published).disk, past, outcomes, protect);
      }
    }
  }

  lemma CommitStepInv(w: World, win: nat, i: nat, s: Section)
    requires Inv(w) && HasTrack(w, win, i) && w.windows[win].queue.bound.Some?
    requires Tame(w.disk, w.windows[win].queue, s) && PastInv(s.disk, w.past, w.protect)
    ensures var t := w.windows[win].tracks[i];
            Inv(WithTrack(w, win, i, s.queue, Ended(t)).(disk := s.disk, past := w.past))
  {
    var t := w.windows[win].tracks[i];
    assert WindowInv(w.disk, w.past, w.windows[win]);
    ExtendsSelf(w.past);
    TameStep(w, win, s, w.past);
    TrackKept(w.past, w.past, w.windows[win].queue, s.queue, t);
    OverTrack(w.past, s.queue, t);
    TrackStepInv(w, win, i, s, Ended(t), w.past);
  }

  lemma PassCommitInv(w: World, win: nat, i: nat, k: nat, published: bool)
    requires Inv(w)
    ensures Inv(CommitNext(w, win, i, k, published))
  {
    if HasTrack(w, win, i) && w.windows[win].tracks[i].pass.stage == FlushPass.Finishing {
      var q := w.windows[win].queue;
      assert WindowInv(w.disk, w.past, w.windows[win]);
      var t := w.windows[win].tracks[i];
      assert TrackInv(w.past, q, t);
      if !IsCurrent(q, t) {
        OverTrack(w.past, q, t);
        OnlyTrackInv(w, win, i, Ended(t));
      } else {
        CommitTame(w.disk, q, t, k, published, w.past, w.protect);
        CommitStepInv(w, win, i, CommitSection(w.disk, q, t.pass.outcomes, t.pass.generation, k, published));
      }
    }
  }

  // ─── Windows that come and go ───

  lemma OpenInv(w: World, win: nat)
    requires Inv(w)
    ensures Inv(OpenNext(w, win))
  {
    var end := OpenNext(w, win);
    forall x | x in end.windows ensures WindowInv(w.disk, w.past, end.windows[x]) {
      if x in w.windows {
        assert WindowInv(w.disk, w.past, w.windows[x]);
      }
    }
  }

  lemma ShutInv(w: World, win: nat)
    requires Inv(w)
    ensures Inv(ShutNext(w, win))
  {
    var end := ShutNext(w, win);
    forall x | x in end.windows ensures WindowInv(w.disk, w.past, end.windows[x]) {
      assert WindowInv(w.disk, w.past, w.windows[x]);
    }
  }

  /** A data window that boots on the durable scope claims nothing and changes at most the v1 keys. */
  lemma AttachFacts(d: Disk, q: Queue, k: nat)
    requires DiskInv(d) && QueueInv(d, q) && Current(d).scope.Some? && !q.purgePending
    ensures var s := BindScope(d, q, Current(d).scope.value, false, k);
            && Current(s.disk) == Current(d) && s.disk.items == d.items
            && QueueInv(s.disk, s.queue) && !s.queue.purgePending
            && PassFrame(q, s.queue) && (q.loaded ==> s.queue.loaded)
  {
    var scope := Current(d).scope.value;
    var claimed := Current(d).(scope := Some(scope), purgePending := q.purgePending);
    assert claimed == Current(d);
    if 0 < k {
      PersistLands(d, claimed, q.legacyCleanup || HasLegacy(d), k);
    }
  }

  lemma AttachInv(w: World, win: nat, k: nat)
    requires Inv(w)
    ensures Inv(AttachNext(w, win, k))
  {
    if win != LIFE && win in w.windows && Current(w.disk).scope.Some? {
      var window := w.windows[win];
      var s := BindScope(w.disk, window.queue, Current(w.disk).scope.value, false, k);
      var end := With(w, win, s);
      assert WindowInv(w.disk, w.past, window);
      AttachFacts(w.disk, window.queue, k);
      ExtendsSelf(w.past);
      PastUnmoved(w.disk, s.disk, w.past, w.protect);
      OthersKept(w, s.disk, w.past, win);
      WindowKept(w.disk, s.disk, w.past, w.past, window, s.queue);
      LifeUnmoved(w.disk, s.disk, w.windows[LIFE].queue, w.life);
    }
  }

  /** The lifecycle window reads the snapshot and the cells, and nothing else of the disk. */
  lemma LifeUnmoved(d: Disk, d': Disk, q: Queue, life: Life)
    requires LifeInv(d, q, life) && Current(d') == Current(d) && d'.items == d.items
    ensures LifeInv(d', q, life)
  {
  }
}
