/** One network pass over the queue, as the automaton of its awaits.
  *
  * The pass photographs the queue, then for each entry checks its generation, checks the
  * durable scope under the lock, sends, checks both again and records an outcome.
  */
module FlushPass {
  import opened Wrappers
  import opened QueueModel
  import opened QueueFacts

  /** How a send ended, as `sendQueued` classifies it. */
  datatype Reply = Delivered | Unavailable(message: string) | Refusal(message: string, status: int)

  /** A response status, or the absence of any response. */
  datatype Response = Unreachable(error: string) | Response(status: int, message: string)

  /** `sendQueued`: 2xx is a success; 5xx, 429, 401 and the network are retried; the rest is final. */
  function Classify(r: Response): Reply {
    match r
    case Unreachable(error) => Unavailable(error)
    case Response(status, message) =>
      if 200 <= status < 300 then Delivered
      else if 500 <= status || status == 429 then Unavailable(message)
      else if status == 401 then Unavailable("Session expirée")
      else Refusal(message, status)
  }

  /** What an awaited check of the durable scope found. */
  datatype Check = Holds | Moved | Unreadable(message: string)

  datatype Stage = AtHead | Checking | Ready | InFlight | Answered(reply: Reply) | Finishing | Over

  datatype Pass = Pass(
    generation: nat, eligible: seq<Entry>, index: nat, stage: Stage,
    outcomes: map<Id, Outcome>, blocked: set<string>)
  {
    predicate WellFormed() {
      && index <= |eligible|
      && (stage.Checking? || stage.Ready? || stage.InFlight? || stage.Answered? ==> index < |eligible|)
    }
  }

  function StartPass(eligible: seq<Entry>, generation: nat): Pass {
    Pass(generation, eligible, 0, AtHead, map[], {})
  }

  /** The head of the loop; `current` says whether the window is still of the pass's generation. */
  function Head(p: Pass, current: bool): Pass {
    if p.stage != AtHead then p
    else if !current then p.(stage := Over)
    else if p.index < |p.eligible| then p.(stage := Checking)
    else p.(stage := Finishing)
  }

  predicate Blocked(p: Pass, e: Entry) {
    e.Blocks().Some? && e.Blocks().value in p.blocked
  }

  function Checked(p: Pass, c: Check): Pass
    requires p.WellFormed()
  {
    if p.stage != Checking then p
    else if c != Holds then p.(stage := Over)
    else if Blocked(p, p.eligible[p.index]) then p.(stage := AtHead, index := p.index + 1)
    else p.(stage := Ready)
  }

  function Issue(p: Pass): Pass {
    if p.stage != Ready then p else p.(stage := InFlight)
  }

  function Answer(p: Pass, reply: Reply): Pass {
    if p.stage != InFlight then p else p.(stage := Answered(reply))
  }

  function RejectionOf(e: Entry, message: string, status: int, now: int): Rejected {
    Rejected(e.id, e.path, e.body, e.displayAmount, message, status, now)
  }

  function Record(p: Pass, reply: Reply, now: int): Pass
    requires p.WellFormed() && p.index < |p.eligible|
  {
    var e := p.eligible[p.index];
    var next := p.(stage := AtHead, index := p.index + 1);
    match reply
    case Delivered => next.(outcomes := p.outcomes[e.id := Sent])
    case Refusal(message, status) =>
      next.(outcomes := p.outcomes[e.id := Permanent(RejectionOf(e, message, status, now))])
    case Unavailable(message) =>
      next.(outcomes := p.outcomes[e.id := Temporary(message)],
            blocked := if e.Blocks().Some? then p.blocked + {e.Blocks().value} else p.blocked)
  }

  /** The two checks after an answer.  A delivery whose check cannot be read falls into the error path. */
  function Resume(p: Pass, current: bool, c: Check, now: int): Pass
    requires p.WellFormed()
  {
    if !p.stage.Answered? then p
    else if !current then p.(stage := Over)
    else match c
      case Moved => p.(stage := Over)
      case Unreadable(message) =>
        if p.stage.reply.Delivered? then p.(stage := Answered(Unavailable(message))) else p.(stage := Over)
      case Holds => Record(p, p.stage.reply, now)
  }

  /** The head of the loop: a pass whose window has moved on is over, one that has seen every entry is done, and any
    * other checks its next entry. */
  lemma HeadDecides(p: Pass)
    requires p.stage == AtHead
    ensures Head(p, false) == p.(stage := Over)
    ensures Head(p, true) == p.(stage := if p.index < |p.eligible| then Checking else Finishing)
  {
  }

  /** The check before a send: the pass goes on with its entry when the scope holds and nothing blocks the entry, to the
    * next one when its subject is blocked, and is over when the scope has moved or cannot be read. */
  lemma CheckDecides(p: Pass, c: Check)
    requires p.WellFormed() && p.stage == Checking
    ensures var e, p' := p.eligible[p.index], Checked(p, c);
            && p'.outcomes == p.outcomes && p'.blocked == p.blocked
            && (c == Holds && (e.subject.None? || e.subject.value == "" || e.subject.value !in p.blocked) ==>
                  p'.stage == Ready && p'.index == p.index)
            && (c == Holds && e.subject.Some? && e.subject.value != "" && e.subject.value in p.blocked ==>
                  p'.stage == AtHead && p'.index == p.index + 1)
            && (c != Holds ==> p'.stage == Over)
  {
  }

  /** The checks after an answer.  A pass that was cut off, or whose scope has moved, records nothing.  One that cannot
    * read the disk is over too, but after a delivery: that one is taken for a failure, so that when the disk can be read
    * again the entry is kept and blocks its subject. */
  lemma LostCheckAfterAnswer(p: Pass, message: string, now: int)
    requires p.WellFormed() && p.stage.Answered?
    ensures forall c :: Resume(p, false, c, now) == p.(stage := Over)
    ensures Resume(p, true, Moved, now) == p.(stage := Over)
    ensures p.stage.reply != Delivered ==> Resume(p, true, Unreadable(message), now) == p.(stage := Over)
    ensures p.stage.reply == Delivered ==>
              var e := p.eligible[p.index];
              var p' := Resume(Resume(p, true, Unreadable(message), now), true, Holds, now);
              && p'.stage == AtHead && p'.index == p.index + 1
              && p'.outcomes == p.outcomes[e.id := Temporary(message)]
              && (e.subject.Some? && e.subject.value != "" ==> e.subject.value in p'.blocked)
              && (forall c :: c != Holds ==> Resume(Resume(p, true, Unreadable(message), now), true, c, now).stage == Over)
  {
  }

  /** The answers that are final for a queued mutation. */
  predicate FinalAnswer(r: Response) {
    r.Response? && r.status < 500 && r.status != 429 && r.status != 401
  }

  predicate Success(r: Response) { r.Response? && 200 <= r.status < 300 }

  /** What is noted on an entry that has to wait. */
  function Excuse(r: Response): string {
    match r
    case Unreachable(error) => error
    case Response(status, message) => if status == 401 then "Session expirée" else message
  }

  /** From the answer to the lists: a success takes the entry off; any other final answer turns it into a rejection
    * that holds the mutation and the answer; after any other the mutation stays as it was, with one more attempt. */
  lemma AnswerDecides(p: Pass, r: Response, now: int)
    requires p.WellFormed() && p.stage == Answered(Classify(r))
    ensures var e := p.eligible[p.index];
            var outcomes := Resume(p, true, Holds, now).outcomes;
            var kept, refused := StillQueued([e], outcomes), NewlyRejected([e], outcomes);
            if Success(r) then kept == [] && refused == []
            else if FinalAnswer(r) then
              && kept == [] && |refused| == 1 && Refuses(refused[0], e)
              && refused[0].reason == r.message && refused[0].status == r.status && refused[0].at == now
            else
              && refused == [] && |kept| == 1 && SamePayload(kept[0], e)
              && kept[0].attempts == e.attempts + 1 && kept[0].lastError == Some(Excuse(r))
  {
    var e := p.eligible[p.index];
    assert [e][1..] == [] && [e][..0] == [];
  }

  datatype Event =
    | HeadEvent(current: bool)
    | CheckEvent(check: Check)
    | IssueEvent
    | AnswerEvent(reply: Reply)
    | ResumeEvent(still: bool, after: Check, now: int)

  function Step(p: Pass, ev: Event): (p': Pass)
    requires p.WellFormed()
    ensures p'.WellFormed() && p'.eligible == p.eligible && p'.generation == p.generation
  {
    match ev
    case HeadEvent(current) => Head(p, current)
    case CheckEvent(check) => Checked(p, check)
    case IssueEvent => Issue(p)
    case AnswerEvent(reply) => Answer(p, reply)
    case ResumeEvent(still, after, now) => Resume(p, still, after, now)
  }

  // ─── What one pass sends ───

  /** A pass, with the positions it has sent so far in the order of the sends. */
  datatype Moment = Moment(pass: Pass, issued: seq<nat>)

  function After(m: Moment, ev: Event): Moment
    requires m.pass.WellFormed()
  {
    Moment(Step(m.pass, ev), if ev.IssueEvent? && m.pass.stage.Ready? then m.issued + [m.pass.index] else m.issued)
  }

  /** One event. */
  predicate Flows(m: Moment, ev: Event, m': Moment) {
    m.pass.WellFormed() && m' == After(m, ev)
  }

  /** Some events turn the one pass into the other, sending the entries at these positions. */
  ghost predicate Becomes(p0: Pass, p: Pass, issued: seq<nat>) {
    && p.WellFormed() && p.eligible == p0.eligible && p.generation == p0.generation
    && Reaches(Flows, Moment(p0, []), Moment(p, issued))
  }

  lemma ReachStart(p0: Pass)
    requires p0.WellFormed()
    ensures Becomes(p0, p0, [])
  {
    ReachSelf(Flows, Moment(p0, []));
  }

  lemma Reach(p0: Pass, p: Pass, issued: seq<nat>, ev: Event)
    requires Becomes(p0, p, issued)
    ensures var m := After(Moment(p, issued), ev); Becomes(p0, m.pass, m.issued)
  {
    ReachMore(Flows, Moment(p0, []), Moment(p, issued), ev, After(Moment(p, issued), ev));
  }

  /** How the pass goes on after an answer: an outcome is recorded, or the pass is over. */
  function Concluded(p: Pass, outcome: Option<Reply>, now: int): Pass
    requires p.WellFormed() && p.index < |p.eligible|
  {
    if outcome.Some? then Record(p, outcome.value, now) else p.(stage := Over)
  }

  predicate DistinctIds(entries: seq<Entry>) {
    forall i, j | 0 <= i < j < |entries| :: entries[i].id != entries[j].id
  }

  /** An outcome that closes its entry. */
  predicate Closed(p: Pass, j: nat)
    requires j < |p.eligible|
  {
    var id := p.eligible[j].id;
    id in p.outcomes && !p.outcomes[id].Temporary?
  }

  /** Up to where a pass has sent. */
  function Frontier(p: Pass): nat {
    if p.stage.InFlight? || p.stage.Answered? then p.index + 1 else p.index
  }

  predicate PassInv(p: Pass, issued: seq<nat>) {
    && p.WellFormed()
    && (forall i | 0 <= i < |issued| :: issued[i] < |p.eligible|)
    && (forall i, j | 0 <= i < j < |issued| :: issued[i] < issued[j])
    && (!p.stage.Over? ==> forall i | 0 <= i < |issued| :: issued[i] < Frontier(p))
    && (p.stage.InFlight? || p.stage.Answered? ==> p.index in issued)
    && (p.stage.Ready? ==> !Blocked(p, p.eligible[p.index]))
    && (forall j | 0 <= j < |p.eligible| && Closed(p, j) :: j in issued && j < p.index)
    && (forall j | 0 <= j < p.index && p.eligible[j].Blocks().Some? ::
          Closed(p, j) || p.eligible[j].Blocks().value in p.blocked)
    && (forall k | k in issued :: Cleared(p, k))
  }

  /** Every earlier entry of the subject of `k` is closed. */
  predicate Cleared(p: Pass, k: nat) {
    k < |p.eligible| && p.eligible[k].Blocks().Some? ==>
      forall j | 0 <= j < k && p.eligible[j].Blocks() == p.eligible[k].Blocks() :: Closed(p, j)
  }

  lemma IssueKeeps(p: Pass, issued: seq<nat>)
    requires PassInv(p, issued) && p.stage == Ready
    ensures PassInv(Issue(p), issued + [p.index])
  {
    var issued' := issued + [p.index];
    forall j | 0 <= j < |p.eligible| && Closed(Issue(p), j) ensures j in issued' && j < p.index {
      assert Closed(p, j);
    }
    forall k | k in issued' ensures Cleared(Issue(p), k) {
      if k != p.index {
        assert k in issued && Cleared(p, k);
      }
    }
    assert p.index == issued'[|issued|];
  }

  lemma RecordKeeps(p: Pass, issued: seq<nat>, reply: Reply, now: int)
    requires DistinctIds(p.eligible) && PassInv(p, issued) && p.stage.Answered?
    ensures PassInv(Record(p, reply, now), issued)
  {
    var p' := Record(p, reply, now);
    assert forall j | 0 <= j < |p.eligible| && j != p.index :: Closed(p', j) == Closed(p, j);
    forall k | k in issued ensures Cleared(p', k) {
      assert Cleared(p, k);
    }
  }

  lemma StepKeeps(p: Pass, issued: seq<nat>, ev: Event)
    requires DistinctIds(p.eligible) && PassInv(p, issued) && !(ev.IssueEvent? && p.stage == Ready)
    ensures PassInv(Step(p, ev), issued)
  {
    var p' := Step(p, ev);
    if ev.ResumeEvent? && p.stage.Answered? && ev.still && ev.after == Holds {
      RecordKeeps(p, issued, p.stage.reply, ev.now);
    } else {
      assert p'.outcomes == p.outcomes && p'.blocked == p.blocked;
      assert forall j | 0 <= j < |p.eligible| :: Closed(p', j) == Closed(p, j);
      forall k | k in issued ensures Cleared(p', k) {
        assert Cleared(p, k);
      }
    }
  }

  predicate MomentInv(m: Moment, eligible: seq<Entry>) {
    m.pass.eligible == eligible && PassInv(m.pass, m.issued)
  }

  lemma FlowKeeps(m: Moment, ev: Event, m': Moment, eligible: seq<Entry>)
    requires DistinctIds(eligible) && MomentInv(m, eligible) && Flows(m, ev, m')
    ensures MomentInv(m', eligible)
  {
    if ev.IssueEvent? && m.pass.stage.Ready? {
      IssueKeeps(m.pass, m.issued);
    } else {
      StepKeeps(m.pass, m.issued, ev);
    }
  }

  lemma ReachedInv(eligible: seq<Entry>, generation: nat, p: Pass, issued: seq<nat>)
    requires DistinctIds(eligible) && Becomes(StartPass(eligible, generation), p, issued)
    ensures PassInv(p, issued)
  {
    forall m, ev, m' | Flows(m, ev, m') && MomentInv(m, eligible) ensures MomentInv(m', eligible) {
      FlowKeeps(m, ev, m', eligible);
    }
    ReachKeeps(Flows, m => MomentInv(m, eligible), Moment(StartPass(eligible, generation), []), Moment(p, issued));
  }

  /** However its awaits end, a pass sends in queue order and sends no entry twice. */
  lemma PassSendsInOrder(eligible: seq<Entry>, generation: nat, p: Pass, issued: seq<nat>, i: nat, j: nat)
    requires DistinctIds(eligible) && Becomes(StartPass(eligible, generation), p, issued) && i < j < |issued|
    ensures issued[i] < issued[j] < |eligible|
  {
    ReachedInv(eligible, generation, p, issued);
  }

  /** An entry with a subject is sent only once every earlier entry of that subject was sent in the same
    * pass and closed: delivered, or refused for good. */
  lemma PassKeepsSubjectOrder(eligible: seq<Entry>, generation: nat, p: Pass, issued: seq<nat>, j: nat, k: nat)
    requires DistinctIds(eligible) && Becomes(StartPass(eligible, generation), p, issued)
    requires j < k < |eligible| && k in issued
    requires eligible[k].Blocks().Some? && eligible[j].Blocks() == eligible[k].Blocks()
    ensures j in issued && Closed(p, j)
  {
    ReachedInv(eligible, generation, p, issued);
    assert Cleared(p, k);
  }

  // ─── What a finished pass has sent ───

  /** The outcome of this entry keeps it in the queue. */
  predicate Failed(p: Pass, i: nat) {
    i < |p.eligible| && p.eligible[i].id in p.outcomes && p.outcomes[p.eligible[i].id].Temporary?
  }

  /** An earlier entry of its subject failed. */
  predicate Held(p: Pass, j: nat) {
    && j < |p.eligible| && p.eligible[j].Blocks().Some?
    && exists i :: 0 <= i < j && p.eligible[i].Blocks() == p.eligible[j].Blocks() && Failed(p, i)
  }

  predicate Blocker(p: Pass, subject: string) {
    exists i :: 0 <= i < p.index && i < |p.eligible| && p.eligible[i].Blocks() == Some(subject) && Failed(p, i)
  }

  predicate Tried(p: Pass, issued: seq<nat>, j: nat) {
    j < |p.eligible| && j in issued && p.eligible[j].id in p.outcomes
  }

  predicate TryInv(p: Pass, issued: seq<nat>) {
    && p.WellFormed()
    && (p.stage.Finishing? ==> p.index == |p.eligible|)
    && (p.stage.InFlight? || p.stage.Answered? ==> p.index in issued)
    && (forall j | 0 <= j < p.index :: Tried(p, issued, j) || Held(p, j))
    && (forall j | 0 <= j < |p.eligible| && p.eligible[j].id in p.outcomes :: j in issued)
    && (forall b | b in p.blocked :: Blocker(p, b))
  }

  /** Outcomes that are only added to: what was tried or held stays so, and so does what blocks. */
  lemma TryGrows(p: Pass, issued: seq<nat>, p': Pass, issued': seq<nat>)
    requires p'.eligible == p.eligible && p.index <= p'.index && issued <= issued'
    requires forall id | id in p.outcomes :: id in p'.outcomes && p'.outcomes[id] == p.outcomes[id]
    ensures forall j: nat :: Tried(p, issued, j) ==> Tried(p', issued', j)
    ensures forall j: nat :: Held(p, j) ==> Held(p', j)
    ensures forall b :: Blocker(p, b) ==> Blocker(p', b)
  {
    assert forall i: nat :: Failed(p, i) ==> Failed(p', i);
    forall j: nat | Held(p, j) ensures Held(p', j) {
      var i :| 0 <= i < j && p.eligible[i].Blocks() == p.eligible[j].Blocks() && Failed(p, i);
      assert Failed(p', i) && p'.eligible[i].Blocks() == p'.eligible[j].Blocks();
    }
    forall b | Blocker(p, b) ensures Blocker(p', b) {
      var i :| 0 <= i < p.index && i < |p.eligible| && p.eligible[i].Blocks() == Some(b) && Failed(p, i);
      assert Failed(p', i) && p'.eligible[i].Blocks() == Some(b);
    }
  }

  lemma RecordTries(p: Pass, issued: seq<nat>, reply: Reply, now: int)
    requires DistinctIds(p.eligible) && TryInv(p, issued) && p.stage.Answered? && p.eligible[p.index].id !in p.outcomes
    ensures TryInv(Record(p, reply, now), issued)
  {
    var p' := Record(p, reply, now);
    TryGrows(p, issued, p', issued);
    assert Tried(p', issued, p.index);
    if reply.Unavailable? && p.eligible[p.index].Blocks().Some? {
      assert Failed(p', p.index);
      assert Blocker(p', p.eligible[p.index].Blocks().value);
    }
  }

  /** No outcome is known ahead of the head. */
  predicate NoneAhead(p: Pass) { forall j | p.index <= j < |p.eligible| :: p.eligible[j].id !in p.outcomes }

  lemma StepTries(p: Pass, issued: seq<nat>, ev: Event)
    requires DistinctIds(p.eligible) && TryInv(p, issued) && NoneAhead(p)
    ensures var m := After(Moment(p, issued), ev);
            TryInv(m.pass, m.issued) && NoneAhead(m.pass)
  {
    var m := After(Moment(p, issued), ev);
    if ev.ResumeEvent? && p.stage.Answered? && ev.still && ev.after == Holds {
      RecordTries(p, issued, p.stage.reply, ev.now);
    } else {
      assert m.pass.outcomes == p.outcomes && m.pass.blocked == p.blocked;
      TryGrows(p, issued, m.pass, m.issued);
      if ev.IssueEvent? && p.stage.Ready? {
        assert m.issued[|issued|] == p.index;
      }
      if m.pass.index != p.index {
        var e := p.eligible[p.index];
        assert Blocker(p, e.Blocks().value);
        assert Held(m.pass, p.index);
      }
    }
  }

  predicate TryMoment(m: Moment, eligible: seq<Entry>) {
    m.pass.eligible == eligible && TryInv(m.pass, m.issued) && NoneAhead(m.pass)
  }

  /** A pass that reaches its end has sent every entry, with an outcome each, but those that an earlier failure of
    * their own subject held back; in particular it has sent every entry that has no subject. */
  lemma FinishedPassTriedAll(eligible: seq<Entry>, generation: nat, p: Pass, issued: seq<nat>, j: nat)
    requires DistinctIds(eligible) && Becomes(StartPass(eligible, generation), p, issued)
    requires p.stage.Finishing? && j < |eligible|
    ensures j in issued <==> !Held(p, j)
    ensures j in issued <==> eligible[j].id in p.outcomes
  {
    forall m, ev, m' | Flows(m, ev, m') && TryMoment(m, eligible) ensures TryMoment(m', eligible) {
      StepTries(m.pass, m.issued, ev);
    }
    ReachKeeps(Flows, m => TryMoment(m, eligible), Moment(StartPass(eligible, generation), []), Moment(p, issued));
    if j in issued && Held(p, j) {
      var i :| 0 <= i < j && p.eligible[i].Blocks() == p.eligible[j].Blocks() && Failed(p, i);
      PassKeepsSubjectOrder(eligible, generation, p, issued, i, j);
      assert false;
    }
  }
}
