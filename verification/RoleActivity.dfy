/**
 A CrewAI role activity as it runs: look for a stored output, work, look again, insert the
 output under the role's key, and announce it.

 A peer attempt may insert its own output before any of these effects. `DurableTask`
 interleaves any number of attempts, one effect a step; here one attempt runs to its end,
 and what it does is shown to be a sequence of those steps.
 */
module RoleActivity {
  import opened Wrappers
  import opened Orchestration
  import opened DurableTask

  /** Before which effect a peer inserts its output, and which. */
  datatype Peer = NoPeer | Inserts(before: Point, output: Payload)

  datatype Point = FirstLookup | AgentWork | SecondLookup | Check | Insert | Reload | Announcement

  function PointOf(p: Progress): Option<Point> {
    match p
    case Ready => Some(FirstLookup)
    case Working => Some(AgentWork)
    case Computed(_) => Some(SecondLookup)
    case Unsaved(_) => Some(Check)
    case Inserting(_) => Some(Insert)
    case Reloading => Some(Reload)
    case Announcing(_, _) => Some(Announcement)
    case Returned(_) => None
    case Closed => None
  }

  /** The unique key lets the peer insert only if nothing is stored yet. */
  function PeerInserts(outputs: map<Role, Payload>, r: Role, peer: Peer, at: Point): map<Role, Payload> {
    if peer.Inserts? && peer.before == at && r !in outputs then outputs[r := peer.output] else outputs
  }

  /** What an attempt has done so far: the stored outputs, the bus, and where it is. */
  datatype Stage = Stage(outputs: map<Role, Payload>, bus: seq<Event>, progress: Progress)

  /** One effect of the attempt, after the peer's insert if it comes just before. */
  function Next(w: World, r: Role, peer: Peer, c: Choice, s: Stage): Stage {
    match PointOf(s.progress)
    case None => s
    case Some(at) =>
      var e := RoleEffect(w.(outputs := PeerInserts(s.outputs, r, peer, at), bus := s.bus), r, s.progress, c);
      Stage(e.outputs, e.bus, e.progress)
  }

  function Rank(p: Progress): nat {
    match p
    case Ready => 6
    case Working => 5
    case Computed(_) => 4
    case Unsaved(_) => 3
    case Inserting(_) => 2
    case Reloading => 1
    case Announcing(_, _) => 1
    case Returned(_) => 0
    case Closed => 0
  }

  /** The attempt, effect by effect, to its end. */
  function Finally(w: World, r: Role, peer: Peer, c: Choice, s: Stage): Stage
    decreases Rank(s.progress)
  {
    if PointOf(s.progress).None? then s else Finally(w, r, peer, c, Next(w, r, peer, c, s))
  }

  lemma AnnouncementEnds(w: World, r: Role, peer: Peer, c: Choice, s: Stage)
    requires s.progress.Announcing? && r in s.outputs
    ensures Finally(w, r, peer, c, s) ==
            Stage(s.outputs, if c.published then s.bus + [s.progress.event] else s.bus, Returned(s.progress.result))
  {
    var t := Next(w, r, peer, c, s);
    assert Finally(w, r, peer, c, t) == t;
  }

  lemma ReloadEnds(w: World, r: Role, peer: Peer, c: Choice, s: Stage)
    requires s.progress.Reloading? && r in s.outputs
    ensures Finally(w, r, peer, c, s) == s.(progress := Returned(s.outputs[r]))
  {
    var t := Next(w, r, peer, c, s);
    assert Finally(w, r, peer, c, t) == t;
  }

  class ActivityRuntime {
    var outputs: map<Role, Payload>
    var bus: seq<Event>

    constructor ()
      ensures outputs == map[] && bus == []
    {
      outputs, bus := map[], [];
    }

    method LetPeerInsert(r: Role, peer: Peer, at: Point)
      modifies this`outputs
      ensures outputs == PeerInserts(old(outputs), r, peer, at)
    {
      if peer.Inserts? && peer.before == at && r !in outputs {
        outputs := outputs[r := peer.output];
      }
    }

    /** `answer` is `None` if the attempt raises. `c.output` is what the agent works out,
        `c.raises` whether a conflict shows on the flush, before the commit is tried. */
    method RunRole(ghost w: World, r: Role, peer: Peer, c: Choice) returns (answer: Option<Payload>)
      modifies this
      ensures Ends(Finally(w, r, peer, c, Stage(old(outputs), old(bus), Ready)), answer)
    {
      ghost var end := Finally(w, r, peer, c, Stage(outputs, bus, Ready));
      LetPeerInsert(r, peer, FirstLookup);
      if r in outputs {
        return Some(outputs[r]);
      }
      assert end == Finally(w, r, peer, c, Stage(outputs, bus, Working));
      LetPeerInsert(r, peer, AgentWork);
      var result := c.output;
      assert end == Finally(w, r, peer, c, Stage(outputs, bus, Computed(result)));
      answer := CommitStep(w, r, peer, c, result);
    }

    method CommitStep(ghost w: World, r: Role, peer: Peer, c: Choice, result: Payload) returns (answer: Option<Payload>)
      modifies this
      ensures Ends(Finally(w, r, peer, c, Stage(old(outputs), old(bus), Computed(result))), answer)
    {
      ghost var end := Finally(w, r, peer, c, Stage(outputs, bus, Computed(result)));
      LetPeerInsert(r, peer, SecondLookup);
      if r in outputs {
        return Some(outputs[r]);
      }
      assert end == Finally(w, r, peer, c, Stage(outputs, bus, Unsaved(result)));
      LetPeerInsert(r, peer, Check);
      if r !in outputs {
        assert end == Finally(w, r, peer, c, Stage(outputs, bus, Inserting(result)));
        answer := InsertStep(w, r, peer, c, result);
      } else {
        assert end == Finally(w, r, peer, c, Stage(outputs, bus, Reloading));
        answer := ReloadStep(w, r, peer, c);
      }
    }

    method InsertStep(ghost w: World, r: Role, peer: Peer, c: Choice, result: Payload) returns (answer: Option<Payload>)
      modifies this
      ensures Ends(Finally(w, r, peer, c, Stage(old(outputs), old(bus), Inserting(result))), answer)
    {
      ghost var end := Finally(w, r, peer, c, Stage(outputs, bus, Inserting(result)));
      LetPeerInsert(r, peer, Insert);
      if r in outputs {
        if c.raises {
          return None;
        }
        assert end == Finally(w, r, peer, c, Stage(outputs, bus, Reloading));
        answer := ReloadStep(w, r, peer, c);
      } else {
        outputs := outputs[r := result];
        assert end == Finally(w, r, peer, c, Stage(outputs, bus, Announcing(RoleCompleted(r), result)));
        AnnouncementEnds(w, r, peer, c, Stage(outputs, bus, Announcing(RoleCompleted(r), result)));
        if c.published {
          bus := bus + [RoleCompleted(r)];
        }
        return Some(result);
      }
    }

    method ReloadStep(ghost w: World, r: Role, peer: Peer, c: Choice) returns (answer: Option<Payload>)
      modifies this
      ensures Ends(Finally(w, r, peer, c, Stage(old(outputs), old(bus), Reloading)), answer)
    {
      LetPeerInsert(r, peer, Reload);
      return if r in outputs then Some(outputs[r]) else None;
    }

    ghost predicate Ends(s: Stage, answer: Option<Payload>)
      reads this
    {
      && outputs == s.outputs && bus == s.bus
      && s.progress == (if answer.Some? then Returned(answer.value) else Closed)
    }
  }

  // ---- What one attempt leaves ----

  ghost predicate Keeps(outputs: map<Role, Payload>, more: map<Role, Payload>) {
    forall r :: r in outputs ==> r in more && more[r] == outputs[r]
  }

  /** An attempt holds the stored output wherever it already announces or returns it. */
  ghost predicate StageOk(r: Role, s: Stage) {
    match s.progress
    case Announcing(event, result) => event == RoleCompleted(r) && r in s.outputs && s.outputs[r] == result
    case Returned(result) => r in s.outputs && s.outputs[r] == result
    case _ => true
  }

  lemma NextKeeps(w: World, r: Role, peer: Peer, c: Choice, s: Stage)
    requires StageOk(r, s)
    ensures Keeps(s.outputs, Next(w, r, peer, c, s).outputs) && StageOk(r, Next(w, r, peer, c, s))
    ensures forall other :: other != r && other in Next(w, r, peer, c, s).outputs ==> other in s.outputs
  {
  }

  lemma {:induction false} FinallyKeeps(w: World, r: Role, peer: Peer, c: Choice, s: Stage)
    requires StageOk(r, s)
    ensures var t := Finally(w, r, peer, c, s);
            Keeps(s.outputs, t.outputs) && StageOk(r, t) && PointOf(t.progress).None?
    decreases Rank(s.progress)
  {
    if PointOf(s.progress).Some? {
      NextKeeps(w, r, peer, c, s);
      FinallyKeeps(w, r, peer, c, Next(w, r, peer, c, s));
    }
  }

  /** A stored output is returned as it is, and nothing is announced again. */
  lemma StoredOutputIsReturned(w: World, r: Role, peer: Peer, c: Choice, outputs: map<Role, Payload>, bus: seq<Event>)
    requires r in outputs
    ensures Finally(w, r, peer, c, Stage(outputs, bus, Ready)) == Stage(outputs, bus, Returned(outputs[r]))
  {
    var s := Next(w, r, peer, c, Stage(outputs, bus, Ready));
    assert s == Stage(outputs, bus, Returned(outputs[r]));
  }

  /** Unless it raises, an attempt returns the stored output, its own or the peer's. It
      raises exactly when the peer's row makes its insert raise; the next attempt, which finds
      that row, returns it. */
  lemma AttemptReturnsTheStoredOutput(w: World, r: Role, peer: Peer, c: Choice, outputs: map<Role, Payload>,
                                      bus: seq<Event>)
    ensures var t := Finally(w, r, peer, c, Stage(outputs, bus, Ready));
            && Keeps(outputs, t.outputs) && r in t.outputs
            && (t.progress == Returned(t.outputs[r]) || t.progress == Closed)
            && (t.progress == Closed <==> r !in outputs && peer.Inserts? && peer.before == Insert && c.raises)
            && forall again ::
                 Finally(w, r, peer, again, t.(progress := Ready)) == t.(progress := Returned(t.outputs[r]))
  {
    var first := Stage(outputs, bus, Ready);
    var t := Finally(w, r, peer, c, first);
    FinallyKeeps(w, r, peer, c, first);
    if r !in outputs {
      FreshAttempt(w, r, peer, c, outputs, bus);
    } else {
      StoredOutputIsReturned(w, r, peer, c, outputs, bus);
    }
    forall again
      ensures Finally(w, r, peer, again, t.(progress := Ready)) == t.(progress := Returned(t.outputs[r]))
    {
      StoredOutputIsReturned(w, r, peer, again, t.outputs, t.bus);
    }
  }

  predicate PeerWins(peer: Peer) {
    peer.Inserts? && peer.before in {FirstLookup, AgentWork, SecondLookup, Check, Insert}
  }

  lemma PeerBeforeCheck(w: World, r: Role, peer: Peer, c: Choice, outputs: map<Role, Payload>, bus: seq<Event>)
    requires r !in outputs
    ensures var s := Stage(outputs, bus, Ready);
            if peer.Inserts? && peer.before in {FirstLookup, AgentWork, SecondLookup}
            then Finally(w, r, peer, c, s) == Stage(outputs[r := peer.output], bus, Returned(peer.output))
            else Finally(w, r, peer, c, s) == Finally(w, r, peer, c, Stage(outputs, bus, Unsaved(c.output)))
  {
    var s1 := Next(w, r, peer, c, Stage(outputs, bus, Ready));
    var s2 := Next(w, r, peer, c, s1);
    var s3 := Next(w, r, peer, c, s2);
    assert Finally(w, r, peer, c, s1) == Finally(w, r, peer, c, s2);
    assert Finally(w, r, peer, c, s2) == Finally(w, r, peer, c, s3);
  }

  lemma InsertEnds(w: World, r: Role, peer: Peer, c: Choice, outputs: map<Role, Payload>, bus: seq<Event>)
    requires r !in outputs
    ensures var t := Finally(w, r, peer, c, Stage(outputs, bus, Inserting(c.output)));
            if peer.Inserts? && peer.before == Insert
            then t == Stage(outputs[r := peer.output], bus, if c.raises then Closed else Returned(peer.output))
            else t == Stage(outputs[r := c.output], if c.published then bus + [RoleCompleted(r)] else bus,
                            Returned(c.output))
  {
    var s := Stage(outputs, bus, Inserting(c.output));
    var t := Next(w, r, peer, c, s);
    assert Finally(w, r, peer, c, s) == Finally(w, r, peer, c, t);
    if t.progress.Announcing? {
      AnnouncementEnds(w, r, peer, c, t);
    } else if t.progress.Reloading? {
      ReloadEnds(w, r, peer, c, t);
    }
  }

  /** Who stores the output of a role that has none, and what is announced. */
  lemma FreshAttempt(w: World, r: Role, peer: Peer, c: Choice, outputs: map<Role, Payload>, bus: seq<Event>)
    requires r !in outputs
    ensures var t := Finally(w, r, peer, c, Stage(outputs, bus, Ready));
            && t.outputs == outputs[r := if PeerWins(peer) then peer.output else c.output]
            && t.bus == (if !PeerWins(peer) && c.published then bus + [RoleCompleted(r)] else bus)
            && t.progress == (if PeerWins(peer) && peer.before == Insert && c.raises then Closed
                              else Returned(t.outputs[r]))
  {
    PeerBeforeCheck(w, r, peer, c, outputs, bus);
    var s := Stage(outputs, bus, Unsaved(c.output));
    var t := Next(w, r, peer, c, s);
    assert Finally(w, r, peer, c, s) == Finally(w, r, peer, c, t);
    if t.progress.Reloading? {
      ReloadEnds(w, r, peer, c, t);
    } else {
      InsertEnds(w, r, peer, c, outputs, bus);
    }
  }
}
