/**
 * What cloud is told: transitions buffered for the next report, and the rules that keep them from being
 * repeated (step, emit, emitBlock, emitError and the event part of report in internal/agent/agent.go).
 */
module Events {
  import opened Guards
  import opened Wrappers
  import opened CloudApi

  /** A step of the work toward one generation. */
  datatype Raised = Raised(reason: Reason, generation: int)

  /** How the generations passed to `Step` went: whether they ever decreased, and the last of them. */
  datatype Pace = NotStarted | Pace(ordered: bool, top: int)

  function Forward(p: Pace, generation: int): Pace {
    match p
    case NotStarted => Pace(true, generation)
    case Pace(ordered, top) => Pace(ordered && top <= generation, generation)
  }

  /** Generations have not decreased so far and stay at or below `generation`. */
  predicate OnTime(p: Pace, generation: int) {
    p.Pace? ==> p.ordered && p.top <= generation
  }

  function PaceOf(asked: seq<Raised>): Pace {
    if asked == [] then NotStarted else Forward(PaceOf(asked[..|asked| - 1]), asked[|asked| - 1].generation)
  }

  // --- the steps asked for, and which of them are told

  /** The latest generation asked for, per reason. */
  function MemoryOf(asked: seq<Raised>): map<Reason, int> {
    if asked == [] then map[]
    else
      var last := asked[|asked| - 1];
      MemoryOf(asked[..|asked| - 1])[last.reason := last.generation]
  }

  /** After `asked`, this step is told: its reason was last asked for with another generation, or never. */
  predicate News(asked: seq<Raised>, a: Raised) {
    !(a.reason in MemoryOf(asked) && MemoryOf(asked)[a.reason] == a.generation)
  }

  /** The steps told. */
  function ToldOf(asked: seq<Raised>): seq<Raised> {
    if asked == [] then []
    else
      var before, last := asked[..|asked| - 1], asked[|asked| - 1];
      ToldOf(before) + (if News(before, last) then [last] else [])
  }

  /** A step is asked for, then its reason with another generation, then the step again. */
  ghost predicate Returns(asked: seq<Raised>) {
    exists a, b, c :: ReturnsAt(asked, a, b, c)
  }

  predicate ReturnsAt(asked: seq<Raised>, a: int, b: int, c: int) {
    && 0 <= a < b < c < |asked|
    && asked[a] == asked[c]
    && asked[b].reason == asked[a].reason && asked[b].generation != asked[a].generation
  }

  predicate Repeats(told: seq<Raised>) {
    exists i, j :: 0 <= i < j < |told| && told[i] == told[j]
  }

  lemma {:induction false} LastAsked(asked: seq<Raised>, r: Reason) returns (k: nat)
    requires r in MemoryOf(asked)
    ensures k < |asked| && asked[k] == Raised(r, MemoryOf(asked)[r])
    ensures forall l :: k < l < |asked| ==> asked[l].reason != r
  {
    var n := |asked| - 1;
    if asked[n].reason == r {
      k := n;
    } else {
      k := LastAsked(asked[..n], r);
      assert asked[..n][k] == asked[k];
      forall l | k < l < |asked| ensures asked[l].reason != r {
        if l < n {
          assert asked[..n][l] == asked[l];
        }
      }
    }
  }

  lemma {:induction false} AskedIsRemembered(asked: seq<Raised>, k: nat)
    requires k < |asked|
    ensures asked[k].reason in MemoryOf(asked)
  {
    var n := |asked| - 1;
    if k < n {
      AskedIsRemembered(asked[..n], k);
      assert asked[..n][k] == asked[k];
    }
  }

  lemma {:induction false} ToldGrows(asked: seq<Raised>, m: nat, n: nat)
    requires m <= n <= |asked|
    ensures ToldOf(asked[..m]) <= ToldOf(asked[..n])
    decreases n
  {
    if m < n {
      ToldGrows(asked, m, n - 1);
      assert asked[..n][..n - 1] == asked[..n - 1];
    }
  }

  /** The place of a told step among all of them. */
  lemma {:induction false} ToldAt(asked: seq<Raised>, n: nat)
    requires n < |asked| && News(asked[..n], asked[n])
    ensures var i := |ToldOf(asked[..n])|; i < |ToldOf(asked)| && ToldOf(asked)[i] == asked[n]
  {
    assert asked[..n + 1][..n] == asked[..n] && asked[..|asked|] == asked;
    ToldGrows(asked, n + 1, |asked|);
  }

  lemma {:induction false} ToldFrom(asked: seq<Raised>, i: nat) returns (n: nat)
    requires i < |ToldOf(asked)|
    ensures n < |asked| && asked[n] == ToldOf(asked)[i]
    ensures News(asked[..n], asked[n]) && |ToldOf(asked[..n])| == i
  {
    var k := |asked| - 1;
    if i < |ToldOf(asked[..k])| {
      n := ToldFrom(asked[..k], i);
      assert asked[..k][..n] == asked[..n];
    } else {
      n := k;
    }
  }

  /** Asked for at `c` and with another generation at `b` before: told in between, or at `c`. */
  lemma {:induction false} ToldSince(asked: seq<Raised>, b: int, c: nat) returns (n: nat)
    requires b < c < |asked|
    requires b >= 0 ==> asked[b].reason == asked[c].reason && asked[b].generation != asked[c].generation
    ensures b < n <= c && asked[n] == asked[c] && News(asked[..n], asked[n])
    decreases c
  {
    if News(asked[..c], asked[c]) {
      n := c;
    } else {
      var k := LastAsked(asked[..c], asked[c].reason);
      assert asked[..c][k] == asked[k];
      if b >= 0 {
        assert asked[..c][b] == asked[b];
      }
      n := ToldSince(asked, b, k);
    }
  }

  /** A step is told twice if and only if what is asked for returns to it from another generation. */
  lemma {:induction false} RepeatsIffReturns(asked: seq<Raised>)
    ensures Repeats(ToldOf(asked)) <==> Returns(asked)
  {
    if Repeats(ToldOf(asked)) {
      var i, j :| 0 <= i < j < |ToldOf(asked)| && ToldOf(asked)[i] == ToldOf(asked)[j];
      RepeatReturns(asked, i, j);
    }
    if Returns(asked) {
      var a, b, c :| ReturnsAt(asked, a, b, c);
      var p := ToldSince(asked, -1, a);
      var q := ToldSince(asked, b, c);
      ToldAt(asked, p);
      ToldAt(asked, q);
      assert asked[..q][..p] == asked[..p] && asked[..q][p] == asked[p];
      ToldAt(asked[..q], p);
      assert ToldOf(asked)[|ToldOf(asked[..p])|] == ToldOf(asked)[|ToldOf(asked[..q])|];
    }
  }

  lemma {:induction false} RepeatReturns(asked: seq<Raised>, i: nat, j: nat)
    requires i < j < |ToldOf(asked)| && ToldOf(asked)[i] == ToldOf(asked)[j]
    ensures Returns(asked)
  {
    var p := ToldFrom(asked, i);
    var q := ToldFrom(asked, j);
    if q <= p {
      ToldGrows(asked, q, p);
    }
    assert asked[..q][p] == asked[p];
    AskedIsRemembered(asked[..q], p);
    var m := LastAsked(asked[..q], asked[q].reason);
    assert asked[..q][m] == asked[m];
    assert ReturnsAt(asked, p, m, q);
  }

  lemma {:induction false} PaceIsOrder(asked: seq<Raised>)
    requires asked != [] && PaceOf(asked).ordered
    ensures PaceOf(asked).top == asked[|asked| - 1].generation
    ensures forall i :: 0 <= i < |asked| ==> asked[i].generation <= PaceOf(asked).top
    ensures !Returns(asked)
  {
    var n := |asked| - 1;
    if n > 0 {
      PaceIsOrder(asked[..n]);
      forall i | 0 <= i < n ensures asked[i].generation <= PaceOf(asked).top {
        assert asked[..n][i] == asked[i];
      }
      if Returns(asked) {
        var a, b, c :| ReturnsAt(asked, a, b, c);
        assert asked[..n][a] == asked[a] && asked[..n][b] == asked[b];
        if c < n {
          assert ReturnsAt(asked[..n], a, b, c);
        } else {
          BetweenInOrder(asked[..n], a, b);
        }
      }
    }
  }

  lemma {:induction false} BetweenInOrder(asked: seq<Raised>, a: nat, b: nat)
    requires asked != [] && PaceOf(asked).ordered && a <= b < |asked|
    ensures asked[a].generation <= asked[b].generation
  {
    var n := |asked| - 1;
    if n > 0 {
      assert PaceOf(asked[..n]).ordered;
      if b < n {
        BetweenInOrder(asked[..n], a, b);
      } else if a < n {
        BetweenInOrder(asked[..n], a, n - 1);
      }
    }
  }

  /** What an event log has told and been asked for: nothing is ever taken back from it. */
  datatype Trail = Trail(emitted: seq<Event>, delivered: seq<Event>, asked: seq<Raised>)

  predicate Prolongs(t: Trail, t': Trail) {
    t.emitted <= t'.emitted && t.delivered <= t'.delivered && t.asked <= t'.asked
  }

  class EventLog {
    var pendingEvents: seq<Event>
    var emittedSteps: map<Reason, int>
    var curBlockReason: Option<Reason>
    var lastErrMsg: Option<string>

    ghost var emitted: seq<Event>      // every event so far
    ghost var delivered: seq<Event>    // the events of successful reports, in order
    ghost var asked: seq<Raised>       // every step asked for
    ghost var steps: seq<Raised>       // every step told
    ghost var pace: Pace

    ghost const turn: Bookmark<Trail>
    ghost const pass: Bookmark<Trail>
    ghost const restore: Bookmark<Trail>

    /** `Sound`, to be opened with `OpenValid` only. */
    ghost predicate Valid()
      reads this, turn, pass, restore
    {
      forall k {:trigger EventsGuard(k)} :: EventsGuard(k) ==> Sound()
    }

    lemma OpenValid()
      requires Valid()
      ensures Sound()
    {
      assert EventsGuard(0);
    }

    ghost function Story(): Trail
      reads this
    {
      Trail(emitted, delivered, asked)
    }

    /**
     * Every event emitted was delivered or is still buffered, in order; what is told of the steps follows from
     * what was asked for; and the story so far goes on from the bookmarks.
     */
    ghost predicate Sound()
      reads this, turn, pass, restore
    {
      && delivered + pendingEvents == emitted
      && steps == ToldOf(asked) && emittedSteps == MemoryOf(asked) && pace == PaceOf(asked)
      && turn != pass && pass != restore && restore != turn
      && Prolongs(turn.kept, Story()) && Prolongs(pass.kept, Story()) && Prolongs(restore.kept, Story())
    }

    constructor ()
      ensures Valid() && emitted == [] && delivered == [] && steps == [] && asked == []
      ensures pendingEvents == [] && emittedSteps == map[] && curBlockReason.None? && lastErrMsg.None?
      ensures pace.NotStarted? && fresh(turn) && fresh(pass) && fresh(restore)
    {
      turn := new Bookmark(Trail([], [], []));
      pass := new Bookmark(Trail([], [], []));
      restore := new Bookmark(Trail([], [], []));
      pendingEvents, emittedSteps, curBlockReason, lastErrMsg := [], map[], None, None;
      emitted, delivered, asked, steps, pace := [], [], [], [], NotStarted;
    }

    /** Sets a bookmark. */
    ghost method Remember(mark: Bookmark<Trail>)
      requires Valid() && mark in {turn, pass, restore}
      modifies mark
      ensures Valid() && mark.kept == Story() && turn != pass && pass != restore && restore != turn
    {
      OpenValid();
      mark.kept := Story();
    }

    /** Buffers a transition for the next report. */
    method Emit(level: Level, component: Component, reason: Reason, detail: string)
      requires Valid()
      modifies this
      ensures Valid()
      ensures emitted == old(emitted) + [Event(level, component, reason, detail)]
      ensures pendingEvents == old(pendingEvents) + [Event(level, component, reason, detail)]
      ensures unchanged(`emittedSteps, `curBlockReason, `lastErrMsg, `delivered, `asked, `steps, `pace)
    {
      OpenValid();
      var e := Event(level, component, reason, detail);
      pendingEvents := pendingEvents + [e];
      emitted := emitted + [e];
    }

    /** How a database operation went. */
    method EmitOutcome(ok: bool, good: Level, done: Reason, bad: Level, failed: Reason)
      requires Valid()
      modifies this
      ensures Valid()
      ensures emitted == old(emitted) + [if ok then Event(good, Database, done, "")
                                         else Event(bad, Database, failed, "")]
      ensures unchanged(`emittedSteps, `curBlockReason, `lastErrMsg, `delivered, `asked, `steps, `pace)
    {
      if ok {
        Emit(good, Database, done, "");
      } else {
        Emit(bad, Database, failed, "");
      }
    }

    /** A progress event, once per generation. */
    method Step(generation: int, component: Component, reason: Reason)
      requires Valid()
      modifies this
      ensures Valid()
      ensures emittedSteps == old(emittedSteps)[reason := generation]
      ensures old(reason in emittedSteps && emittedSteps[reason] == generation) ==>
                steps == old(steps) && emitted == old(emitted)
      ensures !old(reason in emittedSteps && emittedSteps[reason] == generation) ==>
                && steps == old(steps) + [Raised(reason, generation)]
                && emitted == old(emitted) + [Event(Info, component, reason, "")]
      ensures asked == old(asked) + [Raised(reason, generation)] && pace == Forward(old(pace), generation)
      ensures unchanged(`curBlockReason, `lastErrMsg, `delivered)
    {
      OpenValid();
      asked := asked + [Raised(reason, generation)];
      pace := Forward(pace, generation);
      assert asked[..|asked| - 1] == old(asked);
      if reason in emittedSteps && emittedSteps[reason] == generation {
        return;
      }
      emittedSteps := emittedSteps[reason := generation];
      steps := steps + [Raised(reason, generation)];
      var e := Event(Info, component, reason, "");
      pendingEvents := pendingEvents + [e];
      emitted := emitted + [e];
    }

    /** A block event, once per distinct reason. */
    method EmitBlock(level: Level, component: Component, reason: Reason)
      requires Valid()
      modifies this
      ensures Valid() && curBlockReason == Some(reason)
      ensures emitted == if old(curBlockReason) == Some(reason) then old(emitted)
                         else old(emitted) + [Event(level, component, reason, "")]
      ensures unchanged(`emittedSteps, `lastErrMsg, `delivered, `asked, `steps, `pace)
    {
      OpenValid();
      if curBlockReason == Some(reason) {
        return;
      }
      curBlockReason := Some(reason);
      Emit(level, component, reason, "");
    }

    method ClearBlock()
      requires Valid()
      modifies this`curBlockReason
      ensures Valid() && curBlockReason.None?
    {
      OpenValid();
      curBlockReason := None;
    }

    /** A reconcile error, unless its message is the same again. */
    method EmitError(message: string)
      requires Valid()
      modifies this
      ensures Valid() && lastErrMsg == Some(message)
      ensures emitted == if old(lastErrMsg) == Some(message) then old(emitted)
                         else old(emitted) + [Event(ErrorLevel, NoComponent, ReconcileError, message)]
      ensures unchanged(`emittedSteps, `curBlockReason, `delivered, `asked, `steps, `pace)
    {
      OpenValid();
      if lastErrMsg == Some(message) {
        return;
      }
      lastErrMsg := Some(message);
      Emit(ErrorLevel, NoComponent, ReconcileError, message);
    }

    method ClearError()
      requires Valid()
      modifies this`lastErrMsg
      ensures Valid() && lastErrMsg.None?
    {
      OpenValid();
      lastErrMsg := None;
    }

    /** Drains the buffered events into a report; they are queued again if it fails. */
    method Push(generation: int, conditions: seq<Condition>, services: seq<ServiceStatus>)
      requires Valid()
      modifies this
      ensures Valid() && emitted == old(emitted)
      ensures (pendingEvents == [] && delivered == emitted)
           || (pendingEvents == old(pendingEvents) && delivered == old(delivered))
      ensures unchanged(`emittedSteps, `curBlockReason, `lastErrMsg, `asked, `steps, `pace)
    {
      OpenValid();
      var events := pendingEvents;
      pendingEvents := [];
      var ok := ReportStatus(generation, conditions, services, events);
      if ok {
        delivered := delivered + events;
      } else {
        pendingEvents := events + pendingEvents;
      }
    }

    /** A step was told twice if and only if what was asked for returned to it from another generation. */
    lemma RepeatsExactly()
      requires Valid()
      ensures Repeats(steps) <==> Returns(asked)
    {
      OpenValid();
      RepeatsIffReturns(asked);
    }

    /** As long as generations never decreased, every step was told at most once per generation. */
    lemma StepsAreDistinct(i: nat, j: nat)
      requires Valid() && (pace.Pace? ==> pace.ordered) && i < j < |steps|
      ensures steps[i] != steps[j]
    {
      OpenValid();
      if asked != [] {
        PaceIsOrder(asked);
      }
      RepeatsIffReturns(asked);
    }
  }

  /**
   * With generations that do go back, a step can be raised twice: the memory keeps one generation per reason,
   * so raising it for 2, 1 and 2 again emits three events.
   */
  method RepeatAfterGoingBack(reason: Reason) returns (log: EventLog)
    ensures fresh(log) && log.Valid() && log.pace == Pace(false, 2)
    ensures log.steps == [Raised(reason, 2), Raised(reason, 1), Raised(reason, 2)]
  {
    log := new EventLog();
    log.Step(2, NoComponent, reason);
    log.Step(1, NoComponent, reason);
    log.Step(2, NoComponent, reason);
  }
}
