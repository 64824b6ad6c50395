/** Race statistics: one entry per player, updated pulse by pulse, and the choice of leader. */
module RaceScore {
  import opened Prelude

  type ClientId = nat

  datatype Goal = Score | Best25 | Best50 | Best100 | BestAll

  datatype Entry = Entry(
    score: nat, timeMs: nat, bestScore: nat, bestTime: Option<nat>, bestScoreTime: Option<nat>,
    bestGoalTime: Option<nat>, goalCompleted: bool, alive: bool, startedAt: Option<nat>)

  datatype Pulse = Pulse(score: nat, timeMs: nat, alive: bool, goalAll: bool, startedAt: Option<nat>)

  const FRESH: Entry := Entry(0, 0, 0, None, None, None, false, true, None)

  predicate Timed(goal: Goal) {
    goal != Score
  }

  /** Does a pulse meet the goal? A run of zero milliseconds never does. */
  predicate Hits(goal: Goal, score: nat, timeMs: nat, goalAll: bool) {
    && timeMs > 0
    && match goal
       case Score => false
       case Best25 => score >= 25
       case Best50 => score >= 50
       case Best100 => score >= 100
       case BestAll => goalAll
  }

  function Sooner(t: nat, best: Option<nat>): Option<nat> {
    if best.None? || t < best.value then Some(t) else best
  }

  function GoalProgress(goal: Goal, e: Entry, score: nat, timeMs: nat, goalAll: bool): Entry {
    if Hits(goal, score, timeMs, goalAll)
    then e.(goalCompleted := true, bestGoalTime := Sooner(timeMs, e.bestGoalTime))
    else e
  }

  function Shown(e: Entry, p: Pulse): Entry {
    e.(score := p.score, timeMs := p.timeMs, alive := p.alive,
    startedAt := if p.startedAt.Some? && p.startedAt.value > 0 then p.startedAt else e.startedAt)
  }

  function Ranked(e: Entry, score: nat, timeMs: nat): Entry {
    if score > e.bestScore then
      e.(bestScore := score, bestScoreTime := if timeMs > 0 then Some(timeMs) else None)
    else if score == e.bestScore && timeMs > 0 then e.(bestScoreTime := Sooner(timeMs, e.bestScoreTime))
    else e
  }

  function Survived(e: Entry, alive: bool, timeMs: nat): Entry {
    if !alive && (e.bestTime.None? || timeMs > e.bestTime.value) then e.(bestTime := Some(timeMs)) else e
  }

  function AfterPulse(goal: Goal, e: Entry, p: Pulse): Entry {
    GoalProgress(goal, Survived(Ranked(Shown(e, p), p.score, p.timeMs), p.alive, p.timeMs), p.score, p.timeMs, p.goalAll)
  }

  /** A new goal forgets the old one's times and looks at the current score only. */
  function AfterGoalChange(goal: Goal, e: Entry): Entry {
    GoalProgress(goal, e.(bestGoalTime := None, goalCompleted := false), e.score, e.timeMs, false)
  }

  function Fold(goal: Goal, ps: seq<Pulse>): Entry {
    if ps == [] then FRESH else AfterPulse(goal, Fold(goal, ps[..|ps| - 1]), Last(ps))
  }

  /** The server's update of one entry, statement by statement. */
  method ApplyPulse(goal: Goal, before: Entry, p: Pulse) returns (entry: Entry)
    ensures entry == AfterPulse(goal, before, p)
  {
    entry := before.(score := p.score, timeMs := p.timeMs, alive := p.alive);
    if p.startedAt.Some? && p.startedAt.value > 0 && entry.startedAt != p.startedAt {
      entry := entry.(startedAt := p.startedAt);
    }
    assert entry == Shown(before, p);
    hide Shown;
    entry := RankScore(entry, p.score, p.timeMs);
    if !p.alive && (entry.bestTime.None? || p.timeMs > entry.bestTime.value) {
      entry := entry.(bestTime := Some(p.timeMs));
    }
    entry := ApplyGoalProgress(goal, entry, p.score, p.timeMs, p.goalAll);
  }

  method RankScore(before: Entry, score: nat, timeMs: nat) returns (entry: Entry)
    ensures entry == Ranked(before, score, timeMs)
  {
    entry := before;
    if score > entry.bestScore {
      entry := entry.(bestScore := score, bestScoreTime := if timeMs > 0 then Some(timeMs) else None);
    } else if score == entry.bestScore && timeMs > 0 {
      if entry.bestScoreTime.None? || timeMs < entry.bestScoreTime.value {
        entry := entry.(bestScoreTime := Some(timeMs));
      }
    }
  }

  method ApplyGoalProgress(goal: Goal, before: Entry, score: nat, timeMs: nat, goalAll: bool) returns (entry: Entry)
    ensures entry == GoalProgress(goal, before, score, timeMs, goalAll)
  {
    entry := before;
    if !Timed(goal) {
      return;
    }
    var hit := match goal
      case BestAll => goalAll
      case Best25 => score >= 25
      case Best50 => score >= 50
      case Best100 => score >= 100
      case Score => false;
    if !hit || timeMs == 0 {
      return;
    }
    entry := entry.(goalCompleted := true);
    match entry.bestGoalTime {
      case None => entry := entry.(bestGoalTime := Some(timeMs));
      case Some(best) =>
        if timeMs < best {
          entry := entry.(bestGoalTime := Some(timeMs));
        }
    }
  }

  // ---------------------------------------------------------------- statistics, order-free

  /** `t` is the least positive time among the pulses selected by `f`, None when there is none. */
  ghost predicate LeastTime(t: Option<nat>, ps: seq<Pulse>, f: Pulse -> bool) {
    match t
    case None => forall p :: p in ps && f(p) ==> p.timeMs == 0
    case Some(best) =>
      && best > 0
      && (exists p :: p in ps && f(p) && p.timeMs == best)
      && (forall p :: p in ps && f(p) && p.timeMs > 0 ==> best <= p.timeMs)
  }

  ghost predicate BestScoreIs(best: nat, ps: seq<Pulse>) {
    && (forall p :: p in ps ==> p.score <= best)
    && (best == 0 || exists p :: p in ps && p.score == best)
  }

  ghost predicate LongestFinish(t: Option<nat>, ps: seq<Pulse>) {
    match t
    case None => forall p :: p in ps ==> p.alive
    case Some(best) =>
      && (exists p :: p in ps && !p.alive && p.timeMs == best)
      && (forall p :: p in ps && !p.alive ==> p.timeMs <= best)
  }

  /** What an entry records of the pulses `ps` of an attempt, of which `qs` were judged by its
      present goal, said without any order. */
  ghost predicate Records(e: Entry, goal: Goal, ps: seq<Pulse>, qs: seq<Pulse>) {
    && BestScoreIs(e.bestScore, ps)
    && LeastTime(e.bestScoreTime, ps, (p: Pulse) => p.score == e.bestScore)
    && LongestFinish(e.bestTime, ps)
    && LeastTime(e.bestGoalTime, qs, (p: Pulse) => Hits(goal, p.score, p.timeMs, p.goalAll))
    && (e.goalCompleted <==> e.bestGoalTime.Some?)
  }

  ghost predicate IsStats(e: Entry, goal: Goal, ps: seq<Pulse>) {
    Records(e, goal, ps, ps)
  }

  /** Where the goals lie: the last run that just misses and the first that just meets each of them. */
  lemma GoalBoundaries(t: nat)
    requires t > 0
    ensures Hits(Best25, 25, t, false) && !Hits(Best25, 24, t, true)
    ensures Hits(Best50, 50, t, false) && !Hits(Best50, 49, t, true)
    ensures Hits(Best100, 100, t, false) && !Hits(Best100, 99, t, true)
    ensures forall score: nat :: Hits(BestAll, score, t, true) && !Hits(BestAll, score, t, false) && !Hits(Score, score, t, true)
    ensures forall goal: Goal, score: nat, all: bool :: !Hits(goal, score, 0, all)
  {
  }

  /** More apples in the same time meet every goal that fewer meet. */
  lemma GoalsAreMonotone(goal: Goal, low: nat, high: nat, t: nat, goalAll: bool)
    requires low <= high && Hits(goal, low, t, goalAll)
    ensures Hits(goal, high, t, goalAll)
  {
  }

  lemma MemberOfLonger(ps: seq<Pulse>, p: Pulse)
    ensures forall q :: q in ps + [p] <==> q in ps || q == p
  {
  }

  lemma PulseRecords(goal: Goal, e: Entry, p: Pulse)
    ensures var n := AfterPulse(goal, e, p);
            && n.bestScore == Ranked(e, p.score, p.timeMs).bestScore
            && n.bestScoreTime == Ranked(e, p.score, p.timeMs).bestScoreTime
  {
  }

  lemma ScoreStep(goal: Goal, e: Entry, ps: seq<Pulse>, qs: seq<Pulse>, p: Pulse)
    requires Records(e, goal, ps, qs)
    ensures var n := AfterPulse(goal, e, p);
            && BestScoreIs(n.bestScore, ps + [p])
            && LeastTime(n.bestScoreTime, ps + [p], (q: Pulse) => q.score == n.bestScore)
  {
    PulseRecords(goal, e, p);
    hide AfterPulse;
    MemberOfLonger(ps, p);
  }

  lemma FinishStep(goal: Goal, e: Entry, ps: seq<Pulse>, qs: seq<Pulse>, p: Pulse)
    requires Records(e, goal, ps, qs)
    ensures LongestFinish(AfterPulse(goal, e, p).bestTime, ps + [p])
  {
    MemberOfLonger(ps, p);
  }

  lemma GoalStep(goal: Goal, e: Entry, ps: seq<Pulse>, qs: seq<Pulse>, p: Pulse)
    requires Records(e, goal, ps, qs)
    ensures var n := AfterPulse(goal, e, p);
            && LeastTime(n.bestGoalTime, qs + [p], (q: Pulse) => Hits(goal, q.score, q.timeMs, q.goalAll))
            && (n.goalCompleted <==> n.bestGoalTime.Some?)
  {
    MemberOfLonger(qs, p);
  }

  /** One more pulse is one more pulse on record. */
  lemma PulseIsRecorded(goal: Goal, e: Entry, ps: seq<Pulse>, qs: seq<Pulse>, p: Pulse)
    requires Records(e, goal, ps, qs)
    ensures Records(AfterPulse(goal, e, p), goal, ps + [p], qs + [p])
  {
    ScoreStep(goal, e, ps, qs, p);
    FinishStep(goal, e, ps, qs, p);
    GoalStep(goal, e, ps, qs, p);
    hide AfterPulse, BestScoreIs, LeastTime, LongestFinish, Hits;
  }

  /** What a new goal looks at: the score and time on show, without a claim of all apples. */
  function Standing(e: Entry): Pulse {
    Pulse(e.score, e.timeMs, e.alive, false, e.startedAt)
  }

  /** A new goal judges what is on show, and keeps the rest of the record. */
  lemma GoalIsRejudged(former: Goal, goal: Goal, e: Entry, ps: seq<Pulse>, qs: seq<Pulse>)
    requires Records(e, former, ps, qs)
    ensures Records(AfterGoalChange(goal, e), goal, ps, [Standing(e)])
  {
    var n := AfterGoalChange(goal, e);
    assert n.bestScore == e.bestScore && n.bestScoreTime == e.bestScoreTime && n.bestTime == e.bestTime;
    assert LeastTime(n.bestGoalTime, [Standing(e)], (p: Pulse) => Hits(goal, p.score, p.timeMs, p.goalAll)) by {
      assert forall p :: p in [Standing(e)] <==> p == Standing(e);
      hide BestScoreIs, LongestFinish;
    }
    hide LeastTime, LongestFinish, BestScoreIs;
  }

  lemma FreshRecords(goal: Goal)
    ensures Records(FRESH, goal, [], []) && Shows(FRESH, [])
  {
  }

  // ---------------------------------------------------------------- what is on show

  /** The start last reported, if any was; a start of zero is none. */
  function LastStart(ps: seq<Pulse>): Option<nat>
    decreases |ps|
  {
    if ps == [] then None
    else if Last(ps).startedAt.Some? && Last(ps).startedAt.value > 0 then Last(ps).startedAt
    else LastStart(ps[..|ps| - 1])
  }

  /** The entry shows the last of these pulses: its score, its time and whether the run goes on. */
  predicate Shows(e: Entry, ps: seq<Pulse>) {
    && e.startedAt == LastStart(ps)
    && if ps == [] then e.alive && e.score == 0 && e.timeMs == 0
       else e.score == Last(ps).score && e.timeMs == Last(ps).timeMs && e.alive == Last(ps).alive
  }

  lemma PulseIsShown(goal: Goal, e: Entry, ps: seq<Pulse>, p: Pulse)
    requires Shows(e, ps)
    ensures Shows(AfterPulse(goal, e, p), ps + [p])
  {
    assert (ps + [p])[..|ps|] == ps;
  }

  lemma GoalChangeShowsTheSame(goal: Goal, e: Entry, ps: seq<Pulse>)
    requires Shows(e, ps)
    ensures Shows(AfterGoalChange(goal, e), ps)
  {
  }

  /** An entry shows the last of the pulses it was folded from. */
  lemma {:induction false} FoldShowsTheLast(goal: Goal, ps: seq<Pulse>)
    ensures Shows(Fold(goal, ps), ps)
    decreases |ps|
  {
    if ps != [] {
      FoldShowsTheLast(goal, ps[..|ps| - 1]);
      PulseIsShown(goal, Fold(goal, ps[..|ps| - 1]), ps[..|ps| - 1], Last(ps));
      assert ps == ps[..|ps| - 1] + [Last(ps)];
    }
  }

  /** Whatever the order of the pulses, the entry holds the maximum score, the least time at
      that score, the longest finished run and the least time of a goal hit. */
  lemma {:induction false} StatsAreOrderFree(goal: Goal, ps: seq<Pulse>)
    ensures IsStats(Fold(goal, ps), goal, ps)
    decreases |ps|
  {
    if ps != [] {
      var front := ps[..|ps| - 1];
      StatsAreOrderFree(goal, front);
      PulseIsRecorded(goal, Fold(goal, front), front, front, Last(ps));
      assert ps == front + [Last(ps)];
    }
  }

  lemma LeastTimeUnique(a: Option<nat>, b: Option<nat>, ps: seq<Pulse>, qs: seq<Pulse>, f: Pulse -> bool)
    requires (forall p :: p in ps <==> p in qs) && LeastTime(a, ps, f) && LeastTime(b, qs, f)
    ensures a == b
  {
  }

  lemma SameStats(e: Entry, f: Entry, goal: Goal, ps: seq<Pulse>, qs: seq<Pulse>)
    requires (forall p :: p in ps <==> p in qs) && IsStats(e, goal, ps) && IsStats(f, goal, qs)
    ensures e.bestScore == f.bestScore && e.bestScoreTime == f.bestScoreTime && e.bestTime == f.bestTime
    ensures e.bestGoalTime == f.bestGoalTime && e.goalCompleted == f.goalCompleted
  {
    hide LeastTime;
    LeastTimeUnique(e.bestGoalTime, f.bestGoalTime, ps, qs, (p: Pulse) => Hits(goal, p.score, p.timeMs, p.goalAll));
    assert e.bestScore == f.bestScore;
    LeastTimeUnique(e.bestScoreTime, f.bestScoreTime, ps, qs, (p: Pulse) => p.score == e.bestScore);
  }

  /** Two orders, or repetitions, of the same pulses leave the same records. */
  lemma SamePulsesSameRecords(goal: Goal, ps: seq<Pulse>, qs: seq<Pulse>)
    requires SetOf(ps) == SetOf(qs)
    ensures var e, f := Fold(goal, ps), Fold(goal, qs);
            && e.bestScore == f.bestScore && e.bestScoreTime == f.bestScoreTime && e.bestTime == f.bestTime
            && e.bestGoalTime == f.bestGoalTime && e.goalCompleted == f.goalCompleted
  {
    StatsAreOrderFree(goal, ps);
    StatsAreOrderFree(goal, qs);
    hide Fold, IsStats;
    assert forall p :: (p in ps <==> p in SetOf(ps)) && (p in qs <==> p in SetOf(qs));
    SameStats(Fold(goal, ps), Fold(goal, qs), goal, ps, qs);
  }

  // ---------------------------------------------------------------- the leader

  predicate Scored(e: Entry) {
    e.bestScore != 0 || e.score != 0
  }

  predicate Finished(e: Entry) {
    e.goalCompleted && e.bestGoalTime.Some? && e.bestGoalTime.value > 0
  }

  function RunTime(e: Entry): nat {
    e.bestTime.GetOr(e.timeMs)
  }

  /** Higher best score, then faster time to it. */
  predicate OutScores(a: Entry, b: Entry) {
    a.bestScore > b.bestScore
    || (a.bestScore == b.bestScore && a.bestScoreTime.Some? && (b.bestScoreTime.None? || a.bestScoreTime.value < b.bestScoreTime.value))
  }

  /** Higher best score, then longer survival. */
  predicate OutLasts(a: Entry, b: Entry) {
    a.bestScore > b.bestScore || (a.bestScore == b.bestScore && RunTime(a) > RunTime(b))
  }

  predicate FinishesBefore(a: Entry, b: Entry) {
    a.bestGoalTime.Some? && b.bestGoalTime.Some? && a.bestGoalTime.value < b.bestGoalTime.value
  }

  /** `id` names an eligible entry that no eligible entry beats, or nobody is eligible. */
  ghost predicate Unbeaten(id: Option<ClientId>, scores: map<ClientId, Entry>, eligible: Entry -> bool, beats: (Entry, Entry) -> bool) {
    match id
    case None => forall k :: k in scores ==> !eligible(scores[k])
    case Some(best) =>
      && best in scores && eligible(scores[best])
      && forall k :: k in scores && eligible(scores[k]) ==> !beats(scores[k], scores[best])
  }

  /** Who leads: under a timed goal the fastest finisher, or failing any finisher the top
      scorer; under the score goal the top scorer by survival. */
  ghost predicate IsLeader(id: Option<ClientId>, goal: Goal, scores: map<ClientId, Entry>) {
    if !Timed(goal) then Unbeaten(id, scores, Scored, OutLasts)
    else if exists k :: k in scores && Finished(scores[k]) then Unbeaten(id, scores, Finished, FinishesBefore)
    else Unbeaten(id, scores, Scored, OutScores)
  }

  method TopScorer(scores: map<ClientId, Entry>) returns (leader: Option<ClientId>)
    ensures Unbeaten(leader, scores, Scored, OutScores)
  {
    leader := None;
    var rest := scores.Keys;
    while rest != {}
      invariant rest <= scores.Keys
      invariant leader.Some? ==> leader.value in scores.Keys - rest && Scored(scores[leader.value])
      invariant forall k :: k in scores.Keys - rest && Scored(scores[k]) ==> leader.Some? && !OutScores(scores[k], scores[leader.value])
      decreases rest
    {
      var id :| id in rest;
      rest := rest - {id};
      if Scored(scores[id]) && (leader.None? || OutScores(scores[id], scores[leader.value])) {
        leader := Some(id);
      }
    }
  }

  /** The leader, for any order in which the server visits its score table. */
  method RaceLeader(goal: Goal, scores: map<ClientId, Entry>) returns (leader: Option<ClientId>)
    ensures IsLeader(leader, goal, scores)
  {
    if Timed(goal) {
      leader := FastestFinisher(scores);
      if leader.None? {
        leader := TopScorer(scores);
      }
    } else {
      leader := LongestSurvivor(scores);
    }
  }

  method FastestFinisher(scores: map<ClientId, Entry>) returns (leader: Option<ClientId>)
    ensures Unbeaten(leader, scores, Finished, FinishesBefore)
  {
    leader := None;
    var bestTime: Option<nat> := None;
    var rest := scores.Keys;
    while rest != {}
      invariant rest <= scores.Keys
      invariant leader.Some? <==> bestTime.Some?
      invariant leader.Some? ==> leader.value in scores && Finished(scores[leader.value]) && scores[leader.value].bestGoalTime == bestTime
      invariant forall k :: k in scores.Keys - rest && Finished(scores[k]) ==> bestTime.Some? && bestTime.value <= scores[k].bestGoalTime.value
      decreases rest
    {
      var id :| id in rest;
      rest := rest - {id};
      var e := scores[id];
      if e.bestGoalTime.None? || e.bestGoalTime.value == 0 || !e.goalCompleted {
        continue;
      }
      if bestTime.None? || e.bestGoalTime.value < bestTime.value {
        bestTime, leader := e.bestGoalTime, Some(id);
      }
    }
  }

  method LongestSurvivor(scores: map<ClientId, Entry>) returns (leader: Option<ClientId>)
    ensures Unbeaten(leader, scores, Scored, OutLasts)
  {
    leader := None;
    var rest := scores.Keys;
    while rest != {}
      invariant rest <= scores.Keys
      invariant leader.Some? ==> leader.value in scores.Keys - rest && Scored(scores[leader.value])
      invariant forall k :: k in scores.Keys - rest && Scored(scores[k]) ==> leader.Some? && !OutLasts(scores[k], scores[leader.value])
      decreases rest
    {
      var id :| id in rest;
      rest := rest - {id};
      if Scored(scores[id]) && (leader.None? || OutLasts(scores[id], scores[leader.value])) {
        leader := Some(id);
      }
    }
  }

  /** Under a timed goal, nobody who missed the goal can lead while someone has met it. */
  lemma FinisherOutranksScorer(goal: Goal, scores: map<ClientId, Entry>, id: ClientId, k: ClientId)
    requires Timed(goal) && IsLeader(Some(id), goal, scores) && k in scores && Finished(scores[k])
    ensures id in scores && Finished(scores[id]) && scores[id].bestGoalTime.value <= scores[k].bestGoalTime.value
  {
    assert !FinishesBefore(scores[k], scores[id]);
  }

  /** Whoever leads a race without a time limit has the highest best score, and among those the longest
      run; in a timed race nobody has finished, the highest best score reached in the least time. */
  lemma LeaderHasTheTopScore(id: ClientId, goal: Goal, scores: map<ClientId, Entry>)
    requires IsLeader(Some(id), goal, scores)
    requires goal != Score ==> forall k :: k in scores ==> !(scores[k].goalCompleted && scores[k].bestGoalTime.Some? && scores[k].bestGoalTime.value > 0)
    ensures id in scores && (scores[id].bestScore > 0 || scores[id].score > 0)
    ensures forall k :: k in scores && (scores[k].bestScore > 0 || scores[k].score > 0) ==>
              && scores[k].bestScore <= scores[id].bestScore
              && (scores[k].bestScore == scores[id].bestScore ==>
                    if goal == Score then scores[k].bestTime.GetOr(scores[k].timeMs) <= scores[id].bestTime.GetOr(scores[id].timeMs)
                    else scores[k].bestScoreTime.Some? ==>
                           scores[id].bestScoreTime.Some? && scores[id].bestScoreTime.value <= scores[k].bestScoreTime.value)
  {
  }

  /** Whoever leads a timed race that somebody has finished has finished it, and nobody sooner. */
  lemma LeaderFinishedFirst(id: ClientId, goal: Goal, scores: map<ClientId, Entry>, k: ClientId)
    requires IsLeader(Some(id), goal, scores) && goal != Score && k in scores
    requires scores[k].goalCompleted && scores[k].bestGoalTime.Some? && scores[k].bestGoalTime.value > 0
    ensures id in scores && scores[id].goalCompleted && scores[id].bestGoalTime.Some?
    ensures scores[id].bestGoalTime.value <= scores[k].bestGoalTime.value
  {
    assert Finished(scores[k]);
  }
}
