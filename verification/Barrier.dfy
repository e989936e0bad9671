/** The workers of one transfer: a closed channel of jobs, a count of workers that have
    started, and a release that opens once that count is down to zero. */
module Barrier {
  /** `adaptiveFileConcurrency`. */
  function Concurrency(files: nat): (workers: nat)
    ensures workers <= files && (files > 0 ==> workers > 0)
    ensures workers == 4 <==> files >= 4
    ensures workers <= 1 || workers == 4
  {
    if files == 0 then 0 else if files < 4 then 1 else 4
  }

  /** Where a worker is: before its first job, holding it at the barrier, on a file,
      about to take another, or gone. */
  datatype Place = Fresh | AtBarrier | OnFile | Ready | Gone

  /** `taken` records which jobs each worker has had. */
  datatype State = State(
    jobs: nat,
    next: nat,
    started: int,
    released: bool,
    places: seq<Place>,
    taken: seq<seq<nat>>)

  datatype Move = Take(w: nat) | Release | Pass(w: nat) | Again(w: nat) | Quit(w: nat)

  predicate Enabled(s: State, m: Move) {
    match m
    case Take(w) => w < |s.places| == |s.taken| && (s.places[w].Fresh? || s.places[w].Ready?)
    case Release => s.started == 0 && !s.released
    case Pass(w) => w < |s.places| && s.places[w].AtBarrier? && s.released
    case Again(w) => w < |s.places| && s.places[w].OnFile?
    case Quit(w) => w < |s.places| && s.places[w].OnFile?
  }

  function Next(s: State, m: Move): State {
    if !Enabled(s, m) then s
    else
      match m
      case Take(w) =>
        if s.next >= s.jobs then s.(places := s.places[w := Gone])
        else
          var first := s.places[w].Fresh?;
          s.(next := s.next + 1, taken := s.taken[w := s.taken[w] + [s.next]],
             started := if first then s.started - 1 else s.started,
             places := s.places[w := if first then AtBarrier else OnFile])
      case Release => s.(released := true)
      case Pass(w) => s.(places := s.places[w := OnFile])
      case Again(w) => s.(places := s.places[w := Ready])
      case Quit(w) => s.(places := s.places[w := Gone])
  }

  function Start(jobs: nat, workers: nat): State {
    State(jobs, 0, workers, false, seq(workers, _ => Fresh), seq(workers, _ => []))
  }

  function After(s: State, moves: seq<Move>): State
    decreases |moves|
  {
    if moves == [] then s else After(Next(s, moves[0]), moves[1..])
  }

  // ---- the invariant ----

  function Waiting(places: seq<Place>): nat {
    if places == [] then 0 else (if places[0].AtBarrier? then 1 else 0) + Waiting(places[1..])
  }

  lemma {:induction false} WaitingUpdate(places: seq<Place>, w: nat, p: Place)
    requires w < |places|
    ensures Waiting(places[w := p])
         == Waiting(places) - (if places[w].AtBarrier? then 1 else 0) + (if p.AtBarrier? then 1 else 0)
  {
    if w > 0 {
      WaitingUpdate(places[1..], w - 1, p);
      assert places[w := p][1..] == places[1..][w - 1 := p];
    } else {
      assert places[w := p][1..] == places[1..];
    }
  }

  lemma {:induction false} WaitingBounds(places: seq<Place>)
    ensures Waiting(places) <= |places|
    ensures Waiting(places) == |places| <==> forall w | 0 <= w < |places| :: places[w].AtBarrier?
  {
    if places != [] {
      WaitingBounds(places[1..]);
      assert forall w | 0 < w < |places| :: places[w] == places[1..][w - 1];
    }
  }

  /** Until the release every job that is out is the one job of a waiting worker. */
  ghost predicate Gathering(s: State) {
    && |s.places| == |s.taken|
    && s.started == |s.places| - s.next
    && s.next == Waiting(s.places)
    && forall w | 0 <= w < |s.places| ::
         && !s.places[w].OnFile? && !s.places[w].Ready?
         && |s.taken[w]| == (if s.places[w].AtBarrier? then 1 else 0)
         && (s.places[w].Gone? ==> s.next >= s.jobs)
  }

  ghost predicate IsTaken(taken: seq<seq<nat>>, job: nat) { exists w :: 0 <= w < |taken| && job in taken[w] }

  /** No job is taken twice, and none below `next` is missed. */
  ghost predicate Dealt(next: nat, taken: seq<seq<nat>>) {
    && (forall w, a | 0 <= w < |taken| && 0 <= a < |taken[w]| :: taken[w][a] < next)
    && (forall w, a, v, b | 0 <= w < |taken| && 0 <= a < |taken[w]| && 0 <= v < |taken| && 0 <= b < |taken[v]| ::
          taken[w][a] == taken[v][b] ==> w == v && a == b)
    && (forall j: nat | j < next :: IsTaken(taken, j))
  }

  ghost predicate Inv(s: State) {
    && |s.places| == |s.taken| && s.next <= s.jobs
    && Dealt(s.next, s.taken)
    && (if s.released then s.started == 0 && |s.places| <= s.jobs && forall w | 0 <= w < |s.places| :: |s.taken[w]| > 0 && !s.places[w].Fresh?
        else Gathering(s))
  }

  lemma TakeKeepsDealt(next: nat, taken: seq<seq<nat>>, w: nat)
    requires Dealt(next, taken) && w < |taken|
    ensures Dealt(next + 1, taken[w := taken[w] + [next]])
  {
    var taken' := taken[w := taken[w] + [next]];
    assert taken'[w][|taken[w]|] == next;
    forall j: nat | j < next + 1 ensures IsTaken(taken', j) {
      if j < next {
        assert IsTaken(taken, j);
        var v :| 0 <= v < |taken| && j in taken[v];
        assert j in taken'[v];
      } else {
        assert j in taken'[w];
      }
    }
    forall v, a, u, b | 0 <= v < |taken'| && 0 <= a < |taken'[v]| && 0 <= u < |taken'| && 0 <= b < |taken'[u]|
                        && taken'[v][a] == taken'[u][b]
      ensures v == u && a == b
    {
      assert a < |taken[v]| ==> taken'[v][a] == taken[v][a];
      assert b < |taken[u]| ==> taken'[u][b] == taken[u][b];
    }
  }

  lemma NextKeepsInv(s: State, m: Move)
    requires Inv(s)
    ensures Inv(Next(s, m))
  {
    hide Dealt;
    var s' := Next(s, m);
    if Enabled(s, m) {
      match m
      case Take(w) =>
        TakeKeepsDealt(s.next, s.taken, w);
        WaitingUpdate(s.places, w, s'.places[w]);
      case Release => WaitingBounds(s.places);
      case Pass(w) =>
      case Again(w) =>
      case Quit(w) =>
    }
  }

  lemma {:induction false} RunKeepsInv(s: State, moves: seq<Move>)
    requires Inv(s)
    ensures Inv(After(s, moves))
    ensures |After(s, moves).places| == |s.places| && After(s, moves).jobs == s.jobs
    decreases |moves|
  {
    hide Inv;
    if moves != [] {
      NextKeepsInv(s, moves[0]);
      RunKeepsInv(Next(s, moves[0]), moves[1..]);
    }
  }

  lemma {:induction false} AllFreshNoneWaiting(workers: nat)
    ensures Waiting(seq(workers, _ => Fresh)) == 0
    decreases workers
  {
    if workers > 0 {
      AllFreshNoneWaiting(workers - 1);
      assert seq(workers, _ => Fresh)[1..] == seq<Place>(workers - 1, _ => Fresh);
    }
  }

  lemma ReachableHasInv(jobs: nat, workers: nat, moves: seq<Move>)
    ensures Inv(After(Start(jobs, workers), moves))
    ensures |After(Start(jobs, workers), moves).places| == workers && After(Start(jobs, workers), moves).jobs == jobs
  {
    AllFreshNoneWaiting(workers);
    assert Inv(Start(jobs, workers));
    RunKeepsInv(Start(jobs, workers), moves);
  }

  // ---- the main results ----

  /** In every run no job is ever taken by two workers or twice, and when the barrier
      opens each worker holds exactly one job. */
  lemma EachJobOnceEachWorkerOne(jobs: nat, workers: nat, moves: seq<Move>)
    ensures var s := After(Start(jobs, workers), moves);
            && Dealt(s.next, s.taken) && |s.places| == |s.taken| == workers
            && (!s.released ==> forall w | 0 <= w < workers :: |s.taken[w]| <= 1)
            && (!s.released && s.started == 0 ==> s.next == workers && forall w | 0 <= w < workers :: |s.taken[w]| == 1)
            && (s.released ==> forall w | 0 <= w < workers :: |s.taken[w]| >= 1)
  {
    hide After, Dealt;
    ReachableHasInv(jobs, workers, moves);
    WaitingBounds(After(Start(jobs, workers), moves).places);
  }

  ghost predicate CanMove(s: State) { exists m :: Enabled(s, m) }

  ghost predicate AllGone(s: State) { forall w | 0 <= w < |s.places| :: s.places[w].Gone? }

  /** A run that can go no further has opened the barrier exactly when there was a job
      for every worker; then every worker has left its loop. With fewer jobs than workers
      it is stuck: a worker that finds the channel empty leaves without being counted. */
  lemma BarrierOpensIff(jobs: nat, workers: nat, moves: seq<Move>)
    requires !CanMove(After(Start(jobs, workers), moves))
    ensures var s := After(Start(jobs, workers), moves);
            && (s.released <==> workers <= jobs)
            && (s.released <==> AllGone(s) && s.started == 0)
  {
    hide After, Dealt;
    ReachableHasInv(jobs, workers, moves);
    var s := After(Start(jobs, workers), moves);
    WaitingBounds(s.places);
    assert !Enabled(s, Release);
    forall w: nat | w < |s.places| ensures s.places[w].Gone? || (s.places[w].AtBarrier? && !s.released) {
      assert !Enabled(s, Take(w)) && !Enabled(s, Pass(w)) && !Enabled(s, Again(w));
    }
  }

  /** With the concurrency the sender picks, the barrier always opens. */
  lemma ChosenConcurrencyNeverStuck(jobs: nat, moves: seq<Move>)
    requires !CanMove(After(Start(jobs, Concurrency(jobs)), moves))
    ensures var s := After(Start(jobs, Concurrency(jobs)), moves); s.released && AllGone(s)
  {
    BarrierOpensIff(jobs, Concurrency(jobs), moves);
  }

  // ---- every run ends ----

  function Rank(p: Place): nat {
    match p
    case Fresh => 1
    case AtBarrier => 4
    case OnFile => 3
    case Ready => 1
    case Gone => 0
  }

  function Ranks(places: seq<Place>): nat {
    if places == [] then 0 else Rank(places[0]) + Ranks(places[1..])
  }

  lemma {:induction false} RanksUpdate(places: seq<Place>, w: nat, p: Place)
    requires w < |places|
    ensures Ranks(places[w := p]) == Ranks(places) - Rank(places[w]) + Rank(p)
  {
    if w > 0 {
      RanksUpdate(places[1..], w - 1, p);
      assert places[w := p][1..] == places[1..][w - 1 := p];
    } else {
      assert places[w := p][1..] == places[1..];
    }
  }

  function Measure(s: State): int {
    4 * (s.jobs - s.next) + Ranks(s.places) + (if s.released then 0 else 1)
  }

  /** Every step brings the end nearer, so no run goes on for ever. */
  lemma EveryMoveShrinks(s: State, m: Move)
    requires Inv(s) && Enabled(s, m)
    ensures 0 <= Measure(Next(s, m)) < Measure(s)
  {
    hide Dealt, Gathering;
    NextKeepsInv(s, m);
    if !m.Release? {
      RanksUpdate(s.places, m.w, Next(s, m).places[m.w]);
    }
  }
}
