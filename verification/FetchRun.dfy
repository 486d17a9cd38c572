/** Runs of the fetch protocol in which a call returns, and in which one waits in vain. */
module FetchRun {
  import opened Values
  import opened Blocks
  import opened CacheTakes
  import opened FetchProtocol
  import opened FetchTheorems

  /** The only call of a state, for one round. */
  function Lone(heap: seq<Cell>, cache: seq<nat>, round: nat, slot: Slot, status: Status): State {
    State(heap, cache, [Call([round], [slot], status)], 0)
  }

  /** A step that gives the only call another slot. */
  lemma LoneStep(chain: Chain, s: State, step: Step, s': State)
    requires Bounded(s) && Enabled(s, step) && SlotStep(step) && step.c == 0 && step.i == 0
    requires |s.calls| == 1 && |s.calls[0].slots| == 1
    requires var t := Apply(chain, s, step);
      && t.heap == s'.heap && t.cache == s'.cache && t.reported == s'.reported
      && s'.calls == [Call(s.calls[0].nums, [t.calls[0].slots[0]], t.calls[0].status)]
    ensures Next(chain, s, s')
  {
    var t := Apply(chain, s, step);
    assert t.calls[0].slots == [t.calls[0].slots[0]];
    assert t.calls == s'.calls;
    assert t == s';
  }

  lemma LoneStart(chain: Chain, round: nat)
    ensures Next(chain, State([], [], [], 0), Lone([], [], round, Slot(None, Idle), Gathering))
  {
    var s := State([], [], [], 0);
    var t := TakeAll([], [], [round]);
    assert RoundsOf([], []) == [] && [round][1..] == [];
    assert t.taken == [None] + Take<nat>(RoundIn([]), [], []).taken;
    assert t == Taken([], [None]) && FreshSlots(t.taken) == [Slot(None, Idle)];
    assert Apply(chain, s, Start([round])) == Lone([], [], round, Slot(None, Idle), Gathering);
    assert Enabled(s, Start([round]));
  }

  lemma LoneLink(chain: Chain, round: nat)
    requires Consistent(chain)
    ensures var heap := [Cell(chain(round), None)];
      Next(chain, Lone(heap, [], round, Slot(Some(0), Idle), Gathering),
                  Lone(heap, [], round, Slot(Some(0), AwaitSuccessor), Linking))
  {
    var heap := [Cell(chain(round), None)];
    var s := Lone(heap, [], round, Slot(Some(0), Idle), Gathering);
    var batch := BatchOf(heap, [Slot(Some(0), Idle)]);
    assert batch == [chain(round)] && batch[1..] == [];
    assert LinkInBatch(batch, round) == None;
    assert Enabled(s, Link(0));
    var slots := Apply(chain, s, Link(0)).calls[0].slots;
    assert slots == [Slot(Some(0), AwaitSuccessor)];
  }

  /** The states of a call for one round that nothing gets in the way of. */
  function LoneAt(chain: Chain, round: nat, k: nat): State {
    var block, next := Cell(chain(round), None), Cell(chain(round + 1), None);
    var hash := HashOf(chain, round);
    if k == 0 then State([], [], [], 0)
    else if k == 1 then Lone([], [], round, Slot(None, Idle), Gathering)
    else if k == 2 then Lone([block], [], round, Slot(Some(0), Idle), Gathering)
    else if k == 3 then Lone([block], [], round, Slot(Some(0), AwaitSuccessor), Linking)
    else if k == 4 then Lone([block, next], [], round, Slot(Some(0), Fetched(1)), Linking)
    else if k == 5 then Lone([block, next], [1], round, Slot(Some(0), Known(hash)), Linking)
    else if k == 6 then Lone([block.(hash := Some(hash)), next], [1], round, Slot(Some(0), Assigned), Linking)
    else Lone([block.(hash := Some(hash)), next], [1], round, Slot(Some(0), Assigned), Returned)
  }

  lemma LoneArrives(chain: Chain, round: nat)
    ensures Next(chain, LoneAt(chain, round, 1), LoneAt(chain, round, 2))
  {
    LoneStep(chain, LoneAt(chain, round, 1), BlockArrives(0, 0), LoneAt(chain, round, 2));
  }

  lemma LoneLooksAhead(chain: Chain, round: nat)
    requires Consistent(chain)
    ensures Next(chain, LoneAt(chain, round, 3), LoneAt(chain, round, 4))
  {
    LoneStep(chain, LoneAt(chain, round, 3), SuccessorArrives(0, 0), LoneAt(chain, round, 4));
  }

  lemma LonePushes(chain: Chain, round: nat)
    ensures Next(chain, LoneAt(chain, round, 4), LoneAt(chain, round, 5))
  {
    LoneStep(chain, LoneAt(chain, round, 4), Push(0, 0), LoneAt(chain, round, 5));
  }

  lemma LoneAssigns(chain: Chain, round: nat)
    ensures Next(chain, LoneAt(chain, round, 5), LoneAt(chain, round, 6))
  {
    LoneStep(chain, LoneAt(chain, round, 5), AssignHash(0, 0), LoneAt(chain, round, 6));
  }

  lemma LoneReturns(chain: Chain, round: nat)
    ensures Next(chain, LoneAt(chain, round, 6), LoneAt(chain, round, 7))
  {
    assert Enabled(LoneAt(chain, round, 6), Return(0));
    assert Apply(chain, LoneAt(chain, round, 6), Return(0)) == LoneAt(chain, round, 7);
  }

  lemma LoneNext(chain: Chain, round: nat, k: nat)
    requires Consistent(chain) && k < 7
    ensures Next(chain, LoneAt(chain, round, k), LoneAt(chain, round, k + 1))
  {
    match k
    case 0 => LoneStart(chain, round);
    case 1 => LoneArrives(chain, round);
    case 2 => LoneLink(chain, round);
    case 3 => LoneLooksAhead(chain, round);
    case 4 => LonePushes(chain, round);
    case 5 => LoneAssigns(chain, round);
    case 6 => LoneReturns(chain, round);
  }

  /** Calls do return: a run in which a call for one round does, leaving the next block cached. */
  lemma ACallReturns(chain: Chain, round: nat) returns (run: seq<State>)
    requires Consistent(chain)
    ensures Run(chain, run)
    ensures var last := run[|run| - 1];
      && |last.calls| == 1 && last.calls[0].nums == [round] && last.calls[0].status == Returned
      && |last.heap| == 2 && last.cache == [1] && last.heap[1].data == chain(round + 1)
  {
    run := seq(8, k requires 0 <= k < 8 => LoneAt(chain, round, k));
    forall k | 0 <= k < 7 ensures Next(chain, run[k], run[k + 1]) {
      LoneNext(chain, round, k);
    }
  }

  // ----- The wait at the tip -----

  /** The states of a call whose look-ahead fails while the node is behind. */
  function WaitAt(chain: Chain, round: nat, k: nat): State {
    var heap := [Cell(chain(round), None)];
    if k < 4 then LoneAt(chain, round, k)
    else if k == 4 then Lone(heap, [], round, Slot(Some(0), Probing), Linking)
    else if k == 5 || k == 6 then Lone(heap, [], round, Slot(Some(0), Polling), Linking)
    else if k == 7 then Lone(heap, [], round, Slot(Some(0), Polling), Linking).(reported := round + 1)
    else Lone(heap, [], round, Slot(Some(0), Broken), Rejected).(reported := round + 1)
  }

  lemma WaitFails(chain: Chain, round: nat)
    ensures Next(chain, WaitAt(chain, round, 3), WaitAt(chain, round, 4))
  {
    LoneStep(chain, WaitAt(chain, round, 3), SuccessorFails(0, 0), WaitAt(chain, round, 4));
  }

  lemma WaitPolls(chain: Chain, round: nat, k: nat)
    requires Consistent(chain) && (k == 4 || k == 5)
    ensures Next(chain, WaitAt(chain, round, k), WaitAt(chain, round, k + 1))
  {
    LoneStep(chain, WaitAt(chain, round, k), HealthReport(0, 0), WaitAt(chain, round, k + 1));
  }

  lemma WaitSeesReport(chain: Chain, round: nat)
    ensures Next(chain, WaitAt(chain, round, 6), WaitAt(chain, round, 7))
  {
    assert Enabled(WaitAt(chain, round, 6), RoundReported(round + 1));
    assert Apply(chain, WaitAt(chain, round, 6), RoundReported(round + 1)) == WaitAt(chain, round, 7);
  }

  lemma WaitIsRejected(chain: Chain, round: nat)
    requires Consistent(chain)
    ensures Next(chain, WaitAt(chain, round, 7), WaitAt(chain, round, 8))
  {
    LoneStep(chain, WaitAt(chain, round, 7), HealthReport(0, 0), WaitAt(chain, round, 8));
  }

  lemma WaitNext(chain: Chain, round: nat, k: nat)
    requires Consistent(chain) && k < 8
    ensures Next(chain, WaitAt(chain, round, k), WaitAt(chain, round, k + 1))
  {
    if k < 3 {
      LoneNext(chain, round, k);
    } else {
      match k
      case 3 => WaitFails(chain, round);
      case 4 => WaitPolls(chain, round, 4);
      case 5 => WaitPolls(chain, round, 5);
      case 6 => WaitSeesReport(chain, round);
      case 7 => WaitIsRejected(chain, round);
    }
  }

  predicate Waits(s: State, round: nat) {
    |s.calls| == 1 && s.calls[0].slots == [Slot(Some(0), Polling)] && s.reported < round + 1
  }

  /** A run in which a call waits for the next round, sees it reported, and is rejected all the same. */
  lemma AWaitIsInVain(chain: Chain, round: nat) returns (run: seq<State>)
    requires Consistent(chain)
    ensures Run(chain, run)
    ensures exists k :: 0 <= k < |run| && Waits(run[k], round)
    ensures var last := run[|run| - 1];
      && |last.calls| == 1 && last.calls[0].nums == [round] && last.calls[0].status == Rejected
      && last.reported == round + 1 && last.cache == []
  {
    run := seq(9, k requires 0 <= k < 9 => WaitAt(chain, round, k));
    forall k | 0 <= k < 8 ensures Next(chain, run[k], run[k + 1]) {
      WaitNext(chain, round, k);
    }
    assert Waits(run[5], round);
  }
}
