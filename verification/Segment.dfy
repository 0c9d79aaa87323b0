/**
 N players on a Pro DJ Link segment, each running the step of `Endpoint`, behind the hub
 that cdj2000_netsim.c's header describes: it relays every frame to all other players with
 its stamp, and promises each the least of the promises it has heard from the others.
 */
module Segment {
  import opened Common
  import opened Endpoint
  import opened TwoBoards

  datatype Relayed = Relayed(from: nat, frame: Due)

  /**
   `up[i]` and `down[i]` are the wires from and to player `i`, `heard[i]` the promise the hub
   has heard from it.  `sent`, `got` and `log` record what the players sent, what they were
   handed, and what the hub relayed, in order.
   */
  datatype Net = Net(
    players: seq<End>,
    up: seq<seq<Msg>>,
    down: seq<seq<Msg>>,
    heard: seq<int>,
    sent: seq<seq<Due>>,
    got: seq<seq<Handover>>,
    log: seq<Relayed>)

  datatype Event =
    | Player(i: nat, act: Act)
    | Relay(i: nat)
    | Announce(j: nat, t: int)

  function Join(n: nat, quantum: int): Net {
    Net(seq(n, i => Init(PlayerLink, quantum)), seq(n, i => [Other(0)]), seq(n, i => []), seq(n, i => 0),
        seq(n, i => []), seq(n, i => []), [])
  }

  predicate Sized(s: Net, n: nat) {
    |s.players| == |s.up| == |s.down| == |s.heard| == |s.sent| == |s.got| == n
  }

  /** The least promise heard from anyone but `j` among the first `k` players. */
  function LeastBut(heard: seq<int>, j: nat, k: nat): Option<int>
    requires k <= |heard|
  {
    if k == 0 then None
    else
      var rest := LeastBut(heard, j, k - 1);
      if k - 1 == j then rest
      else if rest.None? then Some(heard[k - 1])
      else Some(Min(rest.value, heard[k - 1]))
  }

  predicate CanHappen(s: Net, n: nat, ev: Event) {
    && Sized(s, n)
    && match ev
       case Player(i, a) => i < n && Enabled(s.players[i], a) && Input(a) <= s.down[i]
       case Relay(i) => i < n && s.up[i] != []
       case Announce(j, _) => j < n && LeastBut(s.heard, j, n).Some?
  }

  function Fan(down: seq<seq<Msg>>, i: nat, m: Msg): seq<seq<Msg>> {
    seq(|down|, j requires 0 <= j < |down| => if j == i then down[j] else down[j] + [m])
  }

  function Happen(s: Net, n: nat, ev: Event): Net
    requires CanHappen(s, n, ev)
  {
    match ev
    case Player(i, a) =>
      var e, o := s.players[i], Do(s.players[i], a);
      s.(players := s.players[i := o.end],
         up := s.up[i := s.up[i] + o.sent],
         down := s.down[i := s.down[i][|Input(a)|..]],
         sent := if a.Send? && a.data != [] then s.sent[i := s.sent[i] + [Due(e.now + e.quantum, a.data)]] else s.sent,
         got := s.got[i := s.got[i] + Handovers(o.end.now, o.handed)])
    case Relay(i) =>
      var m := s.up[i][0];
      var t := s.(up := s.up[i := s.up[i][1..]]);
      if m.Frame? then
        t.(down := Fan(s.down, i, m),
           log := if m.data != [] then s.log + [Relayed(i, Due(m.t + s.players[i].quantum, m.data))] else s.log)
      else if m.Time? then t.(heard := s.heard[i := Max(s.heard[i], m.promise)])
      else t
    case Announce(j, t) =>
      s.(down := s.down[j := s.down[j] + [Time(t, LeastBut(s.heard, j, n).value)]])
  }

  /** The hub's log seen by one sender and by one receiver. */
  ghost function From(log: seq<Relayed>, i: nat): seq<Due> {
    if log == [] then []
    else
      var x := log[|log| - 1];
      From(log[..|log| - 1], i) + if x.from == i then [x.frame] else []
  }

  ghost function Except(log: seq<Relayed>, j: nat): seq<Due> {
    if log == [] then []
    else
      var x := log[|log| - 1];
      Except(log[..|log| - 1], j) + if x.from == j then [] else [x.frame]
  }

  // ----------------------------------------------------------- the invariant

  /** The wire from a player to the hub. */
  ghost predicate UpOk(quantum: int, e: End, heard: int, up: seq<Msg>, sent: seq<Due>, from: seq<Due>) {
    && e.kind == PlayerLink && e.quantum == quantum && Inv(e)
    && Flow(PlayerLink, heard, up)
    && EndP(PlayerLink, heard, up) == e.promised
    && sent == from + Dues(quantum, up)
  }

  /** The wire from the hub to a player; `bound` is what the hub has heard from one of the others. */
  ghost predicate DownOk(quantum: int, e: End, down: seq<Msg>, heard: seq<int>, j: nat) {
    && Flow(PlayerLink, e.peerPromise, down)
    && forall k | 0 <= k < |heard| && k != j :: EndP(PlayerLink, e.peerPromise, down) <= heard[k]
  }

  ghost predicate Ledger(quantum: int, due: seq<Due>, down: seq<Msg>, got: seq<Handover>, inbox: seq<Due>) {
    && multiset(inbox) == multiset(Frames(got)) + multiset(due) + multiset(Dues(quantum, down))
    && forall h | h in got :: h.at == h.frame.due
  }

  /** All that concerns one player: its two wires and its ledger. */
  ghost predicate PlayerOk(quantum: int, i: nat, heard: seq<int>, log: seq<Relayed>, e: End,
                           up: seq<Msg>, down: seq<Msg>, sent: seq<Due>, got: seq<Handover>)
  {
    && i < |heard|
    && UpOk(quantum, e, heard[i], up, sent, From(log, i))
    && DownOk(quantum, e, down, heard, i)
    && Ledger(quantum, e.due, down, got, Except(log, i))
  }

  ghost predicate Ok(s: Net, quantum: int, i: nat)
    requires Sized(s, |s.players|) && i < |s.players|
  {
    PlayerOk(quantum, i, s.heard, s.log, s.players[i], s.up[i], s.down[i], s.sent[i], s.got[i])
  }

  ghost predicate Fine(s: Net, n: nat, quantum: int) {
    Sized(s, n) && forall i | 0 <= i < n :: Ok(s, quantum, i)
  }

  lemma JoinFine(n: nat, quantum: int)
    requires 2 <= quantum
    ensures Fine(Join(n, quantum), n, quantum)
  {
    var s := Join(n, quantum);
    forall i | 0 <= i < n ensures Ok(s, quantum, i) {
      JoinOk(n, quantum, i);
    }
  }

  lemma JoinUp(quantum: int)
    requires 2 <= quantum
    ensures UpOk(quantum, Init(PlayerLink, quantum), 0, [Other(0)], [], [])
  {
    InitKeeps(PlayerLink, quantum);
    assert [Other(0)][1..] == [];
    assert Flow(PlayerLink, Adv(PlayerLink, 0, Other(0)), []);
    OneDue(quantum, Other(0));
    hide Inv, Dues;
  }

  lemma JoinDown(quantum: int, heard: seq<int>, i: nat)
    requires forall k | 0 <= k < |heard| :: heard[k] == 0
    ensures DownOk(quantum, Init(PlayerLink, quantum), [], heard, i)
  {
    hide Inv;
  }

  lemma JoinLedger(quantum: int)
    ensures Ledger(quantum, [], [], [], [])
  {
    assert Frames([]) == [] && Dues(quantum, []) == [];
  }

  lemma JoinOk(n: nat, quantum: int, i: nat)
    requires 2 <= quantum && i < n
    ensures Ok(Join(n, quantum), quantum, i)
  {
    JoinUp(quantum);
    JoinLedger(quantum);
    JoinDown(quantum, seq(n, k => 0), i);
    assert From([], i) == [] && Except([], i) == [];
    hide UpOk, DownOk, Ledger, From, Except;
    assert Join(n, quantum).heard == seq(n, k => 0);
  }

  // -------------------------------------------------------- a player's action

  lemma PlayerReads(quantum: int, e: End, a: Act, rest: seq<Msg>, heard: seq<int>, j: nat)
    requires Inv(e) && e.kind == PlayerLink && Enabled(e, a) && DownOk(quantum, e, Input(a) + rest, heard, j)
    ensures Keeps(e, a) && DownOk(quantum, Do(e, a).end, rest, heard, j)
  {
    FlowConcat(PlayerLink, e.peerPromise, Input(a), rest);
    ActKeeps(e, a);
    hide Inv, Flow, EndP, Dues, Drain, Do, Enabled, Input;
  }

  lemma PlayerWrites(quantum: int, e: End, a: Act, heard: int, up: seq<Msg>, sent: seq<Due>, from: seq<Due>)
    requires UpOk(quantum, e, heard, up, sent, from) && Keeps(e, a)
    ensures var o := Do(e, a);
            UpOk(quantum, o.end, heard, up + o.sent, sent + Dues(quantum, o.sent), from)
  {
    FlowConcat(PlayerLink, heard, up, Do(e, a).sent);
    DuesConcat(quantum, up, Do(e, a).sent);
    hide Inv, Flow, EndP, Dues, Do;
    assert from + (Dues(quantum, up) + Dues(quantum, Do(e, a).sent)) == sent + Dues(quantum, Do(e, a).sent);
  }

  lemma PlayerLedger(quantum: int, e: End, a: Act, rest: seq<Msg>, got: seq<Handover>, inbox: seq<Due>)
    requires e.kind == PlayerLink && e.quantum == quantum && Keeps(e, a) && Sorted(e.due)
    requires Ledger(quantum, e.due, Input(a) + rest, got, inbox)
    ensures var o := Do(e, a); Ledger(quantum, o.end.due, rest, got + Handovers(o.end.now, o.handed), inbox)
  {
    var o, ms := Do(e, a), Input(a);
    DuesConcat(quantum, ms, rest);
    DrainMoves(e, ms);
    LedgerMoves(got, o.end.now, o.handed);
    hide Inv, Flow, EndP, Dues, Do, Enabled, Input, Frames, Sorted;
    assert o.handed + o.end.due == Drain(e, ms).due;
    hide Drain;
    Rebalance(Frames(got), e.due, Dues(quantum, ms), Dues(quantum, rest), o.handed, o.end.due);
  }

  lemma Rebalance(f: seq<Due>, due: seq<Due>, read: seq<Due>, rest: seq<Due>, handed: seq<Due>, left: seq<Due>)
    requires multiset(handed + left) == multiset(due) + multiset(read)
    ensures multiset(f) + multiset(due) + multiset(read + rest) == multiset(f + handed) + multiset(left) + multiset(rest)
  {
    forall d
      ensures (multiset(f) + multiset(due) + multiset(read + rest))[d] ==
              (multiset(f + handed) + multiset(left) + multiset(rest))[d]
    {
      assert multiset(handed + left)[d] == multiset(due)[d] + multiset(read)[d];
    }
  }

  lemma PlayerKeeps(quantum: int, i: nat, heard: seq<int>, log: seq<Relayed>, e: End, up: seq<Msg>,
                    rest: seq<Msg>, sent: seq<Due>, got: seq<Handover>, a: Act)
    requires Enabled(e, a) && PlayerOk(quantum, i, heard, log, e, up, Input(a) + rest, sent, got)
    ensures var o := Do(e, a);
            PlayerOk(quantum, i, heard, log, o.end, up + o.sent, rest,
                     sent + Dues(quantum, o.sent), got + Handovers(o.end.now, o.handed))
    ensures Keeps(e, a) && e.quantum == quantum
  {
    PlayerReads(quantum, e, a, rest, heard, i);
    PlayerWrites(quantum, e, a, heard[i], up, sent, From(log, i));
    PlayerLedger(quantum, e, a, rest, got, Except(log, i));
    hide Keeps, Do, DownOk, Ledger, Enabled, Input, From, Except, Dues;
  }

  /** An action of player `i` leaves everything of player `k` alone. */
  lemma PlayerElsewhere(s: Net, n: nat, quantum: int, i: nat, a: Act, k: nat)
    requires CanHappen(s, n, Player(i, a)) && k < n && k != i && Ok(s, quantum, k)
    ensures Sized(Happen(s, n, Player(i, a)), n) && Ok(Happen(s, n, Player(i, a)), quantum, k)
  {
    hide PlayerOk, Do, Enabled, Input;
  }

  /** What an action of player `i` does to its own wires and logs. */
  lemma PlayerAt(s: Net, n: nat, i: nat, a: Act)
    requires CanHappen(s, n, Player(i, a))
    ensures var t, e, o := Happen(s, n, Player(i, a)), s.players[i], Do(s.players[i], a);
            && Sized(t, n) && t.heard == s.heard && t.log == s.log
            && t.players[i] == o.end && t.up[i] == s.up[i] + o.sent && t.down[i] == s.down[i][|Input(a)|..]
            && t.got[i] == s.got[i] + Handovers(o.end.now, o.handed)
            && t.sent[i] == s.sent[i] + Dues(e.quantum, o.sent)
  {
    OnlySendSends(s.players[i], a);
    hide Do, Enabled, Input, Dues;
  }

  lemma PlayerHere(s: Net, n: nat, quantum: int, i: nat, a: Act)
    requires CanHappen(s, n, Player(i, a)) && Ok(s, quantum, i)
    ensures Sized(Happen(s, n, Player(i, a)), n) && Ok(Happen(s, n, Player(i, a)), quantum, i)
    ensures Keeps(s.players[i], a)
  {
    var e, rest := s.players[i], s.down[i][|Input(a)|..];
    assert s.down[i] == Input(a) + rest;
    PlayerAt(s, n, i, a);
    hide Keeps, Do, PlayerOk, Enabled, Input, Dues, Happen;
    PlayerKeeps(quantum, i, s.heard, s.log, e, s.up[i], rest, s.sent[i], s.got[i], a);
  }

  lemma PlayerFine(s: Net, n: nat, quantum: int, i: nat, a: Act)
    requires Fine(s, n, quantum) && CanHappen(s, n, Player(i, a))
    ensures Fine(Happen(s, n, Player(i, a)), n, quantum) && Keeps(s.players[i], a)
  {
    assert Ok(s, quantum, i);
    hide Ok, Happen, Keeps;
    PlayerHere(s, n, quantum, i, a);
    forall k | 0 <= k < n ensures Ok(Happen(s, n, Player(i, a)), quantum, k) {
      if k != i {
        PlayerElsewhere(s, n, quantum, i, a, k);
      }
    }
  }

  // ------------------------------------------------------------ the hub's part

  function LogOf(quantum: int, log: seq<Relayed>, i: nat, m: Msg): seq<Relayed> {
    if m.Frame? && m.data != [] then log + [Relayed(i, Due(m.t + quantum, m.data))] else log
  }

  lemma LogSplits(quantum: int, log: seq<Relayed>, i: nat, m: Msg, k: nat)
    ensures From(LogOf(quantum, log, i, m), k) == From(log, k) + if k == i then Dues(quantum, [m]) else []
    ensures Except(LogOf(quantum, log, i, m), k) == Except(log, k) + if k == i then [] else Dues(quantum, [m])
  {
    OneDue(quantum, m);
    if m.Frame? && m.data != [] {
      var x := Relayed(i, Due(m.t + quantum, m.data));
      assert (log + [x])[..|log|] == log;
    } else {
      assert From(log, k) + [] == From(log, k) && Except(log, k) + [] == Except(log, k);
    }
  }

  /** One message more on a wire to a player. */
  lemma DownGrows(quantum: int, e: End, down: seq<Msg>, heard: seq<int>, j: nat, m: Msg)
    requires DownOk(quantum, e, down, heard, j)
    requires m.Frame? ==> exists k | 0 <= k < |heard| && k != j :: heard[k] <= m.t
    requires m.Time? ==> forall k | 0 <= k < |heard| && k != j :: m.promise <= heard[k]
    ensures DownOk(quantum, e, down + [m], heard, j)
  {
    FlowConcat(PlayerLink, e.peerPromise, down, [m]);
    var p := EndP(PlayerLink, e.peerPromise, down);
    assert [m][1..] == [];
    assert Flow(PlayerLink, Adv(PlayerLink, p, m), []);
    assert EndP(PlayerLink, p, [m]) == Adv(PlayerLink, p, m);
    hide Flow, EndP;
  }

  lemma LedgerGrows(quantum: int, due: seq<Due>, down: seq<Msg>, got: seq<Handover>, inbox: seq<Due>, m: Msg)
    requires Ledger(quantum, due, down, got, inbox)
    ensures Ledger(quantum, due, down + [m], got, inbox + Dues(quantum, [m]))
  {
    DuesConcat(quantum, down, [m]);
    hide Dues, Frames;
  }

  lemma UpShrinks(quantum: int, e: End, heard: int, up: seq<Msg>, sent: seq<Due>, from: seq<Due>)
    requires UpOk(quantum, e, heard, up, sent, from) && up != []
    ensures up[0].Frame? ==> heard <= up[0].t
    ensures UpOk(quantum, e, Adv(PlayerLink, heard, up[0]), up[1..], sent, from + Dues(quantum, [up[0]]))
  {
    OneDue(quantum, up[0]);
    assert up == [up[0]] + up[1..];
    DuesConcat(quantum, [up[0]], up[1..]);
    hide Inv;
    assert from + (Dues(quantum, [up[0]]) + Dues(quantum, up[1..])) == (from + Dues(quantum, [up[0]])) + Dues(quantum, up[1..]);
  }

  lemma DownHears(quantum: int, e: End, down: seq<Msg>, heard: seq<int>, j: nat, i: nat, p: int)
    requires DownOk(quantum, e, down, heard, j) && i < |heard| && heard[i] <= p
    ensures DownOk(quantum, e, down, heard[i := p], j)
  {
    hide Flow, EndP;
  }

  /** A relayed frame reaches every other player no earlier than what the hub promised it. */
  lemma RelayFrame(quantum: int, k: nat, heard: seq<int>, log: seq<Relayed>, e: End, up: seq<Msg>, down: seq<Msg>,
                   sent: seq<Due>, got: seq<Handover>, i: nat, m: Msg)
    requires PlayerOk(quantum, k, heard, log, e, up, down, sent, got) && i < |heard| && i != k
    requires m.Frame? && heard[i] <= m.t
    ensures PlayerOk(quantum, k, heard, LogOf(quantum, log, i, m), e, up, down + [m], sent, got)
  {
    LogSplits(quantum, log, i, m, k);
    assert From(log, k) + [] == From(log, k);
    DownGrows(quantum, e, down, heard, k, m);
    LedgerGrows(quantum, e.due, down, got, Except(log, k), m);
    hide DownOk, UpOk, Ledger, Dues, From, Except, LogOf;
  }

  lemma RelayTime(quantum: int, k: nat, heard: seq<int>, log: seq<Relayed>, e: End, up: seq<Msg>, down: seq<Msg>,
                  sent: seq<Due>, got: seq<Handover>, i: nat, p: int)
    requires PlayerOk(quantum, k, heard, log, e, up, down, sent, got) && i < |heard| && i != k
    ensures PlayerOk(quantum, k, heard[i := Max(heard[i], p)], log, e, up, down, sent, got)
  {
    DownHears(quantum, e, down, heard, k, i, Max(heard[i], p));
    hide DownOk, UpOk, Ledger, From, Except;
  }

  /** What it leaves true of its sender. */
  lemma RelayFrom(quantum: int, i: nat, heard: seq<int>, log: seq<Relayed>, e: End, up: seq<Msg>, down: seq<Msg>,
                  sent: seq<Due>, got: seq<Handover>)
    requires PlayerOk(quantum, i, heard, log, e, up, down, sent, got) && up != []
    ensures up[0].Frame? ==> heard[i] <= up[0].t
    ensures var heard' := if up[0].Time? then heard[i := Max(heard[i], up[0].promise)] else heard;
            PlayerOk(quantum, i, heard', LogOf(quantum, log, i, up[0]), e, up[1..], down, sent, got)
    ensures e.quantum == quantum
  {
    var m := up[0];
    UpShrinks(quantum, e, heard[i], up, sent, From(log, i));
    LogSplits(quantum, log, i, m, i);
    assert Except(log, i) + [] == Except(log, i);
    hide Inv, Ledger, Dues, From, Except, Flow, EndP, LogOf;
  }

  lemma RelayKeeps(s: Net, n: nat, quantum: int, i: nat, k: nat)
    requires CanHappen(s, n, Relay(i)) && k < n && Ok(s, quantum, i) && Ok(s, quantum, k)
    ensures Sized(Happen(s, n, Relay(i)), n) && Ok(Happen(s, n, Relay(i)), quantum, k)
  {
    hide PlayerOk;
    RelayFrom(quantum, i, s.heard, s.log, s.players[i], s.up[i], s.down[i], s.sent[i], s.got[i]);
    if k != i {
      var m := s.up[i][0];
      if m.Frame? {
        RelayFrame(quantum, k, s.heard, s.log, s.players[k], s.up[k], s.down[k], s.sent[k], s.got[k], i, m);
      } else if m.Time? {
        RelayTime(quantum, k, s.heard, s.log, s.players[k], s.up[k], s.down[k], s.sent[k], s.got[k], i, m.promise);
      }
    }
  }

  lemma RelayFine(s: Net, n: nat, quantum: int, i: nat)
    requires Fine(s, n, quantum) && CanHappen(s, n, Relay(i))
    ensures Fine(Happen(s, n, Relay(i)), n, quantum)
  {
    assert Ok(s, quantum, i) && i < n && |s.players| == n;
    hide Ok, Happen, CanHappen;
    var t := Happen(s, n, Relay(i));
    assert Sized(t, n) by { RelayKeeps(s, n, quantum, i, i); }
    forall k | 0 <= k < n ensures Ok(t, quantum, k) {
      RelayKeeps(s, n, quantum, i, k);
    }
  }

  /** What the hub announces is a promise of every other player. */
  lemma {:induction false} LeastIsLeast(heard: seq<int>, j: nat, k: nat)
    requires k <= |heard|
    ensures LeastBut(heard, j, k).None? <==> k == 0 || (k == 1 && j == 0)
    ensures LeastBut(heard, j, k).Some? ==>
              && (forall i | 0 <= i < k && i != j :: LeastBut(heard, j, k).value <= heard[i])
              && (exists i | 0 <= i < k && i != j :: LeastBut(heard, j, k).value == heard[i])
  {
    if k != 0 {
      LeastIsLeast(heard, j, k - 1);
    }
  }

  lemma AnnounceFine(s: Net, n: nat, quantum: int, j: nat, t: int)
    requires Fine(s, n, quantum) && CanHappen(s, n, Announce(j, t))
    ensures Fine(Happen(s, n, Announce(j, t)), n, quantum)
  {
    var m := Time(t, LeastBut(s.heard, j, n).value);
    LeastIsLeast(s.heard, j, n);
    assert Ok(s, quantum, j);
    hide LeastBut, Ok, Happen;
    AnnounceTo(s, n, quantum, j, m);
    forall k | 0 <= k < n ensures Sized(Happen(s, n, Announce(j, t)), n) && Ok(Happen(s, n, Announce(j, t)), quantum, k) {
      AnnounceElsewhere(s, n, quantum, j, t, k);
    }
    AnnounceElsewhere(s, n, quantum, j, t, j);
  }

  lemma AnnounceElsewhere(s: Net, n: nat, quantum: int, j: nat, t: int, k: nat)
    requires CanHappen(s, n, Announce(j, t)) && k < n && Ok(s, quantum, k)
    requires PlayerOk(quantum, j, s.heard, s.log, s.players[j], s.up[j],
                      s.down[j] + [Time(t, LeastBut(s.heard, j, n).value)], s.sent[j], s.got[j])
    ensures Sized(Happen(s, n, Announce(j, t)), n) && Ok(Happen(s, n, Announce(j, t)), quantum, k)
  {
    hide PlayerOk, LeastBut;
  }

  lemma AnnounceTo(s: Net, n: nat, quantum: int, j: nat, m: Msg)
    requires Sized(s, n) && j < n && Ok(s, quantum, j) && m.Time?
    requires forall k | 0 <= k < n && k != j :: m.promise <= s.heard[k]
    ensures PlayerOk(quantum, j, s.heard, s.log, s.players[j], s.up[j], s.down[j] + [m], s.sent[j], s.got[j])
  {
    OneDue(quantum, m);
    DownGrows(quantum, s.players[j], s.down[j], s.heard, j, m);
    LedgerGrows(quantum, s.players[j].due, s.down[j], s.got[j], Except(s.log, j), m);
    hide UpOk, DownOk, Ledger, From, Except, Dues;
    assert Except(s.log, j) + [] == Except(s.log, j);
  }

  // ------------------------------------------------------------ over whole runs

  predicate CanGo(s: Net, n: nat, run: seq<Event>)
    decreases |run|
  {
    run == [] || (CanHappen(s, n, run[0]) && CanGo(Happen(s, n, run[0]), n, run[1..]))
  }

  function Go(s: Net, n: nat, run: seq<Event>): Net
    requires CanGo(s, n, run)
    decreases |run|
  {
    if run == [] then s else Go(Happen(s, n, run[0]), n, run[1..])
  }

  lemma HappenFine(s: Net, n: nat, quantum: int, ev: Event)
    requires Fine(s, n, quantum) && CanHappen(s, n, ev)
    ensures Fine(Happen(s, n, ev), n, quantum)
    ensures forall i | 0 <= i < n :: s.players[i].promised <= Happen(s, n, ev).players[i].promised
  {
    hide Fine;
    match ev
    case Player(i, a) =>
      PlayerFine(s, n, quantum, i, a);
      KeptPromises(s.players[i], a);
      hide Do;
    case Relay(i) => RelayFine(s, n, quantum, i);
    case Announce(j, t) => AnnounceFine(s, n, quantum, j, t);
  }

  lemma {:induction false} GoFine(s: Net, n: nat, quantum: int, run: seq<Event>)
    requires Fine(s, n, quantum) && CanGo(s, n, run)
    ensures Fine(Go(s, n, run), n, quantum) && Sized(s, n) && Sized(Go(s, n, run), n)
    ensures forall i | 0 <= i < n :: s.players[i].promised <= Go(s, n, run).players[i].promised
    decreases |run|
  {
    if run != [] {
      HappenFine(s, n, quantum, run[0]);
      GoFine(Happen(s, n, run[0]), n, quantum, run[1..]);
    }
  }

  ghost predicate ReachableNet(s: Net, n: nat, quantum: int) {
    2 <= quantum && exists run :: CanGo(Join(n, quantum), n, run) && s == Go(Join(n, quantum), n, run)
  }

  lemma ReachableFine(s: Net, n: nat, quantum: int)
    requires ReachableNet(s, n, quantum)
    ensures Fine(s, n, quantum) && Sized(s, n)
  {
    var run :| CanGo(Join(n, quantum), n, run) && s == Go(Join(n, quantum), n, run);
    JoinFine(n, quantum);
    GoFine(Join(n, quantum), n, quantum, run);
  }

  /**
   Exact delivery on the segment.  In every run each frame a player is handed reaches it
   exactly one quantum after its stamp; and nothing is lost, invented or duplicated: what the
   others sent is, frame for frame, what the hub still holds, what is on this player's wire,
   what waits in its queue and what it was handed.
   */
  lemma SegmentDelivery(s: Net, n: nat, quantum: int, j: nat)
    requires ReachableNet(s, n, quantum) && j < n
    ensures Sized(s, n)
    ensures forall h | h in s.got[j] :: h.at == h.frame.due
    ensures forall i | 0 <= i < n :: s.sent[i] == From(s.log, i) + Dues(quantum, s.up[i])
    ensures multiset(Except(s.log, j)) ==
            multiset(Frames(s.got[j])) + multiset(s.players[j].due) + multiset(Dues(quantum, s.down[j]))
  {
    ReachableFine(s, n, quantum);
    hide ReachableNet, Inv, Flow, EndP, Dues, Except, From;
    assert Ok(s, quantum, j);
    forall i | 0 <= i < n ensures s.sent[i] == From(s.log, i) + Dues(quantum, s.up[i]) {
      assert Ok(s, quantum, i);
    }
  }

  /** Frames from different players may reach one player out of stamp order; its queue stays in time order. */
  lemma QueueInOrder(s: Net, n: nat, quantum: int, j: nat)
    requires ReachableNet(s, n, quantum) && j < n
    ensures Sized(s, n) && Sorted(s.players[j].due) && AllDue(s.players[j].due, s.players[j].now)
  {
    ReachableFine(s, n, quantum);
    hide ReachableNet, Flow, EndP, Dues, Except, From;
    assert Ok(s, quantum, j);
  }

  /** No player sends a frame stamped before a promise it has given, over any run. */
  lemma SegmentPromisesKept(s: Net, n: nat, quantum: int, run: seq<Event>, i: nat, data: seq<nat>)
    requires ReachableNet(s, n, quantum) && CanGo(s, n, run) && i < n
    requires CanHappen(Go(s, n, run), n, Player(i, Send(data)))
    ensures Sized(s, n)
    ensures s.players[i].promised <= Go(s, n, run).players[i].promised <= Go(s, n, run).players[i].now
  {
    ReachableFine(s, n, quantum);
    GoFine(s, n, quantum, run);
    var t := Go(s, n, run);
    hide ReachableNet, Flow, EndP, Dues, From, Go, CanGo;
    assert Ok(t, quantum, i);
  }

  // ------------------------------------------------------------------ progress

  /** The hub has passed on all it was sent and has announced the least promise to player `j`. */
  ghost predicate UpToDate(s: Net, n: nat, j: nat)
    requires Sized(s, n) && j < n
  {
    && (forall i | 0 <= i < n :: s.up[i] == [])
    && LeastBut(s.heard, j, n).Some?
    && EndP(PlayerLink, s.players[j].peerPromise, s.down[j]) >= LeastBut(s.heard, j, n).value
  }

  /**
   Progress on the segment: when every player waits and the hub has done its part, the player
   with the least clock leaves its wait as soon as it reads what the hub sent it.
   */
  lemma LeastPlayerLeaves(s: Net, n: nat, quantum: int, j: nat, cpu: Cpu)
    requires ReachableNet(s, n, quantum) && Sized(s, n) && j < n && UpToDate(s, n, j)
    requires forall i | 0 <= i < n :: s.players[i].waiting && s.players[j].now <= s.players[i].now
    requires LegalCpu(cpu, s.players[j].now)
    ensures CanHappen(s, n, Player(j, Turn(s.down[j], cpu)))
    ensures !Happen(s, n, Player(j, Turn(s.down[j], cpu))).players[j].waiting
  {
    ReachableFine(s, n, quantum);
    LeastIsLeast(s.heard, j, n);
    hide ReachableNet, Fine;
    var k :| 0 <= k < n && k != j && LeastBut(s.heard, j, n).value == s.heard[k];
    HeardClock(s, n, quantum, k);
    HeardClock(s, n, quantum, j);
    DownFlows(s, n, quantum, j);
    hide Inv, Flow, EndP, LeastBut;
    TurnLeaves(s.players[j], s.down[j], cpu);
  }

  /** The hub has heard the clock of a player that waits with nothing under way. */
  lemma HeardClock(s: Net, n: nat, quantum: int, k: nat)
    requires Fine(s, n, quantum) && k < n && s.up[k] == [] && s.players[k].waiting
    ensures s.heard[k] == s.players[k].now && Inv(s.players[k]) && 0 < s.players[k].quantum
    ensures s.players[k].kind == PlayerLink
  {
    assert Ok(s, quantum, k);
  }

  lemma DownFlows(s: Net, n: nat, quantum: int, j: nat)
    requires Fine(s, n, quantum) && j < n
    ensures Flow(PlayerLink, s.players[j].peerPromise, s.down[j])
  {
    assert Ok(s, quantum, j);
  }

  /** The whole segment never deadlocks: the hub has something to pass on or announce, or a player can move. */
  lemma SegmentNoDeadlock(s: Net, n: nat, quantum: int) returns (ev: Event)
    requires ReachableNet(s, n, quantum) && 2 <= n
    ensures CanHappen(s, n, ev)
    ensures ev.Announce? ==> EndP(PlayerLink, s.players[ev.j].peerPromise, s.down[ev.j]) <
                             EndP(PlayerLink, s.players[ev.j].peerPromise, Happen(s, n, ev).down[ev.j])
    ensures ev.Player? ==> Moves(s.players[ev.i], ev.act)
  {
    ReachableFine(s, n, quantum);
    if i :| 0 <= i < n && s.up[i] != [] {
      ev := Relay(i);
    } else if i :| 0 <= i < n && !s.players[i].waiting {
      assert Ok(s, quantum, i);
      var act := FreeEndMoves(s.players[i]);
      ev := Player(i, act);
    } else {
      var j := LeastClock(s.players, n);
      LeastIsLeast(s.heard, j, n);
      if UpToDate(s, n, j) {
        LeastPlayerLeaves(s, n, quantum, j, Running);
        ev := Player(j, Turn(s.down[j], Running));
      } else {
        ev := Announce(j, 0);
        AnnounceRaises(s.players[j].peerPromise, s.down[j], Time(0, LeastBut(s.heard, j, n).value));
      }
    }
  }

  lemma AnnounceRaises(p: int, down: seq<Msg>, m: Msg)
    requires m.Time? && EndP(PlayerLink, p, down) < m.promise
    ensures EndP(PlayerLink, p, down) < EndP(PlayerLink, p, down + [m])
  {
    FlowConcat(PlayerLink, p, down, [m]);
    assert [m][1..] == [];
  }

  lemma {:induction false} LeastClock(players: seq<End>, n: nat) returns (j: nat)
    requires 0 < n <= |players|
    ensures j < n && forall i | 0 <= i < n :: players[j].now <= players[i].now
  {
    if n == 1 {
      j := 0;
    } else {
      j := LeastClock(players, n - 1);
      if players[n - 1].now < players[j].now {
        j := n - 1;
      }
    }
  }

  /** The clamp of the source's step is never taken: leaving a step or a wait, a player re-arms strictly in its future. */
  lemma PlayersRearm(s: Net, n: nat, quantum: int, i: nat, a: Act)
    requires ReachableNet(s, n, quantum) && CanHappen(s, n, Player(i, a)) && (a.Step? || a.Turn?)
    requires !Happen(s, n, Player(i, a)).players[i].waiting
    ensures Rearmed(Happen(s, n, Player(i, a)).players[i])
  {
    ReachableFine(s, n, quantum);
    hide ReachableNet;
    PlayerWell(s, n, quantum, i);
    var rest := s.down[i][|Input(a)|..];
    assert s.down[i] == Input(a) + rest;
    FlowConcat(PlayerLink, s.players[i].peerPromise, Input(a), rest);
    hide Inv, Flow, EndP, Do, Enabled, Input, Rearmed, Fine;
    ActRearms(s.players[i], a);
  }

  lemma PlayerWell(s: Net, n: nat, quantum: int, i: nat)
    requires Fine(s, n, quantum) && i < n
    ensures var e := s.players[i];
            && Inv(e) && e.kind == PlayerLink && e.quantum == quantum && Flow(PlayerLink, e.peerPromise, s.down[i])
            && EndP(PlayerLink, s.heard[i], s.up[i]) == e.promised
  {
    assert Ok(s, quantum, i);
    hide Inv, Flow, EndP, Dues, Ledger;
  }

  // ----------------------------------------------------------------- liveness

  function ByPlayer(i: nat, acts: seq<Act>): (r: seq<Event>)
    ensures |r| == |acts|
  {
    seq(|acts|, k requires 0 <= k < |acts| => Player(i, acts[k]))
  }

  /** What a player can do without reading it can do on the segment. */
  lemma {:induction false} PlayerAlone(s: Net, n: nat, i: nat, acts: seq<Act>)
    requires Sized(s, n) && i < n && CanAll(s.players[i], acts)
    ensures CanGo(s, n, ByPlayer(i, acts))
    ensures Go(s, n, ByPlayer(i, acts)).players == s.players[i := DoAll(s.players[i], acts)]
    decreases |acts|
  {
    if acts != [] {
      var ev := Player(i, acts[0]);
      assert ByPlayer(i, acts)[0] == ev && ByPlayer(i, acts)[1..] == ByPlayer(i, acts[1..]);
      hide Enabled, Do, Input;
      var t := Happen(s, n, ev);
      assert t.players == s.players[i := Do(s.players[i], acts[0]).end] && Sized(t, n);
      PlayerAlone(t, n, i, acts[1..]);
    }
  }

  lemma GoFirst(s: Net, n: nat, run: seq<Event>)
    requires run != []
    ensures CanGo(s, n, run) <==> CanHappen(s, n, run[0]) && CanGo(Happen(s, n, run[0]), n, run[1..])
    ensures CanGo(s, n, run) ==> Go(s, n, run) == Go(Happen(s, n, run[0]), n, run[1..])
  {
    hide CanHappen, Happen;
  }

  lemma {:induction false} GoesJoin(s: Net, n: nat, one: seq<Event>, two: seq<Event>)
    requires CanGo(s, n, one) && CanGo(Go(s, n, one), n, two)
    ensures CanGo(s, n, one + two) && Go(s, n, one + two) == Go(Go(s, n, one), n, two)
    decreases |one|
  {
    hide *;
    if one == [] {
      assert one + two == two;
      GoNowhere(s, n);
    } else {
      assert (one + two)[0] == one[0] && (one + two)[1..] == one[1..] + two;
      GoFirst(s, n, one);
      GoFirst(s, n, one + two);
      GoesJoin(Happen(s, n, one[0]), n, one[1..], two);
    }
  }

  /** Messages on the first `k` wires to the hub. */
  function Backlog(up: seq<seq<Msg>>, k: nat): nat
    requires k <= |up|
  {
    if k == 0 then 0 else Backlog(up, k - 1) + |up[k - 1]|
  }

  lemma {:induction false} BacklogFalls(up: seq<seq<Msg>>, i: nat, k: nat)
    requires k <= |up| && i < |up| && up[i] != []
    ensures Backlog(up[i := up[i][1..]], k) == Backlog(up, k) - if i < k then 1 else 0
  {
    if k != 0 {
      BacklogFalls(up, i, k - 1);
    }
  }

  /** The hub can pass on all it has been sent. */
  lemma {:induction false} HubPassesOn(s: Net, n: nat) returns (run: seq<Event>)
    requires Sized(s, n)
    ensures CanGo(s, n, run)
    ensures var t := Go(s, n, run); Sized(t, n) && t.players == s.players && forall i | 0 <= i < n :: t.up[i] == []
    decreases Backlog(s.up, n)
  {
    if i :| 0 <= i < n && s.up[i] != [] {
      var t := Happen(s, n, Relay(i));
      BacklogFalls(s.up, i, n);
      assert t.players == s.players && t.up == s.up[i := s.up[i][1..]] && Sized(t, n);
      hide Happen;
      var rest := HubPassesOn(t, n);
      run := [Relay(i)] + rest;
      assert run[0] == Relay(i) && run[1..] == rest;
    } else {
      run := [];
    }
  }

  /** The hub having passed on everything and announced, the player whose clock is least is promised enough. */
  lemma LeastIsPromised(s: Net, n: nat, quantum: int, j: nat)
    requires Fine(s, n, quantum) && 2 <= n && j < n && forall i | 0 <= i < n :: s.up[i] == []
    requires forall i | 0 <= i < n :: s.players[j].now <= s.players[i].now
    ensures CanHappen(s, n, Announce(j, 0))
    ensures var t := Happen(s, n, Announce(j, 0));
            var e := t.players[j];
            && t.players == s.players && Fine(t, n, quantum)
            && Inv(e) && e.kind == PlayerLink && Flow(PlayerLink, e.peerPromise, t.down[j])
            && e.now < EndP(PlayerLink, e.peerPromise, t.down[j]) + e.quantum
  {
    LeastIsLeast(s.heard, j, n);
    AnnounceFine(s, n, quantum, j, 0);
    var t := Happen(s, n, Announce(j, 0));
    var k :| 0 <= k < n && k != j && LeastBut(s.heard, j, n).value == s.heard[k];
    PlayerWell(s, n, quantum, k);
    PlayerWell(t, n, quantum, j);
    assert EndP(PlayerLink, s.heard[k], []) == s.heard[k];
    var e, m := s.players[j], Time(0, s.heard[k]);
    FlowConcat(PlayerLink, e.peerPromise, s.down[j], [m]);
    AtLeastHeard(EndP(PlayerLink, e.peerPromise, s.down[j]), m);
    assert t.down[j] == s.down[j] + [m] && t.players == s.players;
    hide Fine, Inv, Flow, EndP, LeastBut, Happen;
    NotFarAhead(s.players[k]);
  }

  lemma AtLeastHeard(p: int, m: Msg)
    requires m.Time?
    ensures m.promise <= EndP(PlayerLink, p, [m])
  {
    assert [m][1..] == [];
    assert EndP(PlayerLink, p, [m]) == EndP(PlayerLink, Adv(PlayerLink, p, m), []);
  }

  /** The player whose clock is least can always be brought to let it go on. */
  lemma LeastAdvances(s: Net, n: nat, quantum: int, j: nat) returns (run: seq<Event>)
    requires Fine(s, n, quantum) && 2 <= n && j < n && forall i | 0 <= i < n :: s.players[j].now <= s.players[i].now
    ensures CanGo(s, n, run)
    ensures var t := Go(s, n, run);
            && |t.players| == n && s.players[j].now < t.players[j].now
            && forall i | 0 <= i < n && i != j :: t.players[i] == s.players[i]
  {
    var e := s.players[j];
    PlayerWell(s, n, quantum, j);
    if !e.waiting {
      Timely(e);
    }
    if !e.waiting && e.timer.value != e.now {
      hide Fine, Inv, Go, CanGo;
      var acts := FreeAdvances(e);
      PlayerAlone(s, n, j, acts);
      run := ByPlayer(j, acts);
    } else {
      run := LateAdvances(s, n, quantum, j);
    }
  }

  lemma LateAdvances(s: Net, n: nat, quantum: int, j: nat) returns (run: seq<Event>)
    requires Fine(s, n, quantum) && 2 <= n && j < n && forall i | 0 <= i < n :: s.players[j].now <= s.players[i].now
    requires s.players[j].waiting || s.players[j].timer == Some(s.players[j].now)
    ensures CanGo(s, n, run)
    ensures var t := Go(s, n, run);
            && |t.players| == n && s.players[j].now < t.players[j].now
            && forall i | 0 <= i < n && i != j :: t.players[i] == s.players[i]
  {
    assert Sized(s, n);
    hide Fine, Inv, Flow, EndP, Do, Enabled, Input, CanAll, DoAll, CatchUp, Happen;
    var first := HubPassesOn(s, n);
    GoFine(s, n, quantum, first);
    var t := Go(s, n, first);
    LeastIsPromised(t, n, quantum, j);
    var u := Happen(t, n, Announce(j, 0));
    var e, a := u.players[j], CatchUp(u.players[j], u.down[j]);
    CatchUpFrees(e, u.down[j]);
    ReadsAll(u, n, quantum, j, a);
    var v := Happen(u, n, Player(j, a));
    var acts := FreeAdvances(v.players[j]);
    PlayerAlone(v, n, j, acts);
    var rest := ByPlayer(j, acts);
    TwoFirst(t, n, Announce(j, 0), Player(j, a), rest);
    GoesJoin(s, n, first, [Announce(j, 0), Player(j, a)] + rest);
    run := first + ([Announce(j, 0), Player(j, a)] + rest);
    hide Go, CanGo;
  }

  lemma ReadsAll(s: Net, n: nat, quantum: int, j: nat, a: Act)
    requires Fine(s, n, quantum) && j < n && Enabled(s.players[j], a) && Input(a) == s.down[j]
    ensures CanHappen(s, n, Player(j, a))
    ensures var t := Happen(s, n, Player(j, a)); Sized(t, n) && t.players == s.players[j := Do(s.players[j], a).end]
  {
    hide Enabled, Do, Input;
  }

  lemma TwoFirst(s: Net, n: nat, a: Event, b: Event, rest: seq<Event>)
    requires CanHappen(s, n, a) && CanHappen(Happen(s, n, a), n, b) && CanGo(Happen(Happen(s, n, a), n, b), n, rest)
    ensures CanGo(s, n, [a, b] + rest) && Go(s, n, [a, b] + rest) == Go(Happen(Happen(s, n, a), n, b), n, rest)
  {
    var run := [a, b] + rest;
    assert run[0] == a && run[1..][0] == b && run[1..][1..] == rest;
    hide CanHappen, Happen;
  }

  /** How far the clocks of the first `k` players lag behind `goal` together. */
  function Lags(players: seq<End>, goal: int, k: nat): nat
    requires k <= |players|
  {
    if k == 0 then 0 else Lags(players, goal, k - 1) + Max(0, goal + 1 - players[k - 1].now)
  }

  lemma {:induction false} LagsFall(one: seq<End>, two: seq<End>, goal: int, j: nat, k: nat)
    requires k <= |one| == |two| && j < |one| && one[j].now < two[j].now && one[j].now <= goal
    requires forall i | 0 <= i < |one| && i != j :: two[i] == one[i]
    ensures if j < k then Lags(two, goal, k) < Lags(one, goal, k) else Lags(two, goal, k) == Lags(one, goal, k)
  {
    if k != 0 {
      LagsFall(one, two, goal, j, k - 1);
    }
  }

  lemma {:induction false} ClocksPass(s: Net, n: nat, quantum: int, goal: int) returns (run: seq<Event>)
    requires Fine(s, n, quantum) && 2 <= n
    ensures CanGo(s, n, run)
    ensures |Go(s, n, run).players| == n && forall i | 0 <= i < n :: goal < Go(s, n, run).players[i].now
    decreases Lags(s.players, goal, n)
  {
    assert Sized(s, n);
    var j := LeastClock(s.players, n);
    hide Fine, Go, CanGo;
    if goal < s.players[j].now {
      run := [];
      GoNowhere(s, n);
    } else {
      var first := LeastAdvances(s, n, quantum, j);
      GoFine(s, n, quantum, first);
      LagsFall(s.players, Go(s, n, first).players, goal, j, n);
      var rest := ClocksPass(Go(s, n, first), n, quantum, goal);
      GoesJoin(s, n, first, rest);
      run := first + rest;
    }
  }

  lemma GoNowhere(s: Net, n: nat)
    ensures CanGo(s, n, []) && Go(s, n, []) == s
  {
  }

  /** Liveness of the segment: from every reachable state, and for every guest time, some run brings every player's clock past it. */
  lemma SegmentTimeGoesOn(s: Net, n: nat, quantum: int, goal: int) returns (run: seq<Event>)
    requires ReachableNet(s, n, quantum) && 2 <= n
    ensures CanGo(s, n, run)
    ensures |Go(s, n, run).players| == n && forall i | 0 <= i < n :: goal < Go(s, n, run).players[i].now
  {
    hide *;
    ReachableFine(s, n, quantum);
    run := ClocksPass(s, n, quantum, goal);
  }
}
