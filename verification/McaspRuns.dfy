/**
 What the McASP sends over whole runs, told from the words accepted and the boundaries taken.
 */
module McaspRuns {
  import opened Common
  import opened Mcasp

  /** The words accepted for serializer `n`, in order. */
  function For(accepted: seq<(nat, nat)>, n: nat): seq<nat>
    decreases |accepted|
  {
    if accepted == [] then []
    else
      var last := accepted[|accepted| - 1];
      For(accepted[..|accepted| - 1], n) + if last.0 == n then [last.1] else []
  }

  /** The words moved into the shift register of serializer `n`, in order. */
  function Sent(shifted: seq<Shift>, n: nat): seq<nat>
    decreases |shifted|
  {
    if shifted == [] then []
    else
      var last := shifted[|shifted| - 1];
      Sent(shifted[..|shifted| - 1], n) + if last.serializer == n then [last.word] else []
  }

  predicate Transmits(s: Mcasp, n: nat) requires Shaped(s) { n < s.count && s.srctl[n] % 4 == 1 }

  /** A slot boundary that is accepted in an active slot. */
  predicate Taken(s: Mcasp, op: Op)
    requires Shaped(s)
  {
    op.Slot? && TxSlot(s).Some? && TxSlot(s).value.axevt
  }

  /** How many words had been accepted when a boundary last served serializer `n`. */
  function Mark(count: nat, ops: seq<Op>, n: nat): (m: nat)
    requires 0 < count <= 16
    ensures m <= |Play(count, ops).accepted|
    decreases |ops|
  {
    if ops == [] then 0
    else
      var s, op := Play(count, ops[..|ops| - 1]), ops[|ops| - 1];
      Grows(s, op);
      if Taken(s, op) && Transmits(s, n) then |s.accepted| else Mark(count, ops[..|ops| - 1], n)
  }

  /** Words are only ever added to the history. */
  lemma Grows(s: Mcasp, op: Op)
    requires Shaped(s)
    ensures s.accepted <= Do(s, op).accepted
  {
    hide Slots, NextSlot, NextTx, ActiveTx, Moves;
  }

  /** The words accepted for serializer `n` since a boundary last served it. */
  function Since(count: nat, ops: seq<Op>, n: nat): seq<nat>
    requires 0 < count <= 16
  {
    For(Play(count, ops).accepted[Mark(count, ops, n)..], n)
  }

  /** A transmitting serializer that has been given no word since it was last served. */
  predicate Starved(count: nat, ops: seq<Op>, n: nat)
    requires 0 < count <= 16
  {
    Transmits(Play(count, ops), n) && Since(count, ops, n) == []
  }

  lemma {:induction false} ForConcat(a: seq<(nat, nat)>, b: seq<(nat, nat)>, n: nat)
    ensures For(a + b, n) == For(a, n) + For(b, n)
    decreases |b|
  {
    if b == [] {
      assert a + b == a;
    } else {
      var front, last := b[..|b| - 1], b[|b| - 1];
      ForConcat(a, front, n);
      assert (a + b)[..|a + b| - 1] == a + front && (a + b)[|a + b| - 1] == last;
      ForLast(a + b, n);
      ForLast(b, n);
      hide For;
    }
  }

  lemma ForLast(a: seq<(nat, nat)>, n: nat)
    requires a != []
    ensures For(a, n) == For(a[..|a| - 1], n) + if a[|a| - 1].0 == n then [a[|a| - 1].1] else []
  {
  }

  lemma {:induction false} SentConcat(a: seq<Shift>, b: seq<Shift>, n: nat)
    ensures Sent(a + b, n) == Sent(a, n) + Sent(b, n)
    decreases |b|
  {
    if b == [] {
      assert a + b == a;
    } else {
      var front, last := b[..|b| - 1], b[|b| - 1];
      SentConcat(a, front, n);
      assert (a + b)[..|a + b| - 1] == a + front && (a + b)[|a + b| - 1] == last;
      SentLast(a + b, n);
      SentLast(b, n);
      hide Sent;
    }
  }

  lemma SentLast(a: seq<Shift>, n: nat)
    requires a != []
    ensures Sent(a, n) == Sent(a[..|a| - 1], n) + if a[|a| - 1].serializer == n then [a[|a| - 1].word] else []
  {
  }

  /** The number, from 1, of the last word accepted for `n`; 0 if there was none. */
  function Latest(accepted: seq<(nat, nat)>, n: nat): (r: nat)
    ensures r <= |accepted| && (r > 0 ==> accepted[r - 1].0 == n)
    ensures forall k | r <= k < |accepted| :: accepted[k].0 != n
    decreases |accepted|
  {
    if accepted == [] then 0
    else if accepted[|accepted| - 1].0 == n then |accepted|
    else Latest(accepted[..|accepted| - 1], n)
  }

  lemma LatestOn(accepted: seq<(nat, nat)>, e: (nat, nat), n: nat)
    ensures Latest(accepted + [e], n) == if e.0 == n then |accepted| + 1 else Latest(accepted, n)
  {
    assert (accepted + [e])[..|accepted|] == accepted;
  }

  /** The word with that number, or 0. */
  function Word(accepted: seq<(nat, nat)>, k: nat): nat
    requires k <= |accepted|
  {
    if k == 0 then 0 else accepted[k - 1].1
  }

  lemma {:induction false} LatestIsLast(accepted: seq<(nat, nat)>, n: nat)
    ensures var words := For(accepted, n);
            && (words == [] <==> Latest(accepted, n) == 0)
            && Word(accepted, Latest(accepted, n)) == if words == [] then 0 else words[|words| - 1]
    decreases |accepted|
  {
    if accepted != [] {
      LatestIsLast(accepted[..|accepted| - 1], n);
    }
  }

  lemma {:induction false} NoneSince(accepted: seq<(nat, nat)>, m: nat, n: nat)
    requires m <= |accepted|
    ensures Latest(accepted[..m], n) <= Latest(accepted, n)
    ensures For(accepted[m..], n) == [] <==> Latest(accepted, n) == Latest(accepted[..m], n)
    decreases |accepted| - m
  {
    assert For([], n) == [];
    if m == |accepted| {
      assert accepted[..m] == accepted && accepted[m..] == [];
      hide For, Latest;
    } else {
      var front, e := accepted[..|accepted| - 1], accepted[|accepted| - 1];
      hide *;
      NoneSince(front, m, n);
      assert front[..m] == accepted[..m] && accepted == front + [e] && accepted[m..] == front[m..] + [e];
      LatestOn(front, e, n);
      ForConcat(front[m..], [e], n);
      ForOne(e, n);
    }
  }

  lemma ForOne(e: (nat, nat), n: nat)
    ensures For([e], n) == if e.0 == n then [e.1] else []
  {
    var one := [e];
    assert one[..0] == [];
  }

  // ------------------------------------------------------------ the invariant

  /** Buffer and shift register of serializer `n`, by the words accepted for it up to now and up to `m`. */
  ghost predicate Kept(s: Mcasp, n: nat, m: nat) {
    && Shaped(s) && n < s.count && |s.accepted| == s.writes && m <= |s.accepted|
    && s.bufSequence[n] == Latest(s.accepted, n) && s.xbuf[n] == Word(s.accepted, Latest(s.accepted, n))
    && s.rsrSource[n] == Latest(s.accepted[..m], n) && s.xrsr[n] == Word(s.accepted, Latest(s.accepted[..m], n))
  }

  lemma NoteKept(s: Mcasp, n: nat, m: nat, at: nat, v: nat)
    requires Kept(s, n, m) && at < s.count
    ensures var r := NoteWrite(s, at, v); Kept(r, n, m) && r.accepted == s.accepted + [(at, v)] && r.shifted == s.shifted
  {
    hide Latest, ActiveTx, For, Transmits, Word;
    var more := s.accepted + [(at, v)];
    LatestOn(s.accepted, (at, v), n);
    WordGrows(s.accepted, (at, v), Latest(s.accepted, n));
    WordGrows(s.accepted, (at, v), Latest(s.accepted[..m], n));
    assert more[..m] == s.accepted[..m];
  }

  lemma WordGrows(accepted: seq<(nat, nat)>, e: (nat, nat), k: nat)
    requires k <= |accepted|
    ensures Word(accepted + [e], k) == Word(accepted, k) && Word(accepted + [e], |accepted| + 1) == e.1
  {
  }

  /** What tells the words and their history apart. */
  ghost predicate SameWords(s: Mcasp, t: Mcasp) {
    && t.count == s.count && t.writes == s.writes && t.accepted == s.accepted && t.shifted == s.shifted
    && t.xbuf == s.xbuf && t.bufSequence == s.bufSequence && t.xrsr == s.xrsr && t.rsrSource == s.rsrSource
  }

  lemma SameKept(s: Mcasp, t: Mcasp, n: nat, m: nat)
    requires Kept(s, n, m) && SameWords(s, t) && Shaped(t)
    ensures Kept(t, n, m)
  {
    hide Latest, Word;
  }

  /** A write through either port is recorded, or touches no word. */
  lemma WriteKept(s: Mcasp, op: Op, n: nat, m: nat)
    requires Kept(s, n, m) && (op.Dma? || op.Buf?)
    ensures Kept(Do(s, op), n, m) && Do(s, op).shifted == s.shifted && s.accepted <= Do(s, op).accepted
  {
    var at := if op.Dma? then s.dmaNext else op.n;
    KeptShaped(s, n, m);
    WriteDoes(s, op, at);
    hide *;
    if at < s.count {
      NoteKept(s, n, m, at, op.word);
    }
    var r := Do(s, op);
    if SameWords(s, r) {
      SameKept(s, r, n, m);
      SameHistory(s, r);
    } else {
      DmaNextFree(NoteWrite(s, at, op.word), n, m, r.dmaNext);
    }
  }

  lemma SameHistory(s: Mcasp, t: Mcasp)
    requires SameWords(s, t)
    ensures t.accepted == s.accepted && t.shifted == s.shifted
  {
  }

  /** A write through either port: noted for its serializer, or no word touched. */
  lemma WriteDoes(s: Mcasp, op: Op, at: nat)
    requires Shaped(s) && (op.Dma? || op.Buf?) && at == if op.Dma? then s.dmaNext else op.n
    ensures var r := Do(s, op);
            Shaped(r) && (SameWords(s, r) || (at < s.count && r == NoteWrite(s, at, op.word).(dmaNext := r.dmaNext)))
  {
    hide NoteWrite, NextTx;
  }

  lemma DmaNextFree(s: Mcasp, n: nat, m: nat, next: nat)
    requires Kept(s, n, m)
    ensures Kept(s.(dmaNext := next), n, m)
  {
    hide Latest, Word;
  }

  /** What a boundary that is taken does to the words: the source's loop, serializer by serializer. */
  lemma SlotWords(s: Mcasp, n: nat)
    requires Shaped(s) && Taken(s, Slot) && n < s.count
    ensures var r := Do(s, Slot);
            && Shaped(r) && r.count == s.count && r.writes == s.writes && r.accepted == s.accepted
            && r.xbuf == s.xbuf && r.bufSequence == s.bufSequence && r.srctl == s.srctl
            && (if s.srctl[n] % 4 == 1 && s.bufSequence[n] > s.rsrSource[n] then
                  r.rsrSource[n] == s.bufSequence[n] && r.xrsr[n] == s.xbuf[n]
                else r.rsrSource[n] == s.rsrSource[n] && r.xrsr[n] == s.xrsr[n])
            && r.shifted == s.shifted + Moves(s, 0)
            && r.xstat == s.xstat + {XDATA}
                          + (if exists k | 0 <= k < s.count :: s.srctl[k] % 4 == 1 && s.bufSequence[k] <= s.rsrSource[k] then {UNDERRUN} else {})
  {
    var t := s.(xslot := TxSlot(s).value.state.xslot, boundaries := s.boundaries + 1);
    SlotTransfers(s, t);
    SameMoves(s, t, 0);
    TransferWords(t, n);
    hide Moves, Do, Transfer, Taken;
  }

  lemma SlotTransfers(s: Mcasp, t: Mcasp)
    requires Shaped(s) && Taken(s, Slot) && t == s.(xslot := TxSlot(s).value.state.xslot, boundaries := s.boundaries + 1)
    ensures var r, u := Do(s, Slot), Transfer(t);
            r == u.(xrdy := r.xrdy, dmaNext := r.dmaNext, xstat := u.xstat + {XDATA}, generation := r.generation)
  {
    TransferFrame(s.(xslot := NextSlot(s.xslot, Slots(s).value), boundaries := s.boundaries + 1));
    hide Slots, NextSlot, NextTx, ActiveTx, Transfer;
  }

  lemma TransferWords(s: Mcasp, n: nat)
    requires Shaped(s) && n < s.count
    ensures var r := Transfer(s);
            && r == s.(xrsr := r.xrsr, rsrSource := r.rsrSource, xstat := r.xstat, shifted := s.shifted + Moves(s, 0))
            && Shaped(r)
            && (if s.srctl[n] % 4 == 1 && s.bufSequence[n] > s.rsrSource[n] then
                  r.rsrSource[n] == s.bufSequence[n] && r.xrsr[n] == s.xbuf[n]
                else r.rsrSource[n] == s.rsrSource[n] && r.xrsr[n] == s.xrsr[n])
            && r.xstat == s.xstat
                          + (if exists k | 0 <= k < s.count :: s.srctl[k] % 4 == 1 && s.bufSequence[k] <= s.rsrSource[k] then {UNDERRUN} else {})
  {
    assert forall k | 0 <= k < s.count :: IsTx(s, k) == (s.srctl[k] % 4 == 1);
    assert forall k | 0 <= k < s.count :: Waits(s, k) == (s.srctl[k] % 4 == 1 && s.bufSequence[k] > s.rsrSource[k]);
    hide Moves, Waits, IsTx;
  }

  lemma {:induction false} SameMoves(s: Mcasp, t: Mcasp, k: nat)
    requires Shaped(s) && k <= s.count
    requires t == s.(xslot := t.xslot, boundaries := t.boundaries)
    ensures Moves(t, k) == Moves(s, k)
    decreases s.count - k
  {
    if k < s.count {
      SameMoves(s, t, k + 1);
    }
  }

  /** The boundary in terms of the words accepted. */
  lemma SlotKept(s: Mcasp, n: nat, m: nat)
    requires Kept(s, n, m) && Taken(s, Slot)
    ensures var r := Do(s, Slot); Kept(r, n, if Transmits(s, n) then |s.accepted| else m) && r.accepted == s.accepted
  {
    SlotWords(s, n);
    NoneSince(s.accepted, m, n);
    assert s.accepted[..|s.accepted|] == s.accepted;
    hide Latest, Do, Moves, Taken, For;
  }

  lemma OpKept(s: Mcasp, op: Op, n: nat, m: nat)
    requires Kept(s, n, m)
    ensures Kept(Do(s, op), n, if Taken(s, op) && Transmits(s, n) then |s.accepted| else m)
    ensures s.accepted <= Do(s, op).accepted && (!Taken(s, op) ==> Do(s, op).shifted == s.shifted)
  {
    hide Kept;
    assert Shaped(s) && n < s.count by { KeptShaped(s, n, m); }
    match op
    case Dma(_) => WriteKept(s, op, n, m);
    case Buf(_, _) => WriteKept(s, op, n, m);
    case Slot =>
      if Taken(s, op) {
        SlotKept(s, n, m);
      } else {
        SlotPasses(s);
        SameKept(s, Do(s, op), n, m);
      }
    case _ =>
      RegisterOps(s, op);
      SameKept(s, Do(s, op), n, m);
      hide Do;
  }

  lemma KeptShaped(s: Mcasp, n: nat, m: nat)
    requires Kept(s, n, m)
    ensures Shaped(s) && n < s.count
  {
  }

  /** A boundary that is refused, or falls in an inactive slot, touches no word. */
  lemma SlotPasses(s: Mcasp)
    requires Shaped(s) && !Taken(s, Slot)
    ensures Shaped(Do(s, Slot)) && SameWords(s, Do(s, Slot))
  {
    hide Slots, NextSlot, NextTx, Transfer, ActiveTx;
  }

  lemma {:induction false} RunKept(count: nat, ops: seq<Op>, n: nat)
    requires 0 < count <= 16 && n < count
    ensures Kept(Play(count, ops), n, Mark(count, ops, n)) && Play(count, ops).count == count
    decreases |ops|
  {
    if ops == [] {
      assert Latest([], n) == 0;
      assert Play(count, ops) == Reset(count) && Mark(count, ops, n) == 0;
      hide Play, Mark, Latest;
    } else {
      RunKept(count, ops[..|ops| - 1], n);
      var s, op := Play(count, ops[..|ops| - 1]), ops[|ops| - 1];
      OpKept(s, op, n, Mark(count, ops[..|ops| - 1], n));
      SameCount(s, op);
      RunFirst(count, ops, n);
      hide *;
    }
  }

  lemma SameCount(s: Mcasp, op: Op)
    requires Shaped(s)
    ensures Do(s, op).count == s.count
  {
    hide Slots, NextSlot, NextTx, ActiveTx;
  }

  // ------------------------------------------------------------- the theorems

  /** What one boundary that is taken sends from serializer `n`. */
  lemma {:induction false} MovesSend(s: Mcasp, n: nat, k: nat)
    requires Shaped(s) && k <= s.count && n < s.count
    ensures Sent(Moves(s, k), n) == if k <= n then Owed(s, n) else []
    decreases s.count - k
  {
    if k < s.count {
      hide *;
      MovesFrom(s, k);
      MovesSend(s, n, k + 1);
      SentConcat(Here(s, k), Moves(s, k + 1), n);
      HereSends(s, n, k);
    }
  }

  /** The word serializer `n` has for the next boundary. */
  function Owed(s: Mcasp, n: nat): seq<nat>
    requires Shaped(s) && n < s.count
  {
    if s.srctl[n] % 4 == 1 && s.bufSequence[n] > s.rsrSource[n] then [s.xbuf[n]] else []
  }

  /** What serializer `k` contributes. */
  function Here(s: Mcasp, k: nat): seq<Shift>
    requires Shaped(s) && k < s.count
  {
    if Waits(s, k) then [Shift(k, s.bufSequence[k], s.xbuf[k])] else []
  }

  lemma MovesFrom(s: Mcasp, k: nat)
    requires Shaped(s) && k < s.count
    ensures Moves(s, k) == Here(s, k) + Moves(s, k + 1)
  {
    hide Waits;
  }

  lemma HereSends(s: Mcasp, n: nat, k: nat)
    requires Shaped(s) && k < s.count
    ensures Sent(Here(s, k), n) == if n == k then Owed(s, n) else []
  {
    var e := Shift(k, s.bufSequence[k], s.xbuf[k]);
    SentLast([e], n);
    assert Sent([], n) == [];
    assert [e][..0] == [];
    hide Sent;
  }

  /** What a boundary that is taken does at serializer `n`, last served when `m` words had been accepted. */
  lemma Serves(s: Mcasp, n: nat, m: nat)
    requires Kept(s, n, m) && Taken(s, Slot)
    ensures var r, words, recent := Do(s, Slot), For(s.accepted, n), For(s.accepted[m..], n);
            && Shaped(r) && n < r.count && (recent == [] <==> s.bufSequence[n] <= s.rsrSource[n])
            && (Transmits(s, n) ==> r.xrsr[n] == if words == [] then 0 else words[|words| - 1])
            && Sent(r.shifted, n) == Sent(s.shifted, n) + (if Transmits(s, n) && recent != [] then [recent[|recent| - 1]] else [])
  {
    KeptMeans(s, n, m);
    hide *;
    SlotWords(s, n);
    NoneSince(s.accepted, m, n);
    ServesWord(s, n, m);
    ServesSent(s, n, m);
  }

  lemma ServesWord(s: Mcasp, n: nat, m: nat)
    requires Kept(s, n, m) && Taken(s, Slot)
    ensures var r, words := Do(s, Slot), For(s.accepted, n);
            Shaped(r) && n < r.count && (Transmits(s, n) ==> r.xrsr[n] == if words == [] then 0 else words[|words| - 1])
  {
    KeptMeans(s, n, m);
    hide *;
    SlotWords(s, n);
    NoneSince(s.accepted, m, n);
    LatestIsLast(s.accepted, n);
  }

  lemma ServesSent(s: Mcasp, n: nat, m: nat)
    requires Kept(s, n, m) && Taken(s, Slot)
    ensures var r, recent := Do(s, Slot), For(s.accepted[m..], n);
            Sent(r.shifted, n) == Sent(s.shifted, n) + (if Transmits(s, n) && recent != [] then [recent[|recent| - 1]] else [])
  {
    KeptMeans(s, n, m);
    hide *;
    SlotWords(s, n);
    NoneSince(s.accepted, m, n);
    MovesSend(s, n, 0);
    SentConcat(s.shifted, Moves(s, 0), n);
    LatestIsLast(s.accepted, n);
    LastSince(s.accepted, m, n);
    assert Sent(Moves(s, 0), n) == if Transmits(s, n) && For(s.accepted[m..], n) != [] then [s.xbuf[n]] else [];
  }

  lemma KeptMeans(s: Mcasp, n: nat, m: nat)
    requires Kept(s, n, m)
    ensures Shaped(s) && n < s.count && m <= |s.accepted| && (Transmits(s, n) <==> s.srctl[n] % 4 == 1)
    ensures s.bufSequence[n] == Latest(s.accepted, n) && s.xbuf[n] == Word(s.accepted, Latest(s.accepted, n))
    ensures s.rsrSource[n] == Latest(s.accepted[..m], n) && s.xrsr[n] == Word(s.accepted, Latest(s.accepted[..m], n))
  {
    hide Latest, Word;
  }

  lemma PlayShaped(count: nat, ops: seq<Op>, n: nat)
    requires 0 < count <= 16 && n < count
    ensures var s, m := Play(count, ops), Mark(count, ops, n);
            Shaped(s) && s.count == count && Kept(s, n, m) && Since(count, ops, n) == For(s.accepted[m..], n)
    ensures Starved(count, ops, n) <==> Transmits(Play(count, ops), n) && Since(count, ops, n) == []
  {
    RunKept(count, ops, n);
    hide Play, Mark, Kept, Latest, For, Valid;
    KeptShaped(Play(count, ops), n, Mark(count, ops, n));
  }

  /**
   Delivery.  At every boundary taken in any run the shift register of each transmitting
   serializer gets the last word accepted for it (0 before there was one); the boundary sends that
   word if one was accepted since the serializer was last served, and otherwise nothing new.
   */
  lemma BoundaryDelivers(count: nat, ops: seq<Op>, n: nat)
    requires 0 < count <= 16 && n < count && Taken(Play(count, ops), Slot)
    ensures var s, r := Play(count, ops), Do(Play(count, ops), Slot);
            var words, recent := For(s.accepted, n), Since(count, ops, n);
            && Shaped(r) && n < r.count
            && (Transmits(s, n) ==> r.xrsr[n] == if words == [] then 0 else words[|words| - 1])
            && Sent(r.shifted, n) == Sent(s.shifted, n) + (if Transmits(s, n) && recent != [] then [recent[|recent| - 1]] else [])
  {
    hide *;
    PlayShaped(count, ops, n);
    Serves(Play(count, ops), n, Mark(count, ops, n));
  }

  /** It flags an underrun exactly when some transmitting serializer was given no word since it was last served. */
  lemma BoundaryUnderruns(count: nat, ops: seq<Op>)
    requires 0 < count <= 16 && Taken(Play(count, ops), Slot)
    ensures var s, r := Play(count, ops), Do(Play(count, ops), Slot);
            r.xstat == s.xstat + {XDATA} + (if exists n | 0 <= n < count :: Starved(count, ops, n) then {UNDERRUN} else {})
  {
    var s := Play(count, ops);
    hide *;
    PlayShaped(count, ops, 0);
    forall n | 0 <= n < count ensures Starved(count, ops, n) <==> s.srctl[n] % 4 == 1 && s.bufSequence[n] <= s.rsrSource[n] {
      PlayShaped(count, ops, n);
      KeptMeans(s, n, Mark(count, ops, n));
      Serves(s, n, Mark(count, ops, n));
    }
    SlotWords(s, 0);
  }

  /** The last word since is the last word of all. */
  lemma LastSince(accepted: seq<(nat, nat)>, m: nat, n: nat)
    requires m <= |accepted|
    ensures var all, recent := For(accepted, n), For(accepted[m..], n);
            && all == For(accepted[..m], n) + recent && (recent != [] ==> all != [] && all[|all| - 1] == recent[|recent| - 1])
  {
    assert accepted == accepted[..m] + accepted[m..];
    ForConcat(accepted[..m], accepted[m..], n);
    hide For;
  }

  /** No boundary that serves serializer `n` finds more than one new word for it. */
  ghost predicate PacedOnce(count: nat, ops: seq<Op>, n: nat)
    requires 0 < count <= 16
    decreases |ops|
  {
    ops == [] ||
    (var front := ops[..|ops| - 1];
     && PacedOnce(count, front, n)
     && (Taken(Play(count, front), ops[|ops| - 1]) && Transmits(Play(count, front), n) ==> |Since(count, front, n)| <= 1))
  }

  /**
   A serializer given at most one word between boundaries sends exactly the words accepted for
   it, in order, up to the boundary that last served it.
   */
  lemma {:induction false} WordsAreSent(count: nat, ops: seq<Op>, n: nat)
    requires 0 < count <= 16 && n < count && PacedOnce(count, ops, n)
    ensures Sent(Play(count, ops).shifted, n) == For(Play(count, ops).accepted[..Mark(count, ops, n)], n)
    decreases |ops|
  {
    if ops == [] {
      hide Valid;
    } else {
      var front, op := ops[..|ops| - 1], ops[|ops| - 1];
      var s, m := Play(count, front), Mark(count, front, n);
      RunFirst(count, ops, n);
      hide *;
      WordsAreSent(count, front, n);
      PlayShaped(count, front, n);
      OpKept(s, op, n, m);
      if Taken(s, op) {
        TakenSlot(s, op);
        BoundaryDelivers(count, front, n);
        SlotKept(s, n, m);
        LastSince(s.accepted, m, n);
        assert s.accepted[..|s.accepted|] == s.accepted;
        AtMostOne(Since(count, front, n));
      } else {
        Prefix(s.accepted, Do(s, op).accepted, m);
      }
    }
  }

  lemma AtMostOne(recent: seq<nat>)
    ensures |recent| <= 1 ==> (if recent != [] then [recent[|recent| - 1]] else []) == recent
  {
  }

  lemma Prefix(a: seq<(nat, nat)>, b: seq<(nat, nat)>, m: nat)
    requires a <= b && m <= |a|
    ensures b[..m] == a[..m]
  {
  }

  lemma TakenSlot(s: Mcasp, op: Op)
    requires Shaped(s) && Taken(s, op)
    ensures op == Slot
  {
  }

  /** One operation of a run. */
  lemma RunFirst(count: nat, ops: seq<Op>, n: nat)
    requires 0 < count <= 16 && n < count && ops != []
    ensures var front, op := ops[..|ops| - 1], ops[|ops| - 1];
            var s := Play(count, front);
            && Shaped(s) && Play(count, ops) == Do(s, op)
            && Mark(count, ops, n) == (if Taken(s, op) && Transmits(s, n) then |s.accepted| else Mark(count, front, n))
            && (PacedOnce(count, ops, n) ==>
                  PacedOnce(count, front, n) && (Taken(s, op) && Transmits(s, n) ==> |Since(count, front, n)| <= 1))
  {
    assert Shaped(Play(count, ops[..|ops| - 1]));
    hide Valid, Do, Taken, Since, Shaped;
  }

  /** A boundary is taken in the slots XTDM names, in DIT mode in all; it counts, and steps the generation once. */
  lemma TakenIn(s: Mcasp)
    requires Shaped(s) && TxSlot(s).Some?
    ensures var b := TxSlot(s).value;
            && (b.axevt <==> s.ditctl % 2 == 1 || b.state.xslot in s.xtdm)
            && b.state.generation == s.generation + (if b.axevt then 1 else 0) && b.state.boundaries == s.boundaries + 1
            && (b.axevt ==> (forall n :: n in b.state.xrdy <==> Transmits(s, n)))
  {
    hide Slots, NextSlot, Moves, NextTx;
  }
}
