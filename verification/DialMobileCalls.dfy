/** One call by itself: what is known about it, how each move changes that, and what every move keeps. */
module DialMobileCalls {
  import opened Wrappers
  import opened Identifiers
  import opened DialMobileModel

  /** A call with the pushes and the legs that the trace records for it. */
  datatype Known = Known(v: Call, pushes: Trace, legs: Trace)

  function KnownOf(s: State, c: CallId): Known
  {
    Known(CallOf(s, c), Log(s.history.trace, PushOf(c)), Log(s.history.trace, LegOf(c)))
  }

  function AddTo(log: Trace, effect: Option<Effect>, topic: Topic): Trace
  {
    if effect.Some? && About(effect.value, topic) then Then(log, effect.value) else log
  }

  function After(c: CallId, k: Known, move: Move): Known
    requires CanMove(k.v, move)
  {
    var did := Make(c, k.v, move);
    Known(did.call, AddTo(k.pushes, did.effect, PushOf(c)), AddTo(k.legs, did.effect, LegOf(c)))
  }

  // ---- What holds of every call, in every run ----

  predicate IsLeg(c: CallId, legs: Trace, leg: ChannelId)
  {
    legs.Then? && legs.past.Empty? && legs.last.LegOriginated? && legs.last.call == c && legs.last.leg == leg
  }

  predicate IsArming(f: Option<PstnFallback>) { f == Some(FallbackPending) || f == Some(Triggering) }

  /** Whoever is in a block has a reason to be there. */
  predicate BlockIsSound(c: CallId, k: Known, w: Worker, b: Block)
  {
    var v := k.v;
    match w
    case Sender =>
      && b.locked && v.send.None? && v.timer.None? && k.legs == Empty
      && b.incoming.Some? && b.incoming.value.Notified? && k.pushes == Then(Empty, PushSent(c, b.incoming.value.info))
      && (b.fallback.None? || b.fallback == Some(FallbackPending))
      && !(v.incoming.Some? && v.incoming.value.Notified?)
    case Timer =>
      && b.locked && v.timer.Some?
      && (match v.timer.value
          case ReadPush => b == Block(true, None, Some(Triggering)) && k.legs == Empty
          case LegUp => b.incoming.None? && b.fallback.Some? && b.fallback.value.Dialing?
              && IsLeg(c, k.legs, b.fallback.value.leg)
          case Finished =>
            || (b == Block(true, None, Some(FallbackCancelled)) && k.legs == Empty)
            || (&& (b.incoming.None? || b.incoming.value.PushCancelled?)
                && b.fallback.Some? && b.fallback.value.Dialing? && IsLeg(c, k.legs, b.fallback.value.leg))
          case _ => false)
    case _ =>
      || (b.incoming.Some? && b.incoming.value.Terminal() && b.fallback.None?)
      || (&& b.locked && b.incoming.None? && b.fallback.Some? && v.timer.Some?
          && (match b.fallback.value
              case FallbackCancelled => true
              case DialAnswered(leg) => IsLeg(c, k.legs, leg) && v.timer == Some(Finished)
              case _ => false))
  }

  predicate BlocksAreSound(c: CallId, k: Known)
  {
    forall w :: w in k.v.blocks ==> BlockIsSound(c, k, w, k.v.blocks[w])
  }

  predicate Holds(v: Call, w: Worker) { w in v.blocks && v.blocks[w].locked }

  /** At most one worker holds the lock, and while there is a lock nobody is in a block without it. */
  ghost predicate OneHolder(v: Call)
  {
    && (forall w, w' :: Holds(v, w) && Holds(v, w') ==> w == w')
    && (v.locked ==> forall w :: w in v.blocks ==> Holds(v, w))
  }

  predicate EntriesAreSound(c: CallId, k: Known)
  {
    var v := k.v;
    && (!v.requested ==>
          v == Call(None, None, false, None, false, None, None, map[]) && k.pushes == Empty && k.legs == Empty)
    && (v.send.Some? ==> k.pushes == Empty && v.timer.None?)
    && (v.timer.None? ==> v.fallback.None? && k.legs == Empty)
    && (v.timer.Some? ==> v.send.None? && Sender !in v.blocks)
    && (v.incoming.Some? && v.incoming.value.Pending? ==> v.send == Some(v.incoming.value.info) || Sender in v.blocks)
    && (v.incoming.Some? && v.incoming.value.Notified? ==> k.pushes != Empty && v.send.None?)
    && (k.pushes != Empty ==> v.send.None?)
  }

  predicate LegsAreSound(c: CallId, k: Known)
  {
    var v := k.v;
    && (k.legs != Empty ==>
          && k.legs.past.Empty? && k.legs.last.LegOriginated? && k.legs.last.call == c
          && (v.timer == Some(LegUp) || v.timer == Some(Finished)))
    && (v.timer == Some(LegUp) ==> Timer in v.blocks)
    && (HasLeg(v.fallback) ==>
          IsLeg(c, k.legs, v.fallback.value.leg) && v.timer == Some(Finished) && Timer !in v.blocks)
    && (IsArming(v.fallback) && k.legs != Empty ==> Timer in v.blocks)
  }

  ghost predicate Base(c: CallId, k: Known)
  {
    BlocksAreSound(c, k) && OneHolder(k.v) && EntriesAreSound(c, k) && LegsAreSound(c, k)
  }

  /** Who enters a block, or changes the one it is in, by a move. */
  function WorkerOf(move: Move): Worker
  {
    match move
    case CancelsPush(w) => w
    case CompletesPush(w) => w
    case CancelsFallback(w) => w
    case EntersLate(w, _) => w
    case Leaves(w) => w
    case Sends(_) => Sender
    case Joins(_) => Stasis
    case _ => Timer
  }

  /** What the others are going to write stays as it is. */
  lemma OtherBlocksStay(c: CallId, v: Call, move: Move, w: Worker)
    requires CanMove(v, move) && w != WorkerOf(move)
    ensures Get(Make(c, v, move).call.blocks, w) == Get(v.blocks, w)
  {
    if WorkerOf(move) == Timer {
      TimerLeavesOthers(c, v, move, w);
    } else {
      EnteringLeavesOthers(c, v, move, w);
    }
  }

  lemma TimerLeavesOthers(c: CallId, v: Call, move: Move, w: Worker)
    requires CanMove(v, move) && w != WorkerOf(move) && WorkerOf(move) == Timer
    ensures Get(Make(c, v, move).call.blocks, w) == Get(v.blocks, w)
  {
  }

  lemma EnteringLeavesOthers(c: CallId, v: Call, move: Move, w: Worker)
    requires CanMove(v, move) && w != WorkerOf(move) && WorkerOf(move) != Timer
    ensures Get(Make(c, v, move).call.blocks, w) == Get(v.blocks, w)
  {
  }

  lemma HoldersAfter(c: CallId, k: Known, move: Move, w: Worker)
    requires Base(c, k) && CanMove(k.v, move) && Holds(After(c, k, move).v, w) && w != WorkerOf(move)
    ensures Holds(k.v, w)
  {
    OtherBlocksStay(c, k.v, move, w);
  }

  lemma EntersAlone(c: CallId, k: Known, move: Move, w: Worker)
    requires Base(c, k) && CanMove(k.v, move) && Holds(After(c, k, move).v, WorkerOf(move)) && w != WorkerOf(move)
    ensures !Holds(k.v, w)
  {
    assert Holds(k.v, WorkerOf(move)) ==> !Holds(k.v, w);
  }

  lemma MovesKeepOneHolder(c: CallId, k: Known, move: Move)
    requires Base(c, k) && CanMove(k.v, move)
    ensures OneHolder(After(c, k, move).v)
  {
    var v' := After(c, k, move).v;
    forall w, w' | Holds(v', w) && Holds(v', w') ensures w == w' {
      if w != WorkerOf(move) {
        HoldersAfter(c, k, move, w);
      }
      if w' != WorkerOf(move) {
        HoldersAfter(c, k, move, w');
      }
      if w != w' && w == WorkerOf(move) {
        EntersAlone(c, k, move, w');
      } else if w != w' && w' == WorkerOf(move) {
        EntersAlone(c, k, move, w);
      }
    }
    if v'.locked {
      forall w | w in v'.blocks ensures Holds(v', w) {
        assert w in k.v.blocks && k.v.locked ==> Holds(k.v, w);
      }
    }
  }

  lemma LeavingKeepsEntries(c: CallId, k: Known, w: Worker)
    requires Base(c, k) && CanMove(k.v, Leaves(w))
    ensures EntriesAreSound(c, After(c, k, Leaves(w)))
  {
    assert BlockIsSound(c, k, w, k.v.blocks[w]);
  }

  lemma TimerKeepsEntries(c: CallId, k: Known, move: Move)
    requires Base(c, k) && CanMove(k.v, move) && WorkerOf(move) == Timer && !move.Leaves?
    ensures EntriesAreSound(c, After(c, k, move))
  {
  }

  lemma EnteringKeepsEntries(c: CallId, k: Known, move: Move)
    requires Base(c, k) && CanMove(k.v, move) && !move.Leaves? && WorkerOf(move) != Timer
    ensures EntriesAreSound(c, After(c, k, move))
  {
  }

  lemma MovesKeepEntries(c: CallId, k: Known, move: Move)
    requires Base(c, k) && CanMove(k.v, move)
    ensures EntriesAreSound(c, After(c, k, move))
  {
    if move.Leaves? {
      LeavingKeepsEntries(c, k, move.worker);
    } else if WorkerOf(move) == Timer {
      TimerKeepsEntries(c, k, move);
    } else {
      EnteringKeepsEntries(c, k, move);
    }
  }

  lemma LeavingKeepsLegs(c: CallId, k: Known, w: Worker)
    requires Base(c, k) && CanMove(k.v, Leaves(w))
    ensures LegsAreSound(c, After(c, k, Leaves(w)))
  {
    if Timer in k.v.blocks {
      assert Holds(k.v, Timer);
      assert Holds(k.v, w) ==> w == Timer;
    }
  }

  lemma TimerKeepsLegs(c: CallId, k: Known, move: Move)
    requires Base(c, k) && CanMove(k.v, move) && WorkerOf(move) == Timer && !move.Leaves?
    ensures LegsAreSound(c, After(c, k, move))
  {
  }

  lemma EnteringKeepsLegs(c: CallId, k: Known, move: Move)
    requires Base(c, k) && CanMove(k.v, move) && !move.Leaves? && WorkerOf(move) != Timer
    ensures LegsAreSound(c, After(c, k, move))
  {
  }

  lemma MovesKeepLegs(c: CallId, k: Known, move: Move)
    requires Base(c, k) && CanMove(k.v, move)
    ensures LegsAreSound(c, After(c, k, move))
  {
    if move.Leaves? {
      LeavingKeepsLegs(c, k, move.worker);
    } else if WorkerOf(move) == Timer {
      TimerKeepsLegs(c, k, move);
    } else {
      EnteringKeepsLegs(c, k, move);
    }
  }

  lemma MovesKeepBlock(c: CallId, k: Known, move: Move, w: Worker)
    requires Base(c, k) && CanMove(k.v, move) && w in k.v.blocks && w in After(c, k, move).v.blocks
        && w != WorkerOf(move)
    ensures BlockIsSound(c, After(c, k, move), w, k.v.blocks[w]) && After(c, k, move).v.blocks[w] == k.v.blocks[w]
  {
    OtherBlocksStay(c, k.v, move, w);
    if move.Leaves? {
      LeavingKeepsBlock(c, k, move.worker, w);
    } else if WorkerOf(move) == Timer {
      TimerKeepsBlock(c, k, move, w);
    } else {
      EnteringKeepsBlock(c, k, move, w);
    }
  }

  lemma LeavingKeepsBlock(c: CallId, k: Known, left: Worker, w: Worker)
    requires Base(c, k) && CanMove(k.v, Leaves(left)) && w in k.v.blocks && w != left
    ensures BlockIsSound(c, After(c, k, Leaves(left)), w, k.v.blocks[w])
  {
    assert BlockIsSound(c, k, w, k.v.blocks[w]) && BlockIsSound(c, k, left, k.v.blocks[left]);
    assert Holds(k.v, left) ==> !Holds(k.v, w);
  }

  lemma TimerKeepsBlock(c: CallId, k: Known, move: Move, w: Worker)
    requires Base(c, k) && CanMove(k.v, move) && WorkerOf(move) == Timer && !move.Leaves?
    requires w in k.v.blocks && w != Timer
    ensures BlockIsSound(c, After(c, k, move), w, k.v.blocks[w])
  {
    assert BlockIsSound(c, k, w, k.v.blocks[w]);
    assert Holds(k.v, Timer) ==> !Holds(k.v, w);
  }

  lemma EnteringKeepsBlock(c: CallId, k: Known, move: Move, w: Worker)
    requires Base(c, k) && CanMove(k.v, move) && WorkerOf(move) != Timer && !move.Leaves?
    requires w in k.v.blocks && w != WorkerOf(move)
    ensures BlockIsSound(c, After(c, k, move), w, k.v.blocks[w])
  {
    assert BlockIsSound(c, k, w, k.v.blocks[w]);
  }

  lemma TimerEntersSoundly(c: CallId, k: Known, move: Move)
    requires Base(c, k) && CanMove(k.v, move) && WorkerOf(move) == Timer && Timer in After(c, k, move).v.blocks
    ensures BlockIsSound(c, After(c, k, move), Timer, After(c, k, move).v.blocks[Timer])
  {
    if Timer in k.v.blocks {
      assert BlockIsSound(c, k, Timer, k.v.blocks[Timer]);
    }
  }

  lemma OthersEnterSoundly(c: CallId, k: Known, move: Move)
    requires Base(c, k) && CanMove(k.v, move) && WorkerOf(move) != Timer && WorkerOf(move) in After(c, k, move).v.blocks
    ensures BlockIsSound(c, After(c, k, move), WorkerOf(move), After(c, k, move).v.blocks[WorkerOf(move)])
  {
    if Timer in k.v.blocks {
      assert Holds(k.v, Timer);
    }
  }

  lemma MovesEnterSoundly(c: CallId, k: Known, move: Move)
    requires Base(c, k) && CanMove(k.v, move) && WorkerOf(move) in After(c, k, move).v.blocks
    ensures BlockIsSound(c, After(c, k, move), WorkerOf(move), After(c, k, move).v.blocks[WorkerOf(move)])
  {
    if WorkerOf(move) == Timer {
      TimerEntersSoundly(c, k, move);
    } else {
      OthersEnterSoundly(c, k, move);
    }
  }

  lemma MovesKeepBlocks(c: CallId, k: Known, move: Move)
    requires Base(c, k) && CanMove(k.v, move)
    ensures BlocksAreSound(c, After(c, k, move))
  {
    var k' := After(c, k, move);
    forall w | w in k'.v.blocks ensures BlockIsSound(c, k', w, k'.v.blocks[w]) {
      if w == WorkerOf(move) {
        MovesEnterSoundly(c, k, move);
      } else {
        assert w in k.v.blocks;
        MovesKeepBlock(c, k, move, w);
      }
    }
  }

  /** Every move, of every thread, keeps this. */
  lemma MovesKeepBase(c: CallId, k: Known, move: Move)
    requires Base(c, k) && CanMove(k.v, move)
    ensures Base(c, After(c, k, move))
  {
    MovesKeepOneHolder(c, k, move);
    MovesKeepEntries(c, k, move);
    MovesKeepLegs(c, k, move);
    MovesKeepBlocks(c, k, move);
  }

  // ---- What holds as long as blocks exclude each other ----

  predicate IsLive(v: Call) { v.incoming.Some? && !v.incoming.value.Terminal() }

  predicate LegalPushes(c: CallId, pushes: Trace)
  {
    match pushes
    case Empty => true
    case Then(Empty, PushSent(d, _)) => d == c
    case Then(Then(Empty, PushSent(d, info)), e) => d == c && e == PushCancelSent(c, info)
    case _ => false
  }

  predicate NotCancelled(pushes: Trace) { pushes == Empty || pushes.last.PushSent? }

  predicate IsCancelled(pushes: Trace) { pushes == Empty || pushes.last.PushCancelSent? }

  /** At most one worker is in a block about the call. */
  predicate Alone(v: Call)
  {
    forall w, w' :: w in v.blocks && w' in v.blocks ==> w == w'
  }

  /** While a call has a lock, its blocks exclude each other. */
  lemma LockedIsAlone(c: CallId, k: Known)
    requires Base(c, k) && k.v.locked
    ensures Alone(k.v)
  {
    forall w, w' | w in k.v.blocks && w' in k.v.blocks ensures w == w' {
      assert Holds(k.v, w) && Holds(k.v, w');
    }
  }

  /** The worker is about to write that the push is cancelled. */
  predicate Cancelling(v: Call, w: Worker)
  {
    w in v.blocks && v.blocks[w].incoming.Some? && v.blocks[w].incoming.value.PushCancelled?
  }

  /** A block that is going to end the push read it before, and the trace says what it read. */
  predicate EndIsSound(k: Known, b: Block)
  {
    b.incoming.Some? && b.incoming.value.Terminal() ==>
      && (k.v.incoming.None? || !k.v.incoming.value.Terminal())
      && (if b.incoming.value.Received? then NotCancelled(k.pushes) else IsCancelled(k.pushes))
  }

  /** What the trace says about a push that is out, or over. */
  ghost predicate IncomingIsSound(c: CallId, k: Known)
  {
    match k.v.incoming
    case Some(Notified(info)) => k.pushes == Then(Empty, PushSent(c, info)) || exists w :: Cancelling(k.v, w)
    case Some(Received(_)) => NotCancelled(k.pushes)
    case Some(PushCancelled(_)) => IsCancelled(k.pushes)
    case _ => true
  }

  ghost predicate Orderly(c: CallId, k: Known)
  {
    var v := k.v;
    && Alone(v)
    && (forall w :: w in v.blocks ==> EndIsSound(k, v.blocks[w]))
    && (Sender in v.blocks ==> v.incoming.None? || v.incoming.value.Pending?)
    && LegalPushes(c, k.pushes) && IncomingIsSound(c, k)
  }

  /** The moves that read the push in order to end it. */
  predicate ReadsPushToEnd(move: Move)
  {
    || move.CancelsPush? || move.CompletesPush? || move.CancelsPushOfLeg?
    || (move.EntersLate? && !move.purpose.ToCancelFallback?)
  }

  /** Who reads a live push in order to end it is alone with it, and the trace says what it reads. */
  lemma ReadsAlone(c: CallId, k: Known, move: Move)
    requires Base(c, k) && Orderly(c, k) && CanMove(k.v, move) && Alone(After(c, k, move).v) && IsLive(k.v)
    requires ReadsPushToEnd(move)
    ensures k.pushes == if k.v.incoming.value.Notified? then Then(Empty, PushSent(c, k.v.incoming.value.info))
        else Empty
    ensures WorkerOf(move) in After(c, k, move).v.blocks
    ensures forall w :: w in k.v.blocks ==> w == WorkerOf(move) && move.CancelsPushOfLeg?
  {
    var w := WorkerOf(move);
    assert w in After(c, k, move).v.blocks;
    forall u | u in k.v.blocks ensures u == w && move.CancelsPushOfLeg? {
      assert u in After(c, k, move).v.blocks;
    }
    if w in k.v.blocks {
      assert BlockIsSound(c, k, w, k.v.blocks[w]);
    }
    assert forall u :: Cancelling(k.v, u) ==> u in k.v.blocks;
  }

  /** While a worker is in its block, no move of another one pushes or writes the incoming call. */
  lemma OthersWait(c: CallId, k: Known, move: Move, w: Worker)
    requires Base(c, k) && Orderly(c, k) && CanMove(k.v, move) && Alone(After(c, k, move).v)
    requires w in k.v.blocks && w in After(c, k, move).v.blocks && w != WorkerOf(move)
    ensures After(c, k, move).pushes == k.pushes && After(c, k, move).v.blocks[w] == k.v.blocks[w]
    ensures After(c, k, move).v.incoming == k.v.incoming || After(c, k, move).v.incoming.None?
  {
    assert WorkerOf(move) !in After(c, k, move).v.blocks && WorkerOf(move) !in k.v.blocks;
  }

  lemma MovesKeepEnds(c: CallId, k: Known, move: Move, w: Worker)
    requires Base(c, k) && Orderly(c, k) && CanMove(k.v, move) && Alone(After(c, k, move).v)
        && w in After(c, k, move).v.blocks
    ensures EndIsSound(After(c, k, move), After(c, k, move).v.blocks[w])
  {
    if w in k.v.blocks && w != WorkerOf(move) {
      OthersWait(c, k, move, w);
      assert EndIsSound(k, k.v.blocks[w]);
    } else {
      EntersSoundly(c, k, move);
    }
  }

  lemma EntersSoundly(c: CallId, k: Known, move: Move)
    requires Base(c, k) && Orderly(c, k) && CanMove(k.v, move) && Alone(After(c, k, move).v)
        && WorkerOf(move) in After(c, k, move).v.blocks
    ensures EndIsSound(After(c, k, move), After(c, k, move).v.blocks[WorkerOf(move)])
  {
    var w := WorkerOf(move);
    if w in k.v.blocks {
      assert EndIsSound(k, k.v.blocks[w]) && BlockIsSound(c, k, w, k.v.blocks[w]);
    }
    if IsLive(k.v) && ReadsPushToEnd(move) {
      ReadsAlone(c, k, move);
    }
  }

  lemma MovesKeepPushes(c: CallId, k: Known, move: Move)
    requires Base(c, k) && Orderly(c, k) && CanMove(k.v, move) && Alone(After(c, k, move).v)
    ensures LegalPushes(c, After(c, k, move).pushes)
  {
    if IsLive(k.v) && ReadsPushToEnd(move) {
      ReadsAlone(c, k, move);
    }
  }

  lemma LeavingKeepsIncoming(c: CallId, k: Known, w: Worker)
    requires Base(c, k) && Orderly(c, k) && CanMove(k.v, Leaves(w))
    ensures IncomingIsSound(c, After(c, k, Leaves(w)))
  {
    assert BlockIsSound(c, k, w, k.v.blocks[w]) && EndIsSound(k, k.v.blocks[w]);
    assert forall u :: Cancelling(k.v, u) ==> u == w;
  }

  lemma EndingKeepsIncoming(c: CallId, k: Known, move: Move)
    requires Base(c, k) && Orderly(c, k) && CanMove(k.v, move) && Alone(After(c, k, move).v)
    requires IsLive(k.v) && ReadsPushToEnd(move)
    ensures IncomingIsSound(c, After(c, k, move))
  {
    ReadsAlone(c, k, move);
    assert k.pushes != After(c, k, move).pushes ==> Cancelling(After(c, k, move).v, WorkerOf(move));
  }

  lemma TimerKeepsIncoming(c: CallId, k: Known, move: Move)
    requires Base(c, k) && Orderly(c, k) && CanMove(k.v, move) && Alone(After(c, k, move).v)
    requires WorkerOf(move) == Timer && !move.Leaves? && !(IsLive(k.v) && ReadsPushToEnd(move))
    ensures IncomingIsSound(c, After(c, k, move))
  {
    if u :| Cancelling(k.v, u) {
      assert BlockIsSound(c, k, u, k.v.blocks[u]);
      assert Cancelling(After(c, k, move).v, u);
    }
  }

  lemma EnteringKeepsIncoming(c: CallId, k: Known, move: Move)
    requires Base(c, k) && Orderly(c, k) && CanMove(k.v, move) && Alone(After(c, k, move).v)
    requires WorkerOf(move) != Timer && !move.Leaves? && !(IsLive(k.v) && ReadsPushToEnd(move))
    ensures IncomingIsSound(c, After(c, k, move))
  {
    if u :| Cancelling(k.v, u) {
      assert BlockIsSound(c, k, u, k.v.blocks[u]);
      assert Cancelling(After(c, k, move).v, u);
    }
  }

  lemma MovesKeepIncoming(c: CallId, k: Known, move: Move)
    requires Base(c, k) && Orderly(c, k) && CanMove(k.v, move) && Alone(After(c, k, move).v)
    ensures IncomingIsSound(c, After(c, k, move))
  {
    if move.Leaves? {
      LeavingKeepsIncoming(c, k, move.worker);
    } else if IsLive(k.v) && ReadsPushToEnd(move) {
      EndingKeepsIncoming(c, k, move);
    } else if WorkerOf(move) == Timer {
      TimerKeepsIncoming(c, k, move);
    } else {
      EnteringKeepsIncoming(c, k, move);
    }
  }

  /** Every move keeps order, as long as it leads to no second worker in a block. */
  lemma MovesKeepOrder(c: CallId, k: Known, move: Move)
    requires Base(c, k) && Orderly(c, k) && CanMove(k.v, move) && Alone(After(c, k, move).v)
    ensures Orderly(c, After(c, k, move))
  {
    var k' := After(c, k, move);
    forall w | w in k'.v.blocks ensures EndIsSound(k', k'.v.blocks[w]) {
      MovesKeepEnds(c, k, move, w);
    }
    MovesKeepPushes(c, k, move);
    MovesKeepIncoming(c, k, move);
    if Sender in k'.v.blocks && Sender in k.v.blocks && WorkerOf(move) in k.v.blocks {
      assert WorkerOf(move) == Sender;
    }
  }

  // ---- What holds as long as nobody is in a block during a prune ----

  predicate HasLeg(f: Option<PstnFallback>) { f.Some? && (f.value.Dialing? || f.value.DialAnswered?) }

  predicate PushIsOver(v: Call) { v.incoming.Some? && v.incoming.value.Terminal() }

  /** The dictionaries about a call agree, and a leg is dialed only when the push is over. */
  ghost predicate Keyed(v: Call)
  {
    && (v.incoming.Some? <==> v.locked) && (v.ringTime.Some? <==> v.locked)
    && (v.fallback.Some? ==> v.locked)
    && (v.blocks != map[] ==> v.locked)
    && (HasLeg(v.fallback) ==> PushIsOver(v))
    && (forall w :: w in v.blocks && v.blocks[w].fallback.Some? && v.blocks[w].fallback.value.DialAnswered? ==>
          PushIsOver(v))
    && (Timer in v.blocks && v.timer == Some(Finished) && HasLeg(v.blocks[Timer].fallback) ==>
          v.blocks[Timer].incoming.Some? || PushIsOver(v))
  }

  /** Every move but a pop keeps the dictionaries in agreement. */
  lemma MovesKeepKeys(c: CallId, k: Known, move: Move)
    requires Base(c, k) && Keyed(k.v) && CanMove(k.v, move) && !move.Pops?
    ensures Keyed(After(c, k, move).v)
  {
    var w := WorkerOf(move);
    if w in k.v.blocks {
      assert BlockIsSound(c, k, w, k.v.blocks[w]) && Holds(k.v, w);
    }
    if Timer in k.v.blocks {
      assert BlockIsSound(c, k, Timer, k.v.blocks[Timer]) && Holds(k.v, Timer);
    }
    if k.v.blocks == map[] {
      assert k.v.blocks - {w} == map[];
    }
  }

  // ---- What stays true once it is true ----

  /** Pruned, with nobody in a block about the call. */
  predicate Gone(k: Known)
  {
    k.v.requested && k.v.incoming.None? && k.v.fallback.None? && !k.v.locked && k.v.ringTime.None?
        && k.v.blocks == map[]
  }

  /** The fallback was armed once and can originate nothing any more. */
  predicate Closed(k: Known)
  {
    k.v.timer.Some? && !IsArming(k.v.fallback) && (Timer in k.v.blocks ==> !IsArming(k.v.blocks[Timer].fallback))
  }

  /** Nothing is pushed any more: the push is over or its call pruned before it was sent, or somebody who holds
      the lock is going to end it. */
  ghost predicate Barred(k: Known)
  {
    && k.v.requested && k.pushes == Empty && k.v.timer.None? && Sender !in k.v.blocks
    && (!IsLive(k.v) || exists w :: Holds(k.v, w) && k.v.blocks[w].incoming.Some?)
  }

  /** The mobile answered, whether or not the call is still known. */
  predicate Answered(k: Known, info: PushInfo)
  {
    && k.v.requested && Sender !in k.v.blocks
    && (k.v.incoming == Some(Received(info)) || k.v.incoming.None?)
    && forall w :: w in k.v.blocks ==> k.v.blocks[w].incoming.None?
  }

  predicate IsReceived(i: Option<IncomingCall>) { i.Some? && i.value.Received? }

  /** The push is over, or its call pruned, and nobody is sending it. */
  predicate Over(c: CallId, k: Known)
  {
    && k.v.requested && Sender !in k.v.blocks && !IsLive(k.v) && LegalPushes(c, k.pushes)
    && (IsReceived(k.v.incoming) ==> NotCancelled(k.pushes))
    && (forall w :: w in k.v.blocks && IsReceived(k.v.blocks[w].incoming) ==> NotCancelled(k.pushes))
  }

  /** There is no fallback, nobody is going to write one, and there is no lock. */
  predicate Harmless(k: Known)
  {
    && k.v.requested && k.v.fallback.None? && !k.v.locked && !(k.v.incoming.Some? && k.v.incoming.value.Pending?)
    && forall w :: w in k.v.blocks ==> k.v.blocks[w].fallback.None?
  }

  lemma OverIsForever(c: CallId, k: Known, move: Move)
    requires Base(c, k) && Over(c, k) && CanMove(k.v, move)
    ensures Over(c, After(c, k, move)) && After(c, k, move).pushes == k.pushes
  {
    if move.Leaves? {
      LeavingKeepsOver(c, k, move.worker);
    } else if WorkerOf(move) == Timer {
      TimerKeepsOver(c, k, move);
    } else {
      EnteringKeepsOver(c, k, move);
    }
  }

  lemma TimerKeepsOver(c: CallId, k: Known, move: Move)
    requires Base(c, k) && Over(c, k) && CanMove(k.v, move) && !move.Leaves? && WorkerOf(move) == Timer
    ensures Over(c, After(c, k, move)) && After(c, k, move).pushes == k.pushes
  {
  }

  lemma EnteringKeepsOver(c: CallId, k: Known, move: Move)
    requires Base(c, k) && Over(c, k) && CanMove(k.v, move) && !move.Leaves? && WorkerOf(move) != Timer
    ensures Over(c, After(c, k, move)) && After(c, k, move).pushes == k.pushes
  {
  }

  /** The timer thread gave up before it originated a leg. */
  predicate GivenUp(k: Known)
  {
    (k.v.timer == Some(Aborting) || k.v.timer == Some(Finished)) && k.legs == Empty
  }

  /** And its fallback, which was Triggering, can only become Cancelled. */
  predicate Aborted(k: Known)
  {
    && GivenUp(k)
    && (k.v.fallback.Some? ==> k.v.fallback.value.Triggering? || k.v.fallback.value.FallbackCancelled?)
    && (forall w :: w in k.v.blocks && k.v.blocks[w].fallback.Some? ==> k.v.blocks[w].fallback.value.FallbackCancelled?)
  }

  lemma GivenUpIsForever(c: CallId, k: Known, move: Move)
    requires Base(c, k) && GivenUp(k) && CanMove(k.v, move)
    ensures GivenUp(After(c, k, move))
  {
  }

  lemma AbortedIsForever(c: CallId, k: Known, move: Move)
    requires Base(c, k) && Aborted(k) && CanMove(k.v, move)
    ensures Aborted(After(c, k, move))
  {
    var k' := After(c, k, move);
    GivenUpIsForever(c, k, move);
    AbortedFallback(c, k, move);
    forall w | w in k'.v.blocks && k'.v.blocks[w].fallback.Some?
        ensures k'.v.blocks[w].fallback.value.FallbackCancelled? {
      if w == WorkerOf(move) {
        AbortedEnters(c, k, move);
      } else {
        OtherBlocksStay(c, k.v, move, w);
      }
    }
  }

  lemma AbortedFallback(c: CallId, k: Known, move: Move)
    requires Base(c, k) && Aborted(k) && CanMove(k.v, move)
    ensures var f := After(c, k, move).v.fallback; f.Some? ==> f.value.Triggering? || f.value.FallbackCancelled?
  {
  }

  lemma AbortedEnters(c: CallId, k: Known, move: Move)
    requires Base(c, k) && Aborted(k) && CanMove(k.v, move) && WorkerOf(move) in After(c, k, move).v.blocks
    ensures var f := After(c, k, move).v.blocks[WorkerOf(move)].fallback; f.Some? ==> f.value.FallbackCancelled?
  {
  }

  /** The timer thread reads a push that is over or gone, or finds that nobody can be reached: it gives up. */
  lemma ReadingGivesUp(c: CallId, k: Known, usable: bool)
    requires Base(c, k) && CanMove(k.v, ReadsPush(usable)) && !(IsLive(k.v) && usable)
    ensures GivenUp(After(c, k, ReadsPush(usable)))
    ensures k.v.fallback == Some(Triggering) ==> Aborted(After(c, k, ReadsPush(usable)))
  {
    forall w | w in k.v.blocks ensures k.v.blocks[w].fallback.Some?
        ==> k.v.blocks[w].fallback.value.FallbackCancelled? {
      assert BlockIsSound(c, k, w, k.v.blocks[w]);
    }
  }

  lemma LeavingKeepsOver(c: CallId, k: Known, w: Worker)
    requires Base(c, k) && Over(c, k) && CanMove(k.v, Leaves(w))
    ensures Over(c, After(c, k, Leaves(w))) && After(c, k, Leaves(w)).pushes == k.pushes
  {
    assert BlockIsSound(c, k, w, k.v.blocks[w]);
  }

  lemma GoneIsForever(c: CallId, k: Known, move: Move)
    requires Base(c, k) && Gone(k) && CanMove(k.v, move)
    ensures Gone(After(c, k, move)) && After(c, k, move).pushes == k.pushes && After(c, k, move).legs == k.legs
  {
  }

  lemma ClosedIsForever(c: CallId, k: Known, move: Move)
    requires Base(c, k) && Closed(k) && CanMove(k.v, move)
    ensures Closed(After(c, k, move)) && After(c, k, move).legs == k.legs
  {
    if move.Leaves? {
      assert BlockIsSound(c, k, move.worker, k.v.blocks[move.worker]);
    }
    if Timer in k.v.blocks {
      assert BlockIsSound(c, k, Timer, k.v.blocks[Timer]);
    }
  }

  lemma BarredIsForever(c: CallId, k: Known, move: Move)
    requires Base(c, k) && Barred(k) && CanMove(k.v, move)
    ensures Barred(After(c, k, move))
  {
    if move.Leaves? {
      assert BlockIsSound(c, k, move.worker, k.v.blocks[move.worker]);
    }
    if w :| Holds(k.v, w) && k.v.blocks[w].incoming.Some? {
      assert Holds(After(c, k, move).v, w) || (move.Leaves? && move.worker == w);
    }
  }

  lemma AnsweredIsForever(c: CallId, k: Known, move: Move, info: PushInfo)
    requires Base(c, k) && Answered(k, info) && CanMove(k.v, move)
    ensures Answered(After(c, k, move), info) && After(c, k, move).pushes == k.pushes
  {
    if WorkerOf(move) == Timer {
      TimerKeepsAnswered(c, k, move, info);
    } else {
      OthersKeepAnswered(c, k, move, info);
    }
  }

  lemma TimerKeepsAnswered(c: CallId, k: Known, move: Move, info: PushInfo)
    requires Base(c, k) && Answered(k, info) && CanMove(k.v, move) && WorkerOf(move) == Timer
    ensures Answered(After(c, k, move), info) && After(c, k, move).pushes == k.pushes
  {
  }

  lemma OthersKeepAnswered(c: CallId, k: Known, move: Move, info: PushInfo)
    requires Base(c, k) && Answered(k, info) && CanMove(k.v, move) && WorkerOf(move) != Timer
    ensures Answered(After(c, k, move), info) && After(c, k, move).pushes == k.pushes
  {
  }

  lemma HarmlessIsForever(c: CallId, k: Known, move: Move)
    requires Base(c, k) && Harmless(k) && CanMove(k.v, move)
    ensures Harmless(After(c, k, move))
  {
    assert Timer in k.v.blocks ==> BlockIsSound(c, k, Timer, k.v.blocks[Timer]);
  }

  /** A fallback that goes from Pending or Triggering to Cancelled is closed, and no leg was originated. */
  lemma CancellingCloses(c: CallId, k: Known, move: Move)
    requires Base(c, k) && CanMove(k.v, move) && IsArming(k.v.fallback)
    requires After(c, k, move).v.fallback == Some(FallbackCancelled)
    ensures Closed(After(c, k, move)) && After(c, k, move).legs == Empty
  {
    assert BlockIsSound(c, k, move.worker, k.v.blocks[move.worker]);
    if Timer in k.v.blocks && move.worker != Timer {
      assert Holds(k.v, Timer) && Holds(k.v, move.worker);
    }
  }
}
