/** The thread of a `_ContactDialer` against `kick` and `stop`: a program-counter machine in which every
    other thread, and Asterisk, may act between any two instructions of the dialer thread. */
module ContactDialer {
  import opened Wrappers
  import opened Identifiers

  datatype Contact = Contact(uri: string)

  /** Where the dialer thread is. */
  datatype Pc =
    | Starting
    | Reading
    | Sending(rest: seq<Contact>)
    | Originating(contact: Contact, rest: seq<Contact>)
    | CallingBack(rest: seq<Contact>)
    | LoopHead
    | Waiting
    | Clearing
    | StopCheck
    | CallerCheck
    | Cleaning(todo: set<ChannelId>)
    | HangingUp(channel: ChannelId, todo: set<ChannelId>)
    | Finished
    | Crashed
  {
    predicate Ended() { Finished? || Crashed? }
    predicate Leaving() { Cleaning? || HangingUp? || Ended() }
  }

  /** Where a caller of `stop` is; it returns at once when it finds that the thread is not alive. */
  datatype StopPc = NotStopping | FoundAlive | FlagSet | Joining | Returned

  datatype Dialed = Ringing | Answered | Left

  datatype Machine = Machine(
    pc: Pc,
    stopPc: StopPc,
    shouldStop: bool,
    wakeup: bool,
    called: set<Contact>,
    dialed: set<ChannelId>,
    // The world: who is registered, who was announced by a kick and is still registered, the caller, the dialed
    // channels.
    registered: set<Contact>,
    announced: set<Contact>,
    callerUp: bool,
    channels: map<ChannelId, Dialed>,
    // History: contacts originated in order, and what the clean-up saw or did.
    originated: seq<Contact>,
    seenUp: set<ChannelId>,
    seenGone: set<ChannelId>,
    hungUp: set<ChannelId>)

  predicate Initial(m: Machine)
  {
    && m.pc.Starting? && m.stopPc.NotStopping? && !m.shouldStop && !m.wakeup
    && m.called == {} && m.dialed == {} && m.announced <= m.registered
    && m.originated == [] && m.seenUp == {} && m.seenGone == {} && m.hungUp == {}
  }

  datatype Step =
    // The dialer thread.
    | Start(found: bool)
    | Read(contacts: seq<Contact>)
    | NextContact
    | OriginateDone(channel: ChannelId)
    | OriginateFails
    | CallbackDone
    | CallbackFails
    | TestLoop
    | Wake
    | Clear
    | TestStop
    | TestCaller
    | NextChannel(channel: ChannelId)
    | HangUp
    | EndCleaning
    // The other threads.
    | Kick
    | FindAlive
    | SetFlag
    | SetWakeup
    | Return
    // The world.
    | Register(contact: Contact)
    | Unregister(contact: Contact)
    | CallerLeaves
    | ChannelAnswers(channel: ChannelId)
    | ChannelLeaves(channel: ChannelId)
  {
    predicate OfThread()
    {
      || Start? || Read? || NextContact? || OriginateDone? || OriginateFails? || CallbackDone? || CallbackFails?
      || TestLoop? || Wake? || Clear? || TestStop? || TestCaller? || NextChannel? || HangUp? || EndCleaning?
    }

    /** An exception ends the thread: the caller is not found at the start, an originate is refused, or the
        cancellation of the fallback that follows an originate raises. */
    predicate Fails() { (Start? && !found) || OriginateFails? || CallbackFails? }
  }

  predicate Enabled(m: Machine, step: Step)
  {
    match step
    case Start(_) => m.pc.Starting?
    case Read(contacts) => m.pc.Reading? && (set c | c in contacts) == (if m.callerUp then m.registered else {})
    case NextContact => m.pc.Sending?
    case OriginateDone(channel) => m.pc.Originating? && channel !in m.channels
    case OriginateFails => m.pc.Originating?
    case CallbackDone => m.pc.CallingBack?
    case CallbackFails => m.pc.CallingBack?
    case TestLoop => m.pc.LoopHead?
    case Wake => m.pc.Waiting? && m.wakeup
    case Clear => m.pc.Clearing?
    case TestStop => m.pc.StopCheck?
    case TestCaller => m.pc.CallerCheck?
    case NextChannel(channel) => m.pc.Cleaning? && channel in m.pc.todo && channel in m.channels
    case HangUp => m.pc.HangingUp?
    case EndCleaning => m.pc.Cleaning? && m.pc.todo == {}
    case Kick => true
    case FindAlive => m.stopPc.NotStopping? && !m.pc.Ended()
    case SetFlag => m.stopPc.FoundAlive?
    case SetWakeup => m.stopPc.FlagSet?
    case Return => (m.stopPc.NotStopping? || m.stopPc.Joining?) && m.pc.Ended()
    case Register(_) => true
    case Unregister(_) => true
    case CallerLeaves => true
    case ChannelAnswers(channel) => channel in m.channels && m.channels[channel].Ringing?
    case ChannelLeaves(channel) => channel in m.channels
  }

  function Apply(m: Machine, step: Step): Machine
    requires Enabled(m, step)
  {
    match step
    case Start(found) => m.(pc := if found then Reading else Crashed)
    case Read(contacts) => m.(pc := Sending(contacts))
    case NextContact =>
      m.(pc := if m.pc.rest == [] || m.shouldStop then LoopHead
               else if m.pc.rest[0] in m.called then Sending(m.pc.rest[1..])
               else Originating(m.pc.rest[0], m.pc.rest[1..]))
    case OriginateDone(channel) =>
      m.(pc := CallingBack(m.pc.rest),
         called := m.called + {m.pc.contact},
         dialed := m.dialed + {channel},
         channels := m.channels[channel := Ringing],
         originated := m.originated + [m.pc.contact])
    case OriginateFails => m.(pc := Crashed)
    case CallbackDone => m.(pc := Sending(m.pc.rest))
    case CallbackFails => m.(pc := Crashed)
    case TestLoop => m.(pc := if m.shouldStop then Cleaning(m.dialed) else Waiting)
    case Wake => m.(pc := Clearing)
    case Clear => m.(pc := StopCheck, wakeup := false)
    case TestStop => m.(pc := if m.shouldStop then Cleaning(m.dialed) else CallerCheck)
    case TestCaller => m.(pc := if m.callerUp then Reading else Cleaning(m.dialed))
    case NextChannel(channel) =>
      var rest := m.pc.todo - {channel};
      if m.channels[channel].Left? then m.(pc := Cleaning(rest), seenGone := m.seenGone + {channel})
      else if m.channels[channel].Answered? then m.(pc := Cleaning(rest), seenUp := m.seenUp + {channel})
      else m.(pc := HangingUp(channel, rest))
    case HangUp =>
      var channel := m.pc.channel;
      if channel in m.channels && m.channels[channel].Left? then
        m.(pc := Cleaning(m.pc.todo), seenGone := m.seenGone + {channel})
      else
        m.(pc := Cleaning(m.pc.todo), hungUp := m.hungUp + {channel}, channels := m.channels[channel := Left])
    case EndCleaning => m.(pc := Finished)
    case Kick => m.(wakeup := true, announced := m.registered)
    case FindAlive => m.(stopPc := FoundAlive)
    case SetFlag => m.(stopPc := FlagSet, shouldStop := true)
    case SetWakeup => m.(stopPc := Joining, wakeup := true)
    case Return => m.(stopPc := Returned)
    case Register(contact) => m.(registered := m.registered + {contact})
    case Unregister(contact) => m.(registered := m.registered - {contact}, announced := m.announced - {contact})
    case CallerLeaves => m.(callerUp := false)
    case ChannelAnswers(channel) => m.(channels := m.channels[channel := Answered])
    case ChannelLeaves(channel) => m.(channels := m.channels[channel := Left])
  }

  // ---- The invariant ----

  /** A contact that a kick announced is dialed, or will be looked at again before the thread can block. */
  predicate WillBeRead(m: Machine, c: Contact)
  {
    || c in m.called
    || !m.callerUp
    || m.wakeup
    || m.pc.Starting? || m.pc.Reading? || m.pc.Clearing? || m.pc.StopCheck? || m.pc.CallerCheck?
    || m.pc.Leaving()
    || ((m.pc.Sending? || m.pc.CallingBack?) && (c in m.pc.rest || m.shouldStop))
    || (m.pc.Originating? && (c == m.pc.contact || c in m.pc.rest || m.shouldStop))
    || (m.pc.LoopHead? && m.shouldStop)
  }

  /** Channels the clean-up has dealt with. */
  function CleanedUp(m: Machine): set<ChannelId>
  {
    m.seenUp + m.seenGone + m.hungUp
  }

  predicate CleaningIsSound(m: Machine)
  {
    match m.pc
    case Cleaning(todo) => m.dialed == CleanedUp(m) + todo
    case HangingUp(channel, todo) => m.dialed == CleanedUp(m) + todo + {channel}
    case Finished => m.dialed == CleanedUp(m)
    case _ => CleanedUp(m) == {}
  }

  /** What the clean-up has dealt with does not ring any more. */
  predicate CleanedIsSilent(m: Machine)
  {
    forall c :: c in CleanedUp(m) ==> c in m.channels && !m.channels[c].Ringing?
  }

  /** No announced contact is forgotten. */
  ghost predicate WakeupsKept(m: Machine)
  {
    m.announced <= m.registered && forall c :: c in m.announced ==> WillBeRead(m, c)
  }

  /** Once `stop` has set both flags the thread cannot block. */
  predicate StopSeen(m: Machine)
  {
    && (m.stopPc.FlagSet? || m.stopPc.Joining? ==> m.shouldStop)
    && (m.pc.Waiting? && m.stopPc.Joining? ==> m.wakeup)
    && (m.stopPc.Returned? ==> m.pc.Ended())
  }

  /** The contacts originated so far are the called ones, each once. */
  ghost predicate OriginatedOnce(m: Machine)
  {
    && (forall c :: c in m.originated <==> c in m.called)
    && (forall i, j :: 0 <= i < j < |m.originated| ==> m.originated[i] != m.originated[j])
    && (m.pc.Originating? ==> m.pc.contact !in m.called)
    && (m.dialed == {} <==> m.originated == [])
  }

  ghost predicate Inv(m: Machine)
  {
    && WakeupsKept(m)
    && StopSeen(m)
    && OriginatedOnce(m)
    && m.dialed <= m.channels.Keys && CleaningIsSound(m) && CleanedIsSilent(m)
  }

  lemma InitialInv(m: Machine)
    requires Initial(m)
    ensures Inv(m)
  {
  }

  lemma StepKeepsWakeups(m: Machine, step: Step)
    requires WakeupsKept(m) && Enabled(m, step)
    ensures WakeupsKept(Apply(m, step))
  {
    var m' := Apply(m, step);
    forall c | c in m'.announced ensures WillBeRead(m', c) {
      assert !step.Kick? ==> WillBeRead(m, c);
      if step.Read? && m.callerUp {
        assert c in (set d | d in step.contacts);
      }
    }
  }

  lemma StepKeepsStop(m: Machine, step: Step)
    requires StopSeen(m) && Enabled(m, step)
    ensures StopSeen(Apply(m, step))
  {
  }

  lemma OtherStepsOriginateNothing(m: Machine, step: Step)
    requires OriginatedOnce(m) && Enabled(m, step) && !step.OriginateDone?
    ensures OriginatedOnce(Apply(m, step))
  {
    var m' := Apply(m, step);
    assert m'.originated == m.originated && m'.called == m.called && m'.dialed == m.dialed;
  }

  lemma OriginatesOnce(m: Machine, channel: ChannelId)
    requires OriginatedOnce(m) && Enabled(m, OriginateDone(channel))
    ensures OriginatedOnce(Apply(m, OriginateDone(channel)))
  {
    var m' := Apply(m, OriginateDone(channel));
    assert channel in m'.dialed && m.pc.contact !in m.originated;
    forall c ensures c in m'.originated <==> c in m'.called {
      assert c in m'.originated <==> c in m.originated || c == m.pc.contact;
    }
  }

  lemma StepOriginatesOnce(m: Machine, step: Step)
    requires OriginatedOnce(m) && Enabled(m, step)
    ensures OriginatedOnce(Apply(m, step))
  {
    if step.OriginateDone? {
      OriginatesOnce(m, step.channel);
    } else {
      OtherStepsOriginateNothing(m, step);
    }
  }

  lemma StepKeepsCleaning(m: Machine, step: Step)
    requires m.dialed <= m.channels.Keys && CleaningIsSound(m) && Enabled(m, step)
    ensures Apply(m, step).dialed <= Apply(m, step).channels.Keys && CleaningIsSound(Apply(m, step))
  {
    if step.NextChannel? {
      NextChannelKeepsCleaning(m, step.channel);
    } else if step.HangUp? {
      HangUpKeepsCleaning(m);
    } else if !step.OfThread() {
      OtherStepsOnlyTouchChannels(m, step);
    }
  }

  lemma StepKeepsSilence(m: Machine, step: Step)
    requires CleanedIsSilent(m) && Enabled(m, step)
    ensures CleanedIsSilent(Apply(m, step))
  {
    var m' := Apply(m, step);
    forall c | c in CleanedUp(m') ensures c in m'.channels && !m'.channels[c].Ringing? {
      assert c in CleanedUp(m) || (step.NextChannel? && c == step.channel) || (step.HangUp? && c == m.pc.channel);
    }
  }

  lemma NextChannelKeepsCleaning(m: Machine, channel: ChannelId)
    requires m.dialed <= m.channels.Keys && CleaningIsSound(m) && Enabled(m, NextChannel(channel))
    ensures var m' := Apply(m, NextChannel(channel));
            m'.dialed <= m'.channels.Keys && CleaningIsSound(m')
  {
    var m' := Apply(m, NextChannel(channel));
    assert m.pc.todo == (m.pc.todo - {channel}) + {channel};
    if m.channels[channel].Ringing? {
      assert CleanedUp(m') == CleanedUp(m);
    } else {
      assert CleanedUp(m') == CleanedUp(m) + {channel};
    }
  }

  lemma HangUpKeepsCleaning(m: Machine)
    requires m.dialed <= m.channels.Keys && CleaningIsSound(m) && Enabled(m, HangUp)
    ensures var m' := Apply(m, HangUp);
            m'.dialed <= m'.channels.Keys && CleaningIsSound(m')
  {
    assert CleanedUp(Apply(m, HangUp)) == CleanedUp(m) + {m.pc.channel};
  }

  lemma OtherStepsOnlyTouchChannels(m: Machine, step: Step)
    requires Enabled(m, step) && !step.OfThread()
    ensures var m' := Apply(m, step);
            && m'.pc == m.pc && m'.dialed == m.dialed && m.channels.Keys <= m'.channels.Keys
            && m'.seenUp == m.seenUp && m'.seenGone == m.seenGone && m'.hungUp == m.hungUp
  {
  }

  lemma StepKeepsInv(m: Machine, step: Step)
    requires Inv(m) && Enabled(m, step)
    ensures Inv(Apply(m, step))
  {
    StepKeepsWakeups(m, step);
    StepKeepsStop(m, step);
    StepOriginatesOnce(m, step);
    StepKeepsCleaning(m, step);
    StepKeepsSilence(m, step);
  }

  // ---- Runs ----

  datatype Run = Run(states: seq<Machine>, steps: seq<Step>)
  {
    predicate Valid()
    {
      && |states| == |steps| + 1
      && Initial(states[0])
      && (forall i :: 0 <= i < |steps| ==> IsStep(i))
    }

    predicate IsStep(i: nat)
      requires |states| == |steps| + 1 && i < |steps|
    {
      Enabled(states[i], steps[i]) && states[i + 1] == Apply(states[i], steps[i])
    }
  }

  lemma {:induction false} RunInv(run: Run, i: nat)
    requires run.Valid() && i < |run.states|
    ensures Inv(run.states[i])
  {
    if i == 0 {
      InitialInv(run.states[0]);
    } else {
      RunInv(run, i - 1);
      assert run.IsStep(i - 1);
      StepKeepsInv(run.states[i - 1], run.steps[i - 1]);
    }
  }

  /** No wake-up is lost: whenever the thread is blocked, every contact that a kick announced and that is
      still registered has been dialed, unless the caller is gone. */
  lemma NoWakeupIsLost(run: Run, i: nat)
    requires run.Valid() && i < |run.states|
    requires run.states[i].pc.Waiting? && !run.states[i].wakeup && run.states[i].callerUp
    ensures run.states[i].announced <= run.states[i].called
  {
    RunInv(run, i);
  }

  /** Each contact is originated at most once. */
  lemma EachContactOnce(run: Run, i: nat)
    requires run.Valid() && i < |run.states|
    ensures var originated := run.states[i].originated;
            forall j, k :: 0 <= j < k < |originated| ==> originated[j] != originated[k]
  {
    RunInv(run, i);
  }

  /** No exception ended the thread so far. */
  ghost predicate Smooth(run: Run, i: nat)
    requires run.Valid() && i < |run.states|
  {
    forall j :: 0 <= j < i ==> !run.steps[j].Fails()
  }

  lemma {:induction false} CrashedExactly(run: Run, i: nat)
    requires run.Valid() && i < |run.states|
    ensures run.states[i].pc.Crashed? <==> !Smooth(run, i)
  {
    if i > 0 {
      CrashedExactly(run, i - 1);
      assert run.IsStep(i - 1);
      assert Smooth(run, i) <==> Smooth(run, i - 1) && !run.steps[i - 1].Fails();
    }
  }

  lemma {:induction false} OriginatedExactly(run: Run, i: nat)
    requires run.Valid() && i < |run.states|
    ensures run.states[i].originated != [] <==> exists j :: 0 <= j < i && run.steps[j].OriginateDone?
  {
    if i > 0 {
      OriginatedExactly(run, i - 1);
      assert run.IsStep(i - 1);
      assert run.steps[i - 1].OriginateDone? || run.states[i].originated == run.states[i - 1].originated;
    }
  }

  /** When `stop` returns, also at once because the thread is not alive, the thread is over.  If no exception
      ended it, it has dealt with every channel it dialed and none of them rings.  If one did, it has looked at
      no channel and hung up none.  So the clean-up is complete exactly if no exception ended the thread or
      nothing was originated. */
  lemma StoppedMeansCleanedUp(run: Run, i: nat)
    requires run.Valid() && i < |run.states| && run.states[i].stopPc.Returned?
    ensures var m := run.states[i];
            && m.pc.Ended()
            && (Smooth(run, i) ==>
                  && m.dialed == CleanedUp(m)
                  && forall c :: c in m.dialed ==> c in m.channels && !m.channels[c].Ringing?)
            && (!Smooth(run, i) ==> CleanedUp(m) == {})
            && (m.dialed == CleanedUp(m) <==> Smooth(run, i) || forall j :: 0 <= j < i ==> !run.steps[j].OriginateDone?)
  {
    RunInv(run, i);
    CrashedExactly(run, i);
    OriginatedExactly(run, i);
  }

  // ---- stop() returns ----

  /** How far the thread is from its end once it has been told to stop. */
  function Phase(m: Machine): nat
  {
    match m.pc
    case CallerCheck => 11
    case Starting => 10
    case Reading => 9
    case Originating(_, _) => 8
    case CallingBack(_) => 7
    case Sending(_) => 6
    case LoopHead => 5
    case Waiting => 4
    case Clearing => 3
    case StopCheck => 2
    case Cleaning(_) => 1
    case HangingUp(_, _) => 1
    case Finished => 0
    case Crashed => 0
  }

  function Work(m: Machine): nat
  {
    match m.pc
    case Cleaning(todo) => 2 * |todo|
    case HangingUp(_, todo) => 2 * |todo| + 1
    case _ => 0
  }

  predicate Lower(m': Machine, m: Machine)
  {
    Phase(m') < Phase(m) || (Phase(m') == Phase(m) && Work(m') < Work(m))
  }

  /** The step the thread can take next while `stop` waits for it. */
  function NextStep(m: Machine, contacts: seq<Contact>, pick: ChannelId): Step
  {
    match m.pc
    case Starting => Start(true)
    case Reading => Read(contacts)
    case Sending(_) => NextContact
    case Originating(_, _) => OriginateFails
    case CallingBack(_) => CallbackDone
    case LoopHead => TestLoop
    case Waiting => Wake
    case Clearing => Clear
    case StopCheck => TestStop
    case CallerCheck => TestCaller
    case Cleaning(todo) => if todo == {} then EndCleaning else NextChannel(pick)
    case HangingUp(_, _) => HangUp
    case _ => Kick
  }

  lemma ThreadIsNotBlocked(m: Machine)
    requires Inv(m) && m.stopPc.Joining? && !m.pc.Ended()
    ensures exists own: Step :: own.OfThread() && Enabled(m, own)
  {
    var contacts := SeqOf(if m.callerUp then m.registered else {});
    var pick := if m.pc.Cleaning? && m.pc.todo != {} then PickOne(m.pc.todo) else ChannelId("");
    assert NextStep(m, contacts, pick).OfThread() && Enabled(m, NextStep(m, contacts, pick));
  }

  lemma ThreadStepLowers(m: Machine, step: Step)
    requires m.shouldStop && Enabled(m, step) && step.OfThread()
    ensures Lower(Apply(m, step), m)
  {
    var m' := Apply(m, step);
    if step.NextChannel? {
      var rest := m.pc.todo - {step.channel};
      assert m.pc.todo == rest + {step.channel};
      assert |m.pc.todo| == |rest| + 1;
      assert Phase(m') == Phase(m);
    } else if step.HangUp? {
      assert Phase(m') == Phase(m) && m'.pc == Cleaning(m.pc.todo);
    } else {
      assert Phase(m') < Phase(m);
    }
  }

  /** `stop` never waits forever.  While it waits, the thread is never blocked; each step of the thread
      brings it closer to its end; and no step of any other thread or of the world sets it back. */
  lemma StopReturns(run: Run, i: nat, step: Step)
    requires run.Valid() && i < |run.states| && run.states[i].stopPc.Joining? && !run.states[i].pc.Ended()
    requires Enabled(run.states[i], step)
    ensures exists own: Step :: own.OfThread() && Enabled(run.states[i], own)
    ensures step.OfThread() ==> Lower(Apply(run.states[i], step), run.states[i])
    ensures !step.OfThread() ==> Apply(run.states[i], step).pc == run.states[i].pc
  {
    var m := run.states[i];
    RunInv(run, i);
    ThreadIsNotBlocked(m);
    if step.OfThread() {
      ThreadStepLowers(m, step);
    } else {
      OtherStepsOnlyTouchChannels(m, step);
    }
  }

  ghost function PickOne<T>(s: set<T>): (x: T)
    requires s != {}
    ensures x in s
  {
    var x :| x in s; x
  }

  /** Some enumeration of a set. */
  ghost function SeqOf<T>(s: set<T>): (q: seq<T>)
    ensures (set x | x in q) == s
  {
    if s == {} then []
    else
      var x := PickOne(s);
      var q := SeqOf(s - {x});
      assert (set y | y in [x] + q) == {x} + (set y | y in q);
      [x] + q
  }

  // ---- How often the contacts are read ----

  /** How often the thread read the contacts in the first i steps. */
  function Reads(run: Run, i: nat): nat
    requires i <= |run.steps|
  {
    if i == 0 then 0 else Reads(run, i - 1) + if run.steps[i - 1].Read? then 1 else 0
  }

  /** How often somebody woke it up, by a kick or by `stop`. */
  function Wakeups(run: Run, i: nat): nat
    requires i <= |run.steps|
  {
    if i == 0 then 0 else Wakeups(run, i - 1) + if run.steps[i - 1].Kick? || run.steps[i - 1].SetWakeup? then 1 else 0
  }

  /** The readings that are still due: one if the thread is on its way to read, one if the wake-up flag is set. */
  function Due(m: Machine): nat
  {
    (if m.pc.Starting? || m.pc.Reading? || m.pc.StopCheck? || m.pc.CallerCheck? then 1 else 0)
    + if m.wakeup then 1 else 0
  }

  lemma StepKeepsDue(m: Machine, step: Step)
    requires Enabled(m, step) && (m.pc.Clearing? ==> m.wakeup)
    ensures var m' := Apply(m, step);
            && (m'.pc.Clearing? ==> m'.wakeup)
            && Due(m') + (if step.Read? then 1 else 0) <= Due(m) + if step.Kick? || step.SetWakeup? then 1 else 0
  {
  }

  lemma {:induction false} ReadingsAreDue(run: Run, i: nat)
    requires run.Valid() && i < |run.states|
    ensures run.states[i].pc.Clearing? ==> run.states[i].wakeup
    ensures Reads(run, i) + Due(run.states[i]) <= 1 + Wakeups(run, i)
  {
    if i > 0 {
      ReadingsAreDue(run, i - 1);
      assert run.IsStep(i - 1);
      StepKeepsDue(run.states[i - 1], run.steps[i - 1]);
    }
  }

  /** The thread does not spin: over any run it reads the contacts once at the start and then at most once for each
      time it was woken up. */
  lemma OnlyWokenUpReads(run: Run, i: nat)
    requires run.Valid() && i < |run.states|
    ensures Reads(run, i) <= 1 + Wakeups(run, i)
  {
    ReadingsAreDue(run, i);
  }

  /** How far the thread is from the end of its way through the contacts it read. */
  function Ahead(pc: Pc): nat
  {
    match pc
    case Sending(rest) => 3 * |rest| + 1
    case Originating(_, rest) => 3 * |rest| + 3
    case CallingBack(rest) => 3 * |rest| + 2
    case _ => 0
  }

  /** And each way through them ends: every step of the thread on it brings it nearer to the end. */
  lemma EachPassEnds(m: Machine, step: Step)
    requires Enabled(m, step) && step.OfThread() && (m.pc.Sending? || m.pc.Originating? || m.pc.CallingBack?)
    ensures Ahead(Apply(m, step).pc) < Ahead(m.pc)
  {
  }

  // ---- An originate that fails ----

  lemma Extend(run: Run, step: Step) returns (longer: Run)
    requires run.Valid() && Enabled(run.states[|run.steps|], step)
    ensures longer.Valid() && |longer.steps| == |run.steps| + 1
    ensures longer.states[|longer.steps|] == Apply(run.states[|run.steps|], step)
  {
    longer := Run(run.states + [Apply(run.states[|run.steps|], step)], run.steps + [step]);
    forall i | 0 <= i < |longer.steps| ensures longer.IsStep(i) {
      if i < |run.steps| {
        assert run.IsStep(i);
      }
    }
  }

  /** When the originate of a second contact fails, the thread ends without hanging up the first: `stop`
      returns at once and the channel keeps ringing. */
  lemma FailedOriginateLeavesRinging() returns (run: Run, channel: ChannelId)
    ensures run.Valid()
    ensures var m := run.states[|run.steps|];
            && m.stopPc.Returned? && channel in m.dialed && channel in m.channels && m.channels[channel].Ringing?
            && CleanedUp(m) == {}
  {
    channel := ChannelId("first");
    run := FirstContactRings(channel, Contact("a"), Contact("b"));
    run := Extend(run, NextContact);
    run := Extend(run, OriginateFails);
    run := Extend(run, Return);
  }

  /** The first of two contacts rings, and the thread goes on to the second. */
  lemma FirstContactRings(channel: ChannelId, a: Contact, b: Contact) returns (run: Run)
    requires a != b
    ensures run.Valid()
    ensures run.states[|run.steps|]
        == Machine(Sending([b]), NotStopping, false, false, {a}, {channel}, {a, b}, {}, true, map[channel := Ringing],
                   [a], {}, {}, {})
  {
    run := Run([Machine(Starting, NotStopping, false, false, {}, {}, {a, b}, {}, true, map[], [], {}, {}, {})], []);
    run := Extend(run, Start(true));
    assert (set c | c in [a, b]) == {a, b};
    run := Extend(run, Read([a, b]));
    run := Extend(run, NextContact);
    run := Extend(run, OriginateDone(channel));
    run := Extend(run, CallbackDone);
  }

  // ---- The loops of the thread ----

  /** The contacts of a list that are not called yet, each at its first place. */
  function NewContacts(contacts: seq<Contact>, called: set<Contact>): seq<Contact>
  {
    if contacts == [] then []
    else
      var last, before := contacts[|contacts| - 1], NewContacts(contacts[..|contacts| - 1], called);
      if last in called || last in before then before else before + [last]
  }

  lemma NewContactsAreNew(contacts: seq<Contact>, called: set<Contact>)
    ensures var list := NewContacts(contacts, called);
            && (forall c :: c in list <==> c in contacts && c !in called)
            && (forall i, j :: 0 <= i < j < |list| ==> list[i] != list[j])
  {
  }

  /** The places of a list where a contact that is not called yet stands first. */
  function NewPlaces(contacts: seq<Contact>, called: set<Contact>): set<nat>
  {
    set i: nat | i < |contacts| && contacts[i] !in called && contacts[i] !in contacts[..i]
  }

  lemma OneMorePlace(contacts: seq<Contact>, called: set<Contact>, i: nat)
    requires i < |contacts|
    ensures NewPlaces(contacts[..i + 1], called)
            == NewPlaces(contacts[..i], called) + 
              (if contacts[i] in called || contacts[i] in contacts[..i] then {} else {i})
  {
    assert contacts[..i + 1][..i] == contacts[..i];
    forall j | 0 <= j < i ensures contacts[..i + 1][..j] == contacts[..i][..j] {
    }
  }

  lemma OneMoreContact(contacts: seq<Contact>, called: set<Contact>, i: nat)
    requires i < |contacts|
    ensures NewContacts(contacts[..i + 1], called)
            == NewContacts(contacts[..i], called)
                + (if contacts[i] in called || contacts[i] in contacts[..i] then [] else [contacts[i]])
  {
    assert contacts[..i + 1][..i] == contacts[..i];
    NewContactsAreNew(contacts[..i], called);
  }

  /** The channels that ARI created at some places. */
  function ChannelsAt(answers: seq<Option<ChannelId>>, places: set<nat>): set<ChannelId>
  {
    set i | i in places && i < |answers| && answers[i].Some? :: answers[i].value
  }

  lemma OneMoreChannel(answers: seq<Option<ChannelId>>, places: set<nat>, i: nat)
    requires i < |answers| && answers[i].Some?
    ensures ChannelsAt(answers, places + {i}) == ChannelsAt(answers, places) + {answers[i].value}
  {
  }

  /** The contacts that are called after the first i of a list were looked at. */
  function CalledAfter(contacts: seq<Contact>, called: set<Contact>, i: nat): set<Contact>
    requires i <= |contacts|
  {
    called + set c | c in contacts[..i]
  }

  lemma OneMoreCalled(contacts: seq<Contact>, called: set<Contact>, i: nat)
    requires i < |contacts|
    ensures contacts[i] in CalledAfter(contacts, called, i) <==> contacts[i] in called || contacts[i] in contacts[..i]
    ensures CalledAfter(contacts, called, i + 1) == CalledAfter(contacts, called, i) + {contacts[i]}
  {
    assert contacts[..i + 1] == contacts[..i] + [contacts[i]];
  }

  /** What is known after the first i contacts: who is called, who was originated, which channels there are. */
  ghost predicate LookedAt(contacts: seq<Contact>, answers: seq<Option<ChannelId>>, called: set<Contact>, i: nat,
                         called': set<Contact>, originated: seq<Contact>, channels: set<ChannelId>)
    requires i <= |contacts| == |answers|
  {
    && called' == CalledAfter(contacts, called, i)
    && originated == NewContacts(contacts[..i], called)
    && channels == ChannelsAt(answers, NewPlaces(contacts[..i], called))
    && (forall j :: j in NewPlaces(contacts[..i], called) ==> answers[j].Some?)
  }

  lemma OneMoreLookedAt(contacts: seq<Contact>, answers: seq<Option<ChannelId>>, called: set<Contact>, i: nat,
                      called': set<Contact>, originated: seq<Contact>, channels: set<ChannelId>)
    requires i < |contacts| == |answers| && LookedAt(contacts, answers, called, i, called', originated, channels)
    requires contacts[i] in called' || answers[i].Some?
    ensures contacts[i] in called' ==> LookedAt(contacts, answers, called, i + 1, called', originated, channels)
    ensures contacts[i] !in called' ==>
              LookedAt(contacts, answers, called, i + 1, called' + {contacts[i]}, originated + [contacts[i]],
                  channels + {answers[i].value})
  {
    OneMorePlace(contacts, called, i);
    OneMoreContact(contacts, called, i);
    OneMoreCalled(contacts, called, i);
    if contacts[i] !in called' {
      OneMoreChannel(answers, NewPlaces(contacts[..i], called), i);
    } else {
      assert called' + {contacts[i]} == called';
    }
  }

  class Dialer {
    var calledContacts: set<Contact>
    var dialedChannels: set<ChannelId>
    ghost var originated: seq<Contact>

    constructor ()
      ensures calledContacts == {} && dialedChannels == {} && originated == []
    {
      calledContacts, dialedChannels, originated := {}, {}, [];
    }

    /** `_send_contact_to_current_call`, which raises when ARI refuses the originate. */
    method SendContact(contact: Contact, answer: Option<ChannelId>) returns (sent: bool)
      modifies this
      ensures sent <==> contact in old(calledContacts) || answer.Some?
      ensures var isNew := contact !in old(calledContacts) && answer.Some?;
              && originated == old(originated) + (if isNew then [contact] else [])
              && calledContacts == old(calledContacts) + (if isNew then {contact} else {})
              && dialedChannels == old(dialedChannels) + (if isNew then {answer.value} else {})
    {
      if contact in calledContacts {
        return true;
      }
      if answer.None? {
        return false;
      }
      calledContacts := calledContacts + {contact};
      dialedChannels := dialedChannels + {answer.value};
      originated := originated + [contact];
      return true;
    }

    /** `_dial_current_contacts`: `flags` is what the stop flag says before each contact and `answers` what ARI
        answers to an originate, None for a refusal, which raises.  Every contact looked at before the flag
        or the refusal, and not called yet, is originated once, and its channel is kept. */
    method DialCurrentContacts(contacts: seq<Contact>, flags: seq<bool>, answers: seq<Option<ChannelId>>)
        returns (ok: bool, looked: nat)
      requires |flags| == |contacts| == |answers|
      modifies this
      ensures looked <= |contacts| && forall i :: 0 <= i < looked ==> !flags[i]
      ensures ok ==> looked == |contacts| || flags[looked]
      ensures !ok ==> looked < |contacts| && !flags[looked] && answers[looked].None?
                      && contacts[looked] !in old(calledContacts) && contacts[looked] !in contacts[..looked]
      ensures forall i :: i in NewPlaces(contacts[..looked], old(calledContacts)) ==> answers[i].Some?
      ensures originated == old(originated) + NewContacts(contacts[..looked], old(calledContacts))
      ensures calledContacts == old(calledContacts) + (set c | c in contacts[..looked])
      ensures dialedChannels == old(dialedChannels)
          + ChannelsAt(answers, NewPlaces(contacts[..looked], old(calledContacts)))
    {
      ghost var before, earlier, channels := calledContacts, originated, dialedChannels;
      ghost var list, dialed: set<ChannelId> := [], {};
      var i := 0;
      while i < |contacts| && !flags[i]
        invariant 0 <= i <= |contacts| && forall j :: 0 <= j < i ==> !flags[j]
        invariant originated == earlier + list && dialedChannels == channels + dialed
        invariant LookedAt(contacts, answers, before, i, calledContacts, list, dialed)
      {
        OneMoreCalled(contacts, before, i);
        ghost var isNew := contacts[i] !in calledContacts;
        if !isNew || answers[i].Some? {
          OneMoreLookedAt(contacts, answers, before, i, calledContacts, list, dialed);
        }
        var sent := SendContact(contacts[i], answers[i]);
        if !sent {
          return false, i;
        }
        if isNew {
          list, dialed := list + [contacts[i]], dialed + {answers[i].value};
        }
        i := i + 1;
      }
      return true, i;
    }

    /** `_remove_unanswered_channels`: exactly the channels that neither answered nor left are hung up. */
    method RemoveUnansweredChannels(channels: map<ChannelId, Dialed>) returns (hungUp: set<ChannelId>)
      ensures hungUp == set c | c in dialedChannels && c in channels && channels[c].Ringing?
    {
      hungUp := {};
      var todo := dialedChannels;
      while todo != {}
        invariant todo <= dialedChannels
        invariant hungUp == set c | c in dialedChannels && c !in todo && c in channels && channels[c].Ringing?
        decreases todo
      {
        var channel :| channel in todo;
        todo := todo - {channel};
        if channel in channels && channels[channel].Ringing? {
          hungUp := hungUp + {channel};
        }
      }
    }
  }
}
