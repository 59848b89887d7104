/** Who is admitted: a request is let through exactly if it fits every limit and its calls work, and what it then
  leaves in the store. */
module QuotaAdmission {
  import opened Common
  import opened QuotaHandlers
  import opened QuotaKeys
  import opened QuotaLedger
  import opened QuotaProtocol

  /** The calls that take something back work; all others may fail. */
  predicate UndoWorks(script: Script) {
    script.undoActive && script.delMarker && script.undoReserved && script.undoHour && script.undoTokens
  }

  /** Nothing is committed yet. */
  predicate Uncommitted(r: Request) {
    !r.committed && !r.marked && !r.tookBack && r.marker.None?
  }

  /** The request ends with `out`, without a marker, and what its lines hold on `k` is given back. */
  predicate Refused(end: Solo, r: Request, c: map<Key, int>, out: Outcome, k: Key) {
    && end.request.pc == Done(out) && end.request.marker.None?
    && Count(end.counters, k) == Count(c, k) - HeldLine(r.active, k) - HeldLine(r.hour, k) - HeldLine(r.tokens, k)
  }

  lemma GivesBackLine(o: Option<Line>, c: map<Key, int>, k: Key)
    ensures Count(Apply(c, GiveBack(o, true, true).1), k) == Count(c, k) - HeldLine(o, k)
  {
  }

  lemma RollsBackTokens(cfg: Config, r: Request, c: map<Key, int>, script: Script, out: Outcome, k: Key)
    requires UndoWorks(script) && Owns(r) && r.marker.None? && r.pc == RollbackTokens(out)
    ensures var end := Drive(cfg, Solo(r, c), script);
            && end.request.pc == Done(out) && end.request.marker.None?
            && Count(end.counters, k) == Count(c, k) - HeldLine(r.tokens, k)
  {
    DriveRollbackTokens(cfg, Solo(r, c), script);
    GivesBackLine(r.tokens, c, k);
  }

  lemma RollsBackHour(cfg: Config, r: Request, c: map<Key, int>, script: Script, out: Outcome, k: Key)
    requires UndoWorks(script) && Owns(r) && r.marker.None? && r.pc == RollbackHour(out)
    ensures var end := Drive(cfg, Solo(r, c), script);
            && end.request.pc == Done(out) && end.request.marker.None?
            && Count(end.counters, k) == Count(c, k) - HeldLine(r.hour, k) - HeldLine(r.tokens, k)
  {
    DriveRollbackHour(cfg, Solo(r, c), script);
    GivesBackLine(r.hour, c, k);
    var (next, op) := StepRollbackHour(r, out, true);
    RollsBackTokens(cfg, next, Apply(c, op), script, out, k);
  }

  lemma RollsBackSlot(cfg: Config, r: Request, c: map<Key, int>, script: Script, out: Outcome, k: Key)
    requires UndoWorks(script) && Owns(r) && r.marker.None? && r.pc == RollbackActive(out)
    ensures Refused(Drive(cfg, Solo(r, c), script), r, c, out, k)
  {
    DriveRollbackActive(cfg, Solo(r, c), script);
    GivesBackLine(r.active, c, k);
    var (next, op) := StepRollbackActive(r, out, true);
    RollsBackHour(cfg, next, Apply(c, op), script, out, k);
  }

  /** A committed request takes its marker back first. */
  lemma RollsBack(cfg: Config, r: Request, c: map<Key, int>, script: Script, out: Outcome, k: Key)
    requires UndoWorks(script) && !r.tookBack && (r.marked ==> r.committed && r.marker.Some?)
    requires !r.marked ==> r.marker.None?
    ensures Refused(Drive(cfg, Solo(BeginRollback(r, out), c), script), r, c, out, k)
  {
    var begun := BeginRollback(r, out);
    if r.marked {
      DriveRollbackMarker(cfg, Solo(begun, c), script);
      RollsBackSlot(cfg, StepRollbackMarker(begun, out, true), c, script, out, k);
    } else {
      RollsBackSlot(cfg, begun, c, script, out, k);
    }
  }

  /** What a request asks of its three limits, with the readings its keys are made from. */
  predicate ChargesTokens(cfg: Config, ask: Ask) {
    ask.policy.maxTokensPerDay > 0 && (if ask.hint > 0 then ask.hint else cfg.tokensPerRun) > 0
  }

  function TokenLine(cfg: Config, ask: Ask, script: Script): Option<Line> {
    if ChargesTokens(cfg, ask)
    then Some(Line(TokenKey(ask.actor, script.dayStamp), if ask.hint > 0 then ask.hint else cfg.tokensPerRun, true))
    else None
  }

  function HourLine(ask: Ask, script: Script): Option<Line> {
    if ask.policy.maxPerHour > 0 then Some(Line(HourKey(ask.actor, script.hourStamp), 1, true)) else None
  }

  function SlotLine(ask: Ask): Option<Line> {
    if ask.policy.maxConcurrent > 0 then Some(Line(ActiveKey(ask.actor), 1, true)) else None
  }

  predicate Fits(line: Option<Line>, c: map<Key, int>, limit: int) {
    line.Some? ==> Count(c, line.value.key) + line.value.amount <= limit
  }

  function Raise(line: Option<Line>, c: map<Key, int>): map<Key, int> {
    if line.Some? then Apply(c, Add(line.value.key, line.value.amount)) else c
  }

  lemma RaiseCounts(line: Option<Line>, c: map<Key, int>, k: Key)
    ensures Count(Raise(line, c), k) == Count(c, k) + HeldLine(line, k)
  {
  }

  /** What comes of a request once it is past the reservations before a limit. */
  function AfterReserving(script: Script, holds: bool): Outcome {
    if script.message && (holds ==> script.commit) && script.dispatch then Accepted else Failed
  }

  function AfterLimit(line: Option<Line>, calls: bool, fits: bool, rest: Outcome): Outcome {
    if line.Some? && !calls then Failed else if !fits then Denied else rest
  }

  function TokensOutcome(cfg: Config, ask: Ask, c: map<Key, int>, script: Script, slot: bool): Outcome {
    var line := TokenLine(cfg, ask, script);
    AfterLimit(line, script.incrTokens && script.expireTokens, Fits(line, c, ask.policy.maxTokensPerDay),
               AfterReserving(script, slot || line.Some?))
  }

  function HourOutcome(cfg: Config, ask: Ask, c: map<Key, int>, script: Script, slot: bool): Outcome {
    var line := HourLine(ask, script);
    AfterLimit(line, script.incrHour && script.expireHour, Fits(line, c, ask.policy.maxPerHour),
               TokensOutcome(cfg, ask, c, script, slot))
  }

  function SlotOutcome(cfg: Config, ask: Ask, c: map<Key, int>, script: Script): Outcome {
    var line := SlotLine(ask);
    AfterLimit(line, script.incrActive && script.expireActive, Fits(line, c, ask.policy.maxConcurrent),
               HourOutcome(cfg, ask, c, script, line.Some?))
  }

  /** Past its reservations a request is accepted, and its marker says what it holds. */
  predicate Submitted(end: Solo, slot: bool, tokens: Option<Line>, c: map<Key, int>) {
    && end.request.pc == Done(Accepted) && end.counters == c
    && end.request.marker
       == if slot || tokens.Some?
          then Some(Marker(slot, if tokens.Some? then Some(tokens.value.key) else None,
                           if tokens.Some? then tokens.value.amount else 0))
          else None
  }

  /** The end of a request: accepted with raised counters `raised`, or refused with those it began with. */
  predicate Ends(end: Solo, out: Outcome, r: Request, c: map<Key, int>, slot: bool, tokens: Option<Line>,
                 raised: map<Key, int>, k: Key) {
    if out == Accepted then Submitted(end, slot, tokens, raised) else Refused(end, r, c, out, k)
  }

  lemma Submits(cfg: Config, r: Request, c: map<Key, int>, script: Script, k: Key)
    requires UndoWorks(script) && Uncommitted(r) && r.pc.AddMessage?
    ensures Ends(Drive(cfg, Solo(r, c), script), AfterReserving(script, r.active.Some? || r.tokens.Some?), r, c,
                 r.active.Some?, r.tokens, c, k)
  {
    DriveAddMessage(cfg, Solo(r, c), script);
    if !script.message {
      RollsBack(cfg, r, c, script, Failed, k);
    } else {
      SubmitsWritten(cfg, StepAddMessage(r, true), c, script, k);
    }
  }

  lemma SubmitsWritten(cfg: Config, r: Request, c: map<Key, int>, script: Script, k: Key)
    requires UndoWorks(script) && script.message && Uncommitted(r) && r.pc.Commit?
    ensures Ends(Drive(cfg, Solo(r, c), script), AfterReserving(script, r.active.Some? || r.tokens.Some?), r, c,
                 r.active.Some?, r.tokens, c, k)
  {
    DriveCommit(cfg, Solo(r, c), script);
    if (r.active.Some? || r.tokens.Some?) && !script.commit {
      RollsBack(cfg, r, c, script, Failed, k);
    } else {
      var committed := StepCommit(r, script.commit);
      DriveDispatch(cfg, Solo(committed, c), script);
      if !script.dispatch {
        RollsBack(cfg, committed, c, script, Failed, k);
      }
    }
  }

  // ---- one limit after the other ----

  lemma RefusedWithout(end: Solo, out: Outcome, r: Request, r1: Request, line: Option<Line>, c: map<Key, int>, k: Key)
    requires Refused(end, r1, Raise(line, c), out, k)
    requires HeldLine(r1.active, k) + HeldLine(r1.hour, k) + HeldLine(r1.tokens, k)
             == HeldLine(r.active, k) + HeldLine(r.hour, k) + HeldLine(r.tokens, k) + HeldLine(line, k)
    ensures Refused(end, r, c, out, k)
  {
    RaiseCounts(line, c, k);
  }

  lemma ReservesTokens(cfg: Config, r: Request, c: map<Key, int>, script: Script, k: Key)
    requires UndoWorks(script) && Uncommitted(r) && r.tokens.None?
    ensures var line := TokenLine(cfg, r.ask, script);
            Ends(Drive(cfg, Solo(BeginTokens(cfg, r), c), script),
                 TokensOutcome(cfg, r.ask, c, script, r.active.Some?), r, c, r.active.Some?, line, Raise(line, c), k)
  {
    var begun := BeginTokens(cfg, r);
    if !ChargesTokens(cfg, r.ask) {
      Submits(cfg, begun, c, script, k);
    } else {
      DriveIncrTokens(cfg, Solo(begun, c), script);
      if !script.incrTokens {
        RollsBack(cfg, begun, c, script, Failed, k);
      } else {
        TakesTokens(cfg, begun, c, script, k);
      }
    }
  }

  lemma TakesTokens(cfg: Config, r: Request, c: map<Key, int>, script: Script, k: Key)
    requires UndoWorks(script) && script.incrTokens && Uncommitted(r) && r.tokens.None?
    requires r.pc.IncrTokens? && ChargesTokens(cfg, r.ask)
    ensures var line := TokenLine(cfg, r.ask, script);
            var taken := After(StepIncrTokens(cfg, r, true, script.dayStamp, c), c);
            Ends(Drive(cfg, taken, script), TokensOutcome(cfg, r.ask, c, script, r.active.Some?), r, c,
                 r.active.Some?, line, Raise(line, c), k)
  {
    var line := TokenLine(cfg, r.ask, script);
    var fits := Fits(line, c, r.ask.policy.maxTokensPerDay);
    var own := Some(line.value.(within := fits));
    var taken := r.(tokens := own, charged := own, pc := ExpireTokens);
    assert StepIncrTokens(cfg, r, true, script.dayStamp, c) == (taken, Add(line.value.key, line.value.amount));
    TriesTokens(cfg, r, taken, c, script, k);
  }

  lemma TriesTokens(cfg: Config, r: Request, taken: Request, c: map<Key, int>, script: Script, k: Key)
    requires UndoWorks(script) && script.incrTokens && Uncommitted(r) && r.tokens.None? && ChargesTokens(cfg, r.ask)
    requires taken == r.(tokens := taken.tokens, charged := taken.charged, pc := ExpireTokens)
    requires var line := TokenLine(cfg, r.ask, script);
             taken.tokens == Some(line.value.(within := Fits(line, c, r.ask.policy.maxTokensPerDay)))
    ensures var line := TokenLine(cfg, r.ask, script);
            Ends(Drive(cfg, Solo(taken, Raise(line, c)), script), TokensOutcome(cfg, r.ask, c, script, r.active.Some?),
                 r, c, r.active.Some?, line, Raise(line, c), k)
  {
    var line := TokenLine(cfg, r.ask, script);
    var c1, out := Raise(line, c), TokensOutcome(cfg, r.ask, c, script, r.active.Some?);
    var end := Drive(cfg, Solo(taken, c1), script);
    DriveExpireTokens(cfg, Solo(taken, c1), script);
    if script.expireTokens && taken.tokens.value.within {
      Submits(cfg, StepExpireTokens(taken, true), c1, script, k);
    } else {
      RollsBack(cfg, taken, c1, script, out, k);
    }
    if out != Accepted {
      RefusedWithout(end, out, r, taken, line, c, k);
    }
  }

  lemma HourPasses(cfg: Config, r: Request, c: map<Key, int>, script: Script) returns (r1: Request)
    requires UndoWorks(script) && Uncommitted(r) && r.hour.None?
    requires HourLine(r.ask, script).Some? ==> script.incrHour && script.expireHour
    requires Fits(HourLine(r.ask, script), c, r.ask.policy.maxPerHour)
    ensures r1 == r.(pc := r1.pc, hour := HourLine(r.ask, script))
    ensures Drive(cfg, Solo(BeginHour(cfg, r), c), script)
            == Drive(cfg, Solo(BeginTokens(cfg, r1), Raise(HourLine(r.ask, script), c)), script)
  {
    if r.ask.policy.maxPerHour > 0 {
      var begun := BeginHour(cfg, r);
      var (taken, op) := StepIncrHour(begun, true, script.hourStamp, c);
      DriveIncrHour(cfg, Solo(begun, c), script);
      DriveExpireHour(cfg, Solo(taken, Apply(c, op)), script);
      r1 := taken;
    } else {
      r1 := r;
    }
  }

  lemma HourRefuses(cfg: Config, r: Request, c: map<Key, int>, script: Script, k: Key)
    requires UndoWorks(script) && Uncommitted(r) && r.hour.None? && HourLine(r.ask, script).Some?
    requires !script.incrHour || !script.expireHour || !Fits(HourLine(r.ask, script), c, r.ask.policy.maxPerHour)
    ensures Refused(Drive(cfg, Solo(BeginHour(cfg, r), c), script), r, c,
                    if script.incrHour && script.expireHour then Denied else Failed, k)
  {
    var begun := BeginHour(cfg, r);
    DriveIncrHour(cfg, Solo(begun, c), script);
    if !script.incrHour {
      RollsBack(cfg, begun, c, script, Failed, k);
    } else {
      var (taken, op) := StepIncrHour(begun, true, script.hourStamp, c);
      DriveExpireHour(cfg, Solo(taken, Apply(c, op)), script);
      RollsBack(cfg, taken, Apply(c, op), script, if script.expireHour then Denied else Failed, k);
    }
  }

  lemma ReservesHour(cfg: Config, r: Request, c: map<Key, int>, script: Script, k: Key)
    requires UndoWorks(script) && Uncommitted(r) && r.hour.None? && r.tokens.None?
    ensures var line, tokens := HourLine(r.ask, script), TokenLine(cfg, r.ask, script);
            Ends(Drive(cfg, Solo(BeginHour(cfg, r), c), script), HourOutcome(cfg, r.ask, c, script, r.active.Some?),
                 r, c, r.active.Some?, tokens, Raise(tokens, Raise(line, c)), k)
  {
    var line := HourLine(r.ask, script);
    if (line.Some? && !(script.incrHour && script.expireHour)) || !Fits(line, c, r.ask.policy.maxPerHour) {
      HourRefuses(cfg, r, c, script, k);
    } else {
      var r1 := HourPasses(cfg, r, c, script);
      ReservesTokens(cfg, r1, Raise(line, c), script, k);
      TokensAfter(cfg, r.ask, line, c, script, r.active.Some?);
      var out := TokensOutcome(cfg, r.ask, c, script, r.active.Some?);
      if out != Accepted {
        RefusedWithout(Drive(cfg, Solo(BeginHour(cfg, r), c), script), out, r, r1, line, c, k);
      }
    }
  }

  /** A raised slot or hour makes no difference to the tokens. */
  lemma TokensAfter(cfg: Config, ask: Ask, line: Option<Line>, c: map<Key, int>, script: Script, slot: bool)
    requires line.Some? ==> !line.value.key.Tokens?
    ensures TokensOutcome(cfg, ask, Raise(line, c), script, slot) == TokensOutcome(cfg, ask, c, script, slot)
  {
    if TokenLine(cfg, ask, script).Some? {
      RaiseCounts(line, c, TokenLine(cfg, ask, script).value.key);
    }
  }

  lemma HourAfter(cfg: Config, ask: Ask, line: Option<Line>, c: map<Key, int>, script: Script, slot: bool)
    requires line.Some? ==> line.value.key.Active?
    ensures HourOutcome(cfg, ask, Raise(line, c), script, slot) == HourOutcome(cfg, ask, c, script, slot)
  {
    TokensAfter(cfg, ask, line, c, script, slot);
    if HourLine(ask, script).Some? {
      RaiseCounts(line, c, HourLine(ask, script).value.key);
    }
  }

  lemma SlotPasses(cfg: Config, r: Request, c: map<Key, int>, script: Script) returns (r1: Request)
    requires UndoWorks(script) && Uncommitted(r) && r.active.None?
    requires SlotLine(r.ask).Some? ==> script.incrActive && script.expireActive
    requires Fits(SlotLine(r.ask), c, r.ask.policy.maxConcurrent)
    ensures r1 == r.(pc := r1.pc, active := SlotLine(r.ask))
    ensures Drive(cfg, Solo(BeginActive(cfg, r), c), script)
            == Drive(cfg, Solo(BeginHour(cfg, r1), Raise(SlotLine(r.ask), c)), script)
  {
    if r.ask.policy.maxConcurrent > 0 {
      var begun := BeginActive(cfg, r);
      var (taken, op) := StepIncrActive(begun, true, c);
      DriveIncrActive(cfg, Solo(begun, c), script);
      DriveExpireActive(cfg, Solo(taken, Apply(c, op)), script);
      r1 := taken;
    } else {
      r1 := r;
    }
  }

  lemma SlotRefuses(cfg: Config, r: Request, c: map<Key, int>, script: Script, k: Key)
    requires UndoWorks(script) && Uncommitted(r) && r.active.None? && r.hour.None? && r.tokens.None?
    requires SlotLine(r.ask).Some?
    requires !script.incrActive || !script.expireActive || !Fits(SlotLine(r.ask), c, r.ask.policy.maxConcurrent)
    ensures Refused(Drive(cfg, Solo(BeginActive(cfg, r), c), script), r, c,
                    if script.incrActive && script.expireActive then Denied else Failed, k)
  {
    var begun := BeginActive(cfg, r);
    DriveIncrActive(cfg, Solo(begun, c), script);
    if script.incrActive {
      var (taken, op) := StepIncrActive(begun, true, c);
      DriveExpireActive(cfg, Solo(taken, Apply(c, op)), script);
      if !script.expireActive {
        RollsBack(cfg, taken, Apply(c, op), script, Failed, k);
      } else {
        var undoing := taken.(pc := UndoActive);
        DriveUndoActive(cfg, Solo(undoing, Apply(c, op)), script);
        GivesBackLine(undoing.active, Apply(c, op), k);
      }
    }
  }

  /** The request is refused at the first limit it does not fit or the first call that fails, with every counter
      as it was, or it gets through with the lines its policy asks for. */
  lemma Reserves(cfg: Config, r: Request, c: map<Key, int>, script: Script, k: Key)
    requires UndoWorks(script) && Uncommitted(r) && r.active.None? && r.hour.None? && r.tokens.None?
    ensures var slot, hour, tokens := SlotLine(r.ask), HourLine(r.ask, script), TokenLine(cfg, r.ask, script);
            Ends(Drive(cfg, Solo(BeginActive(cfg, r), c), script), SlotOutcome(cfg, r.ask, c, script), r, c,
                 slot.Some?, tokens, Raise(tokens, Raise(hour, Raise(slot, c))), k)
  {
    var line := SlotLine(r.ask);
    if (line.Some? && !(script.incrActive && script.expireActive)) || !Fits(line, c, r.ask.policy.maxConcurrent) {
      SlotRefuses(cfg, r, c, script, k);
    } else {
      var r1 := SlotPasses(cfg, r, c, script);
      ReservesHour(cfg, r1, Raise(line, c), script, k);
      HourAfter(cfg, r.ask, line, c, script, line.Some?);
      var out := HourOutcome(cfg, r.ask, c, script, line.Some?);
      if out != Accepted {
        RefusedWithout(Drive(cfg, Solo(BeginActive(cfg, r), c), script), out, r, r1, line, c, k);
      }
    }
  }

  // ---- the handler ----

  lemma RaisedCounts(cfg: Config, ask: Ask, c: map<Key, int>, script: Script, k: Key)
    ensures var slot, hour, tokens := SlotLine(ask), HourLine(ask, script), TokenLine(cfg, ask, script);
            Count(Raise(tokens, Raise(hour, Raise(slot, c))), k)
            == Count(c, k)
               + (if slot.Some? && k == ActiveKey(ask.actor) then 1
                  else if hour.Some? && k == HourKey(ask.actor, script.hourStamp) then 1
                  else if tokens.Some? && k == TokenKey(ask.actor, script.dayStamp) then tokens.value.amount else 0)
  {
    var slot, hour, tokens := SlotLine(ask), HourLine(ask, script), TokenLine(cfg, ask, script);
    RaiseCounts(slot, c, k);
    RaiseCounts(hour, Raise(slot, c), k);
    RaiseCounts(tokens, Raise(hour, Raise(slot, c)), k);
  }

  /** What is due to a message when its limits' counters stand at these values: it is denied at the first limit
      that is full, and fails at the first call that does. */
  function Due(policy: Policy, amount: int, mayWrite: bool, active: int, hour: int, tokens: int, script: Script)
    : Outcome
  {
    var slot, hourly := policy.maxConcurrent > 0, policy.maxPerHour > 0;
    var charged := policy.maxTokensPerDay > 0 && amount > 0;
    if !mayWrite then NotFound
    else if !script.precheck then Denied
    else if slot && !(script.incrActive && script.expireActive) then Failed
    else if slot && active >= policy.maxConcurrent then Denied
    else if hourly && !(script.incrHour && script.expireHour) then Failed
    else if hourly && hour >= policy.maxPerHour then Denied
    else if charged && !(script.incrTokens && script.expireTokens) then Failed
    else if charged && tokens + amount > policy.maxTokensPerDay then Denied
    else if !script.message || ((slot || charged) && !script.commit) || !script.dispatch then Failed
    else Accepted
  }

  lemma DueIs(cfg: Config, ask: Ask, c: map<Key, int>, script: Script)
    requires script.precheck
    ensures var amount := if ask.hint > 0 then ask.hint else cfg.tokensPerRun;
            var hour, tokens := HourKey(ask.actor, script.hourStamp), TokenKey(ask.actor, script.dayStamp);
            SlotOutcome(cfg, ask, c, script)
            == Due(ask.policy, amount, true, Count(c, ActiveKey(ask.actor)), Count(c, hour), Count(c, tokens), script)
  {
  }

  lemma Fares(cfg: Config, r: Request, c: map<Key, int>, script: Script, k: Key)
    requires UndoWorks(script) && r.pc.Start? && Uncommitted(r)
    requires r.active.None? && r.hour.None? && r.tokens.None?
    requires CanRead(cfg, r.ask.actor, r.ask.chat) && script.precheck
    ensures var slot, hour, tokens := SlotLine(r.ask), HourLine(r.ask, script), TokenLine(cfg, r.ask, script);
            Ends(Drive(cfg, Solo(r, c), script), SlotOutcome(cfg, r.ask, c, script), r, c, slot.Some?, tokens,
                 Raise(tokens, Raise(hour, Raise(slot, c))), k)
  {
    DriveEntered(cfg, Solo(r, c), script);
    Reserves(cfg, r, c, script, k);
  }

  /** How a message fares, for every outcome of its calls but that those which take something back work. Its sender
      must be allowed to write to the chat, its checks must pass, and every limit that the policy switches on must
      have room for it: one slot, one run of the hour, and as many tokens as the hint says or, without one, as the
      default. An accepted message raises exactly those counters, and its run's marker records the slot and the
      tokens; any other leaves every counter as it was and no marker. */
  lemma AcceptedIff(cfg: Config, actor: Actor, chat: string, hint: int, c: map<Key, int>, script: Script, k: Key)
    requires UndoWorks(script)
    ensures var policy := if actor.project in cfg.policies then cfg.policies[actor.project] else cfg.fallback;
            var amount: nat := if hint > 0 then hint else cfg.tokensPerRun;
            var active, hour := ActiveKey(actor), HourKey(actor, script.hourStamp);
            var tokens := TokenKey(actor, script.dayStamp);
            var slot, charged := policy.maxConcurrent > 0, policy.maxTokensPerDay > 0 && amount > 0;
            var mayWrite := chat in cfg.chats && cfg.chats[chat] == Chat(actor.user, actor.project);
            var out := Due(policy, amount, mayWrite, Count(c, active), Count(c, hour), Count(c, tokens), script);
            var end := Drive(cfg, Solo(NewRequest(cfg, actor, chat, hint), c), script);
            && end.request.pc == Done(out)
            && Count(end.counters, k)
               == Count(c, k) + (if out != Accepted then 0
                                 else if k == active && slot then 1
                                 else if k == hour && policy.maxPerHour > 0 then 1
                                 else if k == tokens && charged then amount else 0)
            && end.request.marker
               == if out == Accepted && (slot || charged)
                  then Some(Marker(slot, if charged then Some(tokens) else None, if charged then amount else 0))
                  else None
  {
    var r := NewRequest(cfg, actor, chat, hint);
    if CanRead(cfg, actor, chat) && script.precheck {
      Fares(cfg, r, c, script, k);
      DueIs(cfg, r.ask, c, script);
      RaisedCounts(cfg, r.ask, c, script, k);
    } else {
      DriveRefused(cfg, Solo(r, c), script, if CanRead(cfg, actor, chat) then Denied else NotFound);
    }
  }
}
