/** The limiter, its reservation object and the `createMessage` handler, step by step as the control
  plane runs them. Every method is proved to be a run of the protocol's request machine, so what
  QuotaTheorems proves about every interleaving of that machine is about this code.

  The outcome of every store, repository and dispatcher call is a parameter. */
module QuotaHandlers {
  import opened Common
  import opened QuotaKeys
  import opened QuotaProtocol

  /** The Redis calls the limiter makes. A failed call returns no value and changes nothing. */
  class CounterStore {
    var counters: map<Key, int>
    var markers: map<string, Marker>

    constructor ()
      ensures counters == map[] && markers == map[]
    {
      counters, markers := map[], map[];
    }

    method IncrBy(key: Key, amount: int, ok: bool) returns (value: Option<int>)
      modifies this`counters
      ensures counters == if ok then Apply(old(counters), Add(key, amount)) else old(counters)
      ensures value == if ok then Some(Count(old(counters), key) + amount) else None
    {
      if !ok {
        return None;
      }
      var current := (if key in counters then counters[key] else 0) + amount;
      counters := counters[key := current];
      return Some(current);
    }

    method SetNX(run: string, marker: Marker, ok: bool) returns (isNew: Option<bool>)
      modifies this`markers
      ensures isNew == if ok then Some(run !in old(markers)) else None
      ensures markers == if ok && run !in old(markers) then old(markers)[run := marker] else old(markers)
    {
      if !ok {
        return None;
      }
      if run in markers {
        return Some(false);
      }
      markers := markers[run := marker];
      return Some(true);
    }

    method Del(run: string, ok: bool) returns (removed: Option<nat>)
      modifies this`markers
      ensures removed == if !ok then None else if run in old(markers) then Some(1) else Some(0)
      ensures markers == if ok then old(markers) - {run} else old(markers)
    {
      if !ok {
        return None;
      }
      var count := if run in markers then 1 else 0;
      markers := markers - {run};
      return Some(count);
    }
  }

  /** What happens to each call of one `createMessage` request. */
  datatype Script = Script(
    precheck: bool, incrActive: bool, expireActive: bool, undoActive: bool,
    incrHour: bool, expireHour: bool, incrTokens: bool, expireTokens: bool,
    message: bool, commit: bool, dispatch: bool,
    delMarker: bool, undoReserved: bool, undoHour: bool, undoTokens: bool,
    hourStamp: string, dayStamp: string)

  /** The script as the store settles it: a marker that is already there fails the commit. */
  function AsStored(script: Script, run: string, markers: map<string, Marker>): Script {
    script.(commit := script.commit && run !in markers)
  }

  /** The outcome of the call a request makes at `pc`. */
  function CallAt(script: Script, pc: Pc): Call {
    match pc
    case Start => Call(script.precheck, "", "")
    case IncrActive => Call(script.incrActive, "", "")
    case ExpireActive => Call(script.expireActive, "", "")
    case UndoActive => Call(script.undoActive, "", "")
    case IncrHour => Call(script.incrHour, script.hourStamp, "")
    case ExpireHour => Call(script.expireHour, "", "")
    case IncrTokens => Call(script.incrTokens, "", script.dayStamp)
    case ExpireTokens => Call(script.expireTokens, "", "")
    case AddMessage => Call(script.message, "", "")
    case Commit => Call(script.commit, "", "")
    case Dispatch => Call(script.dispatch, "", "")
    case RollbackMarker(_) => Call(script.delMarker, "", "")
    case RollbackActive(_) => Call(script.undoReserved, "", "")
    case RollbackHour(_) => Call(script.undoHour, "", "")
    case RollbackTokens(_) => Call(script.undoTokens, "", "")
    case Done(_) => Call(true, "", "")
  }

  /** Steps a request has left at most. */
  function Rank(pc: Pc): nat {
    match pc
    case Start => 15 case IncrActive => 14 case ExpireActive => 13 case UndoActive => 1
    case IncrHour => 12 case ExpireHour => 11 case IncrTokens => 10 case ExpireTokens => 9
    case AddMessage => 8 case Commit => 7 case Dispatch => 6
    case RollbackMarker(_) => 5 case RollbackActive(_) => 4 case RollbackHour(_) => 3 case RollbackTokens(_) => 2
    case Done(_) => 0
  }

  lemma BeginRanks(cfg: Config, r: Request)
    ensures Rank(BeginTokens(cfg, r).pc) <= 10
    ensures Rank(BeginHour(cfg, r).pc) <= 12
    ensures Rank(BeginActive(cfg, r).pc) <= 14
  {
  }

  lemma StartRank(cfg: Config, r: Request, ok: bool, hs: string, ds: string, c: map<Key, int>)
    requires r.pc.Start?
    ensures Rank(StepOf(cfg, r, ok, hs, ds, c).0.pc) < Rank(r.pc)
  {
    BeginRanks(cfg, r);
  }

  lemma ActiveRank(cfg: Config, r: Request, ok: bool, hs: string, ds: string, c: map<Key, int>)
    requires r.pc.IncrActive? || r.pc.ExpireActive? || r.pc.UndoActive?
    ensures Rank(StepOf(cfg, r, ok, hs, ds, c).0.pc) < Rank(r.pc)
  {
    BeginRanks(cfg, r);
  }

  lemma HourRank(cfg: Config, r: Request, ok: bool, hs: string, ds: string, c: map<Key, int>)
    requires r.pc.IncrHour? || r.pc.ExpireHour?
    ensures Rank(StepOf(cfg, r, ok, hs, ds, c).0.pc) < Rank(r.pc)
  {
    BeginRanks(cfg, r);
  }

  lemma IncrTokensRank(cfg: Config, r: Request, ok: bool, ds: string, c: map<Key, int>)
    ensures Rank(StepIncrTokens(cfg, r, ok, ds, c).0.pc) < 10
  {
  }

  lemma ExpireTokensRank(r: Request, ok: bool)
    ensures Rank(StepExpireTokens(r, ok).pc) < 9
  {
  }

  lemma TokensRank(cfg: Config, r: Request, ok: bool, hs: string, ds: string, c: map<Key, int>)
    requires r.pc.IncrTokens? || r.pc.ExpireTokens?
    ensures Rank(StepOf(cfg, r, ok, hs, ds, c).0.pc) < Rank(r.pc)
  {
    IncrTokensRank(cfg, r, ok, ds, c);
    ExpireTokensRank(r, ok);
  }

  lemma AddMessageRank(r: Request, ok: bool)
    ensures Rank(StepAddMessage(r, ok).pc) < 8
  {
  }

  lemma CommitOnlyRank(r: Request, ok: bool)
    ensures Rank(StepCommit(r, ok).pc) < 7
  {
  }

  lemma DispatchRank(r: Request, ok: bool)
    ensures Rank(StepDispatch(r, ok).pc) < 6
  {
  }

  lemma CommitRank(cfg: Config, r: Request, ok: bool, hs: string, ds: string, c: map<Key, int>)
    requires r.pc.AddMessage? || r.pc.Commit? || r.pc.Dispatch?
    ensures Rank(StepOf(cfg, r, ok, hs, ds, c).0.pc) < Rank(r.pc)
  {
    AddMessageRank(r, ok);
    CommitOnlyRank(r, ok);
    DispatchRank(r, ok);
  }

  lemma RollbackRank(cfg: Config, r: Request, ok: bool, hs: string, ds: string, c: map<Key, int>)
    requires r.pc.RollbackMarker? || r.pc.RollbackActive? || r.pc.RollbackHour? || r.pc.RollbackTokens?
    ensures Rank(StepOf(cfg, r, ok, hs, ds, c).0.pc) < Rank(r.pc)
  {
    BeginRanks(cfg, r);
  }

  lemma RankDecreases(cfg: Config, r: Request, ok: bool, hs: string, ds: string, c: map<Key, int>)
    requires !r.pc.Done?
    ensures Rank(StepOf(cfg, r, ok, hs, ds, c).0.pc) < Rank(r.pc)
  {
    match r.pc
    case Start => StartRank(cfg, r, ok, hs, ds, c);
    case IncrActive | ExpireActive | UndoActive => ActiveRank(cfg, r, ok, hs, ds, c);
    case IncrHour | ExpireHour => HourRank(cfg, r, ok, hs, ds, c);
    case IncrTokens | ExpireTokens => TokensRank(cfg, r, ok, hs, ds, c);
    case AddMessage | Commit | Dispatch => CommitRank(cfg, r, ok, hs, ds, c);
    case RollbackMarker(_) | RollbackActive(_) | RollbackHour(_) | RollbackTokens(_) =>
      RollbackRank(cfg, r, ok, hs, ds, c);
  }

  /** The request machine run to its end, alone, with the scripted outcomes. */
  function Drive(cfg: Config, s: Solo, script: Script): Solo
    decreases Rank(s.request.pc)
  {
    if s.request.pc.Done? then s
    else
      var call := CallAt(script, s.request.pc);
      RankDecreases(cfg, s.request, call.ok, call.hourStamp, call.dayStamp, s.counters);
      Drive(cfg, SoloStep(cfg, s, call), script)
  }

  lemma RequestRunFrom(cfg: Config, s: Solo, call: Call, rest: seq<Call>)
    ensures RequestRun(cfg, s, [call] + rest) == RequestRun(cfg, SoloStep(cfg, s, call), rest)
  {
    IterateConcat(SoloStepper(cfg), s, [call], rest);
    RequestRunThen(cfg, s, [], call);
    assert [] + [call] == [call];
  }

  /** So the end of every handler method below is the end of a run of the request machine. */
  lemma {:induction false} DriveIsRun(cfg: Config, s: Solo, script: Script)
    ensures exists calls :: RequestRun(cfg, s, calls) == Drive(cfg, s, script)
    ensures Drive(cfg, s, script).request.pc.Done?
    decreases Rank(s.request.pc)
  {
    if s.request.pc.Done? {
      assert RequestRun(cfg, s, []) == s;
    } else {
      var call := CallAt(script, s.request.pc);
      var next := SoloStep(cfg, s, call);
      RankDecreases(cfg, s.request, call.ok, call.hourStamp, call.dayStamp, s.counters);
      DriveIsRun(cfg, next, script);
      var rest :| RequestRun(cfg, next, rest) == Drive(cfg, next, script);
      RequestRunFrom(cfg, s, call, rest);
    }
  }

  /** Driving a request on from `s` is driving it on from where this step leaves it. */
  predicate LeadsTo(cfg: Config, s: Solo, script: Script, effect: (Request, StoreOp)) {
    Drive(cfg, s, script) == Drive(cfg, After(effect, s.counters), script)
  }

  lemma DriveStart(cfg: Config, s: Solo, script: Script)
    requires s.request.pc.Start?
    ensures LeadsTo(cfg, s, script, (StepStart(cfg, s.request, script.precheck), NoOp))
  {
  }

  lemma DriveRefused(cfg: Config, s: Solo, script: Script, out: Outcome)
    requires s.request.pc.Start? && StepStart(cfg, s.request, script.precheck) == s.request.(pc := Done(out))
    ensures Drive(cfg, s, script) == Solo(s.request.(pc := Done(out)), s.counters)
  {
    DriveStart(cfg, s, script);
  }

  lemma DriveEntered(cfg: Config, s: Solo, script: Script)
    requires s.request.pc.Start? && CanRead(cfg, s.request.ask.actor, s.request.ask.chat) && script.precheck
    ensures Drive(cfg, s, script) == Drive(cfg, Solo(BeginActive(cfg, s.request), s.counters), script)
  {
    DriveStart(cfg, s, script);
  }

  lemma DriveIncrActive(cfg: Config, s: Solo, script: Script)
    requires s.request.pc.IncrActive?
    ensures LeadsTo(cfg, s, script, StepIncrActive(s.request, script.incrActive, s.counters))
  {
  }

  lemma DriveExpireActive(cfg: Config, s: Solo, script: Script)
    requires s.request.pc.ExpireActive?
    ensures LeadsTo(cfg, s, script, (StepExpireActive(cfg, s.request, script.expireActive), NoOp))
  {
  }

  lemma DriveUndoActive(cfg: Config, s: Solo, script: Script)
    requires s.request.pc.UndoActive?
    ensures LeadsTo(cfg, s, script, StepUndoActive(s.request, script.undoActive))
  {
  }

  lemma DriveIncrHour(cfg: Config, s: Solo, script: Script)
    requires s.request.pc.IncrHour?
    ensures LeadsTo(cfg, s, script, StepIncrHour(s.request, script.incrHour, script.hourStamp, s.counters))
  {
  }

  lemma DriveExpireHour(cfg: Config, s: Solo, script: Script)
    requires s.request.pc.ExpireHour?
    ensures LeadsTo(cfg, s, script, (StepExpireHour(cfg, s.request, script.expireHour), NoOp))
  {
  }

  lemma DriveIncrTokens(cfg: Config, s: Solo, script: Script)
    requires s.request.pc.IncrTokens?
    ensures LeadsTo(cfg, s, script, StepIncrTokens(cfg, s.request, script.incrTokens, script.dayStamp, s.counters))
  {
  }

  lemma DriveExpireTokens(cfg: Config, s: Solo, script: Script)
    requires s.request.pc.ExpireTokens?
    ensures LeadsTo(cfg, s, script, (StepExpireTokens(s.request, script.expireTokens), NoOp))
  {
  }

  lemma DriveAddMessage(cfg: Config, s: Solo, script: Script)
    requires s.request.pc.AddMessage?
    ensures LeadsTo(cfg, s, script, (StepAddMessage(s.request, script.message), NoOp))
  {
  }

  lemma DriveCommit(cfg: Config, s: Solo, script: Script)
    requires s.request.pc.Commit?
    ensures LeadsTo(cfg, s, script, (StepCommit(s.request, script.commit), NoOp))
  {
  }

  lemma DriveDispatch(cfg: Config, s: Solo, script: Script)
    requires s.request.pc.Dispatch?
    ensures LeadsTo(cfg, s, script, (StepDispatch(s.request, script.dispatch), NoOp))
  {
  }

  lemma DriveRollbackMarker(cfg: Config, s: Solo, script: Script)
    requires s.request.pc.RollbackMarker?
    ensures LeadsTo(cfg, s, script, (StepRollbackMarker(s.request, s.request.pc.out, script.delMarker), NoOp))
  {
  }

  lemma DriveRollbackActive(cfg: Config, s: Solo, script: Script)
    requires s.request.pc.RollbackActive?
    ensures LeadsTo(cfg, s, script, StepRollbackActive(s.request, s.request.pc.out, script.undoReserved))
  {
  }

  lemma DriveRollbackHour(cfg: Config, s: Solo, script: Script)
    requires s.request.pc.RollbackHour?
    ensures LeadsTo(cfg, s, script, StepRollbackHour(s.request, s.request.pc.out, script.undoHour))
  {
  }

  lemma DriveRollbackTokens(cfg: Config, s: Solo, script: Script)
    requires s.request.pc.RollbackTokens?
    ensures LeadsTo(cfg, s, script, StepRollbackTokens(s.request, s.request.pc.out, script.undoTokens))
  {
  }

  class Reservation {
    const store: CounterStore
    const actor: Actor
    const policy: Policy
    const hint: int

    var activeKey: Key
    var hourKey: Key
    var tokenKey: Key
    var runMarker: Option<string>
    var reservedTokens: nat
    var reservedActive: bool
    var reservedHour: bool
    var committed: bool

    /** The machine state this object stands for. */
    ghost var model: Request

    /** A stored amount and key are exactly a line of the model. */
    ghost predicate Has(line: Option<Line>, present: bool, key: Key, amount: nat) {
      line.Some? == present && (present ==> line.value.key == key && line.value.amount == amount)
    }

    ghost predicate Agrees()
      reads this, store
    {
      && model.ask.actor == actor && model.ask.policy == policy && model.ask.hint == hint
      && Has(model.active, reservedActive, activeKey, 1)
      && Has(model.hour, reservedHour, hourKey, 1)
      && Has(model.tokens, reservedTokens > 0, tokenKey, reservedTokens)
      && committed == model.committed
      && runMarker.Some? == model.marked
      && model.marker == Stored()
    }

    ghost function Stored(): Option<Marker>
      reads this, store
    {
      if runMarker.Some? && runMarker.value in store.markers then Some(store.markers[runMarker.value]) else None
    }

    ghost function View(): Solo
      reads this, store
    {
      Solo(model, store.counters)
    }

    constructor (cfg: Config, store: CounterStore, actor: Actor, chat: string, hint: int)
      ensures Agrees() && this.store == store
      ensures model == NewRequest(cfg, actor, chat, hint)
    {
      this.store, this.actor, this.hint := store, actor, hint;
      policy := PolicyOf(cfg, actor.project);
      var none := ActiveKey(actor);
      activeKey, hourKey, tokenKey := none, none, none;
      runMarker, reservedTokens := None, 0;
      reservedActive, reservedHour, committed := false, false, false;
      model := NewRequest(cfg, actor, chat, hint);
    }

    // ---- the calls of ReserveRunWithHint ----

    method TakeActive(ok: bool) returns (current: Option<int>)
      requires Agrees() && model.pc.IncrActive?
      modifies this`activeKey, this`reservedActive, this`model, store`counters
      ensures Agrees()
      ensures View() == After(StepIncrActive(old(model), ok, old(store.counters)), old(store.counters))
      ensures current.Some? == ok
      ensures ok ==> model.active.Some? && model.active.value.within == (current.value <= policy.maxConcurrent)
    {
      var key := ActiveKey(actor);
      ghost var effect := StepIncrActive(model, ok, store.counters);
      current := store.IncrBy(key, 1, ok);
      if current.Some? {
        activeKey, reservedActive := key, true;
        assert effect.1 == Add(key, 1) && Has(effect.0.active, true, key, 1);
      }
      ghost var was := model;
      model := effect.0;
      assert model == was.(pc := model.pc, active := model.active);
    }

    method TakeHour(ok: bool, stamp: string) returns (current: Option<int>)
      requires Agrees() && model.pc.IncrHour?
      modifies this`hourKey, this`reservedHour, this`model, store`counters
      ensures Agrees()
      ensures View() == After(StepIncrHour(old(model), ok, stamp, old(store.counters)), old(store.counters))
      ensures current.Some? == ok
      ensures ok ==> model.hour.Some? && model.hour.value.within == (current.value <= policy.maxPerHour)
    {
      var key := HourKey(actor, stamp);
      ghost var effect := StepIncrHour(model, ok, stamp, store.counters);
      current := store.IncrBy(key, 1, ok);
      if current.Some? {
        hourKey, reservedHour := key, true;
        assert effect.1 == Add(key, 1) && Has(effect.0.hour, true, key, 1);
      }
      ghost var was := model;
      model := effect.0;
      assert model == was.(pc := model.pc, hour := model.hour);
    }

    method TakeTokens(cfg: Config, ok: bool, stamp: string) returns (current: Option<int>)
      requires Agrees() && model.pc.IncrTokens? && TokenReservation(cfg, model) > 0
      modifies this`tokenKey, this`reservedTokens, this`model, store`counters
      ensures Agrees()
      ensures View() == After(StepIncrTokens(cfg, old(model), ok, stamp, old(store.counters)), old(store.counters))
      ensures current.Some? == ok
      ensures ok ==> model.tokens.Some? && model.tokens.value.within == (current.value <= policy.maxTokensPerDay)
    {
      var key := TokenKey(actor, stamp);
      var reserved := if hint > 0 then hint else cfg.tokensPerRun;
      ghost var effect := StepIncrTokens(cfg, model, ok, stamp, store.counters);
      current := store.IncrBy(key, reserved, ok);
      if current.Some? {
        tokenKey, reservedTokens := key, reserved;
        assert effect.1 == Add(key, reserved) && Has(effect.0.tokens, true, key, reserved);
      }
      ghost var was := model;
      model := effect.0;
      assert model == was.(pc := model.pc, tokens := model.tokens, charged := model.charged);
    }

    // ---- the calls of Commit and Rollback ----

    /** A marker that is already there under the run's key makes the commit fail like a failed call. */
    method CommitRun(run: string, ok: bool) returns (failed: bool)
      requires Agrees() && model.pc.Commit? && !model.marked
      modifies this`runMarker, this`committed, this`model, store`markers
      ensures Agrees()
      ensures View()
              == After((StepCommit(old(model), ok && run !in old(store.markers)), NoOp), old(store.counters))
      ensures failed == !model.pc.Dispatch?
    {
      if !reservedActive && reservedTokens == 0 {
        committed, model := true, StepCommit(model, ok);
        return false;
      }
      failed := WriteMarker(run, ok);
    }

    method WriteMarker(run: string, ok: bool) returns (failed: bool)
      requires Agrees() && model.pc.Commit? && !model.marked && (reservedActive || reservedTokens > 0)
      modifies this`runMarker, this`committed, this`model, store`markers
      ensures Agrees() && failed == !(ok && run !in old(store.markers))
      ensures View() == After((StepCommit(old(model), !failed), NoOp), old(store.counters))
      ensures failed == !model.pc.Dispatch?
    {
      var marker := Marker(reservedActive, if reservedTokens > 0 then Some(tokenKey) else None, reservedTokens);
      assert marker == MarkerFor(model);
      CommitEffect(model);
      var written := store.SetNX(run, marker, ok);
      if written != Some(true) {
        MoveTo(model.(pc := RollbackActive(Failed)));
        return true;
      }
      runMarker, committed := Some(run), true;
      model := model.(marker := Some(marker), marked := true, committed := true, pc := Dispatch);
      return false;
    }

    lemma CommitEffect(r: Request)
      requires r.pc.Commit? && !r.marked && (r.active.Some? || r.tokens.Some?)
      ensures StepCommit(r, false) == r.(pc := RollbackActive(Failed))
      ensures r.marker.None? ==>
                StepCommit(r, true)
                == r.(marker := Some(MarkerFor(r)), marked := true, committed := true, pc := Dispatch)
    {
    }

    method RollbackDelete(ok: bool) returns (shouldRelease: bool)
      requires Agrees() && model.pc.RollbackMarker? && committed && runMarker.Some? && !model.tookBack
      modifies this`model, store`markers
      ensures Agrees()
      ensures View() == After((StepRollbackMarker(old(model), old(model.pc.out), ok), NoOp), old(store.counters))
      ensures shouldRelease == Owns(model)
    {
      model := StepRollbackMarker(model, model.pc.out, ok);
      var removed := store.Del(runMarker.value, ok);
      shouldRelease := removed.Some? && removed.value > 0;
    }

    method RollbackSlot(shouldRelease: bool, ok: bool)
      requires Agrees() && model.pc.RollbackActive? && shouldRelease == Owns(model)
      modifies this`reservedActive, this`model, store`counters
      ensures Agrees()
      ensures View() == After(StepRollbackActive(old(model), old(model.pc.out), ok), old(store.counters))
      ensures shouldRelease == Owns(model)
    {
      model := StepRollbackActive(model, model.pc.out, ok).0;
      if reservedActive {
        if shouldRelease {
          var _ := store.IncrBy(activeKey, -1, ok);
        }
        reservedActive := false;
      }
    }

    method RollbackHourCount(ok: bool)
      requires Agrees() && model.pc.RollbackHour?
      modifies this`reservedHour, this`model, store`counters
      ensures Agrees()
      ensures View() == After(StepRollbackHour(old(model), old(model.pc.out), ok), old(store.counters))
    {
      model := StepRollbackHour(model, model.pc.out, ok).0;
      if reservedHour {
        var _ := store.IncrBy(hourKey, -1, ok);
        reservedHour := false;
      }
    }

    method RollbackTokenCount(shouldRelease: bool, ok: bool)
      requires Agrees() && model.pc.RollbackTokens? && shouldRelease == Owns(model)
      modifies this`reservedTokens, this`model, store`counters
      ensures Agrees()
      ensures View() == After(StepRollbackTokens(old(model), old(model.pc.out), ok), old(store.counters))
    {
      model := StepRollbackTokens(model, model.pc.out, ok).0;
      if reservedTokens > 0 {
        if shouldRelease {
          var _ := store.IncrBy(tokenKey, -(reservedTokens as int), ok);
        }
        reservedTokens := 0;
      }
    }

    /** `Rollback`, entered at the machine's rollback step. */
    method Rollback(cfg: Config, script: Script)
      requires Agrees() && RollsBack()
      modifies this, store
      ensures Agrees()
      ensures View() == Drive(cfg, old(View()), script)
      ensures model.pc == Done(old(model.pc.out))
    {
      var shouldRelease := true;
      if committed && runMarker.Some? {
        DriveRollbackMarker(cfg, View(), script);
        shouldRelease := RollbackDelete(script.delMarker);
      }
      DriveRollbackActive(cfg, View(), script);
      RollbackSlot(shouldRelease, script.undoReserved);
      DriveRollbackHour(cfg, View(), script);
      RollbackHourCount(script.undoHour);
      DriveRollbackTokens(cfg, View(), script);
      RollbackTokenCount(shouldRelease, script.undoTokens);
    }

    /** The model is where `BeginRollback` leaves it. */
    ghost predicate RollsBack()
      reads this
    {
      && (model.pc.RollbackMarker? || model.pc.RollbackActive?)
      && (model.pc.RollbackMarker? <==> committed && runMarker.Some?)
      && !model.tookBack
      && (model.pc.RollbackActive? ==> Owns(model))
    }

    /** Nothing is committed yet. */
    ghost predicate Reserving()
      reads this
    {
      !committed && runMarker.None? && !model.tookBack
    }

    /** A step that makes no store call moves only the model. */
    ghost method MoveTo(r: Request)
      requires Agrees()
      requires r == model.(pc := r.pc, admitted := r.admitted, created := r.created)
      modifies this`model
      ensures Agrees() && model == r
    {
      model := r;
    }

    /** A failed or denied reservation is rolled back. */
    method Abandon(cfg: Config, out: Outcome, script: Script)
      requires Agrees() && Reserving()
      modifies this, store
      ensures Agrees()
      ensures View() == Drive(cfg, Solo(BeginRollback(old(model), out), old(store.counters)), script)
      ensures model.pc == Done(out)
    {
      MoveTo(BeginRollback(model, out));
      Rollback(cfg, script);
    }

    // ---- ReserveRunWithHint, one counter at a time ----

    method ReserveActive(cfg: Config, script: Script) returns (go: bool)
      requires Agrees() && Reserving() && model.pc.IncrActive?
      modifies this, store
      ensures Agrees()
      ensures Drive(cfg, View(), script) == old(Drive(cfg, View(), script))
      ensures if go then Reserving() && AtHour(cfg) && store.markers == old(store.markers) else model.pc.Done?
    {
      DriveIncrActive(cfg, View(), script);
      var current := TakeActive(script.incrActive);
      if current.None? {
        return false;
      }
      go := CheckActive(cfg, script, current.value);
    }

    method CheckActive(cfg: Config, script: Script, current: int) returns (go: bool)
      requires Agrees() && Reserving() && model.pc.ExpireActive? && reservedActive
      requires model.active.value.within == (current <= policy.maxConcurrent)
      modifies this, store
      ensures Agrees()
      ensures Drive(cfg, View(), script) == old(Drive(cfg, View(), script))
      ensures if go then Reserving() && AtHour(cfg) && store.markers == old(store.markers) else model.pc.Done?
    {
      DriveExpireActive(cfg, View(), script);
      if !script.expireActive {
        Abandon(cfg, Failed, script);
        return false;
      }
      if current > policy.maxConcurrent {
        MoveTo(model.(pc := UndoActive));
        UndoSlot(cfg, script);
        return false;
      }
      MoveTo(BeginHour(cfg, model));
      return true;
    }

    /** The decrement itself, whether or not the call works. */
    method GiveSlotBack(ok: bool)
      requires Agrees() && reservedActive
      modifies this`reservedActive, this`model, store`counters
      ensures Agrees() && model == StepUndoActive(old(model), ok).0
      ensures store.counters == if ok then Apply(old(store.counters), Add(activeKey, -1)) else old(store.counters)
    {
      model := StepUndoActive(model, ok).0;
      var _ := store.IncrBy(activeKey, -1, ok);
      reservedActive := false;
    }

    /** The single decrement of a caller denied its slot. */
    method UndoSlot(cfg: Config, script: Script)
      requires Agrees() && model.pc.UndoActive? && reservedActive
      modifies this`reservedActive, this`model, store`counters
      ensures Agrees()
      ensures View() == Drive(cfg, old(View()), script)
      ensures model.pc.Done?
    {
      DriveUndoActive(cfg, View(), script);
      GiveSlotBack(script.undoActive);
    }

    method ReserveHour(cfg: Config, script: Script) returns (go: bool)
      requires Agrees() && Reserving() && model.pc.IncrHour?
      modifies this, store
      ensures Agrees()
      ensures Drive(cfg, View(), script) == old(Drive(cfg, View(), script))
      ensures if go then Reserving() && AtTokens(cfg) && store.markers == old(store.markers) else model.pc.Done?
    {
      DriveIncrHour(cfg, View(), script);
      ghost var before := model;
      var current := TakeHour(script.incrHour, script.hourStamp);
      if current.None? {
        Abandoned(before, Failed);
        Rollback(cfg, script);
        return false;
      }
      go := CheckHour(cfg, script, current.value);
    }

    method CheckHour(cfg: Config, script: Script, current: int) returns (go: bool)
      requires Agrees() && Reserving() && model.pc.ExpireHour? && reservedHour
      requires model.hour.value.within == (current <= policy.maxPerHour)
      modifies this, store
      ensures Agrees()
      ensures Drive(cfg, View(), script) == old(Drive(cfg, View(), script))
      ensures if go then Reserving() && AtTokens(cfg) && store.markers == old(store.markers) else model.pc.Done?
    {
      DriveExpireHour(cfg, View(), script);
      if !script.expireHour {
        Abandon(cfg, Failed, script);
        return false;
      }
      if current > policy.maxPerHour {
        Abandon(cfg, Denied, script);
        return false;
      }
      MoveTo(BeginTokens(cfg, model));
      return true;
    }

    lemma Abandoned(before: Request, out: Outcome)
      requires Agrees() && Reserving() && model == BeginRollback(before, out) && before.committed == model.committed
      ensures RollsBack()
    {
    }

    method ReserveTokens(cfg: Config, script: Script) returns (go: bool)
      requires Agrees() && Reserving() && model.pc.IncrTokens? && TokenReservation(cfg, model) > 0
      modifies this, store
      ensures Agrees()
      ensures Drive(cfg, View(), script) == old(Drive(cfg, View(), script))
      ensures if go then Reserving() && model.pc.AddMessage? && store.markers == old(store.markers) else model.pc.Done?
    {
      DriveIncrTokens(cfg, View(), script);
      ghost var before := model;
      var current := TakeTokens(cfg, script.incrTokens, script.dayStamp);
      if current.None? {
        Abandoned(before, Failed);
        Rollback(cfg, script);
        return false;
      }
      go := CheckTokens(cfg, script, current.value);
    }

    method CheckTokens(cfg: Config, script: Script, current: int) returns (go: bool)
      requires Agrees() && Reserving() && model.pc.ExpireTokens? && reservedTokens > 0
      requires model.tokens.value.within == (current <= policy.maxTokensPerDay)
      modifies this, store
      ensures Agrees()
      ensures Drive(cfg, View(), script) == old(Drive(cfg, View(), script))
      ensures if go then Reserving() && model.pc.AddMessage? && store.markers == old(store.markers) else model.pc.Done?
    {
      DriveExpireTokens(cfg, View(), script);
      if !script.expireTokens {
        Abandon(cfg, Failed, script);
        return false;
      }
      if current > policy.maxTokensPerDay {
        Abandon(cfg, Denied, script);
        return false;
      }
      MoveTo(model.(pc := AddMessage, admitted := true));
      return true;
    }

    /** Which counter comes next, as the policy says. */
    ghost predicate AtTokens(cfg: Config)
      reads this
    {
      if policy.maxTokensPerDay > 0 && TokenReservation(cfg, model) > 0 then model.pc.IncrTokens?
      else model.pc.AddMessage?
    }

    ghost predicate AtHour(cfg: Config)
      reads this
    {
      if policy.maxPerHour > 0 then model.pc.IncrHour? else AtTokens(cfg)
    }

    ghost predicate AtActive(cfg: Config)
      reads this
    {
      if policy.maxConcurrent > 0 then model.pc.IncrActive? else AtHour(cfg)
    }

    method ReserveRun(cfg: Config, script: Script) returns (go: bool)
      requires Agrees() && Reserving() && AtActive(cfg)
      modifies this, store
      ensures Agrees()
      ensures Drive(cfg, View(), script) == old(Drive(cfg, View(), script))
      ensures if go then Reserving() && model.pc.AddMessage? && store.markers == old(store.markers) else model.pc.Done?
    {
      if policy.maxConcurrent > 0 {
        go := ReserveActive(cfg, script);
        if !go {
          return;
        }
      }
      if policy.maxPerHour > 0 {
        go := ReserveHour(cfg, script);
        if !go {
          return;
        }
      }
      var reserved := if hint > 0 then hint else cfg.tokensPerRun;
      if policy.maxTokensPerDay > 0 && reserved > 0 {
        go := ReserveTokens(cfg, script);
        if !go {
          return;
        }
      }
      return true;
    }

    /** The rest of `createMessage`, with the deferred rollback on every failing path. */
    method Submit(cfg: Config, run: string, setNX: bool, script: Script)
      requires Agrees() && Reserving() && model.pc.AddMessage?
      requires script.commit == (setNX && run !in store.markers)
      modifies this, store
      ensures Agrees()
      ensures View() == Drive(cfg, old(View()), script)
    {
      DriveAddMessage(cfg, View(), script);
      if !script.message {
        Abandon(cfg, Failed, script);
        return;
      }
      MoveTo(model.(created := true, pc := Commit));
      DriveCommit(cfg, View(), script);
      ghost var before := model;
      var failed := CommitRun(run, setNX);
      if failed {
        Abandoned(before, Failed);
        Rollback(cfg, script);
        return;
      }
      SendOff(cfg, script);
    }

    method SendOff(cfg: Config, script: Script)
      requires Agrees() && model.pc.Dispatch? && committed && !model.tookBack
      modifies this, store
      ensures Agrees()
      ensures View() == Drive(cfg, old(View()), script)
    {
      DriveDispatch(cfg, View(), script);
      if !script.dispatch {
        MoveTo(BeginRollback(model, Failed));
        Rollback(cfg, script);
        return;
      }
      MoveTo(model.(pc := Done(Accepted)));
    }

    /** The request is over before anything was reserved. */
    method Refuse(cfg: Config, out: Outcome, ghost script: Script)
      requires Agrees() && model.pc.Start?
      requires StepStart(cfg, model, script.precheck) == model.(pc := Done(out))
      modifies this`model
      ensures Agrees()
      ensures View() == Drive(cfg, old(View()), script)
    {
      DriveRefused(cfg, View(), script, out);
      MoveTo(model.(pc := Done(out)));
    }

    /** The handler's body, on a new reservation. `setNX` is the outcome of the marker's call, `script.commit`
        says whether it also finds no marker. */
    method Handle(cfg: Config, chat: string, run: string, setNX: bool, script: Script)
      requires Agrees() && Reserving() && model.pc.Start? && model.ask.chat == chat
      requires model.ask.policy == PolicyOf(cfg, actor.project)
      requires script.commit == (setNX && run !in store.markers)
      modifies this, store
      ensures Agrees()
      ensures View() == Drive(cfg, old(View()), script)
    {
      if chat !in cfg.chats || cfg.chats[chat].user != actor.user || cfg.chats[chat].project != actor.project {
        Refuse(cfg, NotFound, script);
        return;
      }
      if !script.precheck {
        Refuse(cfg, Denied, script);
        return;
      }
      DriveEntered(cfg, View(), script);
      Enter(cfg);
      Proceed(cfg, run, setNX, script);
    }

    /** Past the checks: on to the first limit that is switched on. */
    method Enter(cfg: Config)
      requires Agrees() && Reserving() && model.ask.policy == PolicyOf(cfg, actor.project)
      modifies this`model
      ensures Agrees() && Reserving() && AtActive(cfg)
      ensures model == BeginActive(cfg, old(model))
    {
      MoveTo(BeginActive(cfg, model));
    }

    method Proceed(cfg: Config, run: string, setNX: bool, script: Script)
      requires Agrees() && Reserving() && AtActive(cfg)
      requires script.commit == (setNX && run !in store.markers)
      modifies this, store
      ensures Agrees()
      ensures View() == Drive(cfg, old(View()), script)
    {
      var go := ReserveRun(cfg, script);
      if go {
        Submit(cfg, run, setNX, script);
      }
    }
  }

  /** `createMessage` from its first check to its response: whatever happens to its calls, it ends where the
      request machine ends, and even if the run's marker should exist already. */
  method CreateMessage(cfg: Config, store: CounterStore, actor: Actor, chat: string, hint: int, run: string,
                       script: Script)
    returns (reservation: Reservation)
    modifies store
    ensures fresh(reservation) && reservation.store == store && reservation.Agrees()
    ensures reservation.View()
            == Drive(cfg, Solo(NewRequest(cfg, actor, chat, hint), old(store.counters)),
                     AsStored(script, run, old(store.markers)))
  {
    reservation := new Reservation(cfg, store, actor, chat, hint);
    reservation.Handle(cfg, chat, run, script.commit, AsStored(script, run, store.markers));
  }

  function SlotOp(m: Marker, key: Key, ok: bool): StoreOp {
    if m.active && ok then Add(key, -1) else NoOp
  }

  function TokenOp(m: Marker, actual: nat, ok: bool): StoreOp {
    if m.tokens > 0 && m.tokenKey.Some? && ok && actual != m.tokens then Add(m.tokenKey.value, actual - m.tokens)
    else NoOp
  }

  /** `ReleaseRun`: it gives back the slot the marker records and replaces the recorded tokens by the actual usage,
      and only if its own delete removed the marker. */
  method ReleaseRun(store: CounterStore, run: string, key: Key, actual: nat,
                    get: bool, del: bool, decr: bool, settle: bool)
    returns (removed: bool)
    modifies store
    ensures removed <==> get && del && run in old(store.markers)
    ensures store.markers == if removed then old(store.markers) - {run} else old(store.markers)
    ensures store.counters ==
            if removed then
              var m := old(store.markers)[run];
              Apply(Apply(old(store.counters), SlotOp(m, key, decr)), TokenOp(m, actual, settle))
            else old(store.counters)
    ensures forall k :: Count(store.counters, k) == Count(old(store.counters), k)
              + if !removed then 0
                else
                  var m := old(store.markers)[run];
                  (if m.active && decr && k == key then -1 else 0)
                  + if m.tokens > 0 && m.tokenKey == Some(k) && settle then actual - m.tokens else 0
  {
    if !get || run !in store.markers {
      return false;
    }
    var marker := store.markers[run];
    var count := store.Del(run, del);
    if count.None? || count.value == 0 {
      return false;
    }
    if marker.active {
      var _ := store.IncrBy(key, -1, decr);
    }
    if marker.tokens > 0 && marker.tokenKey.Some? {
      var delta := actual - marker.tokens;
      if delta != 0 {
        var _ := store.IncrBy(marker.tokenKey.value, delta, settle);
      }
    }
    return true;
  }

  lemma TakenLine(r: Request, l: Release, seen: Marker)
    requires r.marker == Some(seen) && l.pc == Delete(seen)
    ensures var l' := ReleaseDelete(r, l, seen, true).1;
            && l'.pc.DecrActive? && l'.took && l'.active == seen.active && l'.key == l.key && l'.actual == l.actual
            && l'.tokens == (if seen.tokens > 0 && seen.tokenKey.Some?
                             then Some(Line(seen.tokenKey.value, seen.tokens, true)) else None)
  {
  }

  /** The two calls after the marker is gone: the slot, then the tokens. */
  lemma SettlesTaken(l: Release, seen: Marker, decr: bool, settle: bool)
    requires l.active == seen.active
    requires l.tokens == (if seen.tokens > 0 && seen.tokenKey.Some?
                          then Some(Line(seen.tokenKey.value, seen.tokens, true)) else None)
    ensures var (l', slot) := ReleaseDecr(l, decr);
            var (l'', tokens) := ReleaseSettle(l', settle);
            && slot == SlotOp(seen, l.key, decr) && tokens == TokenOp(seen, l.actual, settle)
            && l''.pc.Finished? && l''.took == l.took
  {
    var l' := ReleaseDecr(l, decr).0;
    assert l'.tokens == l.tokens && l'.actual == l.actual && l'.took == l.took;
  }

  lemma TakenSteps(r: Request, l: Release, c: map<Key, int>, decr: bool, settle: bool)
    requires l == Release(l.run, l.key, l.actual, Get, false, false, None, None, false) && r.marker.Some?
    ensures var m := r.marker.value;
            var s := ReleaseSteps(SoloRelease(r, l, c), [true, true, decr, settle]);
            && s.release.pc.Finished? && s.release.took && s.request == r.(marker := None)
            && s.counters == Apply(Apply(c, SlotOp(m, l.key, decr)), TokenOp(m, l.actual, settle))
  {
    var m := r.marker.value;
    var s0 := SoloRelease(r, l, c);
    IterateFour(ReleaseStep, s0, true, true, decr, settle);
    var l1 := ReleaseGet(r, l, true);
    var l2 := ReleaseDelete(r, l1, m, true).1;
    TakenLine(r, l1, m);
    SettlesTaken(l2, m, decr, settle);
    var r2, l3 := r.(marker := None), ReleaseDecr(l2, decr).0;
    var c3 := Apply(c, SlotOp(m, l.key, decr));
    assert ReleaseStep(s0, true) == SoloRelease(r, l1, c);
    assert ReleaseStep(SoloRelease(r, l1, c), true) == SoloRelease(r2, l2, c);
    assert ReleaseStep(SoloRelease(r2, l2, c), decr) == SoloRelease(r2, l3, c3);
  }

  lemma MissedSteps(r: Request, l: Release, c: map<Key, int>, get: bool, del: bool, decr: bool, settle: bool)
    requires l == Release(l.run, l.key, l.actual, Get, false, false, None, None, false)
    requires !get || !del || r.marker.None?
    ensures var s := ReleaseSteps(SoloRelease(r, l, c), [get, del, decr, settle]);
            s.release.pc.Finished? && !s.release.took && s.request == r && s.counters == c
  {
    IterateFour(ReleaseStep, SoloRelease(r, l, c), get, del, decr, settle);
    var l1 := ReleaseGet(r, l, get);
    assert ReleaseStep(SoloRelease(r, l, c), get) == SoloRelease(r, l1, c);
  }

  /** Those are exactly the effects of the release machine's steps, taken with the same outcomes; and with
      ReleaseStepsEmbed those are steps of the whole system. */
  lemma ReleaseIsRun(r: Request, l: Release, c: map<Key, int>, get: bool, del: bool, decr: bool, settle: bool)
    requires l == Release(l.run, l.key, l.actual, Get, false, false, None, None, false)
    ensures var s := ReleaseSteps(SoloRelease(r, l, c), [get, del, decr, settle]);
            && s.release.pc.Finished?
            && (s.release.took <==> get && del && r.marker.Some?)
            && s.request == (if s.release.took then r.(marker := None) else r)
            && s.counters == (if s.release.took then
                                Apply(Apply(c, SlotOp(r.marker.value, l.key, decr)),
                                      TokenOp(r.marker.value, l.actual, settle))
                              else c)
  {
    if get && del && r.marker.Some? {
      TakenSteps(r, l, c, decr, settle);
    } else {
      MissedSteps(r, l, c, get, del, decr, settle);
    }
  }
}
