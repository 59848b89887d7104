/** The worker's loop body as it runs: every method here drives the queue machine of RunQueue, so the
  theorems about all its runs are about this code. Outcomes of store calls are parameters. */
module RunQueueWorker {
  import opened Common
  import QueuedRuns
  import opened RunQueue

  datatype Entry = Entry(decodable: bool, deliveries: nat)

  function OneMore(e: Entry): Entry {
    e.(deliveries := e.deliveries + 1)
  }

  datatype Reply = Unavailable | Empty | Delivered(id: nat)

  /** The stream, its group and the dead-letter stream. A failed call has no effect. */
  class Redis {
    var entries: seq<Entry>
    var next: nat
    var pending: set<nat>
    var letters: seq<nat>

    constructor ()
      ensures Shows(INIT)
    {
      entries, next, pending, letters := [], 0, {}, [];
    }

    /** What the machine's state looks like from outside. */
    ghost predicate Shows(s: State)
      reads this
    {
      && |entries| == |s.messages| && next == s.next && pending == s.pending && letters == s.letters
      && forall id :: 0 <= id < |entries| ==>
           entries[id] == Entry(s.messages[id].decodable, s.messages[id].deliveries)
    }

    ghost predicate Valid()
      reads this
    {
      next <= |entries| && forall id :: id in pending ==> id < |entries|
    }

    /** `Enqueue`: the run is normalised, encoded and added, not yet delivered. Its entry is decodable if
        decoding what was encoded gives a run, which is so exactly for a run with an id. */
    method Enqueue(run: QueuedRuns.QueuedRun, attemptId: string, now: int, times: QueuedRuns.Times, ok: bool,
                   ghost max: nat, ghost s: State)
      returns (failed: bool)
      requires Shows(s) && QueuedRuns.Sound(times)
      modifies this`entries
      ensures failed == !ok
      ensures Shows(if ok then Step(max, s, Action.Enqueue(run.runId != "")) else s)
    {
      var sent := QueuedRuns.Normalize(run, attemptId, now);
      var values := QueuedRuns.Encode(sent, times);
      QueuedRuns.DecodableIff(run, attemptId, now, times);
      if ok {
        entries := entries + [Entry(QueuedRuns.Decode(values, times).Run?, 0)];
      }
      return !ok;
    }

    method XReadGroup(ok: bool) returns (reply: Reply)
      modifies this
      ensures letters == old(letters)
      ensures reply.Delivered? <==> ok && old(next) < old(|entries|)
      ensures reply.Unavailable? <==> !ok
      ensures !reply.Delivered? ==> entries == old(entries) && next == old(next) && pending == old(pending)
      ensures reply.Delivered? ==>
        && reply.id == old(next) && next == old(next) + 1 && pending == old(pending) + {reply.id}
        && entries == old(entries)[reply.id := old(entries)[reply.id].(deliveries := 1)]
    {
      if !ok {
        return Unavailable;
      }
      if next >= |entries| {
        return Empty;
      }
      reply := Delivered(next);
      entries := entries[next := entries[next].(deliveries := 1)];
      pending := pending + {next};
      next := next + 1;
    }

    /** `eligible` is what the server finds idle for long enough, at most the requested count. */
    method XAutoClaim(ok: bool, eligible: seq<nat>) returns (claimed: Option<seq<nat>>)
      requires Distinct(eligible) && AllBelow(eligible, |entries|)
      modifies this`entries
      ensures claimed == if ok then Some(eligible) else None
      ensures |entries| == old(|entries|)
      ensures forall id :: 0 <= id < |entries| ==>
                entries[id] == if ok && id in eligible then OneMore(old(entries)[id]) else old(entries)[id]
    {
      if !ok {
        return None;
      }
      ghost var was := entries;
      for i := 0 to |eligible|
        invariant |entries| == |was|
        invariant forall id :: 0 <= id < |entries| ==>
                    entries[id] == if id in eligible[..i] then OneMore(was[id]) else was[id]
      {
        var id := eligible[i];
        assert id !in eligible[..i];
        assert eligible[..i + 1] == eligible[..i] + [id];
        entries := entries[id := OneMore(entries[id])];
      }
      assert eligible[..|eligible|] == eligible;
      return Some(eligible);
    }

    method XPendingExt(id: nat, ok: bool) returns (retryCount: Option<nat>)
      requires Valid()
      ensures retryCount == if ok && id in pending then Some(entries[id].deliveries) else None
    {
      if ok && id in pending {
        return Some(entries[id].deliveries);
      }
      return None;
    }

    method XAdd(id: nat, ok: bool) returns (done: bool)
      modifies this`letters
      ensures done == ok && letters == if ok then old(letters) + [id] else old(letters)
    {
      if ok {
        letters := letters + [id];
      }
      return ok;
    }

    method XAck(id: nat, ok: bool) returns (done: bool)
      modifies this`pending
      ensures done == ok && pending == if ok then old(pending) - {id} else old(pending)
    {
      if ok {
        pending := pending - {id};
      }
      return ok;
    }
  }

  /** Outcomes of the store calls for one claimed entry. */
  datatype Round = Round(query: bool, letter: bool, ack: bool)

  datatype Outcome = HandOver | GoOn | Stop

  class RedisWorker {
    const maxDeliveries: nat
    const controlPlaneURL: string
    const client: Redis
    /** The worker's place in the machine, and the run that led to the present state. */
    ghost const me: nat
    ghost var history: seq<Action>

    constructor (maxDeliveries: nat, controlPlaneURL: string, client: Redis, ghost me: nat,
                 ghost history: seq<Action>)
      requires maxDeliveries > 0
      requires client.Shows(Run(maxDeliveries, INIT, history))
      requires me < |Run(maxDeliveries, INIT, history).workers|
      requires Run(maxDeliveries, INIT, history).workers[me].Idle?
      ensures this.maxDeliveries == maxDeliveries && this.controlPlaneURL == controlPlaneURL
      ensures this.client == client && this.me == me
      ensures this.history == history && Valid() && Pc() == Idle
    {
      this.maxDeliveries, this.controlPlaneURL := maxDeliveries, controlPlaneURL;
      this.client, this.me, this.history := client, me, history;
    }

    ghost function Now(): State
      reads this
    {
      Run(maxDeliveries, INIT, history)
    }

    ghost predicate Valid()
      reads this, client
    {
      maxDeliveries > 0 && client.Shows(Now()) && me < |Now().workers|
    }

    ghost function Pc(): Worker
      reads this, client
      requires Valid()
    {
      Now().workers[me]
    }

    ghost predicate Mine(a: Action)
      reads this
    {
      !a.Enqueue? && !a.Start? && !a.Crash? && a.w == me
    }

    /** The run has only grown, by steps of this worker, which did not crash. */
    ghost predicate Extends(before: seq<Action>)
      reads this
    {
      before <= history && forall i :: |before| <= i < |history| ==> Mine(history[i])
    }

    ghost method Take(a: Action)
      requires Mine(a)
      modifies this`history
      ensures history == old(history) + [a] && Now() == Step(maxDeliveries, old(Now()), a)
    {
      IterateThen(Stepper(maxDeliveries), INIT, history, a);
      history := history + [a];
    }

    lemma ClientValid()
      requires Valid()
      ensures client.Valid() && Placed(Now())
    {
      AlwaysPlaced(maxDeliveries, history);
    }

    method PendingRetryCount(id: nat, ok: bool) returns (count: nat)
      requires Valid()
      ensures count == if ok && id in client.pending && id < |client.entries| then client.entries[id].deliveries else 0
    {
      ClientValid();
      var entry := client.XPendingExt(id, ok);
      return if entry.Some? then entry.value else 0;
    }

    /** `deadLetter`: one `XADD` to the dead-letter stream. */
    method DeadLetter(id: nat, ok: bool) returns (failed: bool)
      requires Valid() && (Pc().Lettering? || Pc().LetterBad?) && Pc().id == id
      modifies this`history, client`letters
      ensures Valid() && history == old(history) + [Letter(me, ok)] && failed == !ok
      ensures Now() == StepLetter(old(Now()), me, ok)
    {
      var added := client.XAdd(id, ok);
      Take(Letter(me, ok));
      return !added;
    }

    method Acknowledged(id: nat, ok: bool) returns (failed: bool)
      requires Valid() && (Pc().AckDead? || Pc().AckBad? || Pc().AckDone?) && Pc().id == id
      modifies this`history, client`pending
      ensures Valid() && history == old(history) + [Ack(me, ok)] && failed == !ok
      ensures Now() == StepAck(old(Now()), me, ok)
    {
      var acked := client.XAck(id, ok);
      Take(Ack(me, ok));
      return !acked;
    }

    /** A claimed entry that has used up its deliveries: dead-letter it, then acknowledge it. */
    method LetterClaimed(id: nat, round: Round, ghost rest: seq<Claimed>) returns (failed: bool)
      requires Valid() && Pc() == Lettering(id, rest)
      modifies this`history, client`letters, client`pending
      ensures Valid() && Extends(old(history)) && client.pending <= old(client.pending)
      ensures failed <==> !round.letter || !round.ack
      ensures Pc() == if failed || rest == [] then Idle else Checking(rest)
      ensures client.letters == if round.letter then old(client.letters) + [id] else old(client.letters)
      ensures !failed ==> client.pending == old(client.pending) - {id}
    {
      failed := DeadLetter(id, round.letter);
      if failed {
        return;
      }
      failed := Acknowledged(id, round.ack);
    }

    ghost predicate Handed(id: nat)
      reads this, client
      requires Valid()
    {
      id < |client.entries| && Pc() == if client.entries[id].decodable then Running(id) else LetterBad(id)
    }

    /** One round of the claim loop's decision: whether the entry has used up its deliveries. */
    method Decide(id: nat, query: bool, ghost claims: seq<Claimed>) returns (exceeded: bool)
      requires Valid() && Pc() == Checking(claims) && claims != [] && claims[0].id == id < |client.entries|
      modifies this`history
      ensures Valid() && history == old(history) + [Check(me, query)]
      ensures exceeded <==> query && id in client.pending && client.entries[id].deliveries >= maxDeliveries
      ensures if exceeded then Pc() == Lettering(id, claims[1..]) else Handed(id)
    {
      var count := PendingRetryCount(id, query);
      Take(Check(me, query));
      return maxDeliveries > 0 && count >= maxDeliveries;
    }

    /** `XAUTOCLAIM` as a step of the machine. */
    method ClaimEntries(ok: bool, eligible: seq<nat>) returns (claimed: Option<seq<nat>>)
      requires Valid() && Pc() == Idle
      requires Distinct(eligible) && AllBelow(eligible, |client.entries|)
      requires forall i :: 0 <= i < |eligible| ==> eligible[i] in client.pending
      modifies this`history, client`entries
      ensures Valid() && claimed == if ok then Some(eligible) else None
      ensures Extends(old(history)) && |client.entries| == old(|client.entries|)
      ensures if ok then Pc().Checking? && Ids(Pc().claims) == eligible else Pc() == Idle
      ensures ok ==> forall i :: 0 <= i < |eligible| ==>
                       client.entries[eligible[i]].deliveries == old(client.entries)[eligible[i]].deliveries + 1
    {
      claimed := client.XAutoClaim(ok, eligible);
      if claimed.Some? {
        ClaimStep(Now(), me, eligible);
        Take(Claim(me, eligible));
        assert Ids(Pc().claims) == eligible;
      }
    }

    /** One round of the claim loop: hand the entry over, or dead-letter it and go on. */
    method ClaimRound(id: nat, round: Round, ghost claims: seq<Claimed>) returns (outcome: Outcome)
      requires Valid() && Pc() == Checking(claims) && claims != [] && claims[0].id == id < |client.entries|
      modifies this`history, client`letters, client`pending
      ensures Valid() && Extends(old(history)) && client.pending <= old(client.pending)
      ensures var spent := round.query && id in old(client.pending) && client.entries[id].deliveries >= maxDeliveries;
              outcome == if !spent then HandOver else if round.letter && round.ack then GoOn else Stop
      ensures outcome.HandOver? ==> Handed(id) && client.pending == old(client.pending)
      ensures outcome.GoOn? ==> client.pending == old(client.pending) - {id}
      ensures outcome.GoOn? ==> Pc() == if |claims| == 1 then Idle else Checking(claims[1..])
      ensures outcome.Stop? ==> Pc() == Idle
      ensures client.letters
              == old(client.letters) + (if outcome.GoOn? || (outcome.Stop? && round.letter) then [id] else [])
    {
      var exceeded := Decide(id, round.query, claims);
      if !exceeded {
        return HandOver;
      }
      var failed := LetterClaimed(id, round, claims[1..]);
      return if failed then Stop else GoOn;
    }

    /** The entry has been delivered too often, and the worker gets to know. */
    predicate Spent(deliveries: nat, round: Round) {
      round.query && deliveries >= maxDeliveries
    }

    /** The first `k` claimed entries are spent and done with, the others still pending. */
    ghost predicate Settled(entries: seq<Entry>, pending: set<nat>, eligible: seq<nat>, rounds: seq<Round>, k: nat)
      requires |rounds| == |eligible| && AllBelow(eligible, |entries|) && k <= |eligible|
    {
      && (forall i :: 0 <= i < k ==>
            eligible[i] !in pending && Spent(entries[eligible[i]].deliveries, rounds[i]))
      && forall i :: k <= i < |eligible| ==> eligible[i] in pending
    }

    lemma SettleNext(entries: seq<Entry>, pending: set<nat>, eligible: seq<nat>, rounds: seq<Round>, k: nat)
      requires |rounds| == |eligible| && AllBelow(eligible, |entries|) && k < |eligible| && Distinct(eligible)
      requires Settled(entries, pending, eligible, rounds, k) && Spent(entries[eligible[k]].deliveries, rounds[k])
      ensures Settled(entries, pending - {eligible[k]}, eligible, rounds, k + 1)
    {
    }

    lemma NextClaim(claims: seq<Claimed>, i: nat)
      requires i < |claims|
      ensures claims[i..][0].id == Ids(claims)[i] && claims[i..][1..] == claims[i + 1..]
      ensures Ids(claims)[..i + 1] == Ids(claims)[..i] + [Ids(claims)[i]]
    {
    }

    /** The loop over claimed entries: the first `k` were spent, dead-lettered and acknowledged; the next one, if
        any, is handed over unless it is spent too. */
    method TryClaims(eligible: seq<nat>, rounds: seq<Round>) returns (message: Option<nat>, failed: bool, ghost k: nat)
      requires Valid() && Pc().Checking? && Ids(Pc().claims) == eligible && |rounds| == |eligible|
      requires Distinct(eligible) && AllBelow(eligible, |client.entries|)
      requires Settled(client.entries, client.pending, eligible, rounds, 0)
      modifies this`history, client`letters, client`pending
      ensures Valid() && Extends(old(history))
      ensures k <= |eligible| && client.pending <= old(client.pending)
      ensures !failed ==> Settled(client.entries, client.pending, eligible, rounds, k)
      ensures message.Some? ==> !failed && k < |eligible| && message.value == eligible[k] && Handed(message.value)
      ensures k < |eligible| ==> (message.Some? <==> !Spent(client.entries[eligible[k]].deliveries, rounds[k]))
      ensures message.None? ==> Pc() == Idle && (failed || k == |eligible|)
      ensures client.letters == old(client.letters) + eligible[..k]
              || (failed && k < |eligible| && client.letters == old(client.letters) + eligible[..k + 1])
    {
      k := 0;
      ghost var claims := Pc().claims;
      for i := 0 to |eligible|
        invariant Valid() && Extends(old(history)) && k == i
        invariant client.pending <= old(client.pending)
        invariant Settled(client.entries, client.pending, eligible, rounds, i)
        invariant client.letters == old(client.letters) + eligible[..i]
        invariant if i == |eligible| > 0 then Pc() == Idle else Pc() == Checking(claims[i..])
      {
        var id := eligible[i];
        NextClaim(claims, i);
        ghost var pending := client.pending;
        var outcome := ClaimRound(id, rounds[i], claims[i..]);
        match outcome
        case HandOver => return Some(id), false, i;
        case Stop => return None, true, i;
        case GoOn =>
        SettleNext(client.entries, pending, eligible, rounds, i);
        k := k + 1;
      }
      assert eligible[..|eligible|] == eligible;
      if |eligible| == 0 {
        Take(Check(me, true));
      }
      return None, false, |eligible|;
    }

    /** `autoClaimPending`: claims entries, which counts one delivery each, and tries them. */
    method AutoClaimPending(ok: bool, eligible: seq<nat>, rounds: seq<Round>)
      returns (message: Option<nat>, failed: bool, ghost k: nat)
      requires Valid() && Pc() == Idle && |rounds| == |eligible|
      requires Distinct(eligible) && AllBelow(eligible, |client.entries|)
      requires forall i :: 0 <= i < |eligible| ==> eligible[i] in client.pending
      modifies this`history, client`entries, client`letters, client`pending
      ensures Valid() && Extends(old(history)) && |client.entries| == old(|client.entries|)
      ensures k <= |eligible| && client.pending <= old(client.pending)
      ensures !failed ==> forall i :: 0 <= i < |eligible| ==> (eligible[i] in client.pending <==> i >= k)
      ensures !failed ==>
                forall i :: 0 <= i < k ==> Spent(old(client.entries)[eligible[i]].deliveries + 1, rounds[i])
      ensures message.Some? ==> !failed && k < |eligible| && message.value == eligible[k] && Handed(message.value)
                                && message.value in client.pending
      ensures ok && k < |eligible| ==>
                (message.Some? <==> !Spent(old(client.entries)[eligible[k]].deliveries + 1, rounds[k]))
      ensures message.None? ==> Pc() == Idle && (failed || k == |eligible|)
      ensures !ok ==> failed && k == 0 && client.pending == old(client.pending)
      ensures client.letters == old(client.letters) + eligible[..k]
              || (failed && k < |eligible| && client.letters == old(client.letters) + eligible[..k + 1])
    {
      var claimed := ClaimEntries(ok, eligible);
      if claimed.None? {
        return None, true, 0;
      }
      message, failed, k := TryClaims(eligible, rounds);
    }

    /** `readNextMessage`: a new entry, else, if reclaiming is on, a claimed one. */
    method ReadNextMessage(script: Script) returns (message: Option<nat>, failed: bool)
      requires Valid() && Pc() == Idle && Plausible(script) && script.group
      modifies this`history, client
      ensures Valid() && Extends(old(history))
      ensures message.Some? ==> !failed && Handed(message.value)
      ensures message.Some? ==> message.value in client.pending
      ensures message.Some? ==> client.pending <= old(client.pending) + {message.value}
      ensures message.None? ==> Pc() == Idle && client.pending <= old(client.pending)
      ensures message.Some? && !old(Fresh(script)) ==> FirstUnspent(old(client.entries), script, message.value)
      ensures message.None? && !failed && script.reclaim ==> AllSpent(old(client.entries), script)
      ensures !script.read ==> failed && message == None && client.pending == old(client.pending)
      ensures old(Fresh(script)) ==> message == Some(old(client.next)) && client.next == old(client.next) + 1
    {
      var reply := client.XReadGroup(script.read);
      match reply
      case Unavailable => return None, true;
      case Delivered(id) =>
        Take(Read(me));
        return Some(id), false;
      case Empty =>
        if !script.reclaim {
          return None, false;
        }
        ghost var k: nat;
        message, failed, k := AutoClaimPending(script.claim, script.eligible, script.rounds);
        assert !failed ==> SpentBefore(old(client.entries), script, k);
    }

    /** `id` is the first claimed entry that may be executed. */
    ghost predicate FirstUnspent(entries: seq<Entry>, script: Script, id: nat)
      requires |script.rounds| == |script.eligible| && AllBelow(script.eligible, |entries|)
    {
      exists k :: 0 <= k < |script.eligible| && script.eligible[k] == id && SpentBefore(entries, script, k)
                  && !Spent(entries[id].deliveries + 1, script.rounds[k])
    }

    ghost predicate SpentBefore(entries: seq<Entry>, script: Script, k: nat)
      requires |script.rounds| == |script.eligible| && AllBelow(script.eligible, |entries|) && k <= |script.eligible|
    {
      forall i :: 0 <= i < k ==> Spent(entries[script.eligible[i]].deliveries + 1, script.rounds[i])
    }

    ghost predicate AllSpent(entries: seq<Entry>, script: Script)
      requires |script.rounds| == |script.eligible| && AllBelow(script.eligible, |entries|)
    {
      SpentBefore(entries, script, |script.eligible|)
    }

    /** What the server and the services answer during one iteration. */
    ghost predicate Plausible(script: Script)
      reads client
    {
      && Distinct(script.eligible) && AllBelow(script.eligible, |client.entries|)
      && |script.rounds| == |script.eligible|
      && forall i :: 0 <= i < |script.eligible| ==> script.eligible[i] in client.pending
    }

    /** A new entry is there and can be read. */
    ghost predicate Fresh(script: Script)
      reads client
    {
      script.group && script.read && client.next < |client.entries|
    }

    /** How a new entry fares: executed entries leave the pending list unless execution or the
        acknowledgement failed; undecodable ones leave it if the acknowledgement works, and are
        reported as failures. */
    ghost predicate TakenCareOf(id: nat, failed: bool, script: Script)
      reads this, client
    {
      && id < |client.entries|
      && (failed <==> !client.entries[id].decodable || !Runs(script.execution, controlPlaneURL) || !script.ack)
      && (id !in client.pending <==>
            script.ack && (client.entries[id].decodable ==> Runs(script.execution, controlPlaneURL)))
    }

    /** `ProcessNext`: one iteration is a run of the machine by this worker that ends idle. The message it
        handles is the next new entry, or else the first claimed one that may be executed, and is taken care of;
        one that is acknowledged was executed, unless it is undecodable or its claim said that its run had
        succeeded, failed or been canceled. Success without a message means there was none. */
    method ProcessNext(script: Script) returns (failed: bool, ghost handled: Option<nat>)
      requires Valid() && Pc() == Idle && Plausible(script)
      modifies this`history, client
      ensures Valid() && Pc() == Idle && Extends(old(history))
      ensures !failed ==> client.pending <= old(client.pending)
      ensures handled.Some? ==> TakenCareOf(handled.value, failed, script)
      ensures handled.Some? && handled.value !in client.pending && client.entries[handled.value].decodable ==>
                var e := script.execution;
                if e.context.value.attemptId != "" && e.claimed.value in {"succeeded", "failed", "canceled"}
                then handled.value in Now().terminal else handled.value in Now().executed
      ensures handled.Some? && !client.entries[handled.value].decodable && script.letter ==>
                handled.value in client.letters
      ensures old(Fresh(script)) ==> handled == Some(old(client.next))
      ensures handled.Some? && !old(Fresh(script)) ==> FirstUnspent(old(client.entries), script, handled.value)
      ensures handled.None? && !failed && script.reclaim ==> AllSpent(old(client.entries), script)
      ensures !script.group ==> failed && handled == None && history == old(history)
    {
      if !script.group {
        return true, None;
      }
      var message: Option<nat>;
      message, failed := ReadNextMessage(script);
      handled := message;
      if message.None? {
        return;
      }
      if !client.entries[message.value].decodable {
        Discard(message.value, script);
        return true, handled;
      }
      failed := Perform(message.value, script);
    }

    /** An undecodable entry goes to the dead letters and is acknowledged, whether or not that works. */
    method Discard(id: nat, script: Script)
      requires Valid() && Pc() == LetterBad(id)
      modifies this`history, client`letters, client`pending
      ensures Valid() && Pc() == Idle && Extends(old(history))
      ensures client.pending == if script.ack then old(client.pending) - {id} else old(client.pending)
      ensures client.letters == if script.letter then old(client.letters) + [id] else old(client.letters)
    {
      var _ := DeadLetter(id, script.letter);
      var _ := Acknowledged(id, script.ack);
    }

    /** Execute a decoded message and acknowledge it, unless execution reports an error. */
    method Perform(id: nat, script: Script) returns (failed: bool)
      requires Valid() && Pc() == Running(id)
      modifies this`history, client`pending
      ensures Valid() && Pc() == Idle && Extends(old(history))
      ensures if !Runs(script.execution, controlPlaneURL)
              then Now().executed == old(Now().executed) && Now().terminal == old(Now().terminal)
              else if Ended(script.execution)
              then Now().executed == old(Now().executed) && Now().terminal == old(Now().terminal) + {id}
              else Now().executed == old(Now().executed) + {id} && Now().terminal == old(Now().terminal)
      ensures failed <==> !Runs(script.execution, controlPlaneURL) || !script.ack
      ensures client.pending == if failed then old(client.pending) else old(client.pending) - {id}
    {
      var result := ExecuteQueuedRun(script.execution, controlPlaneURL);
      Take(Finish(me, result));
      if result.Failed? {
        return true;
      }
      failed := Acknowledged(id, script.ack);
    }
  }

  /** The control plane's own consumer. It takes steps in the machine as a worker does, from `seat`. */
  class RedisStreamsRunQueue {
    const seat: RedisWorker

    constructor (seat: RedisWorker)
      ensures this.seat == seat
    {
      this.seat := seat;
    }

    /** `Dequeue`: makes sure of the consumer group, then reads until an entry comes, one of `attempts` a read,
        true if the call works; the context is cancelled when they run out. An undecodable entry is
        acknowledged, if that works, and the call reports an error, as it does for a failed read. */
    method Dequeue(group: bool, attempts: seq<bool>, ack: bool)
      returns (message: Option<nat>, ghost rejected: Option<nat>)
      requires seat.Valid() && seat.Pc() == Idle
      modifies seat`history, seat.client
      ensures seat.Valid() && seat.Extends(old(seat.history)) && (rejected.Some? ==> message.None?)
      ensures message.None? ==> seat.Pc() == Idle
      ensures message.Some? ==> Taken(message.value, old(seat.client.next)) && seat.Pc() == Running(message.value)
      ensures message.Some? ==> seat.client.pending == old(seat.client.pending) + {message.value}
      ensures rejected.Some? ==> Taken(rejected.value, old(seat.client.next))
      ensures rejected.Some? ==> !seat.client.entries[rejected.value].decodable
      ensures message.Some? ==> seat.client.entries[message.value].decodable
      ensures rejected.Some? && ack ==> seat.client.pending == old(seat.client.pending)
      ensures rejected.Some? && !ack ==> seat.client.pending == old(seat.client.pending) + {rejected.value}
      ensures message.None? && rejected.None? ==>
                seat.client.pending == old(seat.client.pending) && seat.client.next == old(seat.client.next)
      ensures !group ==> message.None? && rejected.None?
    {
      if !group {
        return None, None;
      }
      for i := 0 to |attempts|
        invariant seat.Valid() && seat.Pc() == Idle && seat.Extends(old(seat.history))
        invariant seat.client.next == old(seat.client.next) && seat.client.pending == old(seat.client.pending)
      {
        var reply := ReadOnce(attempts[i]);
        match reply
        case Unavailable => return None, None;
        case Empty => {}
        case Delivered(id) => {
          if seat.client.entries[id].decodable {
            return Some(id), None;
          }
          Reject(id, ack);
          return None, Some(id);
        }
      }
      return None, None;
    }

    method ReadOnce(ok: bool) returns (reply: Reply)
      requires seat.Valid() && seat.Pc() == Idle
      modifies seat`history, seat.client
      ensures seat.Valid() && seat.Extends(old(seat.history))
      ensures !reply.Delivered? ==>
        && seat.Pc() == Idle
        && seat.client.next == old(seat.client.next) && seat.client.pending == old(seat.client.pending)
      ensures reply.Delivered? ==>
        && Taken(reply.id, old(seat.client.next)) && reply.id !in old(seat.client.pending)
        && seat.client.pending == old(seat.client.pending) + {reply.id} && seat.Handed(reply.id)
    {
      seat.ClientValid();
      reply := seat.client.XReadGroup(ok);
      if reply.Delivered? {
        seat.Take(Read(seat.me));
      }
    }

    /** The entry was the next one, and the cursor is past it. */
    ghost predicate Taken(id: nat, next: nat)
      reads seat, seat.client
    {
      id == next < |seat.client.entries| && seat.client.next == next + 1
    }

    /** No dead letter is written here; that the acknowledgement fails goes unnoticed. */
    method Reject(id: nat, ack: bool)
      requires seat.Valid() && seat.Pc() == LetterBad(id)
      modifies seat`history, seat.client`pending
      ensures seat.Valid() && seat.Pc() == Idle && seat.Extends(old(seat.history))
      ensures seat.client.pending == if ack then old(seat.client.pending) - {id} else old(seat.client.pending)
    {
      seat.Take(Letter(seat.me, false));
      var _ := seat.Acknowledged(id, ack);
    }

    /** The acknowledgement function handed out with a run: it keeps a failed run pending. */
    method Acknowledge(id: nat, processError: bool, ok: bool) returns (failed: bool)
      requires seat.Valid() && seat.Pc() == Running(id)
      modifies seat`history, seat.client`pending
      ensures seat.Valid() && seat.Pc() == Idle && seat.Extends(old(seat.history))
      ensures failed == (!processError && !ok)
      ensures seat.client.pending
              == if processError || !ok then old(seat.client.pending) else old(seat.client.pending) - {id}
    {
      seat.Take(Finish(seat.me, if processError then Failed else Executed));
      if processError {
        return false;
      }
      failed := seat.Acknowledged(id, ok);
    }
  }

  function Ids(claims: seq<Claimed>): seq<nat> {
    seq(|claims|, i requires 0 <= i < |claims| => claims[i].id)
  }

  /** What the control plane says about a run to execute. */
  datatype Context = Context(controlPlaneURL: string, attemptId: string)

  /** `context` is what the fetch returns, `claimed` the run's status if the claim of the attempt works. */
  datatype Execution = Execution(engine: bool, context: Option<Context>, claimed: Option<string>)

  function TrimSlashes(url: string): string {
    if url != "" && url[|url| - 1] == '/' then TrimSlashes(url[..|url| - 1]) else url
  }

  predicate IsTerminalRunStatus(status: string) {
    status == "succeeded" || status == "failed" || status == "canceled"
  }

  /** A URL is blank if it has nothing but slashes. */
  predicate Blank(url: string) {
    forall i :: 0 <= i < |url| ==> url[i] == '/'
  }

  lemma {:induction false} TrimmedAwayIff(url: string)
    ensures TrimSlashes(url) == "" <==> Blank(url)
  {
    if url != "" && url[|url| - 1] == '/' {
      TrimmedAwayIff(url[..|url| - 1]);
    } else if url != "" {
      assert !Blank(url);
    }
  }

  /** Execution gets through to the engine, or finds the run terminal: there is an engine, the context can be
      fetched, a control-plane URL is known from it or from the configuration, and an attempt can be claimed. */
  predicate Runs(e: Execution, fallback: string) {
    && e.engine && e.context.Some?
    && (!Blank(e.context.value.controlPlaneURL) || fallback != "")
    && (e.context.value.attemptId != "" ==> e.claimed.Some?)
  }

  /** The claim found the run ended. */
  predicate Ended(e: Execution) {
    && e.context.Some? && e.context.value.attemptId != ""
    && e.claimed.Some? && e.claimed.value in {"succeeded", "failed", "canceled"}
  }

  datatype Script = Script(
    group: bool, read: bool, reclaim: bool, claim: bool, eligible: seq<nat>, rounds: seq<Round>,
    execution: Execution, letter: bool, ack: bool)

  /** `executeQueuedRun`: it fails without an engine, a context, a control-plane URL or a claim; a run whose claim
      finds it succeeded, failed or canceled is left alone, and every other run is executed. */
  method ExecuteQueuedRun(e: Execution, fallback: string) returns (result: Result)
    ensures result == Failed <==> !Runs(e, fallback)
    ensures result == Failed <==>
              || !e.engine || e.context.None?
              || ((forall i :: 0 <= i < |e.context.value.controlPlaneURL| ==>
                     e.context.value.controlPlaneURL[i] == '/') && fallback == "")
              || (e.context.value.attemptId != "" && e.claimed.None?)
    ensures result != Failed ==>
              result == if e.context.value.attemptId != "" && e.claimed.value in {"succeeded", "failed", "canceled"}
                        then AlreadyTerminal else Executed
  {
    if !e.engine || e.context.None? {
      return Failed;
    }
    var context := e.context.value;
    TrimmedAwayIff(context.controlPlaneURL);
    var url := TrimSlashes(context.controlPlaneURL);
    if url == "" {
      url := fallback;
    }
    if url == "" {
      return Failed;
    }
    if context.attemptId != "" {
      if e.claimed.None? {
        return Failed;
      }
      if IsTerminalRunStatus(e.claimed.value) {
        return AlreadyTerminal;
      }
    }
    return Executed;
  }
}
