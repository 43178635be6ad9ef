// At-least-once delivery of commands has the effect of delivering each accepted
// command once.

module Delivery {
  import opened Commands
  import opened Admissions
  import opened AdmissionLaws

  function Key(ev: Event): (Target, string)
    requires ev.Delivered?
  {
    (ev.target, ev.command.commandId)
  }

  ghost function Answer(t: Tables, ev: Event): Outcome
    requires ev.Delivered?
  {
    Deliver(t, ev.target, ev.command, ev.now, ev.locked)
  }

  // ---------- One delivery ----------

  // An id already recorded: nothing changes, whatever the payload.
  lemma RecordedIsInert(t: Tables, ev: Event)
    requires ev.Delivered? && Key(ev) in t.commands
    ensures Step(t, ev) == t
  {
    hide Valid, PayloadHash, SnapshotDigest, ApplySnapshot, ApplyClaim, ApplyRecord;
  }

  // The gate that precedes the receipt lookup; receipts for results do without it.
  predicate Admissible(t: Tables, c: Command) {
    Valid(c) && (c.Record? || AllAssigned(t.holds)) && !HasNul(c.commandId)
  }

  // A recorded id is answered with its receipt, if the payload is the same one,
  // and refused otherwise.
  lemma RecordedIsAnswered(t: Tables, ev: Event)
    requires ev.Delivered? && Key(ev) in t.commands && Admissible(t, ev.command)
    ensures var stored := t.commands[Key(ev)];
      Answer(t, ev) ==
        if stored.capability == CapabilityOf(ev.command) && stored.hash == PayloadHash(ev.command) then
          Committed(t, Replay(stored.receipt))
        else RolledBack(CommandCollision)
  {
    hide Valid, PayloadHash, SnapshotDigest, ApplySnapshot, ApplyClaim, ApplyRecord;
  }

  // An id not recorded yet is recorded exactly when its command is accepted,
  // with the hash of its payload and the receipt of its reply.
  lemma AcceptedIsRecorded(t: Tables, ev: Event)
    requires ev.Delivered? && Key(ev) !in t.commands
    ensures Answer(t, ev).Committed? ==>
      Step(t, ev).commands == t.commands[Key(ev) :=
        StoredCommand(CapabilityOf(ev.command), PayloadHash(ev.command), Answer(t, ev).reply.receipt)]
    ensures Answer(t, ev).RolledBack? ==> Step(t, ev) == t
  {
    hide Valid, PayloadHash, SnapshotDigest, AdoptMissing, Release, Picks, ClaimAll, Candidates, FindRow, Current;
  }

  lemma OnlyDeliveriesRecord(t: Tables, ev: Event)
    requires !ev.Delivered?
    ensures Step(t, ev).commands == t.commands
  {
  }

  // ---------- Whole runs ----------

  // Recorded receipts are never overwritten or dropped.
  lemma {:induction false} ReceiptsAreKept(t: Tables, evs: seq<Event>, key: (Target, string))
    requires key in t.commands
    ensures key in Run(t, evs).commands && Run(t, evs).commands[key] == t.commands[key]
    decreases |evs|
  {
    hide Step, PayloadHash;
    if evs != [] {
      var ev := evs[0];
      if !ev.Delivered? {
        OnlyDeliveriesRecord(t, ev);
      } else if Key(ev) in t.commands {
        RecordedIsInert(t, ev);
      } else {
        AcceptedIsRecorded(t, ev);
      }
      ReceiptsAreKept(Step(t, ev), evs[1..], key);
    }
  }

  // A first delivery is answered as applied, except a snapshot seen before under another
  // id; of a result, whether it was applied is part of the receipt.
  lemma FirstReceipt(t: Tables, first: Event)
    requires first.Delivered? && Key(first) !in t.commands && Answer(t, first).Committed?
    ensures var receipt := Answer(t, first).reply.receipt;
      && (receipt.ResultReceipt? <==> first.command.Record?)
      && (first.command.Record? ==>
            && !Answer(t, first).reply.duplicate
            && (receipt.outcome == Applied <==> RecordApplies(t, first.target, first.command)))
      && (first.command.Claim? ==> !Answer(t, first).reply.duplicate)
      && (first.command.Reconcile? ==>
            (Answer(t, first).reply.duplicate <==> !AppliesSnapshot(t, first.target, first.command, first.now)))
  {
    hide Valid, PayloadHash, SnapshotDigest, AdoptMissing, Release, Picks, ClaimAll, Candidates, Current, Count;
  }

  // After an accepted delivery and any run, the same command gets the first receipt back
  // and another command under its id is refused; neither changes anything. A repeated
  // snapshot or claim is marked as a duplicate, and so is a repeated result if it was
  // applied the first time; any other result gets the very same reply.
  lemma RepeatAfterRun(t: Tables, first: Event, evs: seq<Event>, again: Event)
    requires first.Delivered? && Key(first) !in t.commands && Answer(t, first).Committed?
    requires again.Delivered? && Key(again) == Key(first)
    requires Admissible(Run(Step(t, first), evs), again.command)
    ensures var s, o := Run(Step(t, first), evs), Answer(Run(Step(t, first), evs), again);
      && Step(s, again) == s
      && (again.command != first.command ==> o == RolledBack(CommandCollision))
      && (again.command == first.command ==>
            && o.Committed? && o.tables == s
            && o.reply.receipt == Answer(t, first).reply.receipt
            && (!first.command.Record? ==> o.reply.duplicate)
            && (first.command.Record? ==> (o.reply.duplicate <==> RecordApplies(t, first.target, first.command)))
            && (first.command.Record? && !o.reply.duplicate ==> o.reply == Answer(t, first).reply))
  {
    hide Step, Run, Answer, Admissible, PayloadHash, RecordApplies;
    var s := Run(Step(t, first), evs);
    AcceptedIsRecorded(t, first);
    ReceiptsAreKept(Step(t, first), evs, Key(first));
    RecordedIsInert(s, again);
    RecordedIsAnswered(s, again);
    PayloadHashFaithful(first.command, again.command);
    FirstReceipt(t, first);
  }

  // The first accepted delivery of every id, and everything that is not a delivery.
  ghost predicate Counts(t: Tables, ev: Event) {
    ev.Delivered? ==> Key(ev) !in t.commands && Answer(t, ev).Committed?
  }

  ghost function Essential(t: Tables, evs: seq<Event>): seq<Event>
    decreases |evs|
  {
    if evs == [] then []
    else if Counts(t, evs[0]) then [evs[0]] + Essential(Step(t, evs[0]), evs[1..])
    else Essential(t, evs[1..])
  }

  // Every delivery of the list is accepted when its turn comes.
  ghost predicate AllCount(t: Tables, evs: seq<Event>)
    decreases |evs|
  {
    evs == [] || (Counts(t, evs[0]) && AllCount(Step(t, evs[0]), evs[1..]))
  }

  predicate FreshKeys(t: Tables, evs: seq<Event>) {
    && (forall i | 0 <= i < |evs| && evs[i].Delivered? :: Key(evs[i]) !in t.commands)
    && (forall i, j | 0 <= i < j < |evs| && evs[i].Delivered? && evs[j].Delivered? :: Key(evs[i]) != Key(evs[j]))
  }

  lemma {:induction false} AllCountHasFreshKeys(t: Tables, evs: seq<Event>)
    requires AllCount(t, evs)
    ensures FreshKeys(t, evs)
    decreases |evs|
  {
    hide Step, Answer, PayloadHash;
    if evs != [] {
      var ev, rest := evs[0], evs[1..];
      AllCountHasFreshKeys(Step(t, ev), rest);
      if ev.Delivered? {
        AcceptedIsRecorded(t, ev);
      } else {
        OnlyDeliveriesRecord(t, ev);
      }
      assert forall k | k in t.commands :: k in Step(t, ev).commands;
      assert forall i | 0 < i < |evs| :: evs[i] == rest[i - 1];
    }
  }

  // Any sequence of deliveries, repeated, reordered with other events, refused or
  // not, ends in the tables its first accepted deliveries alone produce.
  lemma {:induction false} OnceIsEnough(t: Tables, evs: seq<Event>)
    ensures var once := Essential(t, evs);
      && Run(t, evs) == Run(t, once)
      && AllCount(t, once) && FreshKeys(t, once)
      && (forall ev | ev in once :: ev in evs)
    decreases |evs|
  {
    hide Step, Answer, FreshKeys, PayloadHash;
    if evs != [] {
      var ev := evs[0];
      if Counts(t, ev) {
        OnceIsEnough(Step(t, ev), evs[1..]);
        var once := Essential(Step(t, ev), evs[1..]);
        assert ([ev] + once)[1..] == once;
      } else {
        if Key(ev) in t.commands {
          RecordedIsInert(t, ev);
        } else {
          AcceptedIsRecorded(t, ev);
        }
        OnceIsEnough(t, evs[1..]);
      }
    }
    AllCountHasFreshKeys(t, Essential(t, evs));
  }
}
