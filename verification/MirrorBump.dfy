// Relayed bumps: at-least-once deliveries turned into one bump per dedup key.

module MirrorBump {
  import opened ConfigVersions

  // Any text may arrive as the mirror key; None is one the registry does not know.
  datatype Request = Request(mirrorKey: Lookup, dedupKey: string)

  datatype Lookup = Unregistered | Registered(key: MirrorKey)

  datatype BumpError = UnregisteredKey | MissingDedupKey | OwnedHere

  datatype Result = Answer(applied: bool) | Thrown(error: BumpError)

  // config_mirror_bump_inbox; the column applied_at is in milliseconds.
  datatype Receipt = Receipt(key: MirrorKey, appliedAt: int)

  datatype Tables = Tables(versions: Versions, inbox: map<string, Receipt>)

  const DAY_MS: int := 86_400_000
  const RETENTION_DAYS: int := 30

  // ---------- One delivery, one pruning ----------

  predicate Wellformed(r: Request) {
    r.mirrorKey.Registered? && r.dedupKey != "" && OwnerOf(r.mirrorKey.key) == Automation
  }

  predicate Fresh(t: Tables, r: Request) {
    Wellformed(r) && r.dedupKey !in t.inbox
  }

  function Apply(t: Tables, r: Request, now: int): Tables {
    if Fresh(t, r) then
      Tables(Bumped(t.versions, r.mirrorKey.key), t.inbox[r.dedupKey := Receipt(r.mirrorKey.key, now)])
    else t
  }

  function Prune(t: Tables, retentionDays: int, now: int): Tables {
    t.(inbox := map d | d in t.inbox && t.inbox[d].appliedAt >= now - retentionDays * DAY_MS :: t.inbox[d])
  }

  // The version table and the inbox of one database, as the sink works on them.
  class Sink {
    var versions: Versions
    var inbox: map<string, Receipt>

    function Contents(): Tables
      reads this
    {
      Tables(versions, inbox)
    }

    // INSERT 1, or version + 1.
    method BumpVersion(key: MirrorKey)
      modifies this`versions
      ensures versions == Bumped(old(versions), key)
      ensures VersionOf(versions, key) == VersionOf(old(versions), key) + 1
      ensures forall other | other != key :: VersionOf(versions, other) == VersionOf(old(versions), other)
    {
      if key in versions {
        versions := versions[key := versions[key] + 1];
      } else {
        versions := versions[key := 1];
      }
    }

    // `applyBump`: the inbox row first, the bump only if it went in, both or neither.
    method ApplyBump(request: Request, now: int) returns (result: Result)
      modifies this
      ensures Contents() == Apply(old(Contents()), request, now)
      ensures result == if request.mirrorKey.Unregistered? then Thrown(UnregisteredKey)
                        else if request.dedupKey == "" then Thrown(MissingDedupKey)
                        else if request.dedupKey in old(inbox) then Answer(false)
                        else if OwnerOf(request.mirrorKey.key) == Api then Thrown(OwnedHere)
                        else Answer(true)
    {
      if request.mirrorKey.Unregistered? {
        return Thrown(UnregisteredKey);
      }
      if request.dedupKey == "" {
        return Thrown(MissingDedupKey);
      }
      var key, before := request.mirrorKey.key, inbox;
      var applied := request.dedupKey !in inbox;
      if applied {
        inbox := inbox[request.dedupKey := Receipt(key, now)];
        if OwnerOf(key) == Api {
          inbox := before;  // ROLLBACK
          return Thrown(OwnedHere);
        }
        BumpVersion(key);
      }
      return Answer(applied);
    }

    method PruneInbox(retentionDays: int, now: int)
      modifies this`inbox
      ensures Contents() == Prune(old(Contents()), retentionDays, now)
      ensures versions == old(versions) && inbox.Keys <= old(inbox).Keys
      ensures forall d | d in old(inbox) ::
                if old(inbox)[d].appliedAt < now - retentionDays * DAY_MS then d !in inbox
                else d in inbox && inbox[d] == old(inbox)[d]
    {
      inbox := map d | d in inbox && inbox[d].appliedAt >= now - retentionDays * DAY_MS :: inbox[d];
    }
  }

  // ---------- Runs ----------

  datatype Event =
    | Relayed(request: Request, now: int)
    | Pruned(retentionDays: int, now: int)

  function Step(t: Tables, ev: Event): Tables {
    match ev
    case Relayed(r, now) => Apply(t, r, now)
    case Pruned(days, now) => Prune(t, days, now)
  }

  function Run(t: Tables, evs: seq<Event>): Tables
    decreases |evs|
  {
    if evs == [] then t else Run(Step(t, evs[0]), evs[1..])
  }

  // A delivery the sink does not refuse.
  predicate Delivers(ev: Event) {
    ev.Relayed? && Wellformed(ev.request)
  }

  function DedupKey(ev: Event): string
    requires Delivers(ev)
  {
    ev.request.dedupKey
  }

  predicate DeliversTo(ev: Event, key: MirrorKey) {
    Delivers(ev) && ev.request.mirrorKey == Registered(key)
  }

  // The dedup keys delivered, by the event or before.
  function Seen(ev: Event, seen: set<string>): set<string> {
    if Delivers(ev) then seen + {DedupKey(ev)} else seen
  }

  // The dedup keys whose first delivery, in the run and not in `seen`, is for `key`.
  function FirstFor(evs: seq<Event>, seen: set<string>, key: MirrorKey): set<string>
    decreases |evs|
  {
    if evs == [] then {}
    else
      var rest := FirstFor(evs[1..], Seen(evs[0], seen), key);
      if DeliversTo(evs[0], key) && DedupKey(evs[0]) !in seen then {DedupKey(evs[0])} + rest else rest
  }

  // Deliveries for `key` of a dedup key that was delivered before and pruned since.
  function Repeats(t: Tables, evs: seq<Event>, seen: set<string>, key: MirrorKey): nat
    decreases |evs|
  {
    if evs == [] then 0
    else
      var rest := Repeats(Step(t, evs[0]), evs[1..], Seen(evs[0], seen), key);
      if DeliversTo(evs[0], key) && DedupKey(evs[0]) in seen - t.inbox.Keys then rest + 1 else rest
  }

  lemma {:induction false} FirstForAvoidsSeen(evs: seq<Event>, seen: set<string>, key: MirrorKey)
    ensures FirstFor(evs, seen, key) !! seen
    decreases |evs|
  {
    hide Delivers, DedupKey;
    if evs != [] { FirstForAvoidsSeen(evs[1..], Seen(evs[0], seen), key); }
  }

  lemma StepBumps(t: Tables, ev: Event, key: MirrorKey)
    ensures VersionOf(Step(t, ev).versions, key) == VersionOf(t.versions, key)
              + if DeliversTo(ev, key) && DedupKey(ev) !in t.inbox then 1 else 0
    ensures Step(t, ev).inbox.Keys <= Seen(ev, t.inbox.Keys)
  {
    hide OwnerOf;
  }

  // Whatever is repeated, reordered, refused or pruned: a counter rises by exactly the
  // number of distinct dedup keys first delivered for it, plus one for every delivery
  // that repeats a pruned one.
  lemma {:induction false} BumpsAccountedFor(t: Tables, evs: seq<Event>, seen: set<string>, key: MirrorKey)
    requires t.inbox.Keys <= seen
    ensures VersionOf(Run(t, evs).versions, key)
         == VersionOf(t.versions, key) + |FirstFor(evs, seen, key)| + Repeats(t, evs, seen, key)
    decreases |evs|
  {
    hide Step, Delivers, DedupKey, VersionOf;
    if evs != [] {
      StepBumps(t, evs[0], key);
      BumpsAccountedFor(Step(t, evs[0]), evs[1..], Seen(evs[0], seen), key);
      if DeliversTo(evs[0], key) && DedupKey(evs[0]) !in seen {
        var rest := FirstFor(evs[1..], Seen(evs[0], seen), key);
        FirstForAvoidsSeen(evs[1..], Seen(evs[0], seen), key);
        assert |{DedupKey(evs[0])} + rest| == 1 + |rest|;
      }
    }
  }

  // No delivery repeats a dedup key that was delivered before and pruned since.
  predicate NoneRedelivered(t: Tables, evs: seq<Event>, seen: set<string>)
    decreases |evs|
  {
    evs == []
    || ((Delivers(evs[0]) ==> DedupKey(evs[0]) !in seen - t.inbox.Keys)
        && NoneRedelivered(Step(t, evs[0]), evs[1..], Seen(evs[0], seen)))
  }

  lemma {:induction false} NoRepeatsOfPruned(t: Tables, evs: seq<Event>, seen: set<string>, key: MirrorKey)
    requires NoneRedelivered(t, evs, seen)
    ensures Repeats(t, evs, seen, key) == 0
    decreases |evs|
  {
    hide Step, Wellformed;
    if evs != [] { NoRepeatsOfPruned(Step(t, evs[0]), evs[1..], Seen(evs[0], seen), key); }
  }

  lemma {:induction false} RepeatFound(t: Tables, evs: seq<Event>, seen: set<string>) returns (key: MirrorKey)
    requires !NoneRedelivered(t, evs, seen)
    ensures Repeats(t, evs, seen, key) > 0
    decreases |evs|
  {
    hide Step, OwnerOf;
    if Delivers(evs[0]) && DedupKey(evs[0]) in seen - t.inbox.Keys {
      key := evs[0].request.mirrorKey.key;
    } else {
      key := RepeatFound(Step(t, evs[0]), evs[1..], Seen(evs[0], seen));
    }
  }

  // Exactly once from at-least-once: every counter rises by the number of distinct
  // dedup keys first delivered for it, if and only if no pruned one is redelivered.
  lemma ExactlyOnce(t: Tables, evs: seq<Event>)
    ensures NoneRedelivered(t, evs, t.inbox.Keys) <==>
      forall key: MirrorKey ::
        VersionOf(Run(t, evs).versions, key) == VersionOf(t.versions, key) + |FirstFor(evs, t.inbox.Keys, key)|
  {
    hide NoneRedelivered, Run, FirstFor, Repeats, VersionOf;
    var seen := t.inbox.Keys;
    if NoneRedelivered(t, evs, seen) {
      forall key: MirrorKey
        ensures VersionOf(Run(t, evs).versions, key) == VersionOf(t.versions, key) + |FirstFor(evs, seen, key)|
      {
        BumpsAccountedFor(t, evs, seen, key);
        NoRepeatsOfPruned(t, evs, seen, key);
      }
    } else {
      var key := RepeatFound(t, evs, seen);
      BumpsAccountedFor(t, evs, seen, key);
    }
  }

  // The clock does not go back, and every pruning is one with the default retention.
  predicate Chronological(evs: seq<Event>) {
    && (forall i, j | 0 <= i < j < |evs| :: evs[i].now <= evs[j].now)
    && (forall i | 0 <= i < |evs| && evs[i].Pruned? :: evs[i].retentionDays == RETENTION_DAYS)
  }

  // Redelivery within the retention window is always harmless: a row younger than the
  // window survives.
  lemma {:induction false} RowsLastTheWindow(t: Tables, evs: seq<Event>, dedupKey: string, now: int)
    requires dedupKey in t.inbox && Chronological(evs)
    requires now <= t.inbox[dedupKey].appliedAt + RETENTION_DAYS * DAY_MS
    requires forall i | 0 <= i < |evs| :: evs[i].now <= now
    ensures dedupKey in Run(t, evs).inbox && Run(t, evs).inbox[dedupKey] == t.inbox[dedupKey]
    decreases |evs|
  {
    if evs != [] {
      RowsLastTheWindow(Step(t, evs[0]), evs[1..], dedupKey, now);
    }
  }

  // ---------- What the times of delivery alone decide ----------

  // A delivery of a new dedup key bumps its counter by one and leaves a row stamped with
  // the time of the delivery; a repeated or refused one leaves everything.
  lemma DeliveryOutcome(t: Tables, r: Request, now: int)
    ensures var t' := Apply(t, r, now);
      if r.mirrorKey.Registered? && r.dedupKey != "" && OwnerOf(r.mirrorKey.key) == Automation
         && r.dedupKey !in t.inbox
      then
        && t'.inbox == t.inbox[r.dedupKey := Receipt(r.mirrorKey.key, now)]
        && VersionOf(t'.versions, r.mirrorKey.key) == VersionOf(t.versions, r.mirrorKey.key) + 1
        && forall other | other != r.mirrorKey.key :: VersionOf(t'.versions, other) == VersionOf(t.versions, other)
      else t' == t
  {
    hide OwnerOf;
  }

  predicate Redelivers(evs: seq<Event>, i: nat, j: nat)
    requires i < |evs| && j < |evs|
  {
    Delivers(evs[i]) && Delivers(evs[j]) && DedupKey(evs[i]) == DedupKey(evs[j])
  }

  // No dedup key is delivered later than 30 days after its first delivery, be it in the
  // run or the one its row is left from.
  predicate InTime(t: Tables, evs: seq<Event>) {
    && (forall i, j | 0 <= i < j < |evs| && Redelivers(evs, i, j) :: evs[j].now <= evs[i].now + 30 * 86_400_000)
    && (forall j | 0 <= j < |evs| && Delivers(evs[j]) && DedupKey(evs[j]) in t.inbox ::
          evs[j].now <= t.inbox[DedupKey(evs[j])].appliedAt + 30 * 86_400_000)
  }

  // The first delivery of its dedup key, for `key`.
  predicate FirstAt(evs: seq<Event>, seen: set<string>, key: MirrorKey, j: nat)
    requires j < |evs|
  {
    DeliversTo(evs[j], key) && DedupKey(evs[j]) !in seen && forall i: nat | i < j :: !Redelivers(evs, i, j)
  }

  // The dedup keys not in `seen` whose first delivery in the run is for `key`.
  function Delivered(evs: seq<Event>, seen: set<string>, key: MirrorKey): set<string> {
    set j: nat | j < |evs| && FirstAt(evs, seen, key, j) :: DedupKey(evs[j])
  }

  lemma FirstInRest(evs: seq<Event>, seen: set<string>, key: MirrorKey, j: nat)
    requires j + 1 < |evs|
    ensures FirstAt(evs, seen, key, j + 1) <==> FirstAt(evs[1..], Seen(evs[0], seen), key, j)
  {
    hide Wellformed;
    var rest := evs[1..];
    assert forall i: nat | i < |rest| :: rest[i] == evs[i + 1];
    if FirstAt(evs, seen, key, j + 1) {
      assert !Redelivers(evs, 0, j + 1);
      forall i: nat | i < j ensures !Redelivers(rest, i, j) { assert !Redelivers(evs, i + 1, j + 1); }
    }
    if FirstAt(rest, Seen(evs[0], seen), key, j) {
      var n := j + 1;
      forall i: nat | i < n ensures !Redelivers(evs, i, n) {
        if i > 0 { assert !Redelivers(rest, i - 1, j); }
      }
    }
  }

  lemma DeliveredFirst(evs: seq<Event>, seen: set<string>, key: MirrorKey)
    requires evs != []
    ensures var rest := Delivered(evs[1..], Seen(evs[0], seen), key);
      Delivered(evs, seen, key)
      == if DeliversTo(evs[0], key) && DedupKey(evs[0]) !in seen then {DedupKey(evs[0])} + rest else rest
  {
    hide Delivered, DeliversTo, FirstAt, Seen, Delivers;
    var rest := Delivered(evs[1..], Seen(evs[0], seen), key);
    AtStart(evs, seen, key);
    forall d | d in rest ensures d in Delivered(evs, seen, key) { DeliveredLater(evs, seen, key, d); }
    forall d | d in Delivered(evs, seen, key)
      ensures d in rest || (FirstAt(evs, seen, key, 0) && d == evs[0].request.dedupKey)
    {
      DeliveredNowOrLater(evs, seen, key, d);
    }
  }

  lemma DeliveredLater(evs: seq<Event>, seen: set<string>, key: MirrorKey, d: string)
    requires evs != [] && d in Delivered(evs[1..], Seen(evs[0], seen), key)
    ensures d in Delivered(evs, seen, key)
  {
    hide Wellformed, Redelivers, Seen;
    var j: nat :| j < |evs| - 1 && FirstAt(evs[1..], Seen(evs[0], seen), key, j) && DedupKey(evs[1..][j]) == d;
    FirstInRest(evs, seen, key, j);
    assert evs[j + 1] == evs[1..][j];
  }

  lemma DeliveredNowOrLater(evs: seq<Event>, seen: set<string>, key: MirrorKey, d: string)
    requires evs != [] && d in Delivered(evs, seen, key)
    ensures || d in Delivered(evs[1..], Seen(evs[0], seen), key)
            || (FirstAt(evs, seen, key, 0) && d == DedupKey(evs[0]))
  {
    hide Wellformed, Redelivers, Seen;
    var j: nat :| j < |evs| && FirstAt(evs, seen, key, j) && DedupKey(evs[j]) == d;
    if j > 0 {
      FirstInRest(evs, seen, key, j - 1);
      assert evs[j] == evs[1..][j - 1];
    }
  }

  lemma AtStart(evs: seq<Event>, seen: set<string>, key: MirrorKey)
    requires evs != []
    ensures FirstAt(evs, seen, key, 0) <==> DeliversTo(evs[0], key) && DedupKey(evs[0]) !in seen
    ensures DeliversTo(evs[0], key) ==> evs[0].Relayed? && DedupKey(evs[0]) == evs[0].request.dedupKey
    ensures FirstAt(evs, seen, key, 0) ==> DedupKey(evs[0]) in Delivered(evs, seen, key)
  {
  }

  lemma {:induction false} FirstForIsDelivered(evs: seq<Event>, seen: set<string>, key: MirrorKey)
    ensures FirstFor(evs, seen, key) == Delivered(evs, seen, key)
    decreases |evs|
  {
    hide Delivered, Delivers, DedupKey;
    if evs == [] {
      assert Delivered(evs, seen, key) == {} by { NothingDelivered(seen, key); }
    } else {
      DeliveredFirst(evs, seen, key);
      FirstForIsDelivered(evs[1..], Seen(evs[0], seen), key);
    }
  }

  lemma NothingDelivered(seen: set<string>, key: MirrorKey)
    ensures Delivered([], seen, key) == {}
  {
  }

  // The keys of `seen` that are delivered again still have their row, and long enough.
  predicate StillThere(t: Tables, evs: seq<Event>, seen: set<string>) {
    forall j | 0 <= j < |evs| && Delivers(evs[j]) && DedupKey(evs[j]) in seen ::
      && DedupKey(evs[j]) in t.inbox
      && evs[j].now <= t.inbox[DedupKey(evs[j])].appliedAt + 30 * 86_400_000
  }

  lemma StillThereStep(t: Tables, evs: seq<Event>, seen: set<string>)
    requires evs != [] && Chronological(evs) && StillThere(t, evs, seen) && t.inbox.Keys <= seen
    requires forall i, j | 0 <= i < j < |evs| && Redelivers(evs, i, j) :: evs[j].now <= evs[i].now + 30 * 86_400_000
    ensures StillThere(Step(t, evs[0]), evs[1..], Seen(evs[0], seen))
    ensures Chronological(evs[1..])
  {
    hide Wellformed;
    var rest := evs[1..];
    assert forall j | 0 <= j < |rest| :: rest[j] == evs[j + 1];
    forall j | 0 <= j < |rest| && Delivers(rest[j]) && DedupKey(rest[j]) in Seen(evs[0], seen)
      ensures var t' := Step(t, evs[0]);
        DedupKey(rest[j]) in t'.inbox && rest[j].now <= t'.inbox[DedupKey(rest[j])].appliedAt + 30 * 86_400_000
    {
      assert DedupKey(rest[j]) !in seen ==> Redelivers(evs, 0, j + 1);
    }
  }

  lemma {:induction false} NonePruned(t: Tables, evs: seq<Event>, seen: set<string>)
    requires Chronological(evs) && StillThere(t, evs, seen) && t.inbox.Keys <= seen
    requires forall i, j | 0 <= i < j < |evs| && Redelivers(evs, i, j) :: evs[j].now <= evs[i].now + 30 * 86_400_000
    ensures NoneRedelivered(t, evs, seen)
    decreases |evs|
  {
    hide Step, StillThere, Delivers, DedupKey, Chronological;
    if evs != [] {
      StillThereStep(t, evs, seen);
      StepBumps(t, evs[0], QuotaConfig);
      assert forall i, j | 0 <= i < |evs| - 1 && 0 <= j < |evs| - 1 ::
        Redelivers(evs[1..], i, j) <==> Redelivers(evs, i + 1, j + 1);
      NonePruned(Step(t, evs[0]), evs[1..], Seen(evs[0], seen));
      assert Delivers(evs[0]) ==> DedupKey(evs[0]) !in seen - t.inbox.Keys by { FirstIsThere(t, evs, seen); }
    }
  }

  lemma FirstIsThere(t: Tables, evs: seq<Event>, seen: set<string>)
    requires evs != [] && StillThere(t, evs, seen)
    ensures Delivers(evs[0]) && DedupKey(evs[0]) in seen ==> DedupKey(evs[0]) in t.inbox
  {
  }

  // With default prunings and a clock that does not go back, redeliveries within 30 days
  // of the first delivery leave every counter at exactly one bump per new dedup key.
  lemma InTimeIsOnce(t: Tables, evs: seq<Event>, key: MirrorKey)
    requires Chronological(evs) && InTime(t, evs)
    ensures VersionOf(Run(t, evs).versions, key) == VersionOf(t.versions, key) + |Delivered(evs, t.inbox.Keys, key)|
  {
    hide Delivers, DedupKey, Run, Chronological, Delivered, VersionOf;
    NonePruned(t, evs, t.inbox.Keys);
    ExactlyOnce(t, evs);
    FirstForIsDelivered(evs, t.inbox.Keys, key);
  }
}
