// The version table of the configuration mirrors, and the cursor of a stream.

module ConfigVersions {
  import opened Cantor

  datatype MirrorKey =
    | QuotaConfig | PacingFloorConfig | SessionConfigGlobal | ResumeConfigGlobal | RestrictedPolicyConfig
    | PersonaConfig | ContentSchedule | FacebookCommentConfig | FacebookGroupJoinAutomationConfig | AccountStatus
    | ClientEnvironmentSlowStart | ClientEnvironmentAutomationGate | ModelConfig | RoleConfig | CategoryConfig
    | HotLeadConfig | FacebookOperationPolicy

  datatype Owner = Api | Automation

  function OwnerOf(key: MirrorKey): Owner {
    if key.QuotaConfig? || key.PacingFloorConfig? || key.SessionConfigGlobal? || key.ResumeConfigGlobal?
       || key.RestrictedPolicyConfig?
    then Automation else Api
  }

  datatype Stream =
    | AccountPersona | EnvironmentAutomation | AccountProjection | ScheduleStream | HotLeadStream | CommentStream
    | GroupJoinStream | OperationPolicyStream

  // The counters a stream's cursor is folded from, in this order.
  function KeysOf(stream: Stream): seq<MirrorKey> {
    match stream
    case AccountPersona => [PersonaConfig]
    case EnvironmentAutomation => [ClientEnvironmentAutomationGate, ClientEnvironmentSlowStart]
    case AccountProjection => [AccountStatus]
    case ScheduleStream => [ContentSchedule]
    case HotLeadStream => [HotLeadConfig]
    case CommentStream => [FacebookCommentConfig]
    case GroupJoinStream => [FacebookGroupJoinAutomationConfig]
    case OperationPolicyStream => [FacebookOperationPolicy]
  }

  type Versions = map<MirrorKey, nat>

  // A counter that was never bumped has no row and counts as 0.
  function VersionOf(versions: Versions, key: MirrorKey): nat {
    if key in versions then versions[key] else 0
  }

  // INSERT 1, or version + 1 on conflict.
  function Bumped(versions: Versions, key: MirrorKey): Versions {
    versions[key := if key in versions then versions[key] + 1 else 1]
  }

  function Read(versions: Versions, keys: seq<MirrorKey>): (vs: seq<nat>)
    ensures |vs| == |keys| && forall i | 0 <= i < |vs| :: vs[i] == VersionOf(versions, keys[i])
  {
    seq(|keys|, i requires 0 <= i < |keys| => VersionOf(versions, keys[i]))
  }

  function Cursor(versions: Versions, keys: seq<MirrorKey>): nat {
    Fold(0, Read(versions, keys))
  }

  predicate NotBehind(v: Versions, w: Versions) {
    forall key: MirrorKey :: VersionOf(v, key) <= VersionOf(w, key)
  }

  // A cursor stands for the values of its counters: equal cursors, equal counters,
  // and with counters that only rise, the cursor rises exactly when one of them did.
  lemma CursorFaithful(v: Versions, w: Versions, keys: seq<MirrorKey>)
    ensures Cursor(v, keys) == Cursor(w, keys) <==> forall key | key in keys :: VersionOf(v, key) == VersionOf(w, key)
    ensures NotBehind(v, w) ==>
      && Cursor(v, keys) <= Cursor(w, keys)
      && (Cursor(v, keys) < Cursor(w, keys) <==> exists key | key in keys :: VersionOf(v, key) < VersionOf(w, key))
  {
    hide Fold, VersionOf;
    var a, b := Read(v, keys), Read(w, keys);
    if Fold(0, a) == Fold(0, b) {
      FoldInjective(0, a, 0, b);
      forall key | key in keys ensures VersionOf(v, key) == VersionOf(w, key) {
        var i :| 0 <= i < |keys| && keys[i] == key;
        assert a[i] == b[i];
      }
    }
    if forall key | key in keys :: VersionOf(v, key) == VersionOf(w, key) {
      assert a == b;
    }
    if NotBehind(v, w) {
      FoldIncreasing(0, a, 0, b);
      if a != b {
        var i :| 0 <= i < |a| && a[i] != b[i];
        assert keys[i] in keys;
      }
    }
  }

  // One bump of a listed counter strictly raises the cursor; any other leaves it.
  lemma BumpRaisesCursor(versions: Versions, key: MirrorKey, keys: seq<MirrorKey>)
    ensures NotBehind(versions, Bumped(versions, key))
    ensures if key in keys then Cursor(versions, keys) < Cursor(Bumped(versions, key), keys)
            else Cursor(Bumped(versions, key), keys) == Cursor(versions, keys)
  {
    hide Cursor;
    CursorFaithful(versions, Bumped(versions, key), keys);
  }
}
