/**
  The remote-entity table of `RemotePlayerManager`: a map from player id to
  position, updated by `player_joined`, `player_moved` and `player_left`
  messages on a `zone:` topic. Each remote player's GameObject is represented
  by its position alone.
*/
module RemotePlayers {
  import opened Common

  /** A position or a displacement; float rounding is not modelled. */
  datatype Vec3 = Vec3(x: real, y: real, z: real)

  function Add(a: Vec3, b: Vec3): Vec3
  {
    Vec3(a.x + b.x, a.y + b.y, a.z + b.z)
  }

  /**
    The fields of a zone payload as `JsonUtility` reads them: `id` may be
    missing (null); a missing `position` or `delta` reads as the zero vector.
  */
  datatype ZonePayload = ZonePayload(id: Option<string>, position: Vec3, delta: Vec3)

  /** An envelope on a zone topic; a `payload` that does not parse is `None`. */
  datatype ZoneMessage = ZoneMessage(topic: string, event: string, payload: Option<ZonePayload>)

  /** Remote player id to that player's position. */
  type Table = map<string, Vec3>

  const ZonePrefix := "zone:"
  const PlayerJoined := "player_joined"
  const PlayerMoved := "player_moved"
  const PlayerLeft := "player_left"

  /** The id of a payload the handlers act on: the payload parsed and its id neither null nor empty. */
  predicate HasId(payload: Option<ZonePayload>)
  {
    payload.Some? && !IsNullOrEmpty(payload.value.id)
  }

  function IdOf(payload: Option<ZonePayload>): string
    requires HasId(payload)
  {
    payload.value.id.value
  }

  /** `HandlePlayerJoined`: insert a new player, unless there is no prefab or the id is unusable or known. */
  function Join(t: Table, hasPrefab: bool, payload: Option<ZonePayload>): Table
  {
    if !hasPrefab || !HasId(payload) || IdOf(payload) in t then t
    else t[IdOf(payload) := payload.value.position]
  }

  /** `HandlePlayerMoved`: add the delta to a known player's position. */
  function Move(t: Table, payload: Option<ZonePayload>): Table
  {
    if !HasId(payload) || IdOf(payload) !in t then t
    else t[IdOf(payload) := Add(t[IdOf(payload)], payload.value.delta)]
  }

  /** `HandlePlayerLeft`: forget a known player. */
  function Leave(t: Table, payload: Option<ZonePayload>): Table
  {
    if !HasId(payload) || IdOf(payload) !in t then t
    else t - {IdOf(payload)}
  }

  /** `OnSocketMessage`: route a zone message to its handler; everything else is ignored. */
  function Apply(t: Table, hasPrefab: bool, msg: ZoneMessage): Table
  {
    if !StartsWith(msg.topic, ZonePrefix) then t
    else if msg.event == PlayerJoined then Join(t, hasPrefab, msg.payload)
    else if msg.event == PlayerMoved then Move(t, msg.payload)
    else if msg.event == PlayerLeft then Leave(t, msg.payload)
    else t
  }

  /** The table after handling `msgs` in order. */
  function ApplyAll(t: Table, hasPrefab: bool, msgs: seq<ZoneMessage>): Table
    decreases |msgs|
  {
    if msgs == [] then t
    else ApplyAll(Apply(t, hasPrefab, msgs[0]), hasPrefab, msgs[1..])
  }

  /** The message is one the reconciler acts on (a handled event on a zone topic). */
  predicate Handled(msg: ZoneMessage)
  {
    StartsWith(msg.topic, ZonePrefix) && msg.event in {PlayerJoined, PlayerMoved, PlayerLeft}
  }

  /** A join the reconciler acts on, adding `IdOf(msg.payload)` if absent. */
  predicate IsJoin(hasPrefab: bool, msg: ZoneMessage)
  {
    StartsWith(msg.topic, ZonePrefix) && msg.event == PlayerJoined && hasPrefab && HasId(msg.payload)
  }

  /** A leave the reconciler acts on, removing `IdOf(msg.payload)` if present. */
  predicate IsLeave(msg: ZoneMessage)
  {
    StartsWith(msg.topic, ZonePrefix) && msg.event == PlayerLeft && HasId(msg.payload)
  }

  /** The ids that the joins among `msgs` name. */
  function JoinedIds(hasPrefab: bool, msgs: seq<ZoneMessage>): set<string>
  {
    set i | 0 <= i < |msgs| && IsJoin(hasPrefab, msgs[i]) :: IdOf(msgs[i].payload)
  }

  /** The ids that the leaves among `msgs` name. */
  function LeftIds(msgs: seq<ZoneMessage>): set<string>
  {
    set i | 0 <= i < |msgs| && IsLeave(msgs[i]) :: IdOf(msgs[i].payload)
  }

  /** Off-topic messages and unhandled events leave the table as it is. */
  lemma IgnoredMessageUnchanged(t: Table, hasPrefab: bool, msg: ZoneMessage)
    requires !Handled(msg)
    ensures Apply(t, hasPrefab, msg) == t
  {
  }

  /** A usable join for an unknown id adds exactly that id at the payload's position. */
  lemma JoinInserts(t: Table, hasPrefab: bool, payload: Option<ZonePayload>)
    ensures var r := Join(t, hasPrefab, payload);
      if hasPrefab && HasId(payload) && IdOf(payload) !in t then
        && r.Keys == t.Keys + {IdOf(payload)}
        && r[IdOf(payload)] == payload.value.position
        && forall k :: k in t ==> r[k] == t[k]
      else r == t
  {
  }

  /** Joining twice is joining once. */
  lemma JoinIdempotent(t: Table, hasPrefab: bool, payload: Option<ZonePayload>)
    ensures Join(Join(t, hasPrefab, payload), hasPrefab, payload) == Join(t, hasPrefab, payload)
  {
  }

  /** A move shifts exactly one known player by the delta and touches nothing else. */
  lemma MoveShifts(t: Table, payload: Option<ZonePayload>)
    ensures var r := Move(t, payload);
      && r.Keys == t.Keys
      && (forall k :: k in t && !(HasId(payload) && k == IdOf(payload)) ==> r[k] == t[k])
      && (HasId(payload) && IdOf(payload) in t ==>
            r[IdOf(payload)] == Add(t[IdOf(payload)], payload.value.delta))
  {
  }

  /** A leave removes exactly the named known player; leaving twice is leaving once. */
  lemma LeaveRemoves(t: Table, payload: Option<ZonePayload>)
    ensures var r := Leave(t, payload);
      && r.Keys == (if HasId(payload) then t.Keys - {IdOf(payload)} else t.Keys)
      && (forall k :: k in r ==> r[k] == t[k])
      && Leave(r, payload) == r
  {
  }

  /** Joining a fresh id and then letting it leave restores the table. */
  lemma JoinThenLeave(t: Table, hasPrefab: bool, joined: Option<ZonePayload>, left: Option<ZonePayload>)
    requires HasId(joined) && IdOf(joined) !in t
    requires HasId(left) && IdOf(left) == IdOf(joined)
    ensures Leave(Join(t, hasPrefab, joined), left) == t
  {
    if hasPrefab {
      assert Join(t, hasPrefab, joined) - {IdOf(left)} == t;
    }
  }

  /** Only joins add keys and only leaves remove them. */
  lemma KeysChangeOnlyByJoinAndLeave(t: Table, hasPrefab: bool, msg: ZoneMessage)
    ensures var r := Apply(t, hasPrefab, msg);
      && (!IsJoin(hasPrefab, msg) ==> r.Keys <= t.Keys)
      && (!IsLeave(msg) ==> t.Keys <= r.Keys)
      && (IsJoin(hasPrefab, msg) ==> r.Keys == t.Keys + {IdOf(msg.payload)})
      && (IsLeave(msg) ==> r.Keys == t.Keys - {IdOf(msg.payload)})
  {
  }

  /** Handling a sequence in two batches is handling it in one. */
  lemma {:induction false} ApplyAllSplit(t: Table, hasPrefab: bool, a: seq<ZoneMessage>, b: seq<ZoneMessage>)
    ensures ApplyAll(t, hasPrefab, a + b) == ApplyAll(ApplyAll(t, hasPrefab, a), hasPrefab, b)
    decreases |a|
  {
    if a == [] {
      assert a + b == b;
    } else {
      assert (a + b)[1..] == a[1..] + b;
      ApplyAllSplit(Apply(t, hasPrefab, a[0]), hasPrefab, a[1..], b);
    }
  }

  /**
    Over any sequence of messages, every id in the final table was there
    before or was joined, and every id that was there before and never left
    is still there.
  */
  lemma {:induction false} ApplyAllKeys(t: Table, hasPrefab: bool, msgs: seq<ZoneMessage>)
    ensures ApplyAll(t, hasPrefab, msgs).Keys <= t.Keys + JoinedIds(hasPrefab, msgs)
    ensures t.Keys - LeftIds(msgs) <= ApplyAll(t, hasPrefab, msgs).Keys
    decreases |msgs|
  {
    if msgs != [] {
      var t' := Apply(t, hasPrefab, msgs[0]);
      KeysChangeOnlyByJoinAndLeave(t, hasPrefab, msgs[0]);
      ApplyAllKeys(t', hasPrefab, msgs[1..]);
      forall i | 0 <= i < |msgs[1..]| && IsJoin(hasPrefab, msgs[1..][i])
        ensures IdOf(msgs[1..][i].payload) in JoinedIds(hasPrefab, msgs)
      {
        assert msgs[1..][i] == msgs[i + 1];
      }
      forall i | 0 <= i < |msgs[1..]| && IsLeave(msgs[1..][i])
        ensures IdOf(msgs[1..][i].payload) in LeftIds(msgs)
      {
        assert msgs[1..][i] == msgs[i + 1];
      }
    }
  }

  /** `RemotePlayerManager`: the table it owns and whether its prefab is set. */
  class RemotePlayerManager {
    /** Id to position of each spawned remote player. */
    var remotePlayers: Table
    /** Whether `remotePlayerPrefab` is non-null. */
    var hasPrefab: bool

    constructor (hasPrefab: bool)
      ensures remotePlayers == map[] && this.hasPrefab == hasPrefab
    {
      remotePlayers := map[];
      this.hasPrefab := hasPrefab;
    }

    method OnSocketMessage(msg: ZoneMessage)
      modifies this`remotePlayers
      ensures remotePlayers == Apply(old(remotePlayers), hasPrefab, msg)
    {
      if !StartsWith(msg.topic, ZonePrefix) {
        return;
      }
      if msg.event == PlayerJoined {
        HandlePlayerJoined(msg.payload);
      } else if msg.event == PlayerMoved {
        HandlePlayerMoved(msg.payload);
      } else if msg.event == PlayerLeft {
        HandlePlayerLeft(msg.payload);
      }
    }

    method HandlePlayerJoined(payload: Option<ZonePayload>)
      modifies this`remotePlayers
      ensures remotePlayers == Join(old(remotePlayers), hasPrefab, payload)
    {
      if !hasPrefab {
        return;
      }
      if payload.None? || IsNullOrEmpty(payload.value.id) {
        return;
      }
      var id := payload.value.id.value;
      if id in remotePlayers {
        return;
      }
      remotePlayers := remotePlayers[id := payload.value.position];
    }

    method HandlePlayerMoved(payload: Option<ZonePayload>)
      modifies this`remotePlayers
      ensures remotePlayers == Move(old(remotePlayers), payload)
    {
      if payload.None? || IsNullOrEmpty(payload.value.id) {
        return;
      }
      var id := payload.value.id.value;
      if id in remotePlayers {
        remotePlayers := remotePlayers[id := Add(remotePlayers[id], payload.value.delta)];
      }
    }

    method HandlePlayerLeft(payload: Option<ZonePayload>)
      modifies this`remotePlayers
      ensures remotePlayers == Leave(old(remotePlayers), payload)
    {
      if payload.None? || IsNullOrEmpty(payload.value.id) {
        return;
      }
      var id := payload.value.id.value;
      if id in remotePlayers {
        remotePlayers := remotePlayers - {id};
      }
    }
  }
}
