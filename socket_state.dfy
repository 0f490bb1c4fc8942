/**
 * The process-wide state shared by the socket layer: the rooms with subscribers,
 * the event ids watched per sport, and the events each player has a slip entry on.
 * The Redis copy of the per-sport event rooms (`globalEventRooms`) lives here too,
 * as the value the serialised map denotes.
 */
module SocketState {

  class Registry {
    var activeRooms: set<string>
    var eventRooms: map<string, set<string>>        // sport key -> event ids
    var playerBets: map<string, set<string>>        // player key -> event ids
    var globalEventRooms: map<string, set<string>>  // the same shape, kept in Redis

    constructor()
      ensures activeRooms == {} && eventRooms == map[] && playerBets == map[] && globalEventRooms == map[]
    {
      activeRooms := {};
      eventRooms := map[];
      playerBets := map[];
      globalEventRooms := map[];
    }
  }

  /** `set.delete(x)` followed by deleting the key once its set is empty; a missing key is left alone. */
  function DropMember(m: map<string, set<string>>, key: string, x: string): (r: map<string, set<string>>)
    ensures key in m && m[key] - {x} != {} ==> r == m[key := m[key] - {x}]
    ensures key in m && m[key] - {x} == {} ==> r == m - {key}
    ensures key !in m ==> r == m
    ensures forall k :: k in r ==> r[k] != {} || (k in m && m[k] == {} && k != key)
  {
    if key !in m then m
    else if m[key] - {x} == {} then m - {key}
    else m[key := m[key] - {x}]
  }

  /** `if (!m.has(key)) m.set(key, new Set()); m.get(key).add(x)`. */
  function AddMember(m: map<string, set<string>>, key: string, x: string): (r: map<string, set<string>>)
    ensures r.Keys == m.Keys + {key}
    ensures r[key] == (if key in m then m[key] else {}) + {x}
    ensures forall k :: k in m && k != key ==> r[k] == m[k]
  {
    m[key := (if key in m then m[key] else {}) + {x}]
  }
}
