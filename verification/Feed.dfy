/** Calls, the listener's live map, and the maps that holding a system or a talkgroup derives from it. */
module Feed {

  datatype Option<+T> = None | Some(value: T)

  /** A delivered call. Every call the server sends carries an audio object (server/call.go:136-149). */
  datatype Call = Call(id: nat, system: nat, talkgroup: nat, patches: seq<nat>)

  /** system -> talkgroup -> active */
  type FeedMap = map<nat, map<nat, bool>>

  predicate Flag(m: FeedMap, sys: nat, tg: nat) {
    sys in m && tg in m[sys] && m[sys][tg]
  }

  /** A call is wanted when its own talkgroup or one of its patches is active in its system. */
  predicate IsActive(m: FeedMap, c: Call) {
    Flag(m, c.system, c.talkgroup) || exists p | p in c.patches :: Flag(m, c.system, p)
  }

  predicate Known(m: FeedMap, sys: nat, tg: nat) {
    sys in m && tg in m[sys]
  }

  function Set(m: FeedMap, sys: nat, tg: nat, flag: bool): FeedMap
    requires sys in m
  {
    var row: map<nat, bool> := m[sys][tg := flag];
    m[sys := row]
  }

  predicate SameKeys(a: FeedMap, b: FeedMap) {
    a.Keys == b.Keys && forall s | s in a :: a[s].Keys == b[s].Keys
  }

  /** The map while one system is held. The source's "all on" test is true of an empty system only. */
  function RestrictToSystem(m: FeedMap, held: nat): FeedMap {
    map s | s in m :: map t | t in m[s] :: if s == held then m[s].Keys == {} || m[s][t] else false
  }

  /** The map while one talkgroup is held. */
  function OnlyTalkgroup(m: FeedMap, sys: nat, tg: nat): FeedMap {
    map s | s in m :: map t | t in m[s] :: s == sys && t == tg
  }

  lemma HeldMapsKeepKeys(m: FeedMap, sys: nat, tg: nat)
    ensures SameKeys(RestrictToSystem(m, sys), m)
    ensures SameKeys(OnlyTalkgroup(m, sys, tg), m)
    ensures forall s, t :: Flag(RestrictToSystem(m, sys), s, t) <==> s == sys && Flag(m, s, t)
    ensures forall s, t :: Flag(OnlyTalkgroup(m, sys, tg), s, t) <==> s == sys && t == tg && s in m && t in m[s]
  {
  }
}
