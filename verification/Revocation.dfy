/**
 Revocation racing attach (internal/hub/hub.go:294-380, 805-957).

 A session is authenticated at the door, indexed later, and only then is its device's
 liveness read again.  A revocation commits, is queued to the listener if it is
 subscribed, and closes whatever the index holds when it is delivered; what an outage
 swallowed is looked for when the listener comes back.
 */
module Revocation {

  /** Who a revocation names. */
  datatype Subject = Device(device: nat) | User(user: nat) | Both(device: nat, user: nat) | Nobody

  /** How far a session's attach has come. */
  datatype Stage =
    | AtDoor
    | Checking
    | Found(dead: bool)
    | Settled
    | Unread(wasDead: bool)

  datatype Sess = Sess(device: nat, stage: Stage)

  /** The listener's gap callback: due, holding its snapshot of the index, or holding
      the database's answer about it. */
  datatype Gap = NoGap | Due | Snapped(all: set<nat>) | Checked(all: set<nat>, dead: set<nat>)

  datatype State = State(
    owner: map<nat, nat>,
    revoked: set<nat>,
    deactivated: set<nat>,
    sess: map<nat, Sess>,
    index: set<nat>,
    up: bool,
    connected: bool,
    queue: seq<Subject>,
    gap: Gap)

  datatype Event =
    | Authenticate(id: nat, device: nat)
    | Index(id: nat)
    | Read(id: nat)
    | ReadFails(id: nat)
    | Finish(id: nat)
    | Detach(id: nat)
    | RevokeDevice(device: nat)
    | Deactivate(user: nat)
    | Reactivate(user: nat)
    | Deliver
    | Outage
    | Listen
    | GapSnap
    | GapQuery
    | GapFails
    | GapFinish

  predicate Owns(owner: map<nat, nat>, u: nat, d: nat) {
    && d in owner
    && owner[d] == u
  }

  /** `DeadDevices`: revoked, or owned by a deactivated account. */
  predicate Dead(s: State, d: nat) { d in s.revoked || (d in s.owner && s.owner[d] in s.deactivated) }

  predicate Names(owner: map<nat, nat>, p: Subject, d: nat) {
    match p
    case Device(x) => x == d
    case User(u) => Owns(owner, u, d)
    case Both(x, u) => x == d || Owns(owner, u, d)
    case Nobody => false
  }

  predicate At(s: State, i: nat, stage: Stage) {
    && i in s.sess
    && s.sess[i].stage == stage
  }

  predicate Enabled(s: State, e: Event) {
    match e
    case Authenticate(i, d) => i !in s.sess && d in s.owner && !Dead(s, d)
    case Index(i) => At(s, i, AtDoor)
    case Read(i) => At(s, i, Checking)
    case ReadFails(i) => At(s, i, Checking)
    case Finish(i) => i in s.sess && s.sess[i].stage.Found?
    case Detach(i) => true
    case RevokeDevice(_) => true
    case Deactivate(_) => true
    case Reactivate(_) => true
    case Deliver => s.up && s.gap.NoGap? && s.queue != []
    case Outage => s.up
    case Listen => !s.up && s.gap.NoGap?
    case GapSnap => s.gap.Due?
    case GapQuery => s.gap.Snapped?
    case GapFails => s.gap.Snapped?
    case GapFinish => s.gap.Checked?
  }

  function Staged(s: State, i: nat, stage: Stage): State
    requires i in s.sess
  {
    s.(sess := s.sess[i := s.sess[i].(stage := stage)])
  }

  /** `pg_notify` at commit: it reaches a subscribed listener and nobody else. */
  function Published(s: State, p: Subject): State { if s.up then s.(queue := s.queue + [p]) else s }

  /** The indexed sessions a subject names. */
  function Named(s: State, p: Subject): set<nat> {
    set i | i in s.index && i in s.sess && Names(s.owner, p, s.sess[i].device)
  }

  function On(s: State, all: set<nat>, dead: set<nat>): set<nat> {
    set i | i in all && i in s.sess && s.sess[i].device in dead
  }

  function DeadOf(s: State, all: set<nat>): set<nat> {
    set i | i in all && i in s.sess && Dead(s, s.sess[i].device) :: s.sess[i].device
  }

  function OwnedBy(s: State, u: nat): set<nat> { set d | d in s.owner && s.owner[d] == u }

  function Do(s: State, e: Event): State
    requires Enabled(s, e)
  {
    match e
    case Authenticate(i, d) => s.(sess := s.sess[i := Sess(d, AtDoor)])
    case Index(i) => Staged(s, i, Checking).(index := s.index + {i})
    case Read(i) => Staged(s, i, Found(Dead(s, s.sess[i].device)))
    case ReadFails(i) => Staged(s, i, Unread(Dead(s, s.sess[i].device)))
    case Finish(i) => Staged(s, i, Settled).(index := if s.sess[i].stage.dead then s.index - {i} else s.index)
    case Detach(i) => s.(index := s.index - {i})
    case RevokeDevice(d) => Published(s.(revoked := s.revoked + {d}), Device(d))
    case Deactivate(u) => Published(s.(deactivated := s.deactivated + {u}), User(u))
    case Reactivate(u) => Published(s.(revoked := s.revoked + OwnedBy(s, u), deactivated := s.deactivated - {u}), User(u))
    case Deliver => s.(queue := s.queue[1..], index := s.index - Named(s, s.queue[0]))
    case Outage => s.(up := false, queue := [])
    case Listen => s.(up := true, connected := true, gap := if s.connected then Due else NoGap)
    case GapSnap => s.(gap := Snapped(s.index))
    case GapQuery => s.(gap := Checked(s.gap.all, DeadOf(s, s.gap.all)))
    case GapFails => s.(gap := NoGap, index := s.index - s.gap.all)
    case GapFinish => s.(gap := NoGap, index := s.index - On(s, s.gap.all, s.gap.dead))
  }

  predicate Commits(e: Event) { e.RevokeDevice? || e.Deactivate? || e.Reactivate? }

  predicate Init(s: State) {
    && s.index == {}
    && s.sess == map[]
    && !s.up
    && !s.connected
    && s.queue == []
    && s.gap.NoGap?
  }

  // --- what is owed to a dead session ------------------------------------------------

  predicate DeliveryOwed(s: State, d: nat) { exists p :: p in s.queue && Names(s.owner, p, d) }

  predicate GapOwed(s: State, i: nat) {
    match s.gap
    case NoGap => false
    case Due => true
    case Snapped(all) => i in all
    case Checked(all, dead) => i in all && i in s.sess && s.sess[i].device in dead
  }

  predicate CheckOwed(s: State, i: nat) { At(s, i, Checking) || At(s, i, Found(true)) }

  /** Something still to come will close session `i`: its attach check, a delivery, a
      gap re-check, or the gap the listener raises when it is back. */
  predicate Owed(s: State, i: nat) {
    i in s.sess && (CheckOwed(s, i) || DeliveryOwed(s, s.sess[i].device) || GapOwed(s, i) || (!s.up && s.connected))
  }

  /** The attach check failed when the device was already dead. */
  predicate Excused(s: State, i: nat) { At(s, i, Unread(true)) }

  predicate DeadSession(s: State, i: nat) {
    && i in s.index
    && i in s.sess
    && Dead(s, s.sess[i].device)
  }

  predicate Sane(s: State) {
    && s.index <= s.sess.Keys
    && (s.up ==> s.connected) && (s.queue != [] ==> s.up) && (!s.gap.NoGap? ==> s.connected)
    && (forall i | i in s.index :: !s.sess[i].stage.AtDoor?)
  }

  predicate NoneForgotten(s: State) { forall i | i in s.index :: DeadSession(s, i) ==> Owed(s, i) || Excused(s, i) }
}
