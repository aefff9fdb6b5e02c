/** The `soul_rooms` table of the hosted store, as the pairing handshake of
    src/components/EntryGate.tsx reads and writes it: the rows, the store's
    unique constraints, the insert made by `createRoom`, and the three checks
    and single update made by `joinRoom`. */
module Rooms {
  import opened Wrappers

  type UserId = string
  type RoomId = string

  /** One row: `id`, `room_code`, `creator_id`, `partner_id` (nullable) and
      `is_active`. */
  datatype Room = Room(id: RoomId, code: string, creator: UserId, partner: Option<UserId>, active: bool)

  /** The table, keyed by room code (codes are unique). */
  type Table = map<string, Room>

  /** The store's unique constraints: each row is filed under its own code,
      and no two rows share an id. */
  predicate WellFormed(t: Table) {
    (forall c :: c in t ==> t[c].code == c)
    && (forall c, d :: c in t && d in t && c != d ==> t[c].id != t[d].id)
  }

  /** The pairing invariant: a room is active exactly when it has a partner,
      and that partner is never its creator. */
  predicate Consistent(r: Room) {
    (r.active <==> r.partner.Some?) && (r.partner.Some? ==> r.partner.value != r.creator)
  }

  predicate AllConsistent(t: Table) {
    forall c :: c in t ==> Consistent(t[c])
  }

  predicate IdUnused(t: Table, id: RoomId) {
    forall c :: c in t ==> t[c].id != id
  }

  /** The row `createRoom` asks the store to insert. */
  function PendingRoom(id: RoomId, code: string, creator: UserId): Room {
    Room(id, code, creator, None, false)
  }

  /** The store accepts an insert when it reports no fault of its own and the
      new code and id are not taken. */
  predicate InsertAccepted(t: Table, id: RoomId, code: string, fault: Option<string>) {
    fault.None? && code !in t && IdUnused(t, id)
  }

  function Inserted(t: Table, r: Room): Table {
    t[r.code := r]
  }

  /** The update of `joinRoom`: every row whose id is `id` gets `user` as its
      partner and becomes active. It is keyed on the id alone and does not
      require `partner_id` to be null. */
  function Joined(t: Table, id: RoomId, user: UserId): (u: Table)
    ensures u.Keys == t.Keys
    ensures forall c :: c in t && t[c].id == id ==>
      u[c] == Room(id, t[c].code, t[c].creator, Some(user), true)
    ensures forall c :: c in t && t[c].id != id ==> u[c] == t[c]
  {
    map c | c in t :: if t[c].id == id then t[c].(partner := Some(user), active := true) else t[c]
  }

  datatype JoinError = NotFound | OwnRoom | Full | WriteRejected(reason: string)

  /** The message each failure shows: the store's own message for a
      rejected write, a fixed text for each check. */
  function ErrorText(e: JoinError): string {
    match e
    case NotFound => "Room not found with that code"
    case OwnRoom => "You cannot join your own room"
    case Full => "This room is already full"
    case WriteRejected(reason) => reason
  }

  /** The lookup and the three checks of `joinRoom`, in the source's order.
      A lookup the store fails (`selectFault`) is reported as NotFound too,
      even when a row with that code exists. A success is the row filed
      under the key, not the joiner's own room, and free or already the
      joiner's. */
  function CheckJoin(t: Table, user: UserId, key: string, selectFault: Option<string>): (r: Result<Room, JoinError>)
    ensures r.Ok? <==> selectFault.None? && key in t && t[key].creator != user
                       && (t[key].partner.None? || t[key].partner == Some(user))
    ensures r.Ok? ==> r.value == t[key]
  {
    if selectFault.Some? || key !in t then Err(NotFound)
    else if t[key].creator == user then Err(OwnRoom)
    else if t[key].partner.Some? && t[key].partner.value != user then Err(Full)
    else Ok(t[key])
  }

  /** `joinRoom` against the table: the lookup, which the store fails when
      it reports `selectFault`, the checks, then the write, which the store
      rejects when it reports `writeFault`. Gives the row as read before the
      write, or the failure, and the table afterwards. */
  function JoinStep(t: Table, user: UserId, key: string, selectFault: Option<string>, writeFault: Option<string>)
    : (Result<Room, JoinError>, Table)
  {
    match CheckJoin(t, user, key, selectFault)
    case Err(e) => (Err(e), t)
    case Ok(room) =>
      if writeFault.Some? then (Err(WriteRejected(writeFault.value)), t)
      else (Ok(room), Joined(t, room.id, user))
  }

  // ---------------------------------------------------------------------
  // Properties of the handshake

  /** The three checks show three different texts, so the message tells
      which check failed. */
  lemma ErrorTextTellsTheCheck(e1: JoinError, e2: JoinError)
    requires !e1.WriteRejected? && !e2.WriteRejected?
    ensures ErrorText(e1) == ErrorText(e2) <==> e1 == e2
  {
    if e1 != e2 {
      assert ErrorText(e1)[0] != ErrorText(e2)[0];
    }
  }

  /** The row written by a join is the row that was looked up, and only that
      row changes: it gains the joiner as partner and becomes active, keeping
      its id, code and creator. */
  lemma JoinChangesOnlyTheFoundRow(t: Table, user: UserId, key: string, selectFault: Option<string>, writeFault: Option<string>)
    requires WellFormed(t)
    requires JoinStep(t, user, key, selectFault, writeFault).0.Ok?
    ensures var (res, u) := JoinStep(t, user, key, selectFault, writeFault);
      key in t && res.value == t[key] && selectFault.None? && writeFault.None?
      && u.Keys == t.Keys
      && u[key] == Room(t[key].id, key, t[key].creator, Some(user), true)
      && (forall c :: c in t && c != key ==> u[c] == t[c])
  {
    var u := Joined(t, t[key].id, user);
    forall c | c in t && c != key ensures u[c] == t[c] {
      assert t[c].id != t[key].id;
    }
  }

  /** Every failed join leaves the table as it was. */
  lemma FailedJoinWritesNothing(t: Table, user: UserId, key: string, selectFault: Option<string>, writeFault: Option<string>)
    requires JoinStep(t, user, key, selectFault, writeFault).0.Err?
    ensures JoinStep(t, user, key, selectFault, writeFault).1 == t
  {
  }

  /** A code that matches no row fails with NotFound. */
  lemma UnknownCodeNotFound(t: Table, user: UserId, key: string, selectFault: Option<string>, writeFault: Option<string>)
    requires key !in t
    ensures JoinStep(t, user, key, selectFault, writeFault) == (Err(NotFound), t)
  {
  }

  /** A lookup the store fails is reported as NotFound, even for a code
      that is filed, and nothing is written. */
  lemma SelectFaultReadsAsNotFound(t: Table, user: UserId, key: string, selectFault: Option<string>, writeFault: Option<string>)
    requires selectFault.Some?
    ensures JoinStep(t, user, key, selectFault, writeFault) == (Err(NotFound), t)
  {
  }

  /** Joining one's own room fails with OwnRoom whatever the partner, so this
      check wins over the full-room check. */
  lemma OwnRoomCheckedFirst(t: Table, user: UserId, key: string, selectFault: Option<string>, writeFault: Option<string>)
    requires selectFault.None? && key in t && t[key].creator == user
    ensures JoinStep(t, user, key, selectFault, writeFault) == (Err(OwnRoom), t)
  {
  }

  /** A room whose partner is someone else fails with Full. */
  lemma OccupiedRoomFull(t: Table, user: UserId, key: string, selectFault: Option<string>, writeFault: Option<string>)
    requires selectFault.None? && key in t && t[key].creator != user
    requires t[key].partner.Some? && t[key].partner.value != user
    ensures JoinStep(t, user, key, selectFault, writeFault) == (Err(Full), t)
  {
  }

  /** The partner may join again: the checks pass, and on a consistent table
      the write leaves every row as it was. */
  lemma {:induction false} RejoinChangesNothing(t: Table, user: UserId, key: string)
    requires WellFormed(t) && AllConsistent(t)
    requires key in t && t[key].partner == Some(user)
    ensures JoinStep(t, user, key, None, None) == (Ok(t[key]), t)
  {
    assert Consistent(t[key]);
    var u := Joined(t, t[key].id, user);
    forall c | c in t ensures u[c] == t[c] {
      if c != key {
        assert t[c].id != t[key].id;
      }
    }
    assert u == t;
  }

  /** An accepted insert keeps the constraints and the pairing invariant. */
  lemma InsertKeepsInvariants(t: Table, id: RoomId, code: string, creator: UserId)
    requires WellFormed(t) && AllConsistent(t)
    requires InsertAccepted(t, id, code, None)
    ensures var u := Inserted(t, PendingRoom(id, code, creator));
      WellFormed(u) && AllConsistent(u) && u.Keys == t.Keys + {code}
  {
  }

  /** Every join, failed or not, keeps the constraints and the pairing
      invariant: the own-room check is what keeps a creator from becoming
      the partner. */
  lemma JoinKeepsInvariants(t: Table, user: UserId, key: string, selectFault: Option<string>, writeFault: Option<string>)
    requires WellFormed(t)
    ensures var u := JoinStep(t, user, key, selectFault, writeFault).1;
      WellFormed(u) && (AllConsistent(t) ==> AllConsistent(u))
  {
    var (res, u) := JoinStep(t, user, key, selectFault, writeFault);
    if res.Ok? {
      JoinChangesOnlyTheFoundRow(t, user, key, selectFault, writeFault);
      forall c, d | c in u && d in u && c != d ensures u[c].id != u[d].id {
        assert u[c].id == t[c].id && u[d].id == t[d].id;
      }
    }
  }

  /** Joins made one after another never hand a taken room to someone else:
      a partner, once set, stays. */
  lemma PartnerStaysUnderSequentialJoins(t: Table, user: UserId, key: string, selectFault: Option<string>, writeFault: Option<string>, c: string)
    requires WellFormed(t) && AllConsistent(t)
    requires c in t && t[c].partner.Some?
    ensures var u := JoinStep(t, user, key, selectFault, writeFault).1;
      c in u && u[c].partner == t[c].partner
  {
    var (res, u) := JoinStep(t, user, key, selectFault, writeFault);
    if res.Ok? {
      JoinChangesOnlyTheFoundRow(t, user, key, selectFault, writeFault);
      if c == key {
        assert t[key].partner.value == user;
      }
    }
  }

  /** Two joiners who both read the room while it was still pending both pass
      every check, and since the write does not re-check `partner_id`, the
      later write replaces the earlier joiner. */
  lemma StaleReadsLetTheLastWriterWin(t: Table, key: string, b: UserId, c: UserId)
    requires WellFormed(t) && key in t
    requires t[key].partner.None? && t[key].creator != b && t[key].creator != c && b != c
    ensures CheckJoin(t, b, key, None) == Ok(t[key]) && CheckJoin(t, c, key, None) == Ok(t[key])
    ensures var afterB := Joined(t, t[key].id, b);
      afterB[key].partner == Some(b)
      && Joined(afterB, t[key].id, c)[key].partner == Some(c)
      && CheckJoin(afterB, c, key, None) == Err(Full)
  {
  }

  // ---------------------------------------------------------------------
  // The store

  /** The message of the store's unique-constraint failure. */
  const UniqueViolation := "duplicate key value violates unique constraint"

  /** The hosted store's `soul_rooms` table. Faults the store could report
      (network, row policies) are passed in by the caller. */
  class RoomStore {
    var rooms: Table

    ghost predicate Valid()
      reads this
    {
      WellFormed(rooms)
    }

    constructor ()
      ensures Valid() && rooms == map[]
    {
      rooms := map[];
    }

    /** `select('*').eq('room_code', key).single()`: nothing when the store
        reports `fault` or no row is filed under the key. */
    method FindByCode(key: string, fault: Option<string>) returns (r: Option<Room>)
      requires Valid()
      ensures r.Some? <==> fault.None? && key in rooms
      ensures r.Some? ==> r.value == rooms[key] && r.value.code == key
    {
      r := if fault.None? && key in rooms then Some(rooms[key]) else None;
    }

    /** `insert(row).select().single()` of a pending row. */
    method Insert(id: RoomId, code: string, creator: UserId, fault: Option<string>) returns (r: Result<Room, string>)
      requires Valid()
      modifies this
      ensures Valid()
      ensures InsertAccepted(old(rooms), id, code, fault) ==>
        r == Ok(PendingRoom(id, code, creator)) && rooms == Inserted(old(rooms), PendingRoom(id, code, creator))
      ensures !InsertAccepted(old(rooms), id, code, fault) ==> r.Err? && rooms == old(rooms)
    {
      if fault.Some? {
        r := Err(fault.value);
      } else if code in rooms || !IdUnused(rooms, id) {
        r := Err(UniqueViolation);
      } else {
        var room := PendingRoom(id, code, creator);
        rooms := Inserted(rooms, room);
        r := Ok(room);
      }
    }

    /** `update({partner_id: user, is_active: true}).eq('id', id)`. */
    method UpdatePartner(id: RoomId, user: UserId, fault: Option<string>) returns (error: Option<string>)
      modifies this
      ensures error == fault
      ensures rooms == if fault.None? then Joined(old(rooms), id, user) else old(rooms)
    {
      error := fault;
      if fault.None? {
        rooms := Joined(rooms, id, user);
      }
    }
  }
}
