/** The double-consent entry gate of src/components/EntryGate.tsx: one
    partner creates a room and waits, the other joins it by code, and the
    waiting creator is let in when the store reports the room active. */
module Pairing {
  import opened Wrappers
  import opened Text
  import opened Utf16
  import opened Rooms

  datatype Mode = Choose | Create | Join

  /** What the gate hands to its caller on success: the room and the name to
      show for the other person. */
  datatype Entry = Entry(roomId: RoomId, partnerName: string)

  datatype JoinOutcome = Skipped | Failed(error: JoinError) | Entered(entry: Entry)

  /** A profile fetch in flight: the updated room, and the other party's id,
      chosen when the update arrived and before the fetch is awaited. */
  datatype PendingFetch = PendingFetch(roomId: RoomId, partnerId: UserId)

  const FallbackName := "Your Partner"

  /** The join form's input holds at most this many UTF-16 units, and the
      Join button is enabled only at exactly this length. */
  const CodeLength := 6

  /** The name shown for `who`: the profile's display name, or the fallback
      when there is no profile or its name is empty. Never empty. */
  function DisplayName(profiles: map<UserId, string>, who: UserId): (name: string)
    ensures name != []
    ensures name == FallbackName || (who in profiles && name == profiles[who])
    ensures who in profiles && profiles[who] != [] ==> name == profiles[who]
  {
    if who in profiles && profiles[who] != [] then profiles[who] else FallbackName
  }

  /** The creator's UPDATE handler goes on only for a row that has a partner
      and is active. */
  predicate EntersOnUpdate(r: Room) {
    r.partner.Some? && r.active
  }

  /** Whichever of creator and partner is not the current user. */
  function OtherParty(r: Room, user: Option<UserId>): (p: UserId)
    requires r.partner.Some?
    ensures p == r.creator || p == r.partner.value
    ensures user == Some(r.partner.value) ==> p == r.creator
    ensures user == Some(r.creator) && Consistent(r) ==> p == r.partner.value
  {
    if user.Some? && r.partner.value == user.value then r.creator else r.partner.value
  }

  /** The Join button's guard: a code whose `length` is six. */
  predicate JoinEnabled(roomCode: string) {
    Utf16Length(roomCode) == CodeLength
  }

  /** The button's length guard does not imply the handler's blank guard: six
      spaces enable the button, and `joinRoom` then returns at once. */
  lemma SixSpacesPassTheButtonOnly()
    ensures JoinEnabled("      ") && Blank("      ")
  {
    BmpLength("      ");
  }

  /** One person's entry gate. `store` is the shared hosted table; the
      signed-in user, ids and codes the store generates, faults it reports
      and the profiles it holds are passed to each handler. */
  class EntryGate {
    const store: RoomStore
    var mode: Mode
    var roomCode: string
    var createdRoom: Option<Room>
    var waitingForPartner: bool
    /** The partner-profile fetches still in flight. */
    var fetching: seq<PendingFetch>

    constructor (store: RoomStore)
      ensures this.store == store
      ensures mode == Choose && roomCode == [] && createdRoom == None && !waitingForPartner
      ensures fetching == []
    {
      this.store := store;
      mode := Choose;
      roomCode := [];
      createdRoom := None;
      waitingForPartner := false;
      fetching := [];
    }

    /** The creator's subscription to UPDATE events is open exactly while it
        waits with a created room. */
    predicate Subscribed()
      reads this
    {
      waitingForPartner && createdRoom.Some?
    }

    /** `createRoom`: with a signed-in user, insert a pending room under the
        generated code; on success show the code and wait. An error leaves
        the gate and the table as they were. */
    method CreateRoom(user: Option<UserId>, generatedCode: string, newId: RoomId, fault: Option<string>)
      returns (error: Option<string>)
      requires store.Valid()
      modifies this, store
      ensures store.Valid() && fetching == old(fetching)
      ensures AllConsistent(old(store.rooms)) ==> AllConsistent(store.rooms)
      ensures user.Some? && InsertAccepted(old(store.rooms), newId, generatedCode, fault) ==>
        var room := PendingRoom(newId, generatedCode, user.value);
        error == None && store.rooms == Inserted(old(store.rooms), room)
        && createdRoom == Some(room) && roomCode == generatedCode
        && waitingForPartner && mode == Create
      ensures user.None? ==> error == None
      ensures user.Some? && !InsertAccepted(old(store.rooms), newId, generatedCode, fault) ==> error.Some?
      ensures user.None? || !InsertAccepted(old(store.rooms), newId, generatedCode, fault) ==>
        store.rooms == old(store.rooms)
        && mode == old(mode) && roomCode == old(roomCode)
        && createdRoom == old(createdRoom) && waitingForPartner == old(waitingForPartner)
    {
      error := None;
      if user.None? {
        return;
      }
      ghost var before := store.rooms;
      var inserted := store.Insert(newId, generatedCode, user.value, fault);
      if inserted.Err? {
        error := Some(inserted.error);
        return;
      }
      if AllConsistent(before) {
        InsertKeepsInvariants(before, newId, generatedCode, user.value);
      }
      var room := inserted.value;
      createdRoom := Some(room);
      roomCode := room.code;
      waitingForPartner := true;
      mode := Create;
    }

    /** `joinRoom`: nothing without a user or with a blank code; otherwise
        look the normalised code up, run the three checks, make the single
        write, and enter with the creator's name. A failure is shown as a
        toast with its message. The gate's own fields do not change. */
    method JoinRoom(user: Option<UserId>, profiles: map<UserId, string>,
                    selectFault: Option<string>, writeFault: Option<string>)
      returns (r: JoinOutcome, toast: Option<string>)
      requires store.Valid()
      modifies store
      ensures store.Valid()
      ensures AllConsistent(old(store.rooms)) ==> AllConsistent(store.rooms)
      ensures user.None? || Blank(roomCode) ==> r == Skipped && store.rooms == old(store.rooms)
      ensures user.Some? && !Blank(roomCode) ==>
        var (res, after) := JoinStep(old(store.rooms), user.value, LookupKey(roomCode), selectFault, writeFault);
        store.rooms == after
        && r == match res
                case Err(e) => Failed(e)
                case Ok(room) => Entered(Entry(room.id, DisplayName(profiles, room.creator)))
      ensures toast == if r.Failed? then Some(ErrorText(r.error)) else None
    {
      if user.None? || Trim(roomCode) == [] {
        return Skipped, None;
      }
      ghost var before := store.rooms;
      JoinKeepsInvariants(before, user.value, LookupKey(roomCode), selectFault, writeFault);
      var found := store.FindByCode(ToUpper(Trim(roomCode)), selectFault);
      if found.None? {
        r := Failed(NotFound);
      } else if found.value.creator == user.value {
        r := Failed(OwnRoom);
      } else if found.value.partner.Some? && found.value.partner.value != user.value {
        r := Failed(Full);
      } else {
        var room := found.value;
        var error := store.UpdatePartner(room.id, user.value, writeFault);
        if error.Some? {
          r := Failed(WriteRejected(error.value));
        } else {
          r := Entered(Entry(room.id, DisplayName(profiles, room.creator)));
        }
      }
      toast := if r.Failed? then Some(ErrorText(r.error)) else None;
    }

    /** The creator's UPDATE handler. An event reaches it only through the
        open subscription, filtered on the created room's id; for a row with
        a partner that is active it starts the fetch of the other party's
        profile, whose id is chosen here from the signed-in `user`. Nothing
        else changes. */
    method OnRoomUpdate(updated: Room, user: Option<UserId>) returns (started: bool)
      modifies this
      ensures started <==>
        old(Subscribed()) && updated.id == old(createdRoom).value.id && EntersOnUpdate(updated)
      ensures started ==> fetching == old(fetching) + [PendingFetch(updated.id, OtherParty(updated, user))]
      ensures !started ==> fetching == old(fetching)
      ensures mode == old(mode) && roomCode == old(roomCode)
      ensures createdRoom == old(createdRoom) && waitingForPartner == old(waitingForPartner)
    {
      started := waitingForPartner && createdRoom.Some? && updated.id == createdRoom.value.id
                 && updated.partner.Some? && updated.active;
      if started {
        fetching := fetching + [PendingFetch(updated.id, OtherParty(updated, user))];
      }
    }

    /** `fetchPartnerAndEnter` resumes: the `i`-th profile fetch in flight
        returns, and the gate enters that room, named after the party chosen
        when the update arrived. It does not look at `waitingForPartner`
        again, so an entry already under way survives a Cancel. */
    method PartnerProfileArrives(i: nat, profiles: map<UserId, string>)
      returns (entry: Entry)
      requires i < |fetching|
      modifies this
      ensures entry == Entry(old(fetching)[i].roomId, DisplayName(profiles, old(fetching)[i].partnerId))
      ensures fetching == old(fetching)[..i] + old(fetching)[i + 1..]
      ensures mode == old(mode) && roomCode == old(roomCode)
      ensures createdRoom == old(createdRoom) && waitingForPartner == old(waitingForPartner)
    {
      var pending := fetching[i];
      fetching := fetching[..i] + fetching[i + 1..];
      entry := Entry(pending.roomId, DisplayName(profiles, pending.partnerId));
    }

    /** "Join Existing Room". */
    method ChooseJoin()
      modifies this
      ensures mode == Join
      ensures roomCode == old(roomCode) && createdRoom == old(createdRoom)
      ensures waitingForPartner == old(waitingForPartner) && fetching == old(fetching)
    {
      mode := Join;
    }

    /** The join form's Back button. */
    method BackToChoose()
      modifies this
      ensures mode == Choose
      ensures roomCode == old(roomCode) && createdRoom == old(createdRoom)
      ensures waitingForPartner == old(waitingForPartner) && fetching == old(fetching)
    {
      mode := Choose;
    }

    /** A keystroke in the code field: what `maxLength` keeps of the value,
        upper-cased; its `length` never exceeds six. */
    method TypeCode(value: string)
      modifies this
      ensures Utf16Length(roomCode) <= CodeLength
      ensures roomCode == ToUpper(CutToUnits(value, CodeLength))
      ensures mode == old(mode) && createdRoom == old(createdRoom)
      ensures waitingForPartner == old(waitingForPartner) && fetching == old(fetching)
    {
      var kept := CutToUnits(value, CodeLength);
      UpperKeepsUnits(kept);
      roomCode := ToUpper(kept);
    }

    /** Cancel while waiting: back to the choice, no longer waiting, no
        created room. The code stays in the field and the row stays in the
        table. */
    method Cancel()
      modifies this
      ensures mode == Choose && !waitingForPartner && createdRoom == None
      ensures roomCode == old(roomCode) && fetching == old(fetching)
      ensures !Subscribed()
    {
      mode := Choose;
      waitingForPartner := false;
      createdRoom := None;
    }
  }

  // ---------------------------------------------------------------------
  // The handshake end to end

  /** Creator `a` makes a room; `b` joins with its code; the creator is let in
      by the resulting update. Both sides end up in the same room, each
      seeing the other. */
  lemma {:induction false} DoubleConsent(t: Table, id: RoomId, code: string, a: UserId, b: UserId)
    requires WellFormed(t) && InsertAccepted(t, id, code, None) && a != b
    ensures var t1 := Inserted(t, PendingRoom(id, code, a));
      var (res, t2) := JoinStep(t1, b, code, None, None);
      res == Ok(PendingRoom(id, code, a))
      && t2[code] == Room(id, code, a, Some(b), true)
      && EntersOnUpdate(t2[code]) && Consistent(t2[code])
      && OtherParty(t2[code], Some(a)) == b
  {
    var t1 := Inserted(t, PendingRoom(id, code, a));
    assert WellFormed(t1);
    JoinChangesOnlyTheFoundRow(t1, b, code, None, None);
  }

  /** The same story told through two gates sharing one store. */
  method Handshake(a: UserId, b: UserId, code: string, id: RoomId, profiles: map<UserId, string>)
    returns (creatorView: Entry, joinerView: JoinOutcome)
    requires a != b
    requires code != [] && Utf16Length(code) <= CodeLength && LookupKey(code) == code
    ensures creatorView == Entry(id, DisplayName(profiles, b))
    ensures joinerView == Entered(Entry(id, DisplayName(profiles, a)))
  {
    var store := new RoomStore();
    var creatorGate := new EntryGate(store);
    var joinerGate := new EntryGate(store);
    var error := creatorGate.CreateRoom(Some(a), code, id, None);
    ghost var t1 := store.rooms;
    assert t1 == Inserted(map[], PendingRoom(id, code, a));
    DoubleConsent(map[], id, code, a, b);
    joinerGate.ChooseJoin();
    assert CutToUnits(code, CodeLength) == code;
    joinerGate.TypeCode(code);
    assert joinerGate.roomCode == code by {
      KeyIgnoresCase(code);
      KeyIdempotent(code);
      ToUpperIdempotent(Trim(code));
    }
    assert !Blank(code) by {
      KeyBlankIffInputBlank(code);
    }
    var toast;
    joinerView, toast := joinerGate.JoinRoom(Some(b), profiles, None, None);
    assert store.rooms == JoinStep(t1, b, code, None, None).1;
    var started := creatorGate.OnRoomUpdate(store.rooms[code], Some(a));
    creatorView := creatorGate.PartnerProfileArrives(0, profiles);
  }

  /** A creator who cancels leaves the pending room behind in the store, and
      a later update for it no longer reaches the gate. */
  method CancelLeavesPendingRoom(a: UserId, code: string, id: RoomId, b: UserId, profiles: map<UserId, string>)
    returns (left: Option<Room>, started: bool)
    ensures left == Some(PendingRoom(id, code, a))
    ensures !started
  {
    var store := new RoomStore();
    var gate := new EntryGate(store);
    var error := gate.CreateRoom(Some(a), code, id, None);
    gate.Cancel();
    left := store.FindByCode(code, None);
    started := gate.OnRoomUpdate(Room(id, code, a, Some(b), true), Some(a));
  }

  /** An update that arrives before Cancel still takes the creator into the
      room once the profile fetch returns: Cancel closes the subscription but
      does not stop a fetch already under way. */
  method CancelDoesNotStopPendingEntry(a: UserId, b: UserId, code: string, id: RoomId, profiles: map<UserId, string>)
    returns (modeAfterCancel: Mode, entry: Entry)
    requires a != b
    ensures modeAfterCancel == Choose
    ensures entry == Entry(id, DisplayName(profiles, b))
  {
    var store := new RoomStore();
    var gate := new EntryGate(store);
    var error := gate.CreateRoom(Some(a), code, id, None);
    var started := gate.OnRoomUpdate(Room(id, code, a, Some(b), true), Some(a));
    gate.Cancel();
    modeAfterCancel := gate.mode;
    entry := gate.PartnerProfileArrives(0, profiles);
  }
}
