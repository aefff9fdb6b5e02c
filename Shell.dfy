/** The page of src/pages/Index.tsx: which of the landing page, the entry
    gate and the room is shown, and the room id and partner name the gate
    hands over. */
module Shell {
  import opened Wrappers
  import opened Rooms
  import opened Pairing
  import Text
  import Utf16

  datatype View = Landing | EntryView | RoomView

  /** What the page renders. */
  datatype Screen = LandingPage | Gate | SoulRoom(roomId: string, partner: string)

  class Index {
    var currentView: View
    var partner: string
    var roomId: string

    constructor ()
      ensures currentView == Landing && partner == [] && roomId == []
    {
      currentView := Landing;
      partner := [];
      roomId := [];
    }

    /** The view dispatch: the room with its id and partner, the gate, or
        the landing page. */
    function Render(): (s: Screen)
      reads this
      ensures s.SoulRoom? <==> currentView == RoomView
      ensures s.SoulRoom? ==> s.roomId == roomId && s.partner == partner
      ensures s == Gate <==> currentView == EntryView
      ensures s == LandingPage <==> currentView == Landing
    {
      match currentView
      case RoomView => SoulRoom(roomId, partner)
      case EntryView => Gate
      case Landing => LandingPage
    }

    /** "Enter Your SoulRoom": without a signed-in user the page sends the
        browser to the sign-in route and keeps its view; otherwise it shows
        the gate. */
    method EnterSoulRoom(user: Option<UserId>) returns (redirectToAuth: bool)
      modifies this
      ensures redirectToAuth <==> user.None?
      ensures currentView == (if user.None? then old(currentView) else EntryView)
      ensures partner == old(partner) && roomId == old(roomId)
    {
      if user.None? {
        return true;
      }
      currentView := EntryView;
      redirectToAuth := false;
    }

    /** The gate's success callback: keep the room and the name, show the
        room. */
    method SuccessfulEntry(roomId: string, partnerName: string)
      modifies this
      ensures this.roomId == roomId && partner == partnerName && currentView == RoomView
    {
      this.roomId := roomId;
      partner := partnerName;
      currentView := RoomView;
    }

    /** Leaving the room: back to the landing page; the room and the name
        are kept. */
    method Leave()
      modifies this
      ensures currentView == Landing && partner == old(partner) && roomId == old(roomId)
    {
      currentView := Landing;
    }

    /** The gate's Back button: back to the landing page; the room and the
        name are kept. */
    method Back()
      modifies this
      ensures currentView == Landing && partner == old(partner) && roomId == old(roomId)
    {
      currentView := Landing;
    }
  }

  /** Two signed-in people go from the landing page through the gate into
      the same room, each shown the other's name; leaving shows the landing
      page again. */
  method BothReachTheRoom(a: UserId, b: UserId, code: string, id: RoomId, profiles: map<UserId, string>)
    returns (creatorScreen: Screen, joinerScreen: Screen, afterLeave: Screen)
    requires a != b
    requires code != [] && Utf16.Utf16Length(code) <= CodeLength && Text.LookupKey(code) == code
    ensures creatorScreen == SoulRoom(id, DisplayName(profiles, b))
    ensures joinerScreen == SoulRoom(id, DisplayName(profiles, a))
    ensures afterLeave == LandingPage
  {
    var creatorPage := new Index();
    var joinerPage := new Index();
    var redirected := creatorPage.EnterSoulRoom(Some(a));
    redirected := joinerPage.EnterSoulRoom(Some(b));
    var creatorView, joinerView := Handshake(a, b, code, id, profiles);
    creatorPage.SuccessfulEntry(creatorView.roomId, creatorView.partnerName);
    joinerPage.SuccessfulEntry(joinerView.entry.roomId, joinerView.entry.partnerName);
    creatorScreen, joinerScreen := creatorPage.Render(), joinerPage.Render();
    creatorPage.Leave();
    afterLeave := creatorPage.Render();
  }
}
