/**
  * The navigation bar: the online/offline reconnect counter and the alert it
  * drives, the navigation links by role, the dashboard-path test, the avatar
  * initials, and logging out.
  */
module NavBar {
  import opened Common
  import opened Text
  import opened ConnectionStatus

  // ---------------------------------------------------------------- reconnect counter

  /** `maxReconnectAttempts`. */
  const MaxReconnectAttempts := 3

  /** A browser connectivity event. */
  datatype NetEvent = Online | Offline

  /** The counter's state: `isConnected` and `reconnectAttempts`. */
  datatype Connection = Connection(isConnected: bool, reconnectAttempts: int)

  const InitialConnection := Connection(true, 0)

  /** One handler run: `handleOnline` or `handleOffline`. */
  function Step(c: Connection, e: NetEvent): Connection
  {
    match e
    case Online => Connection(true, 0)
    case Offline =>
      Connection(false, if c.reconnectAttempts < MaxReconnectAttempts then c.reconnectAttempts + 1 else c.reconnectAttempts)
  }

  /** The state after a sequence of events, oldest first. */
  function Replay(c: Connection, events: seq<NetEvent>): Connection
    decreases |events|
  {
    if events == [] then c else Replay(Step(c, events[0]), events[1..])
  }

  predicate InRange(c: Connection)
  {
    0 <= c.reconnectAttempts <= MaxReconnectAttempts
  }

  /** Each event keeps the counter within `0..3`; going offline moves it up by at most one. */
  lemma StepInRange(c: Connection, e: NetEvent)
    requires InRange(c)
    ensures InRange(Step(c, e))
    ensures e == Offline ==>
              !Step(c, e).isConnected
              && Step(c, e).reconnectAttempts == if c.reconnectAttempts < MaxReconnectAttempts then c.reconnectAttempts + 1 else MaxReconnectAttempts
    ensures e == Online ==> Step(c, e) == InitialConnection
  {
  }

  /** No sequence of events pushes the counter past `maxReconnectAttempts`. */
  lemma {:induction false} ReplayInRange(c: Connection, events: seq<NetEvent>)
    requires InRange(c)
    ensures InRange(Replay(c, events))
    decreases |events|
  {
    if events != [] {
      StepInRange(c, events[0]);
      ReplayInRange(Step(c, events[0]), events[1..]);
    }
  }

  /** `k` offline events in a row, from a connected state, leave `min(k, 3)` attempts. */
  lemma {:induction false} OfflineRun(k: nat)
    ensures Replay(InitialConnection, seq(k, _ => Offline)) == Connection(k == 0, if k < 3 then k else 3)
  {
    OfflineRunFrom(InitialConnection, k);
  }

  lemma {:induction false} OfflineRunFrom(c: Connection, k: nat)
    requires InRange(c)
    ensures Replay(c, seq(k, _ => Offline)).reconnectAttempts ==
              if c.reconnectAttempts + k < 3 then c.reconnectAttempts + k else 3
    ensures Replay(c, seq(k, _ => Offline)).isConnected == (k == 0 && c.isConnected)
    decreases k
  {
    if k > 0 {
      var events: seq<NetEvent> := seq(k, _ => Offline);
      assert events[0] == Offline;
      assert events[1..] == seq(k - 1, _ => Offline);
      OfflineRunFrom(Step(c, Offline), k - 1);
      if k == 1 {
        assert Replay(Step(c, Offline), []) == Step(c, Offline);
      }
    }
  }

  /** After three offline events the alert says the connection is lost; after one or two it is reconnecting. */
  lemma AlertAfterOfflines(k: nat)
    ensures var c := Replay(InitialConnection, seq(k, _ => Offline));
            var a := Render(c.isConnected, c.reconnectAttempts, MaxReconnectAttempts);
            (k == 0 ==> a == Hidden)
            && (k >= 3 ==> a.Shown? && a.variant == Destructive && a.title == LostTitle)
            && (0 < k < 3 ==> a.Shown? && a.variant == Warning && a.detail == AttemptText(k, 3))
  {
    OfflineRun(k);
  }

  /** The connection state the navigation bar keeps and hands to `ConnectionStatus`. */
  class ConnectionMonitor {
    var isConnected: bool
    var reconnectAttempts: int

    constructor ()
      ensures State() == InitialConnection && Valid()
    {
      isConnected := true;
      reconnectAttempts := 0;
    }

    function State(): Connection
      reads this
    {
      Connection(isConnected, reconnectAttempts)
    }

    /** The counter stays within `0..maxReconnectAttempts`. */
    predicate Valid()
      reads this
    {
      InRange(State())
    }

    /** The alert shown for the current state. */
    function Status(): Alert
      reads this
    {
      Render(isConnected, reconnectAttempts, MaxReconnectAttempts)
    }

    /** `handleOnline`: connected again, attempts reset. */
    method HandleOnline()
      requires Valid()
      modifies this
      ensures Valid() && State() == Step(old(State()), Online)
      ensures isConnected && reconnectAttempts == 0 && Status() == Hidden
    {
      isConnected := true;
      reconnectAttempts := 0;
    }

    /** `handleOffline`: disconnected; one more attempt is counted while fewer than three were. */
    method HandleOffline()
      requires Valid()
      modifies this
      ensures Valid() && State() == Step(old(State()), Offline)
      ensures !isConnected
      ensures old(reconnectAttempts) < MaxReconnectAttempts ==> reconnectAttempts == old(reconnectAttempts) + 1
      ensures old(reconnectAttempts) >= MaxReconnectAttempts ==> reconnectAttempts == old(reconnectAttempts)
      ensures Status().Shown?
    {
      isConnected := false;
      if reconnectAttempts < MaxReconnectAttempts {
        reconnectAttempts := reconnectAttempts + 1;
      }
    }
  }

  // ---------------------------------------------------------------- links and paths

  /** One navigation link: its target and its text (the icon is not modelled). */
  datatype NavItem = NavItem(to: string, text: string)

  const HomeItem := NavItem("/", "Home")
  const EventsItem := NavItem("/event", "Events")
  const ContactItem := NavItem("/contact", "Contact")
  const AboutItem := NavItem("/about", "About")

  /** A stored value as JavaScript tests it: present and non-empty. */
  predicate Truthy(v: Option<string>)
  {
    v.Some? && v.value != ""
  }

  /**
    * `getNavigationItems`: visitors see Home, Events, Contact and About; a signed-in
    * `User` sees Home and Contact; every other signed-in role sees no links.
    */
  method GetNavigationItems(token: Option<string>, role: Option<string>) returns (items: seq<NavItem>)
    ensures !Truthy(token) ==> items == [HomeItem, EventsItem, ContactItem, AboutItem]
    ensures Truthy(token) && role == Some("User") ==> items == [HomeItem, ContactItem]
    ensures Truthy(token) && role != Some("User") ==> items == []
  {
    var isAuthenticated := Truthy(token);
    if !isAuthenticated || (isAuthenticated && role == Some("User")) {
      items := [HomeItem];
      if !isAuthenticated {
        items := items + [EventsItem, ContactItem, AboutItem];
      } else {
        items := items + [ContactItem];
      }
      return;
    }
    items := [];
  }

  /** `dashboardPaths`. */
  const DashboardPaths := ["/admindb", "/orgdb", "/userdb"]

  /** `isDashboardPage`: the path starts with one of the dashboard prefixes. */
  function IsDashboardPage(path: string): (b: bool)
    ensures b <==> StartsWith(path, "/admindb") || StartsWith(path, "/orgdb") || StartsWith(path, "/userdb")
  {
    assert DashboardPaths[0] == "/admindb" && DashboardPaths[1] == "/orgdb" && DashboardPaths[2] == "/userdb";
    exists i :: 0 <= i < |DashboardPaths| && StartsWith(path, DashboardPaths[i])
  }

  /** Any path under a dashboard prefix is a dashboard page; the landing pages are not. */
  lemma DashboardPaths_Examples(rest: string)
    ensures IsDashboardPage("/orgdb" + rest)
    ensures !IsDashboardPage("/") && !IsDashboardPage("/event") && !IsDashboardPage("/loginsignup")
  {
    assert ("/orgdb" + rest)[..6] == "/orgdb";
    assert "/event"[1] == 'e';
    assert "/loginsignup"[1] == 'l';
  }

  // ---------------------------------------------------------------- avatar initials

  /** `.map(name => name[0]).join('')`: an empty piece contributes nothing. */
  function FirstChars(pieces: seq<string>): (r: string)
    ensures |r| <= |pieces|
  {
    if pieces == [] then ""
    else (if pieces[0] == "" then "" else [pieces[0][0]]) + FirstChars(pieces[1..])
  }

  /** `user?.fullname?.split(' ').map(name => name[0]).join('') || 'U'`. */
  function Initials(fullname: Option<string>): string
  {
    var s := if fullname.None? then "" else FirstChars(Split(fullname.value, ' '));
    if s == "" then "U" else s
  }

  /** A name made of words separated by single spaces shows the first letter of each word, in order. */
  lemma InitialsOfWords(words: seq<string>)
    requires |words| >= 1
    requires forall i :: 0 <= i < |words| ==> words[i] != "" && ' ' !in words[i]
    ensures Initials(Some(Join(words, ' '))) == seq(|words|, i requires 0 <= i < |words| => words[i][0])
  {
    SplitJoin(words, ' ');
    FirstCharsOfWords(words);
  }

  lemma {:induction false} FirstCharsOfWords(words: seq<string>)
    requires forall i :: 0 <= i < |words| ==> words[i] != ""
    ensures FirstChars(words) == seq(|words|, i requires 0 <= i < |words| => words[i][0])
    decreases |words|
  {
    if words != [] {
      FirstCharsOfWords(words[1..]);
    }
  }

  /** Without a name, or with a blank one, the avatar shows "U". */
  lemma InitialsFallback()
    ensures Initials(None) == "U"
    ensures Initials(Some("")) == "U"
    ensures Initials(Some("  ")) == "U"
  {
    assert Split(" ", ' ') == ["", ""];
    assert Split("  ", ' ') == ["", "", ""];
  }

  // ---------------------------------------------------------------- logging out

  /** `handleLogout` on `localStorage`: the token and the role go, every other entry stays. */
  function AfterLogout(storage: map<string, string>): (r: map<string, string>)
    ensures "token" !in r && "role" !in r
    ensures forall k :: k != "token" && k != "role" ==> (k in r <==> k in storage) && (k in r ==> r[k] == storage[k])
  {
    storage - {"token", "role"}
  }

  /** `localStorage.getItem(key)`. */
  function GetItem(storage: map<string, string>, key: string): Option<string>
  {
    if key in storage then Some(storage[key]) else None
  }

  /** After logging out, the links read from storage fall back to the visitor's set. */
  method LinksAfterLogout(storage: map<string, string>) returns (items: seq<NavItem>)
    ensures items == [HomeItem, EventsItem, ContactItem, AboutItem]
  {
    var after := AfterLogout(storage);
    items := GetNavigationItems(GetItem(after, "token"), GetItem(after, "role"));
  }
}
