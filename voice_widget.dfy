/**
  The voice-support widget: it fetches a session token for the fixed identity "admin" on
  mount, shows a cancel screen while `isConnecting`, the media room once a truthy token is
  held, and nothing otherwise.
 */
module VoiceWidget {
  import opened Wrappers

  /** The identity the token is always requested for. */
  const TokenIdentity := "admin"

  /** How the token request ended: a response whose body was read, or a thrown error. */
  datatype TokenOutcome = Response(status: int, body: string) | Thrown

  datatype IcePolicy = Relay | AllCandidates

  /** The options passed to the media room. */
  datatype RoomOptions = RoomOptions(
    connect: bool,
    rtcConfigPolicy: IcePolicy,
    rtcConfigurationPolicy: IcePolicy,
    audio: bool,
    video: bool)

  /** What the widget renders inside its modal. */
  datatype Screen = CancelScreen | Room(token: string, options: RoomOptions) | Blank

  /** Relay is forced under both option names, audio on, video off. */
  const RoomConnectOptions := RoomOptions(true, Relay, Relay, true, false)

  /**
    The choice of screen: the cancel screen exactly while connecting, the room exactly when
    not connecting and the token is a non-empty string, and nothing in every other case.
   */
  function Render(token: Option<string>, isConnecting: bool): (v: Screen)
    ensures v == CancelScreen <==> isConnecting
    ensures v.Room? <==> !isConnecting && token.Some? && token.value != ""
    ensures v.Room? ==> v.token == token.value && v.options.rtcConfigPolicy == Relay
                        && v.options.rtcConfigurationPolicy == Relay
                        && v.options.audio && !v.options.video
    ensures v == Blank <==> !isConnecting && (token.None? || token.value == "")
  {
    if isConnecting then CancelScreen
    else if token.Some? && token.value != "" then Room(token.value, RoomConnectOptions)
    else Blank
  }

  class Widget {
    var token: Option<string>
    var isConnecting: bool
    /** The parent's `showSupport` flag, which the widget can only switch off. */
    var showSupport: bool
    /** The identities of the token requests issued so far. */
    var tokenRequests: seq<string>

    ghost predicate Valid()
      reads this
    {
      forall i :: 0 <= i < |tokenRequests| ==> tokenRequests[i] == TokenIdentity
    }

    function View(): Screen
      reads this
    {
      Render(token, isConnecting)
    }

    /** Mounting: no token yet, connecting, and shown by the parent. */
    constructor ()
      ensures Valid()
      ensures token == None && isConnecting && showSupport && tokenRequests == []
    {
      token := None;
      isConnecting := true;
      showSupport := true;
      tokenRequests := [];
    }

    /**
      The mount effect's `getToken`: one request for "admin". Any response body becomes the
      token, whatever its HTTP status; a thrown error keeps the token and stops connecting.
     */
    method GetToken(outcome: TokenOutcome)
      requires Valid()
      modifies this
      ensures Valid()
      ensures tokenRequests == old(tokenRequests) + [TokenIdentity]
      ensures !isConnecting && showSupport == old(showSupport)
      ensures token == if outcome.Response? then Some(outcome.body) else old(token)
    {
      tokenRequests := tokenRequests + [TokenIdentity];
      match outcome {
        case Response(_, body) =>
          token := Some(body);
          isConnecting := false;
        case Thrown =>
          isConnecting := false;
      }
    }

    /** The cancel button, which exists only on the cancel screen, hides the widget. */
    method Cancel()
      requires Valid() && View() == CancelScreen
      modifies this
      ensures Valid()
      ensures !showSupport
      ensures token == old(token) && isConnecting == old(isConnecting)
      ensures tokenRequests == old(tokenRequests)
    {
      showSupport := false;
    }

    /** The room's disconnect callback: hides the widget and goes back to connecting, keeping the token. */
    method OnDisconnected()
      requires Valid() && View().Room?
      modifies this
      ensures Valid()
      ensures !showSupport && isConnecting
      ensures token == old(token) && tokenRequests == old(tokenRequests)
    {
      showSupport := false;
      isConnecting := true;
    }
  }

  /** A thrown token fetch leaves the widget rendering nothing: no room and no cancel button. */
  method FailedFetchRendersNothing() returns (v: Screen, requests: seq<string>)
    ensures v == Blank
    ensures requests == [TokenIdentity]
  {
    var w := new Widget();
    assert w.View() == CancelScreen;
    w.GetToken(Thrown);
    v := w.View();
    requests := w.tokenRequests;
  }

  /** An error status is not checked: its body is used as the token and the room is rendered. */
  method ErrorStatusBodyBecomesToken(status: int, body: string) returns (v: Screen)
    requires body != ""
    ensures v == Room(body, RoomConnectOptions)
  {
    var w := new Widget();
    w.GetToken(Response(status, body));
    v := w.View();
  }

  /** An empty response body is a falsy token: nothing is rendered. */
  method EmptyBodyRendersNothing(status: int) returns (v: Screen)
    ensures v == Blank
  {
    var w := new Widget();
    w.GetToken(Response(status, ""));
    v := w.View();
  }

  /** After the disconnect handler the widget's own state is connecting again, its token field is
      not cleared and the modal flag is off (the parent then unmounts the widget). */
  method DisconnectKeepsToken(body: string) returns (v: Screen, token: Option<string>, shown: bool)
    requires body != ""
    ensures v == CancelScreen && token == Some(body) && !shown
  {
    var w := new Widget();
    w.GetToken(Response(200, body));
    w.OnDisconnected();
    v, token, shown := w.View(), w.token, w.showSupport;
  }
}
