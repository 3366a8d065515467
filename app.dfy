/** The top-level session: which screen is shown, the validators in front of every form, and
    what each handler changes. Socket messages go to `outbox`; the authentication and profile
    calls, which are foreign and asynchronous, go to `calls`, and each one's completion is a
    method of its own that receives the outcome. */
module App {
  import opened Wrappers
  import opened Intents
  import JsString
  import Game

  datatype View = Loading | Login | LobbyMenu | Lobby

  /** What the private `drawer_data` channel carries; "" / [] stand for absent fields. */
  datatype DrawerData = DrawerData(word: string, options: seq<WordChoice>)

  /** The signed-in account; an absent uid is "". */
  datatype User = User(uid: string, email: string, drawerData: Option<DrawerData>)

  /** A failed authentication call: its error code and message. */
  datatype AuthError = AuthError(code: string, message: string)

  /** The stored profile document. */
  datatype Profile = Profile(username: string, avatarSeed: Option<int>)

  /** The authentication and profile requests the session issues. */
  datatype Call =
    | CreateAccount(email: string, password: string)
    | SignIn(email: string, password: string)
    | GooglePopup
    | SignOut
    | LoadProfile(uid: string)
    | SaveProfile(uid: string, username: string, avatarSeed: int)

  // ---------------------------------------------------------------------------------------
  // Messages
  // ---------------------------------------------------------------------------------------

  const FILL_ALL_FIELDS := "Preencha todos os campos."
  const PASSWORDS_DIFFER := "As senhas n\U{E3}o conferem."
  const PASSWORD_TOO_SHORT := "A senha deve ter no m\U{ED}nimo 6 caracteres."
  const NAME_TOO_SHORT := "O nome deve ter no m\U{ED}nimo 3 caracteres."
  const FILL_EMAIL_AND_PASSWORD := "Preencha email e senha."
  const CHOOSE_NICKNAME := "Escolha um apelido."
  const ENTER_ROOM_CODE := "Insira o c\U{F3}digo da sala."
  const AUTH_FAILED := "Erro de autentica\U{E7}\U{E3}o."
  const TOO_FEW_PLAYERS := "M\U{ED}nimo de 2 jogadores."
  const FIREBASE_MISCONFIGURED := "Erro na configura\U{E7}\U{E3}o do Firebase."
  const MIN_PASSWORD_LENGTH := 6
  const MIN_USERNAME_LENGTH := 3
  const MIN_PLAYERS := 2

  // ---------------------------------------------------------------------------------------
  // Validators (the early returns of the form handlers)
  // ---------------------------------------------------------------------------------------

  /** `handleRegister`'s checks, first failure wins; None lets the account be created. The
      lengths are JavaScript `length`s, and the username is measured before trimming. */
  function RegisterCheck(email: string, password: string, password2: string, username: string)
    : (r: Option<string>)
    ensures r == Some(FILL_ALL_FIELDS) <==> email == "" || password == "" || password2 == "" || username == ""
    ensures r == Some(PASSWORDS_DIFFER) <==>
      email != "" && password != "" && password2 != "" && username != "" && password != password2
    ensures r == Some(PASSWORD_TOO_SHORT) <==>
      email != "" && password2 != "" && username != "" && password != "" && password == password2 &&
      JsString.Utf16Length(password) < MIN_PASSWORD_LENGTH
    ensures r == Some(NAME_TOO_SHORT) <==>
      email != "" && password2 != "" && username != "" && password == password2 &&
      JsString.Utf16Length(password) >= MIN_PASSWORD_LENGTH && JsString.Utf16Length(username) < MIN_USERNAME_LENGTH
    ensures r.None? <==>
      email != "" && password != "" && password2 != "" && username != "" && password == password2 &&
      JsString.Utf16Length(password) >= MIN_PASSWORD_LENGTH && JsString.Utf16Length(username) >= MIN_USERNAME_LENGTH
  {
    if email == "" || password == "" || password2 == "" || username == "" then Some(FILL_ALL_FIELDS)
    else if password != password2 then Some(PASSWORDS_DIFFER)
    else if JsString.Utf16Length(password) < MIN_PASSWORD_LENGTH then Some(PASSWORD_TOO_SHORT)
    else if JsString.Utf16Length(username) < MIN_USERNAME_LENGTH then Some(NAME_TOO_SHORT)
    else None
  }

  /** Three spaces pass the username check, and the name then stored is empty. */
  lemma BlankUsernameAccepted(email: string, password: string)
    requires email != "" && |password| >= MIN_PASSWORD_LENGTH
    ensures RegisterCheck(email, password, password, "   ") == None
    ensures JsString.Trim("   ") == ""
  {
    JsString.TrimAllSpace("   ");
  }

  function LoginCheck(email: string, password: string): (r: Option<string>)
    ensures r.None? <==> email != "" && password != ""
    ensures r.Some? ==> r.value == FILL_EMAIL_AND_PASSWORD
  {
    if email == "" || password == "" then Some(FILL_EMAIL_AND_PASSWORD) else None
  }

  /** `user.uid` when someone is signed in with a non-empty uid. */
  function SignedInUid(user: Option<User>): (r: Option<string>)
    ensures r.Some? <==> user.Some? && user.value.uid != ""
    ensures r.Some? ==> r.value == user.value.uid
  {
    if user.Some? && user.value.uid != "" then Some(user.value.uid) else None
  }

  /** `createRoom`: a nickname that is not blank, then a signed-in user. */
  function CreateRoomRequest(nickname: string, user: Option<User>, avatar: int, isVip: bool)
    : (r: Result<Intent, string>)
    ensures r == Failure(CHOOSE_NICKNAME) <==> JsString.Trim(nickname) == ""
    ensures r == Failure(AUTH_FAILED) <==> JsString.Trim(nickname) != "" && SignedInUid(user).None?
    ensures r.Success? <==> JsString.Trim(nickname) != "" && SignedInUid(user).Some?
    ensures r.Success? ==> r.value == Intent.CreateRoom(user.value.uid, JsString.Trim(nickname), avatar, isVip)
  {
    if nickname == "" || JsString.Trim(nickname) == "" then Failure(CHOOSE_NICKNAME)
    else if SignedInUid(user).None? then Failure(AUTH_FAILED)
    else Success(Intent.CreateRoom(user.value.uid, JsString.Trim(nickname), avatar, isVip))
  }

  /** `joinRoom`: nickname, then room code, then user; the code is sent in upper case and is
      not trimmed. */
  function JoinRoomRequest(nickname: string, roomCode: string, user: Option<User>, avatar: int, isVip: bool)
    : (r: Result<Intent, string>)
    ensures r == Failure(CHOOSE_NICKNAME) <==> JsString.Trim(nickname) == ""
    ensures r == Failure(ENTER_ROOM_CODE) <==> JsString.Trim(nickname) != "" && roomCode == ""
    ensures r == Failure(AUTH_FAILED) <==>
      JsString.Trim(nickname) != "" && roomCode != "" && SignedInUid(user).None?
    ensures r.Success? <==> JsString.Trim(nickname) != "" && roomCode != "" && SignedInUid(user).Some?
    ensures r.Success? ==>
      r.value == Intent.JoinRoom(JsString.ToUpper(roomCode), user.value.uid, JsString.Trim(nickname), avatar, isVip)
  {
    if nickname == "" || JsString.Trim(nickname) == "" then Failure(CHOOSE_NICKNAME)
    else if roomCode == "" then Failure(ENTER_ROOM_CODE)
    else if SignedInUid(user).None? then Failure(AUTH_FAILED)
    else Success(Intent.JoinRoom(JsString.ToUpper(roomCode), user.value.uid, JsString.Trim(nickname), avatar, isVip))
  }

  /** `startGame`: at least two players in the room. */
  function StartGameRequest(playerCount: nat, roomCode: string, maxScore: int): (r: Result<Intent, string>)
    ensures r.Success? <==> playerCount >= MIN_PLAYERS
    ensures r.Success? ==> r.value == Intent.StartGame(roomCode, maxScore)
    ensures r.Failure? ==> r.error == TOO_FEW_PLAYERS
  {
    if playerCount < MIN_PLAYERS then Failure(TOO_FEW_PLAYERS) else Success(Intent.StartGame(roomCode, maxScore))
  }

  /** The message shown when account creation (or saving its profile) fails. */
  function RegisterFailureMessage(e: AuthError): (m: string)
    ensures e.code == "auth/email-already-in-use" ==> m == "Este email j\U{E1} est\U{E1} registrado."
    ensures e.code != "auth/email-already-in-use" ==> m == "Erro ao registrar: " + e.message
  {
    if e.code == "auth/email-already-in-use" then "Este email j\U{E1} est\U{E1} registrado."
    else "Erro ao registrar: " + e.message
  }

  function LoginFailureMessage(e: AuthError): (m: string)
    ensures e.code == "auth/user-not-found" ==> m == "Email n\U{E3}o registrado."
    ensures e.code == "auth/wrong-password" ==> m == "Senha incorreta."
    ensures e.code != "auth/user-not-found" && e.code != "auth/wrong-password" ==>
      m == "Erro ao fazer login: " + e.message
  {
    if e.code == "auth/user-not-found" then "Email n\U{E3}o registrado."
    else if e.code == "auth/wrong-password" then "Senha incorreta."
    else "Erro ao fazer login: " + e.message
  }

  /** A Google sign-in the user cancels by closing the popup shows no error. */
  function GoogleFailureMessage(e: AuthError): (m: Option<string>)
    ensures m.None? <==> e.code == "auth/popup-closed-by-user"
    ensures m.Some? ==> m.value == "Erro ao fazer login com Google: " + e.message
  {
    if e.code == "auth/popup-closed-by-user" then None else Some("Erro ao fazer login com Google: " + e.message)
  }

  // ---------------------------------------------------------------------------------------
  // Render dispatch
  // ---------------------------------------------------------------------------------------

  datatype Screen = LoadingScreen | AuthScreen | LobbyMenuScreen | Connecting | LobbyScreen | GameScreen

  /** The first matching case of the render chain wins. */
  function ScreenFor(loading: bool, view: View, gameState: Option<Game.Snapshot>): (s: Screen)
    ensures s == LoadingScreen <==> loading || view == Loading
    ensures s == AuthScreen <==> !loading && view == Login
    ensures s == LobbyMenuScreen <==> !loading && view == LobbyMenu
    ensures s == Connecting <==> !loading && view == Lobby && gameState.None?
    ensures s == LobbyScreen <==> !loading && view == Lobby && gameState.Some? && gameState.value.status == "LOBBY"
    ensures s == GameScreen <==> !loading && view == Lobby && gameState.Some? && gameState.value.status != "LOBBY"
  {
    if loading then LoadingScreen
    else match view
      case Loading => LoadingScreen
      case Login => AuthScreen
      case LobbyMenu => LobbyMenuScreen
      case Lobby =>
        if gameState.None? then Connecting
        else if gameState.value.status == "LOBBY" then LobbyScreen
        else GameScreen
  }

  /** The game screen is only reached through the lobby view with a snapshot in hand. */
  lemma GameScreenNeedsSnapshot(loading: bool, view: View, gameState: Option<Game.Snapshot>)
    requires ScreenFor(loading, view, gameState) == GameScreen
    ensures !loading && view == Lobby && gameState.Some?
  {
  }

  // ---------------------------------------------------------------------------------------
  // The session
  // ---------------------------------------------------------------------------------------

  /** All the session's fields at once, so that a handler's contract can say which of them it
      changes with a datatype update. */
  datatype Fields = Fields(
    user: Option<User>, loading: bool, view: View, nickname: string, roomCode: string,
    gameState: Option<Game.Snapshot>, players: seq<Game.Player>, error: string,
    authLoading: bool, avatarSeed: int, isVip: bool, outbox: seq<Intent>, calls: seq<Call>)

  class Session {
    var user: Option<User>
    var loading: bool
    var view: View
    var nickname: string
    var roomCode: string
    var gameState: Option<Game.Snapshot>
    var players: seq<Game.Player>
    var error: string
    var authLoading: bool
    var avatarSeed: int
    var isVip: bool
    /** Socket messages, oldest first. */
    var outbox: seq<Intent>
    /** Authentication and profile requests, oldest first. */
    var calls: seq<Call>

    function State(): Fields
      reads this
    {
      Fields(user, loading, view, nickname, roomCode, gameState, players, error, authLoading,
             avatarSeed, isVip, outbox, calls)
    }

    function Screen(): Screen
      reads this
    {
      ScreenFor(loading, view, gameState)
    }

    /** The initial state; `initialSeed` is the random avatar seed. */
    constructor(initialSeed: int)
      ensures State() == Fields(None, true, Loading, "", "", None, [], "", false, initialSeed, false, [], [])
      ensures Screen() == LoadingScreen
    {
      user := None;
      loading := true;
      view := Loading;
      nickname := "";
      roomCode := "";
      gameState := None;
      players := [];
      error := "";
      authLoading := false;
      avatarSeed := initialSeed;
      isVip := false;
      outbox := [];
      calls := [];
    }

    /** A `roomCode` query parameter, when present and not empty, fills in the code in upper
        case. */
    method OnUrlRoomCode(param: Option<string>)
      modifies this
      ensures param.Some? && param.value != "" ==> State() == old(State()).(roomCode := JsString.ToUpper(param.value))
      ensures !(param.Some? && param.value != "") ==> State() == old(State())
    {
      if param.Some? && param.value != "" {
        roomCode := JsString.ToUpper(param.value);
      }
    }

    /** The authentication listener: signed in leads to the lobby menu (and loads the
        profile), signed out to the login form; loading ends either way. */
    method OnAuthChanged(u: Option<User>)
      modifies this
      ensures u.Some? ==> State() == old(State()).(user := u, view := LobbyMenu, loading := false,
                                                   calls := old(calls) + [LoadProfile(u.value.uid)])
      ensures u.None? ==> State() == old(State()).(view := Login, loading := false)
      ensures Screen() == if u.Some? then LobbyMenuScreen else AuthScreen
    {
      if u.Some? {
        user := u;
        calls := calls + [LoadProfile(u.value.uid)];
        view := LobbyMenu;
      } else {
        view := Login;
      }
      loading := false;
    }

    method OnAuthError()
      modifies this
      ensures State() == old(State()).(error := FIREBASE_MISCONFIGURED, view := Login, loading := false)
      ensures Screen() == AuthScreen
    {
      error := FIREBASE_MISCONFIGURED;
      view := Login;
      loading := false;
    }

    /** A profile read completes: a stored document sets the nickname, and the avatar seed
        when the document has one. A missing document or a failed read changes nothing. */
    method OnProfileLoaded(doc: Option<Profile>)
      modifies this
      ensures doc.None? ==> State() == old(State())
      ensures doc.Some? && doc.value.avatarSeed.Some? ==>
        State() == old(State()).(nickname := doc.value.username, avatarSeed := doc.value.avatarSeed.value)
      ensures doc.Some? && doc.value.avatarSeed.None? ==> State() == old(State()).(nickname := doc.value.username)
    {
      if doc.Some? {
        nickname := doc.value.username;
        if doc.value.avatarSeed.Some? {
          avatarSeed := doc.value.avatarSeed.value;
        }
      }
    }

    method OnRoomCreated(code: string)
      modifies this
      ensures State() == old(State()).(roomCode := code, view := Lobby, error := "")
    {
      roomCode := code;
      view := Lobby;
      error := "";
    }

    /** `joined_room` ignores the code it carries: the typed one stays in use. */
    method OnJoinedRoom(code: string)
      modifies this
      ensures State() == old(State()).(view := Lobby, error := "")
    {
      view := Lobby;
      error := "";
    }

    /** A snapshot replaces the game state; its player list, when it has one, replaces the
        lobby's. */
    method OnGameState(s: Game.Snapshot)
      modifies this
      ensures s.players.Some? ==> State() == old(State()).(gameState := Some(s), players := s.players.value)
      ensures s.players.None? ==> State() == old(State()).(gameState := Some(s))
    {
      gameState := Some(s);
      if s.players.Some? {
        players := s.players.value;
      }
    }

    /** `drawer_data` is merged into the user object; with nobody signed in the object holds
        nothing else. */
    method OnDrawerData(d: DrawerData)
      modifies this
      ensures user.Some? && user.value.drawerData == Some(d)
      ensures old(user).Some? ==> user == Some(old(user).value.(drawerData := Some(d)))
      ensures old(user).None? ==> user == Some(User("", "", Some(d)))
      ensures State() == old(State()).(user := user)
    {
      if user.Some? {
        user := Some(user.value.(drawerData := Some(d)));
      } else {
        user := Some(User("", "", Some(d)));
      }
    }

    method OnServerError(message: string)
      modifies this
      ensures State() == old(State()).(error := message)
    {
      error := message;
    }

    // --- Registration ---

    /** A form that fails a check only shows the error; one that passes asks for the account. */
    method HandleRegister(email: string, password: string, password2: string, username: string)
      modifies this
      ensures RegisterCheck(email, password, password2, username).Some? ==>
        State() == old(State()).(error := RegisterCheck(email, password, password2, username).value)
      ensures RegisterCheck(email, password, password2, username).None? ==>
        State() == old(State()).(authLoading := true, calls := old(calls) + [CreateAccount(email, password)])
    {
      var check := RegisterCheck(email, password, password2, username);
      if check.Some? {
        error := check.value;
        return;
      }
      authLoading := true;
      calls := calls + [CreateAccount(email, password)];
    }

    /** The account request completes. `outcome` is the new user, or the error of whichever
        of the two awaited calls (account creation, profile save) failed first. */
    method FinishRegister(username: string, outcome: Result<User, AuthError>)
      modifies this
      ensures outcome.Success? ==> State() == old(State()).(
        calls := old(calls) + [SaveProfile(outcome.value.uid, JsString.Trim(username), old(avatarSeed))],
        user := Some(outcome.value), nickname := JsString.Trim(username), view := LobbyMenu, error := "",
        authLoading := false)
      ensures outcome.Failure? ==> State() == old(State()).(
        error := RegisterFailureMessage(outcome.error), authLoading := false)
    {
      if outcome.Success? {
        var name := JsString.Trim(username);
        calls := calls + [SaveProfile(outcome.value.uid, name, avatarSeed)];
        user := Some(outcome.value);
        nickname := name;
        view := LobbyMenu;
        error := "";
      } else {
        error := RegisterFailureMessage(outcome.error);
      }
      authLoading := false;
    }

    // --- Login ---

    method HandleLogin(email: string, password: string)
      modifies this
      ensures LoginCheck(email, password).Some? ==> State() == old(State()).(error := FILL_EMAIL_AND_PASSWORD)
      ensures LoginCheck(email, password).None? ==>
        State() == old(State()).(authLoading := true, calls := old(calls) + [SignIn(email, password)])
    {
      var check := LoginCheck(email, password);
      if check.Some? {
        error := check.value;
        return;
      }
      authLoading := true;
      calls := calls + [SignIn(email, password)];
    }

    method FinishLogin(outcome: Result<User, AuthError>)
      modifies this
      ensures outcome.Success? ==> State() == old(State()).(
        user := Some(outcome.value), calls := old(calls) + [LoadProfile(outcome.value.uid)],
        view := LobbyMenu, error := "", authLoading := false)
      ensures outcome.Failure? ==> State() == old(State()).(
        error := LoginFailureMessage(outcome.error), authLoading := false)
    {
      if outcome.Success? {
        user := Some(outcome.value);
        calls := calls + [LoadProfile(outcome.value.uid)];
        view := LobbyMenu;
        error := "";
      } else {
        error := LoginFailureMessage(outcome.error);
      }
      authLoading := false;
    }

    method HandleGoogleLogin()
      modifies this
      ensures State() == old(State()).(authLoading := true, calls := old(calls) + [GooglePopup])
    {
      authLoading := true;
      calls := calls + [GooglePopup];
    }

    method FinishGoogleLogin(outcome: Result<User, AuthError>)
      modifies this
      ensures outcome.Success? ==> State() == old(State()).(
        user := Some(outcome.value), calls := old(calls) + [LoadProfile(outcome.value.uid)],
        view := LobbyMenu, error := "", authLoading := false)
      ensures outcome.Failure? && GoogleFailureMessage(outcome.error).Some? ==>
        State() == old(State()).(error := GoogleFailureMessage(outcome.error).value, authLoading := false)
      ensures outcome.Failure? && GoogleFailureMessage(outcome.error).None? ==>
        State() == old(State()).(authLoading := false)
    {
      if outcome.Success? {
        user := Some(outcome.value);
        calls := calls + [LoadProfile(outcome.value.uid)];
        view := LobbyMenu;
        error := "";
      } else {
        var m := GoogleFailureMessage(outcome.error);
        if m.Some? {
          error := m.value;
        }
      }
      authLoading := false;
    }

    // --- Logout ---

    method HandleLogout()
      modifies this
      ensures State() == old(State()).(calls := old(calls) + [SignOut])
    {
      calls := calls + [SignOut];
    }

    /** Sign-out completes: on success the session forgets the user, the nickname and the
        room; on failure only the error changes. */
    method FinishLogout(failure: Option<AuthError>)
      modifies this
      ensures failure.None? ==> State() == old(State()).(
        user := None, view := Login, nickname := "", roomCode := "", gameState := None, players := [], error := "")
      ensures failure.Some? ==> State() == old(State()).(error := "Erro ao desconectar: " + failure.value.message)
      ensures failure.None? && !loading ==> Screen() == AuthScreen
    {
      if failure.None? {
        user := None;
        view := Login;
        nickname := "";
        roomCode := "";
        gameState := None;
        players := [];
        error := "";
      } else {
        error := "Erro ao desconectar: " + failure.value.message;
      }
    }

    // --- Rooms ---

    method CreateRoom()
      modifies this
      ensures var r := CreateRoomRequest(old(nickname), old(user), old(avatarSeed), old(isVip));
        if r.Success? then State() == old(State()).(outbox := old(outbox) + [r.value])
        else State() == old(State()).(error := r.error)
    {
      var r := CreateRoomRequest(nickname, user, avatarSeed, isVip);
      if r.Failure? {
        error := r.error;
        return;
      }
      outbox := outbox + [r.value];
    }

    method JoinRoom()
      modifies this
      ensures var r := JoinRoomRequest(old(nickname), old(roomCode), old(user), old(avatarSeed), old(isVip));
        if r.Success? then State() == old(State()).(outbox := old(outbox) + [r.value])
        else State() == old(State()).(error := r.error)
    {
      var r := JoinRoomRequest(nickname, roomCode, user, avatarSeed, isVip);
      if r.Failure? {
        error := r.error;
        return;
      }
      outbox := outbox + [r.value];
    }

    method StartGame(maxScore: int)
      modifies this
      ensures var r := StartGameRequest(|old(players)|, old(roomCode), maxScore);
        if r.Success? then State() == old(State()).(outbox := old(outbox) + [r.value])
        else State() == old(State()).(error := r.error)
    {
      var r := StartGameRequest(|players|, roomCode, maxScore);
      if r.Failure? {
        error := r.error;
        return;
      }
      outbox := outbox + [r.value];
    }

    /** Leaving needs a signed-in user and a room; it tells the server and returns to the
        lobby menu with the room forgotten. */
    method LeaveGame()
      modifies this
      ensures SignedInUid(old(user)).None? || old(roomCode) == "" ==> State() == old(State())
      ensures SignedInUid(old(user)).Some? && old(roomCode) != "" ==> State() == old(State()).(
        outbox := old(outbox) + [Intent.LeaveRoom(old(roomCode), old(user).value.uid)],
        view := LobbyMenu, roomCode := "", gameState := None, players := [], error := "")
      ensures SignedInUid(old(user)).Some? && old(roomCode) != "" && !loading ==> Screen() == LobbyMenuScreen
    {
      if SignedInUid(user).None? || roomCode == "" {
        return;
      }
      outbox := outbox + [Intent.LeaveRoom(roomCode, user.value.uid)];
      view := LobbyMenu;
      roomCode := "";
      gameState := None;
      players := [];
      error := "";
    }
  }

  /** After leaving, coming back needs a fresh snapshot: re-entering the lobby view shows the
      connecting screen until the server sends one. */
  lemma RejoinWaitsForSnapshot(f: Fields)
    requires f.gameState.None? && !f.loading
    ensures ScreenFor(f.loading, Lobby, f.gameState) == Connecting
  {
  }
}
