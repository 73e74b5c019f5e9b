/** The application shell (frontend/src/App.js): restores a session from the stored token,
    keeps the signed-in user, and chooses between the form and the upload screen. The
    methods at the end wire the shell's `handleLogin` and `handleLogout` into the two
    components, as its markup does with `onLogin` and `onLogout`. */
module AppComponent {
  import opened Common
  import opened Browser
  import AuthComponent
  import CleanerComponent

  /** The profile shown for a session restored from storage before any request is made. */
  const PlaceholderProfile: Profile := Profile("Пользователь", "user@example.com")

  datatype Screen = LoadingScreen | AuthScreen | CleanerScreen

  class App {
    var user: Option<UserData>
    var loading: bool
    const storage: TokenSlot

    constructor (storage: TokenSlot)
      ensures this.storage == storage
      ensures user == None && loading
    {
      this.storage := storage;
      user := None;
      loading := true;
    }

    /** The mount effect: a stored (non-empty) token restores a session with the
        placeholder profile; loading ends either way. */
    method Mount()
      modifies this
      ensures !loading
      ensures HasToken(storage.token) ==> user == Some(UserData(storage.token.value, PlaceholderProfile))
      ensures !HasToken(storage.token) ==> user == old(user)
    {
      var token := storage.token;
      if HasToken(token) {
        user := Some(UserData(token.value, PlaceholderProfile));
      }
      loading := false;
    }

    /** `handleLogin`: the session becomes exactly what the form handed over. */
    method HandleLogin(userData: UserData)
      modifies this
      ensures user == Some(userData) && loading == old(loading)
    {
      user := Some(userData);
    }

    /** `handleLogout`: the stored token and the session are both gone, whatever the
        state before; so a second call changes nothing. */
    method HandleLogout()
      modifies this, storage
      ensures user == None && storage.token == None && loading == old(loading)
    {
      storage.token := None;
      user := None;
    }

    /** What the shell renders: a spinner while loading, then the form exactly when no
        one is signed in. */
    function Screen(): (s: Screen)
      reads this
      ensures s == LoadingScreen <==> loading
      ensures s == AuthScreen <==> !loading && user.None?
      ensures s == CleanerScreen <==> !loading && user.Some?
    {
      if loading then LoadingScreen
      else if user.None? then AuthScreen
      else CleanerScreen
    }
  }

  /** A fresh start: the shell shows the upload screen exactly when storage holds a token. */
  method Start(storage: TokenSlot) returns (app: App)
    ensures app.storage == storage
    ensures app.Screen() == (if HasToken(storage.token) then CleanerScreen else AuthScreen)
    ensures HasToken(storage.token) ==> app.user == Some(UserData(storage.token.value, PlaceholderProfile))
    ensures !HasToken(storage.token) ==> app.user == None
  {
    app := new App(storage);
    app.Mount();
  }

  /** Logging out twice leaves the same state as logging out once. */
  method LogoutTwice(app: App)
    modifies app, app.storage
    ensures app.user == None && app.storage.token == None && app.loading == old(app.loading)
  {
    app.HandleLogout();
    ghost var once := (app.user, app.storage.token, app.loading);
    app.HandleLogout();
    assert (app.user, app.storage.token, app.loading) == once;
  }

  /** The sign-in form submitted inside the shell (`onLogin={handleLogin}`): the shell
      switches to the upload screen only when both requests succeed; a token obtained
      before a failed profile fetch stays stored but opens no session. */
  method SignIn(app: App, form: AuthComponent.Auth,
                credential: Outcome<string>, profile: Outcome<Profile>)
    requires form.Valid() && form.storage == app.storage && !app.loading
    modifies app, form, app.storage
    ensures form.Valid()
    ensures credential.Success? ==> app.storage.token == Some(credential.data)
    ensures credential.Success? && profile.Success? ==>
      app.user == Some(UserData(credential.data, profile.data)) && app.Screen() == CleanerScreen
    ensures !(credential.Success? && profile.Success?) ==> app.user == old(app.user)
  {
    var onLogin := form.HandleLoginSubmit(credential, profile);
    if onLogin.Some? {
      app.HandleLogin(onLogin.value);
    }
  }

  /** The sign-up form submitted inside the shell: a failed local check leaves the shell and
      storage untouched; otherwise it behaves like sign-in. */
  method SignUp(app: App, form: AuthComponent.Auth,
                credential: Outcome<string>, profile: Outcome<Profile>)
    requires form.Valid() && form.storage == app.storage && !app.loading
    modifies app, form, app.storage
    ensures form.Valid()
    ensures AuthComponent.RegisterProblem(form.registerData).Some? ==>
      app.user == old(app.user) && app.storage.token == old(app.storage.token)
    ensures AuthComponent.RegisterProblem(form.registerData).None? && credential.Success? ==>
      app.storage.token == Some(credential.data)
    ensures AuthComponent.RegisterProblem(form.registerData).None?
            && credential.Success? && profile.Success? ==>
      app.user == Some(UserData(credential.data, profile.data)) && app.Screen() == CleanerScreen
    ensures !(credential.Success? && profile.Success?) ==> app.user == old(app.user)
  {
    var onLogin := form.HandleRegisterSubmit(credential, profile);
    if onLogin.Some? {
      app.HandleLogin(onLogin.value);
    }
  }

  /** An upload from the screen the shell shows for its user (`onLogout={handleLogout}`):
      a 401 ends the session and brings back the form; any other outcome leaves the
      session and the stored token as they were. */
  method Upload(app: App, screen: CleanerComponent.DataCleaner, reply: Outcome<CleanerComponent.UploadReply>)
    requires app.user == Some(screen.user) && !app.loading
    modifies app, app.storage, screen
    ensures old(screen.file).Some? && reply.Failure? && CleanerComponent.IsUnauthorized(reply.error) ==>
      && app.user == None && app.storage.token == None
      && app.Screen() == AuthScreen
      && screen.message == CleanerComponent.SessionExpiredMsg
    ensures !(old(screen.file).Some? && reply.Failure? && CleanerComponent.IsUnauthorized(reply.error)) ==>
      app.user == old(app.user) && app.storage.token == old(app.storage.token)
  {
    var onLogout := screen.HandleUpload(reply);
    if onLogout {
      app.HandleLogout();
    }
  }
}
