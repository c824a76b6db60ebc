/** The authentication handler (src/garmer/auth.py): one flag,
    isAuthenticated, set by a successful login or token load and cleared
    by logout and by a 401 answer. The OAuth library and the filesystem
    are outside the model: every call into them is an outcome passed in,
    and the saved token file is a TokenStore whose only state is whether
    the file exists. */
module Auth {
  import opened Json

  /** How a call into the OAuth library ended: with a value, or by raising
      its HTTP error (with the status), its own exception, or any other. */
  datatype Outcome<+T> = Success(value: T) | HttpFailure(status: int) | GarthFailure | OtherFailure

  /** The token file on disk. */
  class TokenStore {
    var present: bool

    constructor(present: bool)
      ensures this.present == present
    {
      this.present := present;
    }
  }

  const DefaultTokenDirName := ".garmer"
  const DefaultTokenFile := "garmin_tokens"

  class GarminAuth {
    const tokenDir: string
    const tokenFile: string
    const store: TokenStore
    var isAuthenticated: bool

    /** __init__: a falsy directory or file name falls back to ~/.garmer
        and "garmin_tokens"; a new handler is never authenticated. The
        home directory is an argument. */
    constructor(tokenDir: Option<string>, tokenFile: Option<string>, home: string, store: TokenStore)
      ensures !isAuthenticated
      ensures this.tokenDir == if tokenDir.Some? && tokenDir.value != "" then tokenDir.value else home + "/" + DefaultTokenDirName
      ensures this.tokenFile == if tokenFile.Some? && tokenFile.value != "" then tokenFile.value else DefaultTokenFile
      ensures this.store == store
    {
      this.tokenDir := if tokenDir.Some? && tokenDir.value != "" then tokenDir.value else home + "/" + DefaultTokenDirName;
      this.tokenFile := if tokenFile.Some? && tokenFile.value != "" then tokenFile.value else DefaultTokenFile;
      this.store := store;
      isAuthenticated := false;
    }

    /** token_path: the file inside the directory; pathlib's `/` lets an
        absolute file name stand on its own. */
    function TokenPath(): (p: string)
      ensures tokenFile != [] && tokenFile[0] == '/' ==> p == tokenFile
      ensures (tokenFile == [] || tokenFile[0] != '/') ==>
                |p| == |tokenDir| + 1 + |tokenFile| &&
                p[..|tokenDir|] == tokenDir && p[|tokenDir|] == '/' && p[|tokenDir| + 1..] == tokenFile
    {
      if tokenFile != [] && tokenFile[0] == '/' then tokenFile else tokenDir + "/" + tokenFile
    }

    /** save_tokens: writes the file when the library manages to, and
        swallows every failure; the flag is never touched. */
    method SaveTokens(save: Outcome<()>)
      modifies store
      ensures store.present == (old(store.present) || save.Success?)
    {
      if save.Success? {
        store.present := true;
      }
    }

    /** login: a successful library login sets the flag and answers true,
        whether or not the tokens could then be saved; any failure of the
        library becomes AuthenticationError and leaves everything as it
        was. */
    method Login(login: Outcome<()>, saveTokens: bool, save: Outcome<()>) returns (r: Result<bool>)
      modifies this, store
      ensures r.Ok? <==> login.Success?
      ensures r.Ok? ==> r.value && isAuthenticated
      ensures r.Ok? ==> store.present == (old(store.present) || (saveTokens && save.Success?))
      ensures r.Err? ==> r.error == AuthenticationError
      ensures r.Err? ==> isAuthenticated == old(isAuthenticated) && store.present == old(store.present)
    {
      if !login.Success? {
        return Err(AuthenticationError);
      }
      isAuthenticated := true;
      if saveTokens {
        SaveTokens(save);
      }
      return Ok(true);
    }

    /** load_tokens: without a token file nothing happens; otherwise the
        session is resumed, and any failure to resume answers false. */
    method LoadTokens(resumed: bool) returns (ok: bool)
      modifies this
      ensures ok == (store.present && resumed)
      ensures isAuthenticated == (old(isAuthenticated) || ok)
    {
      if !store.present {
        return false;
      }
      if !resumed {
        return false;
      }
      isAuthenticated := true;
      return true;
    }

    /** logout: always unauthenticated afterwards; the token file is
        removed when asked to and the removal works. */
    method Logout(deleteTokens: bool, unlinked: bool)
      modifies this, store
      ensures !isAuthenticated
      ensures store.present == (old(store.present) && !(deleteTokens && unlinked))
    {
      isAuthenticated := false;
      if deleteTokens && store.present && unlinked {
        store.present := false;
      }
    }

    /** ensure_authenticated: nothing to do when authenticated; otherwise
        the saved tokens are loaded, and AuthenticationError is raised if
        that fails. Afterwards the handler is authenticated exactly when the
        call succeeded. */
    method EnsureAuthenticated(resumed: bool) returns (r: Result<()>)
      modifies this
      ensures old(isAuthenticated) ==> r.Ok?
      ensures !old(isAuthenticated) ==> (r.Ok? <==> store.present && resumed)
      ensures r.Ok? <==> isAuthenticated
      ensures r.Err? ==> r.error == AuthenticationError
    {
      if isAuthenticated {
        return Ok(());
      }
      var loaded := LoadTokens(resumed);
      if loaded {
        return Ok(());
      }
      return Err(AuthenticationError);
    }

    /** refresh_if_needed: saves the tokens when authenticated. save_tokens
        catches everything, so the failure branch never runs: the answer is
        always true and the flag never changes. */
    method RefreshIfNeeded(save: Outcome<()>) returns (ok: bool)
      modifies store
      ensures ok
      ensures store.present == (old(store.present) || (isAuthenticated && save.Success?))
    {
      if isAuthenticated {
        SaveTokens(save);
      }
      return true;
    }

    /** get_client: the library's client once authenticated. */
    method GetClient(resumed: bool) returns (r: Result<()>)
      modifies this
      ensures old(isAuthenticated) ==> r.Ok?
      ensures !old(isAuthenticated) ==> (r.Ok? <==> store.present && resumed)
      ensures r.Ok? <==> isAuthenticated
      ensures r.Err? ==> r.error == AuthenticationError
    {
      r := EnsureAuthenticated(resumed);
    }

    /** request: authenticate, then call the API. A 401 clears the flag and
        becomes SessionExpiredError; any other failure passes through and
        leaves the flag as authentication left it. */
    method Request(resumed: bool, call: Outcome<Json>) returns (r: Result<Json>)
      modifies this
      ensures !old(isAuthenticated) && !(store.present && resumed) ==>
                r == Err(AuthenticationError) && !isAuthenticated
      ensures old(isAuthenticated) || (store.present && resumed) ==>
                match call
                case Success(v) => r == Ok(v) && isAuthenticated
                case HttpFailure(status) =>
                  if status == 401 then r == Err(SessionExpiredError) && !isAuthenticated
                  else r == Err(HttpError(status)) && isAuthenticated
                case GarthFailure => r == Err(GarthError) && isAuthenticated
                case OtherFailure => r == Err(RuntimeError) && isAuthenticated
    {
      var ready := EnsureAuthenticated(resumed);
      if ready.Err? {
        return Err(ready.error);
      }
      match call
      case Success(v) =>
        return Ok(v);
      case HttpFailure(status) =>
        if status == 401 {
          isAuthenticated := false;
          return Err(SessionExpiredError);
        }
        return Err(HttpError(status));
      case GarthFailure =>
        return Err(GarthError);
      case OtherFailure =>
        return Err(RuntimeError);
    }
  }

  /** create_auth: a handler that first tries the saved tokens, then logs
      in when asked to and given both credentials; a failed login raises
      AuthenticationError, and otherwise the handler is returned,
      authenticated or not. */
  method CreateAuth(email: Option<string>, password: Option<string>, tokenDir: Option<string>, autoLogin: bool,
                    home: string, store: TokenStore, resumed: bool, login: Outcome<()>, save: Outcome<()>)
    returns (r: Result<GarminAuth>)
    modifies store
    ensures r.Ok? ==> fresh(r.value) && r.value.store == store
    ensures var tries := autoLogin && email.Some? && email.value != "" && password.Some? && password.value != "";
            var loaded := old(store.present) && resumed;
            (r.Err? <==> !loaded && tries && !login.Success?) &&
            (r.Err? ==> r.error == AuthenticationError) &&
            (r.Ok? ==> r.value.isAuthenticated == (loaded || (tries && login.Success?)))
  {
    var auth := new GarminAuth(tokenDir, None, home, store);
    var loaded := auth.LoadTokens(resumed);
    if loaded {
      return Ok(auth);
    }
    if autoLogin && email.Some? && email.value != "" && password.Some? && password.value != "" {
      var ok := auth.Login(login, true, save);
      if ok.Err? {
        return Err(ok.error);
      }
      return Ok(auth);
    }
    return Ok(auth);
  }
}
