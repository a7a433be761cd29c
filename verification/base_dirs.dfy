/** The home-variant resolvers: `getDataHome`, `getConfigHome` and `getCacheDir` on Unix.
    Each reads one override variable, which must hold an absolute path, and otherwise falls
    back to `$HOME/<relative default>`. */
module BaseDirs {
  import opened Environ

  const Home := "HOME"
  const XdgDataHome := "XDG_DATA_HOME"
  const XdgConfigHome := "XDG_CONFIG_HOME"
  const XdgCacheHome := "XDG_CACHE_HOME"

  /** A call that returns nothing or throws. */
  datatype Outcome = Pass | Fail(error: Error)

  /** `throwOnRelative`: rejects a value whose first character is not '/', naming the
      variable and the value. */
  function ThrowOnRelative(envName: string, envValue: string): (r: Outcome)
    ensures r.Fail? <==> |envValue| == 0 || envValue[0] != '/'
    ensures r.Fail? ==> r.error == NotAbsolute(envName, envValue)
  {
    if IsAbsolute(envValue) then Pass else Fail(NotAbsolute(envName, envValue))
  }

  /** `getHome`: the value of HOME, taken as it is (it is not checked for being absolute). */
  function GetHome(env: Environment): (r: Result<string>)
    ensures r.Ok? <==> Home in env
    ensures r.Ok? ==> r.value == env[Home]
    ensures r.Err? ==> r.error == HomeNotDefined
  {
    match Getenv(env, Home)
    case None => Err(HomeNotDefined)
    case Some(home) => Ok(home)
  }

  /** `getLinuxFolderDefault`: the override when it is set (and then it must be absolute;
      HOME is not consulted), otherwise HOME followed by '/' and the relative default. */
  function GetLinuxFolderDefault(env: Environment, envName: string, defaultRelativePath: string)
    : (r: Result<string>)
    ensures envName in env && IsAbsolute(env[envName]) ==> r == Ok(env[envName])
    ensures envName in env && !IsAbsolute(env[envName]) ==> r == Err(NotAbsolute(envName, env[envName]))
    ensures envName !in env && Home in env ==> r == Ok(env[Home] + "/" + defaultRelativePath)
    ensures envName !in env && Home !in env ==> r == Err(HomeNotDefined)
  {
    match Getenv(env, envName)
    case Some(value) =>
      (match ThrowOnRelative(envName, value)
       case Fail(e) => Err(e)
       case Pass => Ok(value))
    case None =>
      var home :- GetHome(env);
      Ok(home + "/" + defaultRelativePath)
  }

  /** `getDataHome`: XDG_DATA_HOME, or `$HOME/.local/share`. */
  function GetDataHome(env: Environment): (r: Result<string>)
    ensures XdgDataHome in env ==> (r.Ok? <==> IsAbsolute(env[XdgDataHome]))
    ensures XdgDataHome in env && r.Ok? ==> r.value == env[XdgDataHome]
    ensures XdgDataHome !in env ==> (r.Ok? <==> Home in env)
    ensures XdgDataHome !in env && r.Ok? ==> r.value == env[Home] + "/.local/share"
    ensures XdgDataHome in env && r.Err? ==> r.error == NotAbsolute(XdgDataHome, env[XdgDataHome])
    ensures XdgDataHome !in env && r.Err? ==> r.error == HomeNotDefined
  {
    GetLinuxFolderDefault(env, XdgDataHome, ".local/share")
  }

  /** `getConfigHome`: XDG_CONFIG_HOME, or `$HOME/.config`. */
  function GetConfigHome(env: Environment): (r: Result<string>)
    ensures XdgConfigHome in env ==> (r.Ok? <==> IsAbsolute(env[XdgConfigHome]))
    ensures XdgConfigHome in env && r.Ok? ==> r.value == env[XdgConfigHome]
    ensures XdgConfigHome !in env ==> (r.Ok? <==> Home in env)
    ensures XdgConfigHome !in env && r.Ok? ==> r.value == env[Home] + "/.config"
    ensures XdgConfigHome in env && r.Err? ==> r.error == NotAbsolute(XdgConfigHome, env[XdgConfigHome])
    ensures XdgConfigHome !in env && r.Err? ==> r.error == HomeNotDefined
  {
    GetLinuxFolderDefault(env, XdgConfigHome, ".config")
  }

  /** `getCacheDir` as written: the override it reads is XDG_CONFIG_HOME, not XDG_CACHE_HOME;
      only the fallback, `$HOME/.cache`, is its own. */
  function GetCacheDir(env: Environment): (r: Result<string>)
    ensures XdgConfigHome in env ==> (r.Ok? <==> IsAbsolute(env[XdgConfigHome]))
    ensures XdgConfigHome in env && r.Ok? ==> r.value == env[XdgConfigHome]
    ensures XdgConfigHome !in env ==> (r.Ok? <==> Home in env)
    ensures XdgConfigHome !in env && r.Ok? ==> r.value == env[Home] + "/.cache"
    ensures XdgConfigHome in env && r.Err? ==> r.error == NotAbsolute(XdgConfigHome, env[XdgConfigHome])
    ensures XdgConfigHome !in env && r.Err? ==> r.error == HomeNotDefined
  {
    GetLinuxFolderDefault(env, XdgConfigHome, ".cache")
  }

  /** Every resolver result is absolute whenever HOME is: an override is accepted only when
      absolute, and the fallback starts with HOME. */
  lemma ResolvedFolderIsAbsolute(env: Environment, envName: string, defaultRelativePath: string)
    requires Home in env ==> IsAbsolute(env[Home])
    ensures GetLinuxFolderDefault(env, envName, defaultRelativePath).Ok? ==>
              IsAbsolute(GetLinuxFolderDefault(env, envName, defaultRelativePath).value)
  {
  }

  /** With XDG_CONFIG_HOME set, the cache directory IS the config directory, on success and
      on failure alike (the error names XDG_CONFIG_HOME in both). */
  lemma CacheDirFollowsConfigOverride(env: Environment)
    requires XdgConfigHome in env
    ensures GetCacheDir(env) == GetConfigHome(env)
  {
  }

  /** With XDG_CONFIG_HOME unset, the two differ only in the last path component. */
  lemma CacheDirDefaultDiffersFromConfig(env: Environment)
    requires XdgConfigHome !in env && Home in env
    ensures GetCacheDir(env) == Ok(env[Home] + "/.cache")
    ensures GetConfigHome(env) == Ok(env[Home] + "/.config")
  {
  }

  /** The finding: XDG_CACHE_HOME has no effect on `getCacheDir` as written. */
  lemma CacheDirIgnoresCacheHome(env: Environment, cacheHome: string)
    ensures GetCacheDir(env[XdgCacheHome := cacheHome]) == GetCacheDir(env)
  {
    var env' := env[XdgCacheHome := cacheHome];
    assert XdgCacheHome != XdgConfigHome && XdgCacheHome != Home;
    assert Getenv(env', XdgConfigHome) == Getenv(env, XdgConfigHome);
    assert Getenv(env', Home) == Getenv(env, Home);
  }

  /** A concrete input: a user who sets only HOME and XDG_CACHE_HOME gets `$HOME/.cache`
      rather than the cache directory they configured. */
  lemma CacheDirCounterexample()
    ensures var env := map[Home := "/home/u", XdgCacheHome := "/var/cache/u"];
            GetCacheDir(env) == Ok("/home/u/.cache") && GetCacheDir(env) != Ok("/var/cache/u")
  {
    var env := map[Home := "/home/u", XdgCacheHome := "/var/cache/u"];
    assert XdgConfigHome !in env;
    assert "/home/u" + "/" + ".cache" == "/home/u/.cache";
  }

  /** `getCacheDir` as the XDG Base Directory Specification and the header's "can be
      configured" intend it: XDG_CACHE_HOME, or `$HOME/.cache`. */
  function GetCacheDirXdg(env: Environment): (r: Result<string>)
    ensures XdgCacheHome in env ==> (r.Ok? <==> IsAbsolute(env[XdgCacheHome]))
    ensures XdgCacheHome in env && r.Ok? ==> r.value == env[XdgCacheHome]
    ensures XdgCacheHome !in env ==> (r.Ok? <==> Home in env)
    ensures XdgCacheHome !in env && r.Ok? ==> r.value == env[Home] + "/.cache"
    ensures XdgCacheHome in env && r.Err? ==> r.error == NotAbsolute(XdgCacheHome, env[XdgCacheHome])
    ensures XdgCacheHome !in env && r.Err? ==> r.error == HomeNotDefined
  {
    GetLinuxFolderDefault(env, XdgCacheHome, ".cache")
  }

  /** The corrected resolver honours XDG_CACHE_HOME and is independent of XDG_CONFIG_HOME. */
  lemma CacheDirXdgHonoursCacheHome(env: Environment, cacheHome: string, configHome: string)
    requires IsAbsolute(cacheHome)
    ensures GetCacheDirXdg(env[XdgCacheHome := cacheHome]) == Ok(cacheHome)
    ensures GetCacheDirXdg(env[XdgConfigHome := configHome]) == GetCacheDirXdg(env)
  {
    var env' := env[XdgConfigHome := configHome];
    assert XdgCacheHome != XdgConfigHome && XdgConfigHome != Home;
    assert Getenv(env', XdgCacheHome) == Getenv(env, XdgCacheHome);
    assert Getenv(env', Home) == Getenv(env, Home);
  }
}
