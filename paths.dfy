/** The directory layout of src/talkat/paths.py: the XDG base directories, read from the
    environment or defaulted under the home directory, and the application's files under them.
    The environment and the file system are parameters. */
module Paths {
  import opened Text

  type Env = map<string, string>

  /** `rstrip("/")`: the text without its trailing "/" characters. */
  function TrimSlashes(s: string): (t: string)
    ensures t <= s && (t == [] || t[|t| - 1] != '/')
    ensures s != [] && s[|s| - 1] != '/' ==> t == s
  {
    if s != [] && s[|s| - 1] == '/' then TrimSlashes(s[..|s| - 1]) else s
  }

  /** `os.path.expanduser` on a path that starts with `~` or `~/`: the home directory, without
      its trailing separators, replaces the `~`, and an empty result becomes "/". Any other
      path is kept. */
  function ExpandUser(p: string, home: string): (e: string)
    ensures (p == "~" || (|p| >= 2 && p[0] == '~' && p[1] == '/')) ==>
      e == if TrimSlashes(home) + p[1..] == "" then "/" else TrimSlashes(home) + p[1..]
    ensures !(p == "~" || (|p| >= 2 && p[0] == '~' && p[1] == '/')) ==> e == p
  {
    if p == "~" || (|p| >= 2 && p[0] == '~' && p[1] == '/') then
      var e := TrimSlashes(home) + p[1..];
      if e == "" then "/" else e
    else p
  }

  /** A home of "/" expands `~/.config` to `/.config`, not `//.config`, and `~` to "/". */
  lemma RootHomeExpands()
    ensures ExpandUser("~/.config", "/") == "/.config"
    ensures ExpandUser("~", "/") == "/"
  {
    assert TrimSlashes("/") == TrimSlashes("/"[..0]);
    assert "/"[..0] == [];
    assert "~/.config"[1..] == "/.config";
    assert "~"[1..] == [];
  }

  /** `get_xdg_dir`: the variable's value when the environment sets it, otherwise the default
      with `~` expanded. */
  function GetXdgDir(env: Env, envVar: string, default: string, home: string): (d: string)
    ensures envVar in env ==> d == env[envVar]
    ensures envVar !in env ==> d == ExpandUser(default, home)
  {
    if envVar in env then env[envVar] else ExpandUser(default, home)
  }

  /** `dir / name` for a relative name: `Path("")` is the current directory, so its child is
      the bare name, and a separator already ending `dir` is not doubled. */
  function Child(dir: string, name: string): (c: string)
    ensures dir == "" ==> c == name
    ensures dir != "" && dir[|dir| - 1] == '/' ==> c == dir + name
    ensures dir != "" && dir[|dir| - 1] != '/' ==> c == dir + "/" + name
  {
    if dir == "" then name
    else if dir[|dir| - 1] == '/' then dir + name
    else dir + "/" + name
  }

  /** An `XDG_CONFIG_HOME` set to the empty string puts the configuration file at the relative
      path `talkat/config.json`. */
  lemma EmptyConfigHome(env: Env, home: string, uid: nat, present: string -> bool)
    requires "XDG_CONFIG_HOME" in env && env["XDG_CONFIG_HOME"] == ""
    ensures ConfigFile(XdgDirs(env, home, uid, present)) == "talkat/config.json"
  {
    assert "talkat" + "/" + "config.json" == "talkat/config.json";
  }

  const APP_NAME: string := "talkat"

  /** The four base directories after start-up. */
  datatype Dirs = Dirs(configHome: string, cacheHome: string, dataHome: string, runtimeHome: string)

  /** The module-level XDG paths. The runtime directory is `XDG_RUNTIME_DIR`, or
      `/run/user/<uid>`; when that does not exist it falls back to
      `<XDG_CACHE_HOME>/talkat/runtime`. */
  function XdgDirs(env: Env, home: string, uid: nat, present: string -> bool): (d: Dirs)
    ensures d.configHome == GetXdgDir(env, "XDG_CONFIG_HOME", "~/.config", home)
    ensures d.cacheHome == GetXdgDir(env, "XDG_CACHE_HOME", "~/.cache", home)
    ensures d.dataHome == GetXdgDir(env, "XDG_DATA_HOME", "~/.local/share", home)
  {
    var cacheHome := GetXdgDir(env, "XDG_CACHE_HOME", "~/.cache", home);
    var runtime := if "XDG_RUNTIME_DIR" in env then env["XDG_RUNTIME_DIR"] else "/run/user/" + NatToString(uid);
    Dirs(GetXdgDir(env, "XDG_CONFIG_HOME", "~/.config", home), cacheHome,
         GetXdgDir(env, "XDG_DATA_HOME", "~/.local/share", home),
         if present(runtime) then runtime else Child(Child(cacheHome, APP_NAME), "runtime"))
  }

  /** Which runtime directory start-up settles on: the one the environment names (or the
      per-user default) when it present, and the cache fallback otherwise. */
  lemma RuntimeFallback(env: Env, home: string, uid: nat, present: string -> bool)
    ensures var wanted := if "XDG_RUNTIME_DIR" in env then env["XDG_RUNTIME_DIR"] else "/run/user/" + NatToString(uid);
      var d := XdgDirs(env, home, uid, present);
      (present(wanted) ==> d.runtimeHome == wanted) &&
      var cacheHome := GetXdgDir(env, "XDG_CACHE_HOME", "~/.cache", home);
      (!present(wanted) ==> d.runtimeHome == Child(cacheHome, "talkat/runtime")) &&
      (!present(wanted) && cacheHome != "" && cacheHome[|cacheHome| - 1] != '/' ==>
        d.runtimeHome == cacheHome + "/talkat/runtime")
  {
    var cacheHome := GetXdgDir(env, "XDG_CACHE_HOME", "~/.cache", home);
    ChildNested(cacheHome, APP_NAME, "runtime");
    assert APP_NAME + "/" + "runtime" == "talkat/runtime";
    if cacheHome != "" && cacheHome[|cacheHome| - 1] != '/' {
      assert cacheHome + "/" + "talkat/runtime" == cacheHome + "/talkat/runtime";
    }
  }

  /** Joining twice is joining once with the two names separated by "/". */
  lemma ChildNested(dir: string, a: string, b: string)
    requires a != [] && a[|a| - 1] != '/'
    ensures Child(Child(dir, a), b) == Child(dir, a + "/" + b)
  {
    var inner := Child(dir, a);
    assert inner == (if dir == "" then [] else if dir[|dir| - 1] == '/' then dir else dir + "/") + a;
    assert inner[|inner| - 1] == a[|a| - 1];
  }

  function ConfigDir(d: Dirs): string { Child(d.configHome, APP_NAME) }
  function ConfigFile(d: Dirs): string { Child(ConfigDir(d), "config.json") }
  function DictionaryFile(d: Dirs): string { Child(ConfigDir(d), "dictionary.txt") }
  function CacheDir(d: Dirs): string { Child(d.cacheHome, APP_NAME) }
  function ModelCacheDir(d: Dirs): string { Child(CacheDir(d), "models") }
  function FasterWhisperCacheDir(d: Dirs): string { Child(ModelCacheDir(d), "faster-whisper") }
  function VoskCacheDir(d: Dirs): string { Child(ModelCacheDir(d), "vosk") }
  function DataDir(d: Dirs): string { Child(d.dataHome, APP_NAME) }
  function TranscriptDir(d: Dirs): string { Child(DataDir(d), "transcripts") }

  /** `RUNTIME_DIR`; `PID_DIR` and `LOCK_DIR` are bound to this same path. */
  function RuntimeDir(d: Dirs): string { Child(d.runtimeHome, APP_NAME) }

  const SYSTEM_CONFIG_FILE: string := "/etc/talkat/config.json"

  /** `get_config_file`: the user's file when it is present, else the system-wide file when
      that is present, else the user's path, for creating. The file chosen is present exactly
      when one of the two candidates is, and the user's file takes priority. */
  function GetConfigFile(d: Dirs, present: string -> bool): (p: string)
    ensures p == ConfigFile(d) || p == SYSTEM_CONFIG_FILE
    ensures present(ConfigFile(d)) ==> p == ConfigFile(d)
    ensures present(p) <==> present(ConfigFile(d)) || present(SYSTEM_CONFIG_FILE)
  {
    if present(ConfigFile(d)) then ConfigFile(d)
    else if present(SYSTEM_CONFIG_FILE) then SYSTEM_CONFIG_FILE
    else ConfigFile(d)
  }

  /** With no XDG variables set, the user's configuration lives at
      `<home>/.config/talkat/config.json`, with the home's trailing separators dropped. */
  lemma DefaultConfigFile(home: string, uid: nat, present: string -> bool)
    ensures ConfigFile(XdgDirs(map[], home, uid, present)) == TrimSlashes(home) + "/.config/talkat/config.json"
  {
    var d := XdgDirs(map[], home, uid, present);
    var h := TrimSlashes(home);
    ConfigHomeDefault(home, uid, present);
    ConfigFileUnder(h + "/.config");
    ConfigTail(h);
  }

  /** For a home without a trailing separator that is `<home>/.config/talkat/config.json`. */
  lemma PlainHomeConfigFile(home: string, uid: nat, present: string -> bool)
    requires home != "" && home[|home| - 1] != '/'
    ensures ConfigFile(XdgDirs(map[], home, uid, present)) == home + "/.config/talkat/config.json"
  {
    DefaultConfigFile(home, uid, present);
    assert TrimSlashes(home) == home;
  }

  lemma ConfigHomeDefault(home: string, uid: nat, present: string -> bool)
    ensures XdgDirs(map[], home, uid, present).configHome == TrimSlashes(home) + "/.config"
  {
    assert "~/.config"[1..] == "/.config";
    assert GetXdgDir(map[], "XDG_CONFIG_HOME", "~/.config", home) == TrimSlashes(home) + "/.config";
  }

  lemma ConfigFileUnder(c: string)
    requires c != "" && c[|c| - 1] != '/'
    ensures Child(Child(c, APP_NAME), "config.json") == c + "/talkat/config.json"
  {
    ChildNested(c, APP_NAME, "config.json");
    assert APP_NAME + "/" + "config.json" == "talkat/config.json";
    assert c + "/" + "talkat/config.json" == c + "/talkat/config.json";
  }

  lemma ConfigTail(h: string)
    ensures h + "/.config" + "/talkat/config.json" == h + "/.config/talkat/config.json"
  {
    assert "/.config" + "/talkat/config.json" == "/.config/talkat/config.json";
  }
}
