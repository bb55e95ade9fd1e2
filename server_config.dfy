/** The process-wide root paths (`ServerConfig::new`): every root is a
    fixed join off the user's home directory. */
module ServerConfig {
  import opened Basics
  import opened Paths

  datatype ServerConfig = ServerConfig(
    ruku_root: Path,
    ruku_binary: Path,
    data_root: Path,
    git_root: Path,
    apps_root: Path)

  const HomeUnknown: string := "Could not determine home directory"

  /** `/usr/bin/ruku`, the executable the generated hooks call back into. */
  const RukuBinary: Path := ["usr", "bin", "ruku"]

  /** The four roots are pairwise distinct, and the data and repository
      roots live under the control-plane root while the working trees do not. */
  predicate WellLaidOut(c: ServerConfig)
  {
    && c.ruku_root != c.data_root && c.ruku_root != c.git_root && c.ruku_root != c.apps_root
    && c.data_root != c.git_root && c.data_root != c.apps_root && c.git_root != c.apps_root
    && c.ruku_root < c.data_root && c.ruku_root < c.git_root
    && !(c.ruku_root <= c.apps_root)
  }

  /** `ServerConfig::new`, given what `home::home_dir()` reports. */
  function New(home: Option<Path>): (r: Result<ServerConfig, string>)
    ensures r.Err? <==> home.None?
    ensures r.Err? ==> r.error == HomeUnknown
    ensures r.Ok? ==>
      && r.value.ruku_root == home.value + [".ruku"]
      && r.value.ruku_binary == RukuBinary
      && r.value.data_root == home.value + [".ruku", "data"]
      && r.value.git_root == home.value + [".ruku", "repos"]
      && r.value.apps_root == home.value + ["apps"]
    ensures r.Ok? ==> WellLaidOut(r.value)
  {
    match home
    case None => Err(HomeUnknown)
    case Some(homeDir) =>
      var rukuRoot := Join(homeDir, ".ruku");
      var c := ServerConfig(
        Join(homeDir, ".ruku"),
        RukuBinary,
        Join(rukuRoot, "data"),
        Join(rukuRoot, "repos"),
        Join(homeDir, "apps"));
      assert c.ruku_root[|homeDir|] != c.apps_root[|homeDir|];
      assert c.data_root[|homeDir| + 1] != c.git_root[|homeDir| + 1];
      Ok(c)
  }
}
