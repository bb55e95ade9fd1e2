/** `Config::new`, an older copy of `ServerConfig::new` whose working-tree
    root is called `app_root`. */
module Config {
  import opened Basics
  import opened Paths
  import ServerConfig

  datatype Config = Config(
    ruku_root: Path,
    ruku_binary: Path,
    data_root: Path,
    git_root: Path,
    app_root: Path)

  function New(home: Option<Path>): (r: Result<Config, string>)
    ensures r.Err? <==> home.None?
    ensures r.Err? ==> r.error == ServerConfig.HomeUnknown
    ensures r.Ok? ==>
      && r.value.ruku_root == home.value + [".ruku"]
      && r.value.ruku_binary == ServerConfig.RukuBinary
      && r.value.data_root == home.value + [".ruku", "data"]
      && r.value.git_root == home.value + [".ruku", "repos"]
      && r.value.app_root == home.value + ["apps"]
  {
    match home
    case None => Err(ServerConfig.HomeUnknown)
    case Some(homeDir) =>
      var rukuRoot := Join(homeDir, ".ruku");
      Ok(Config(
        Join(homeDir, ".ruku"),
        ServerConfig.RukuBinary,
        Join(rukuRoot, "data"),
        Join(rukuRoot, "repos"),
        Join(homeDir, "apps")))
  }

  /** For the same home directory both constructors fail together, and
      otherwise agree field by field (`app_root` is `apps_root`). */
  lemma AgreesWithServerConfig(home: Option<Path>)
    ensures New(home).Ok? <==> ServerConfig.New(home).Ok?
    ensures New(home).Ok? ==>
      var c := New(home).value;
      var s := ServerConfig.New(home).value;
      && c.ruku_root == s.ruku_root && c.ruku_binary == s.ruku_binary
      && c.data_root == s.data_root && c.git_root == s.git_root
      && c.app_root == s.apps_root
  {
  }
}
