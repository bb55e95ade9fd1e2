/** The two pieces of pure logic in the command-line front end: splitting
    the `config:set` argument and choosing the application name. */
module Cli {
  import opened Basics
  import opened Strings
  import opened Paths

  const InvalidFormat: string := "Invalid format. Use KEY=VALUE"

  /** `config:set KEY=VALUE`: accepted exactly when the argument holds one
      `=`; the key is the text before it and the value the text after. */
  function ParseConfigSet(arg: string): (r: Result<(string, string), string>)
    ensures r.Ok? <==> Count(arg, '=') == 1
    ensures r.Ok? ==> arg == r.value.0 + "=" + r.value.1
    ensures r.Ok? ==> '=' !in r.value.0 && '=' !in r.value.1
    ensures r.Err? ==> r.error == InvalidFormat
  {
    var parts := Split(arg, '=');
    SplitLength(arg, '=');
    if |parts| == 2 then
      JoinSplit(arg, '=');
      SplitPiecesFree(arg, '=');
      assert JoinWith(parts, '=') == parts[0] + "=" + parts[1];
      Ok((parts[0], parts[1]))
    else
      Err(InvalidFormat)
  }

  /** Any key and value free of `=` are parsed back from `KEY=VALUE`. */
  lemma ParseConfigSetOfPair(key: string, value: string)
    requires '=' !in key && '=' !in value
    ensures ParseConfigSet(key + "=" + value) == Ok((key, value))
  {
    var arg := key + "=" + value;
    CountConcat(key + "=", value, '=');
    CountConcat(key, "=", '=');
    CountAbsent(key, '=');
    CountAbsent(value, '=');
    assert Count("=", '=') == 1;
    var r := ParseConfigSet(arg);
    SplitOnceAround(key, value, '=');
    SplitOnceAround(r.value.0, r.value.1, '=');
  }

  /** The application name: the configured `name`, else the last component
      of the current directory. `None` stands for the panic of
      `file_name().unwrap()` when the current directory is `/`. */
  function AppName(name: Option<string>, cwd: Path): (r: Option<string>)
    ensures name.Some? ==> r == name
    ensures name.None? ==> (r.Some? <==> |cwd| > 0)
    ensures name.None? && |cwd| > 0 ==> r.value == cwd[|cwd| - 1]
  {
    match name
    case Some(n) => Some(n)
    case None => if |cwd| == 0 then None else Some(cwd[|cwd| - 1])
  }
}
