/** File-system paths as the Rust code builds them with `PathBuf::join`:
    a path is the sequence of its components below the root `/`. */
module Paths {

  type Path = seq<string>

  /** `PathBuf::join` with one relative component. */
  function Join(p: Path, component: string): (r: Path)
    ensures |r| == |p| + 1 && p < r && r[|p|] == component
  {
    p + [component]
  }

  /** `Path::parent` of a non-root path. */
  function Parent(p: Path): (r: Path)
    requires |p| > 0
    ensures Join(r, p[|p| - 1]) == p
  {
    p[..|p| - 1]
  }

  /** The components of `p`, each preceded by `/`. */
  function Render(p: Path): string
    decreases |p|
  {
    if |p| == 0 then "" else "/" + p[0] + Render(p[1..])
  }

  /** `Path::display` of an absolute path. */
  function Display(p: Path): string
  {
    if |p| == 0 then "/" else Render(p)
  }
}
