/** Values shared by the whole model: an optional value, the outcome a command
    reports to the shell, and file-system paths. */
module Common {

  /** A present or absent value; absent stands for Java's `null`. */
  datatype Option<T> = None | Some(value: T)

  /** The outcome of a shell command: success, or failure with a status code
      and a message for the user. */
  datatype Outcome = Succeeded | Failed(code: int, message: string)

  /** A file-system path as the sequence of its segments. */
  datatype Path = Path(segments: seq<string>) {

    /** `Path.resolve(name)` for a name that is empty or one relative
        segment: an empty name gives this path itself; any other name becomes
        the last segment of the result. */
    function Resolve(name: string): (r: Path)
      ensures name == [] ==> r == this
      ensures name != [] ==> |r.segments| == |segments| + 1
      ensures name != [] ==> r.segments[..|segments|] == segments && r.segments[|segments|] == name
    {
      if name == [] then this else Path(segments + [name])
    }
  }
}
