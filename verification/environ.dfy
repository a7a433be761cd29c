/** The process environment, the absolute-path test and the error results shared by the
    Unix resolvers of PlatformFolders. */
module Environ {

  /** `getenv` as a value: a variable is set exactly when it is a key of the map. */
  type Environment = map<string, string>

  datatype Option<+T> = None | Some(value: T)

  /** The exceptions the Unix branch throws. The diagnostic text is abstracted to the data
      it reports. */
  datatype Error =
    | NotAbsolute(envName: string, envValue: string)  // std::runtime_error from throwOnRelative
    | HomeNotDefined                                  // std::runtime_error from getHome
    | OutOfRange                                      // std::out_of_range from std::string::substr

  /** A value or the exception that replaced it; usable with `:-`. */
  datatype Result<+T> = Ok(value: T) | Err(error: Error) {
    predicate IsFailure() { Err? }

    function PropagateFailure<U>(): Result<U>
      requires Err?
    {
      Err(error)
    }

    function Extract(): T
      requires Ok?
    {
      value
    }
  }

  /** `getenv(name)`: None stands for the null pointer. */
  function Getenv(env: Environment, name: string): (r: Option<string>)
    ensures r.Some? <==> name in env
    ensures r.Some? ==> r.value == env[name]
  {
    if name in env then Some(env[name]) else None
  }

  /** The XDG Base Directory Specification calls a path absolute when it starts with '/'.
      The empty C string fails the test: its first byte is the terminating NUL. */
  predicate IsAbsolute(p: string) {
    |p| > 0 && p[0] == '/'
  }
}
