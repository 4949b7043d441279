/** Reading a secret from a file (secrets/secrets.go). */
module Secrets {
  import opened Wrappers
  import opened GoTypes

  /** What `os.ReadFile` gives back for one path. */
  datatype ReadResult = ReadOk(data: seq<Byte>) | ReadErr(cause: GoString)

  /** The file system, seen through `os.ReadFile`. */
  type FileSystem = GoString -> ReadResult

  datatype SecretError =
    | EmptyPath                                   // "secret file path is empty"
    | ReadFailed(path: GoString, cause: GoString) // "failed to read secret file %s: %w"
    | EmptyFile(path: GoString)                   // "secret file %s is empty"

  /** The guard chain of LoadFromFile: empty path, then the read, then an empty file. */
  function LoadFromFile(path: GoString, fs: FileSystem): (r: Result<seq<Byte>, SecretError>)
    ensures path == "" ==> r == Failure(EmptyPath)
    ensures path != "" && fs(path).ReadErr? ==> r == Failure(ReadFailed(path, fs(path).cause))
    ensures path != "" && fs(path) == ReadOk([]) ==> r == Failure(EmptyFile(path))
    ensures r.Success? <==> path != "" && fs(path).ReadOk? && |fs(path).data| > 0
    ensures r.Success? ==> r.value == fs(path).data && |r.value| > 0
  {
    if path == "" then Failure(EmptyPath)
    else match fs(path)
      case ReadErr(cause) => Failure(ReadFailed(path, cause))
      case ReadOk(data) => if |data| == 0 then Failure(EmptyFile(path)) else Success(data)
  }

  /** An empty path is rejected before the file system is consulted. */
  lemma EmptyPathReadsNothing(fs1: FileSystem, fs2: FileSystem)
    ensures LoadFromFile("", fs1) == LoadFromFile("", fs2) == Failure(EmptyPath)
  {
  }

  /** The path named by `envVar`, unless that variable is unset or empty. */
  function GetSecretPath(env: Environ, envVar: GoString, defaultPath: GoString): (path: GoString)
    ensures envVar in env && env[envVar] != "" ==> path == env[envVar]
    ensures (envVar !in env || env[envVar] == "") ==> path == defaultPath
  {
    var value := Getenv(env, envVar);
    if value != "" then value else defaultPath
  }

  /** Setting the variable to "" is the same as leaving it unset. */
  lemma EmptySecretPathIsUnset(env: Environ, envVar: GoString, defaultPath: GoString)
    ensures GetSecretPath(env[envVar := ""], envVar, defaultPath)
         == GetSecretPath(env - {envVar}, envVar, defaultPath)
         == defaultPath
  {
  }
}
