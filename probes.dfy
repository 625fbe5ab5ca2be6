/**
 * The collaborators that the watcher and the dispatcher consult but that are not
 * modelled here: the filesystem, path cleaning, glob matching and the command
 * configuration. Each is a record of total functions; a caller passes the record
 * that describes the world at the moment of the call.
 */
module Probes {

  /** What the filesystem reports about paths at one moment. */
  datatype FileSystem = FileSystem(
    isDir: string -> bool,            // fs.IsDir
    isFile: string -> bool,           // fs.IsFile
    modifiedTime: string -> int,      // time.GetFileModifiedTime, in nanoseconds
    findDirs: string -> seq<string>   // the directory list fs.Find returns for a pattern
  )

  /** The lexical path functions of Go's path/filepath package. */
  datatype PathLib = PathLib(
    clean: string -> string,          // filepath.Clean
    dir: string -> string             // filepath.Dir
  )
}
