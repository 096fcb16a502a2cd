/**
 * The file system as the organizer sees it: the set of existing file paths, the set of
 * existing directory paths, and the paths to which the system refuses access
 * (permissions, a file another process holds open, a full disk): nothing new can be
 * created there, and a file there cannot be read. `Directory.CreateDirectory` and `File.Copy`
 * become methods that either change these sets or report an error message.
 */
module Disk {
  import opened Wrappers

  /** Whether `Directory.CreateDirectory(path)` succeeds: the path is not empty, no file
      has that name, and the directory exists already or may be created. */
  predicate Creatable(files: set<string>, dirs: set<string>, denied: set<string>, path: string) {
    path != "" && path !in files && (path in dirs || path !in denied)
  }

  class FileSystem {
    var files: set<string>
    var dirs: set<string>
    const denied: set<string>

    constructor (files: set<string>, dirs: set<string>, denied: set<string>)
      ensures this.files == files && this.dirs == dirs && this.denied == denied
    {
      this.files := files;
      this.dirs := dirs;
      this.denied := denied;
    }

    /** `Directory.CreateDirectory(path)`: succeeds silently when the directory is
        already there, fails on the empty path, when a file has that name or when
        creation is refused. */
    method CreateDirectory(path: string) returns (error: Option<string>)
      modifies this`dirs
      ensures error.None? <==> old(Creatable(files, dirs, denied, path))
      ensures dirs == if error.None? then old(dirs) + {path} else old(dirs)
    {
      if path == "" {
        return Some("The value cannot be an empty string.");
      }
      if path in files {
        return Some("Cannot create '" + path + "' because a file with the same name already exists.");
      }
      if path in dirs {
        return None;
      }
      if path in denied {
        return Some("Access to the path '" + path + "' is denied.");
      }
      dirs := dirs + {path};
      return None;
    }

    /** Whether `File.Copy(source, destination)` (without overwriting) succeeds: the
        source is a file that may be read, and the destination is neither a file, nor a
        directory, nor refused. */
    predicate CanCopy(source: string, destination: string)
      reads this
    {
      && source in files && source !in denied
      && destination !in files && destination !in dirs && destination !in denied
    }

    /** `File.Copy(source, destination)`: never overwrites an existing file, and fails
        when the destination is a directory. */
    method Copy(source: string, destination: string) returns (error: Option<string>)
      modifies this`files
      ensures error.None? <==> old(CanCopy(source, destination))
      ensures files == if error.None? then old(files) + {destination} else old(files)
    {
      if source !in files {
        return Some("Could not find file '" + source + "'.");
      }
      if source in denied {
        return Some("Access to the path '" + source + "' is denied.");
      }
      if destination in files {
        return Some("The file '" + destination + "' already exists.");
      }
      if destination in dirs {
        return Some("Access to the path '" + destination + "' is denied.");
      }
      if destination in denied {
        return Some("Access to the path '" + destination + "' is denied.");
      }
      files := files + {destination};
      return None;
    }
  }
}
