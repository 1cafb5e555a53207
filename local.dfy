/** The local side of the transfers: which local directories and regular files exist, and what a local
    directory lists. */
module LocalFiles {

  class LocalFs {
    var dirs: set<string>
    const files: set<string>
    const entries: string -> seq<string>

    constructor (dirs: set<string>, files: set<string>, entries: string -> seq<string>)
      ensures this.dirs == dirs && this.files == files && this.entries == entries
    {
      this.dirs, this.files, this.entries := dirs, files, entries;
    }

    /** `os.path.exists(path)`. */
    method Exists(path: string) returns (b: bool)
      ensures b <==> path in dirs || path in files
    {
      b := path in dirs || path in files;
    }

    /** `os.makedirs(path)`, on a path that does not exist yet. */
    method Makedirs(path: string)
      modifies this
      ensures dirs == old(dirs) + {path}
    {
      dirs := dirs + {path};
    }

    /** `os.listdir(path)`. */
    method Listdir(path: string) returns (names: seq<string>)
      ensures names == entries(path)
    {
      names := entries(path);
    }
  }
}
