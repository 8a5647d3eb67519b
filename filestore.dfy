/** The local side of a synchronisation: one FileStore per file named on the
    command line, holding the key/value dictionary read from it. Reading and writing
    the file itself (through the serial registered for its extension) is not part
    of this model; what is kept is the dictionary last written out, and whether a
    write fails is fixed when the store is made. */
module FileStores {
  import opened Wrappers

  /** A store's dictionary and the dictionary written to its file, if any. */
  datatype FileState = FileState(dict: map<string, string>, disk: Option<map<string, string>>)

  class FileStore {
    const path: string
    var dict: map<string, string>
    var disk: Option<map<string, string>>
    const saveError: Option<string>

    constructor (path: string, dict: map<string, string>, saveError: Option<string>)
      ensures this.path == path && this.dict == dict && disk == None && this.saveError == saveError
    {
      this.path := path;
      this.dict := dict;
      disk := None;
      this.saveError := saveError;
    }

    ghost function State(): FileState
      reads this
    {
      FileState(dict, disk)
    }

    /** Save: writes the dictionary to the file, or reports the write error and
        leaves the file as it was. */
    method Save() returns (err: Option<string>)
      modifies this
      ensures err == saveError && dict == old(dict)
      ensures disk == if saveError.None? then Some(dict) else old(disk)
    {
      if saveError.None? {
        disk := Some(dict);
      }
      err := saveError;
    }
  }
}
