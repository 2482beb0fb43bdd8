/**
 * `modules/database.py`: the manager of the JSON store. The file is a field that
 * `save_data` replaces wholesale and `load_data` reads through `Domain.Load`.
 */
module Database {
  import opened Wrappers
  import opened Domain

  const DefaultAccessLevel := "usuario"

  /** What `initialize_database` leaves behind: empty tables written only when no file exists. */
  function Initialized(f: StoreFile): (g: StoreFile)
    ensures f.Missing? ==> g == Present(EmptyData)
    ensures !f.Missing? ==> g == f
  {
    if f.Missing? then Present(EmptyData) else f
  }

  /** Initializing twice is initializing once, and an initialized store loads the data it held or empty tables. */
  lemma InitializedIdempotent(f: StoreFile)
    ensures Initialized(Initialized(f)) == Initialized(f)
    ensures !Initialized(f).Missing?
    ensures Load(Initialized(f)) == Load(f)
  {
  }

  class DatabaseManager {
    var file: StoreFile

    /** `DatabaseManager()` on a store in state `f`: the constructor runs `initialize_database`. */
    constructor (f: StoreFile)
      ensures file == Initialized(f)
    {
      file := f;
      new;
      InitializeDatabase();
    }

    method InitializeDatabase()
      modifies this
      ensures file == Initialized(old(file))
    {
      if file.Missing? {
        SaveData(EmptyData);
      }
    }

    function LoadData(): (d: Data)
      reads this
      ensures file.Present? ==> d == file.data
      ensures !file.Present? ==> d == EmptyData
    {
      Load(file)
    }

    method SaveData(d: Data)
      modifies this
      ensures file == Present(d)
    {
      file := Present(d);
    }

    /** `user_exists`: some stored user has exactly this name. */
    function UserExists(username: string): (b: bool)
      reads this
      ensures b <==> exists u :: u in LoadData().usuarios && u.nome == username
    {
      HasUser(LoadData().usuarios, username)
    }

    /**
     * `add_user`: refused, with nothing written, when a user of exactly that name
     * exists; otherwise one user with the given access level is appended.
     */
    method AddUser(username: string, accessLevel: string := DefaultAccessLevel) returns (ok: bool)
      modifies this
      ensures ok <==> !old(UserExists(username))
      ensures !ok ==> file == old(file)
      ensures ok ==> file == Present(old(LoadData()).(usuarios := old(LoadData()).usuarios + [User(username, Some(accessLevel))]))
      ensures ok ==> UserExists(username)
    {
      var data := LoadData();
      if HasUser(data.usuarios, username) {
        return false;
      }
      SaveData(data.(usuarios := data.usuarios + [User(username, Some(accessLevel))]));
      assert LoadData().usuarios[|data.usuarios|].nome == username;
      return true;
    }
  }

  /** Appending a user makes exactly that name known in addition to the old ones. */
  lemma HasUserAppend(us: seq<User>, u: User, name: string)
    ensures HasUser(us + [u], name) <==> HasUser(us, name) || u.nome == name
  {
    assert (us + [u])[..|us|] == us;
  }
}
