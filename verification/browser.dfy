/** The user and admin objects the browser holds, as received from the server. */
module ClientData {
  /** A user object: the `user` of a login or update response, an entry of the admin
      listing, and what is kept under the `user` storage key. An absent `profileImage`
      is the empty string. */
  datatype UserInfo = UserInfo(id: string, name: string, email: string, isAdmin: bool, profileImage: string)

  /** The `admin` object of an admin login response, kept under the `admin` key. */
  datatype AdminInfo = AdminInfo(id: string, email: string, isAdmin: bool)
}

/**
 * The browser facilities the reducers use: `localStorage` (a map from keys to
 * values, with the log of every write other tabs observe) and `BroadcastChannel`
 * (the log of posted messages).
 */
module Browser {
  import opened Wrappers
  import opened ClientData

  /** A stored value: plain text, or a JSON-encoded user or admin object. */
  datatype Stored = Text(text: string) | UserJson(user: UserInfo) | AdminJson(admin: AdminInfo)

  datatype StorageWrite = Wrote(key: string, value: Stored) | Removed(key: string)

  datatype Message = Message(kind: string, source: string)

  /** `localStorage.getItem(key) || null` for a text key: an empty string reads as `null`. */
  function TokenAt(storage: map<string, Stored>, key: string): (t: Option<string>)
    ensures t.Some? ==> t.value != ""
  {
    if key in storage && storage[key].Text? && storage[key].text != "" then Some(storage[key].text) else None
  }

  /** `JSON.parse(localStorage.getItem(key))` for a key holding a user object. */
  function UserAt(storage: map<string, Stored>, key: string): Option<UserInfo> {
    if key in storage && storage[key].UserJson? then Some(storage[key].user) else None
  }

  /** `JSON.parse(localStorage.getItem(key))` for a key holding an admin object. */
  function AdminAt(storage: map<string, Stored>, key: string): Option<AdminInfo> {
    if key in storage && storage[key].AdminJson? then Some(storage[key].admin) else None
  }

  /** One browser tab's view of the shared storage and of the broadcast channel. */
  class Window {
    var storage: map<string, Stored>
    var writes: seq<StorageWrite>
    var posted: seq<Message>
    const hasBroadcastChannel: bool

    constructor (storage: map<string, Stored>, hasBroadcastChannel: bool)
      ensures this.storage == storage && writes == [] && posted == []
      ensures this.hasBroadcastChannel == hasBroadcastChannel
    {
      this.storage := storage;
      writes := [];
      posted := [];
      this.hasBroadcastChannel := hasBroadcastChannel;
    }

    /** `localStorage.setItem(key, value)` */
    method SetItem(key: string, value: Stored)
      modifies this`storage, this`writes
      ensures storage == old(storage)[key := value]
      ensures writes == old(writes) + [Wrote(key, value)]
    {
      storage := storage[key := value];
      writes := writes + [Wrote(key, value)];
    }

    /** `localStorage.removeItem(key)` */
    method RemoveItem(key: string)
      modifies this`storage, this`writes
      ensures storage == old(storage) - {key}
      ensures writes == old(writes) + [Removed(key)]
    {
      storage := storage - {key};
      writes := writes + [Removed(key)];
    }

    /** Opening `auth_channel`, posting `m` and closing it; where `BroadcastChannel` is
        missing the constructor throws, the error is caught, and nothing is posted. */
    method Post(m: Message)
      modifies this`posted
      ensures posted == if hasBroadcastChannel then old(posted) + [m] else old(posted)
    {
      if hasBroadcastChannel {
        posted := posted + [m];
      }
    }
  }
}
