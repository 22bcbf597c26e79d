/**
 * The auth session store: a logged-out / logged-in pair of states with the
 * user's phone, dial code and country, mirrored to the `"auth"` storage entry.
 */
module Auth {
  import Storage

  /** The record written under the `"auth"` key. */
  datatype AuthData = AuthData(phone: string, dialCode: string, country: string)

  const AuthKey: string := "auth"

  class AuthStore {
    var phone: string
    var dialCode: string
    var country: string
    var isLoggedIn: bool
    const storage: Storage.LocalStorage<AuthData>

    /** Logged out, with every field empty. */
    predicate IsLoggedOut()
      reads this
    {
      phone == "" && dialCode == "" && country == "" && !isLoggedIn
    }

    /** The `"auth"` entry is present exactly while logged in, and then holds the session's fields. */
    ghost predicate Mirrored()
      reads this, storage
    {
      (isLoggedIn <==> AuthKey in storage.entries)
      && (isLoggedIn ==> storage.entries[AuthKey] == AuthData(phone, dialCode, country))
    }

    /** The store is created logged out and does not look at the stored `"auth"` entry. */
    constructor (storage: Storage.LocalStorage<AuthData>)
      ensures IsLoggedOut() && this.storage == storage
      ensures unchanged(storage)
    {
      phone, dialCode, country, isLoggedIn := "", "", "", false;
      this.storage := storage;
    }

    /** `login(data)`: writes exactly `{phone, dialCode, country}` under `"auth"` (no other
      * key changes) and takes the same three fields into the store, logged in. */
    method Login(data: AuthData)
      modifies this, storage
      ensures isLoggedIn && phone == data.phone && dialCode == data.dialCode && country == data.country
      ensures storage.entries == old(storage.entries)[AuthKey := data]
      ensures Mirrored()
    {
      storage.SetItem(AuthKey, data);
      phone, dialCode, country, isLoggedIn := data.phone, data.dialCode, data.country, true;
    }

    /** `logout()`: removes the `"auth"` entry (no other key changes) and returns the
      * fields to their initial values, whatever the state before. */
    method Logout()
      modifies this, storage
      ensures IsLoggedOut()
      ensures storage.entries == old(storage.entries) - {AuthKey}
      ensures Mirrored()
    {
      storage.RemoveItem(AuthKey);
      phone, dialCode, country, isLoggedIn := "", "", "", false;
    }
  }
}
