/**
 * The two browser objects the frontend's session code touches:
 * `localStorage`, a map from keys to stored values, and `window.location`.
 */
module Browser {
  /** The signed-in user as the server returns it and the frontend keeps it. */
  datatype User = User(id: int, name: string, email: string, role: string)

  /** What `localStorage` holds under a key: a plain string, or the JSON text
      `JSON.stringify` made of a user. The serialization is not modelled:
      `JSON.parse` of that text is taken to give the same user back. */
  datatype Stored = Text(s: string) | UserJson(user: User)

  const TokenKey: string := "token"
  const UserKey: string := "user"
  const LoginPath: string := "/login"

  class LocalStorage {
    var items: map<string, Stored>

    constructor (items: map<string, Stored>)
      ensures this.items == items
    {
      this.items := items;
    }

    method SetItem(key: string, value: Stored)
      modifies this
      ensures items == old(items)[key := value]
    {
      items := items[key := value];
    }

    method RemoveItem(key: string)
      modifies this
      ensures items == old(items) - {key}
    {
      items := items - {key};
    }
  }

  class Window {
    /** `window.location.href`; assigning it navigates, reloading the app. */
    var href: string

    constructor (href: string)
      ensures this.href == href
    {
      this.href := href;
    }
  }
}
