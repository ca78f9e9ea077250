/** `LoginView` and the `username` entry of the app's storage, which `ContentView`
    clears on logout and whose emptiness decides which screen the app shows. */
module Login {
  import opened Text

  /** The `@AppStorage("username")` entry; it starts as "". */
  class UserStore {
    var username: string

    /** A stored name is never padded with whitespace. */
    ghost predicate Valid()
      reads this
    {
      username == [] || (!IsSpace(username[0]) && !IsSpace(username[|username| - 1]))
    }

    constructor ()
      ensures username == "" && Valid()
    {
      username := "";
    }
  }

  class LoginView {
    const store: UserStore
    var nameInput: string
    var showAlert: bool

    constructor (store: UserStore)
      ensures this.store == store && nameInput == "" && !showAlert
    {
      this.store := store;
      nameInput := "";
      showAlert := false;
    }

    /** `handleLogin()`: a name that is blank once trimmed raises the alert and stores
        nothing; any other name is stored trimmed and raises no alert. */
    method HandleLogin()
      requires store.Valid()
      modifies this, store
      ensures store.Valid()
      ensures nameInput == old(nameInput)
      ensures Trim(nameInput) == [] ==> showAlert && store.username == old(store.username)
      ensures Trim(nameInput) != [] ==>
                showAlert == old(showAlert) && store.username == Trim(nameInput) && store.username != []
    {
      var trimmed := Trim(nameInput);
      if trimmed == [] {
        showAlert := true;
      } else {
        store.username := trimmed;
      }
    }
  }

  /** Whatever name is typed, logging in never stores a name that is empty or that
      trimming would change. */
  lemma StoredNameIsTrimmed(nameInput: string)
    ensures var t := Trim(nameInput);
            t != [] ==> Trim(t) == t && (exists i :: 0 <= i < |nameInput| && !IsSpace(nameInput[i]))
  {
    TrimIdempotent(nameInput);
  }
}
