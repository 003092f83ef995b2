/**
 * The modal registry: the set of modal ids that are open.
 */
module ModalStore {

  /** The id of the profile modal. */
  const MyProfile := "myProfile"

  class ModalRegistry {
    var openModals: set<string>

    constructor()
      ensures openModals == {}
    {
      openModals := {};
    }

    function IsModalOpen(modalId: string): (r: bool)
      reads this
      ensures r <==> modalId in openModals
    {
      modalId in openModals
    }

    /** Adds one id; every other id keeps its state. */
    method OpenModal(modalId: string)
      modifies this
      ensures openModals == old(openModals) + {modalId}
      ensures IsModalOpen(modalId)
    {
      openModals := openModals + {modalId};
    }

    /** Removes one id; every other id keeps its state. */
    method CloseModal(modalId: string)
      modifies this
      ensures openModals == old(openModals) - {modalId}
      ensures !IsModalOpen(modalId)
    {
      openModals := openModals - {modalId};
    }

    method CloseAllModals()
      modifies this
      ensures openModals == {}
      ensures forall id :: !IsModalOpen(id)
    {
      openModals := {};
    }
  }

  /** Opening a closed modal and closing it again leaves the registry as it was. */
  method OpenThenClose(m: ModalRegistry, id: string)
    requires !m.IsModalOpen(id)
    modifies m
    ensures m.openModals == old(m.openModals)
  {
    m.OpenModal(id);
    m.CloseModal(id);
  }
}

/**
 * The authentication store, persisted under "instoo-auth", and the browser's local
 * storage it clears the refresh token from on logout.
 */
module AuthStore {
  import opened Wrappers

  datatype User = User(uuid: string, nickname: string, profileImageUrl: string, role: string, isActive: string)

  const RefreshTokenKey := "refreshToken"

  /** The browser's `localStorage`, as a string-to-string record. */
  class LocalStorage {
    var items: map<string, string>

    constructor(initial: map<string, string>)
      ensures items == initial
    {
      items := initial;
    }

    method RemoveItem(key: string)
      modifies this
      ensures items == old(items) - {key}
    {
      items := items - {key};
    }
  }

  class Auth {
    var token: Option<string>
    var user: Option<User>
    var isAuthenticated: bool

    /** Logged in exactly when there is a user, and a logged-in session has a token. */
    ghost predicate Valid()
      reads this
    {
      (isAuthenticated <==> user.Some?) && (isAuthenticated ==> token.Some?)
    }

    constructor()
      ensures Valid() && token == None && user == None && !isAuthenticated
    {
      token := None;
      user := None;
      isAuthenticated := false;
    }

    method Login(t: string, u: User)
      requires Valid()
      modifies this
      ensures Valid()
      ensures token == Some(t) && user == Some(u) && isAuthenticated
    {
      token := Some(t);
      user := Some(u);
      isAuthenticated := true;
    }

    /** Forgets the session and removes the refresh token from local storage; other keys stay. */
    method Logout(storage: LocalStorage)
      requires Valid()
      modifies this, storage
      ensures Valid()
      ensures token == None && user == None && !isAuthenticated
      ensures storage.items == old(storage.items) - {RefreshTokenKey}
      ensures forall k :: k != RefreshTokenKey && k in old(storage.items) ==> k in storage.items && storage.items[k] == old(storage.items)[k]
    {
      token := None;
      user := None;
      isAuthenticated := false;
      storage.RemoveItem(RefreshTokenKey);
    }

    /** Replaces the token only; for a logged-in session it stays valid. */
    method SetToken(t: string)
      requires Valid()
      modifies this
      ensures Valid()
      ensures token == Some(t) && user == old(user) && isAuthenticated == old(isAuthenticated)
    {
      token := Some(t);
    }

    /** Replaces the logged-in user's profile (the profile modal calls this after an update). */
    method UpdateUser(u: User)
      requires Valid() && isAuthenticated
      modifies this
      ensures Valid()
      ensures user == Some(u) && token == old(token) && isAuthenticated
    {
      user := Some(u);
    }
  }
}

/** The sidebar that can be collapsed. */
module InteractiveSidebar {

  class Sidebar {
    var isOpen: bool

    /** The sidebar starts open. */
    constructor()
      ensures isOpen
    {
      isOpen := true;
    }

    method OpenSidebar()
      modifies this
      ensures isOpen
    {
      isOpen := true;
    }

    method CloseSidebar()
      modifies this
      ensures !isOpen
    {
      isOpen := false;
    }

    method ToggleSidebar()
      modifies this
      ensures isOpen == !old(isOpen)
    {
      isOpen := !isOpen;
    }
  }

  /** Toggling twice leaves the sidebar as it was. */
  method ToggleTwice(s: Sidebar)
    modifies s
    ensures s.isOpen == old(s.isOpen)
  {
    s.ToggleSidebar();
    s.ToggleSidebar();
  }
}

/** The onboarding tour's progress. */
module Tour {

  class TourState {
    var step: nat
    var isRunning: bool

    /** A tour starts at step 0, running. */
    constructor()
      ensures step == 0 && isRunning
    {
      step := 0;
      isRunning := true;
    }

    method Next()
      modifies this
      ensures step == old(step) + 1 && isRunning == old(isRunning)
    {
      step := step + 1;
    }

    /** Ends the tour; the step reached is kept. */
    method End()
      modifies this
      ensures !isRunning && step == old(step)
    {
      isRunning := false;
    }
  }
}
