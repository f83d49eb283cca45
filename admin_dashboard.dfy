/** The admin dashboard: totals, the filtered user and store lists, the
    store-owner choices derived from the users, and the add-user and
    add-store forms. */
module AdminDashboard {
  import opened Common

  datatype Stats = Stats(totalUsers: int, totalStores: int, totalRatings: int)

  datatype User = User(id: int, name: string, email: string, address: string, role: string)

  datatype Store = Store(id: int, name: string, email: string, address: string, ownerName: string, avgRating: Option<real>)

  const StoreOwnerRole := "store_owner"

  // ---------------------------------------------------------------------
  // Form records and their one-field updates
  // ---------------------------------------------------------------------

  datatype UserField = UserName | UserEmail | UserAddress | UserRole

  /** The user filters sent as query parameters. */
  datatype UserFilters = UserFilters(name: string, email: string, address: string, role: string)
  {
    function Get(f: UserField): string
    {
      match f
      case UserName => name
      case UserEmail => email
      case UserAddress => address
      case UserRole => role
    }

    /** `{ ...filters, [field]: value }` */
    function With(f: UserField, value: string): (r: UserFilters)
      ensures r.Get(f) == value
      ensures forall g :: g != f ==> r.Get(g) == Get(g)
    {
      match f
      case UserName => this.(name := value)
      case UserEmail => this.(email := value)
      case UserAddress => this.(address := value)
      case UserRole => this.(role := value)
    }
  }

  datatype StoreField = StoreName | StoreEmail | StoreAddress

  /** The store filters sent as query parameters. */
  datatype StoreFilters = StoreFilters(name: string, email: string, address: string)
  {
    function Get(f: StoreField): string
    {
      match f
      case StoreName => name
      case StoreEmail => email
      case StoreAddress => address
    }

    /** `{ ...storeFilters, name | email | address: value }` */
    function With(f: StoreField, value: string): (r: StoreFilters)
      ensures r.Get(f) == value
      ensures forall g :: g != f ==> r.Get(g) == Get(g)
    {
      match f
      case StoreName => this.(name := value)
      case StoreEmail => this.(email := value)
      case StoreAddress => this.(address := value)
    }
  }

  datatype NewUserField = NewName | NewEmail | NewAddress | NewPassword | NewRole

  /** The add-user form. */
  datatype NewUser = NewUser(name: string, email: string, address: string, password: string, role: string)
  {
    function Get(f: NewUserField): string
    {
      match f
      case NewName => name
      case NewEmail => email
      case NewAddress => address
      case NewPassword => password
      case NewRole => role
    }

    function With(f: NewUserField, value: string): (r: NewUser)
      ensures r.Get(f) == value
      ensures forall g :: g != f ==> r.Get(g) == Get(g)
    {
      match f
      case NewName => this.(name := value)
      case NewEmail => this.(email := value)
      case NewAddress => this.(address := value)
      case NewPassword => this.(password := value)
      case NewRole => this.(role := value)
    }
  }

  datatype NewStoreField = NewStoreName | NewStoreEmail | NewStoreAddress | NewStoreOwner

  /** The add-store form; `ownerId` is the owner selector's value, "" when none is chosen. */
  datatype NewStore = NewStore(name: string, email: string, address: string, ownerId: string)
  {
    function Get(f: NewStoreField): string
    {
      match f
      case NewStoreName => name
      case NewStoreEmail => email
      case NewStoreAddress => address
      case NewStoreOwner => ownerId
    }

    function With(f: NewStoreField, value: string): (r: NewStore)
      ensures r.Get(f) == value
      ensures forall g :: g != f ==> r.Get(g) == Get(g)
    {
      match f
      case NewStoreName => this.(name := value)
      case NewStoreEmail => this.(email := value)
      case NewStoreAddress => this.(address := value)
      case NewStoreOwner => this.(ownerId := value)
    }
  }

  /** The blank add-user form: every field empty, role "user". */
  function BlankNewUser(): (u: NewUser)
    ensures forall f :: f != NewRole ==> u.Get(f) == ""
    ensures u.role == "user"
  {
    NewUser("", "", "", "", "user")
  }

  /** The blank add-store form: every field empty, the owner included. */
  function BlankNewStore(): (s: NewStore)
    ensures forall f :: s.Get(f) == ""
  {
    NewStore("", "", "", "")
  }

  datatype Request =
    | DashboardTotals
    | ListUsers(userQuery: UserFilters)
    | ListStores(storeQuery: StoreFilters)
    | CreateUser(user: NewUser)
    | CreateStore(store: NewStore)

  // ---------------------------------------------------------------------
  // Store owners
  // ---------------------------------------------------------------------

  /** `users.filter(u => u.role === 'store_owner')` */
  function StoreOwners(users: seq<User>): (r: seq<User>)
    ensures forall u :: u in r <==> u in users && u.role == StoreOwnerRole
    ensures |r| <= |users|
  {
    if users == [] then []
    else if users[0].role == StoreOwnerRole then [users[0]] + StoreOwners(users[1..])
    else StoreOwners(users[1..])
  }

  /** `a` can be obtained from `b` by deleting elements, keeping the order. */
  ghost predicate IsSublist<T>(a: seq<T>, b: seq<T>)
    decreases |b|
  {
    if a == [] then true
    else if b == [] then false
    else if a[0] == b[0] then IsSublist(a[1..], b[1..])
    else IsSublist(a, b[1..])
  }

  /** The owner list keeps the users' order, and each store owner appears in
      it exactly as often as in the user list. */
  lemma {:induction false} StoreOwnersIsOrderedFilter(users: seq<User>)
    ensures IsSublist(StoreOwners(users), users)
    ensures forall u: User :: u.role == StoreOwnerRole ==> multiset(StoreOwners(users))[u] == multiset(users)[u]
    decreases |users|
  {
    if users != [] {
      StoreOwnersIsOrderedFilter(users[1..]);
      assert users == [users[0]] + users[1..];
      if users[0].role == StoreOwnerRole {
        assert StoreOwners(users)[0] == users[0];
        assert StoreOwners(users)[1..] == StoreOwners(users[1..]);
      }
    }
  }

  /** A fetch whose users include no store owner leaves no owner to choose. */
  lemma {:induction false} NoOwnersNoChoices(users: seq<User>)
    requires forall i :: 0 <= i < |users| ==> users[i].role != StoreOwnerRole
    ensures StoreOwners(users) == []
    decreases |users|
  {
    if users != [] {
      assert users[0].role != StoreOwnerRole;
      NoOwnersNoChoices(users[1..]);
    }
  }

  // ---------------------------------------------------------------------
  // The page
  // ---------------------------------------------------------------------

  const CreateUserFailed := "Failed to create user"
  const CreateStoreFailed := "Failed to create store"

  /** The feedback after a create request: the server's text, or its message or the fallback. */
  function CreateMessage(resp: Response<string>, fallback: string): (m: Message)
    requires fallback != ""
    ensures resp.Ok? ==> m == Message(Success, resp.data)
    ensures resp.Err? ==> m.kind == Error && m.text == ErrorText(resp.message, fallback) && m.text != ""
  {
    match resp
    case Ok(text) => Message(Success, text)
    case Err(e) => Message(Error, ErrorText(e, fallback))
  }

  class AdminDashboardView {
    var stats: Stats
    var users: seq<User>
    var filters: UserFilters
    var stores: seq<Store>
    var storeFilters: StoreFilters
    var storeOwners: seq<User>
    var newUser: NewUser
    var newStore: NewStore
    var userMessage: Option<Message>
    var storeMessage: Option<Message>
    var loading: bool
    var effects: seq<Effect<Request>>

    /** The owner selector always lists exactly the store owners among the loaded users. */
    ghost predicate Valid()
      reads this
    {
      storeOwners == StoreOwners(users)
    }

    constructor ()
      ensures Valid()
      ensures stats == Stats(0, 0, 0) && users == [] && stores == [] && storeOwners == []
      ensures filters == UserFilters("", "", "", "") && storeFilters == StoreFilters("", "", "")
      ensures newUser == BlankNewUser() && newStore == BlankNewStore()
      ensures userMessage == None && storeMessage == None
      ensures loading && effects == []
    {
      stats := Stats(0, 0, 0);
      users := [];
      filters := UserFilters("", "", "", "");
      stores := [];
      storeFilters := StoreFilters("", "", "");
      storeOwners := [];
      newUser := BlankNewUser();
      newStore := BlankNewStore();
      userMessage, storeMessage := None, None;
      loading := true;
      effects := [];
    }

    /** `fetchStats`: show the totals; on failure log out and go to the entry route. */
    method FetchStats(resp: Response<Stats>)
      requires Valid()
      modifies this`stats, this`effects
      ensures Valid()
      ensures stats == (if resp.Ok? then resp.data else old(stats))
      ensures resp.Ok? ==> effects == old(effects) + [Send(DashboardTotals)]
      ensures resp.Err? ==> effects == old(effects) + [Send(DashboardTotals), LogOut, Navigate(Entry)]
    {
      effects := effects + [Send(DashboardTotals)];
      match resp
      case Ok(totals) =>
        stats := totals;
      case Err(_) =>
        effects := effects + [LogOut];
        effects := effects + [Navigate(Entry)];
    }

    /** `fetchUsers`: load the users matching the filters, derive the owner
        choices and clear `loading`; a failure changes nothing but the log. */
    method FetchUsers(resp: Response<seq<User>>)
      requires Valid()
      modifies this`users, this`storeOwners, this`loading, this`effects
      ensures Valid()
      ensures users == (if resp.Ok? then resp.data else old(users))
      ensures loading == (old(loading) && resp.Err?)
      ensures effects == old(effects) + [Send(ListUsers(filters))]
    {
      effects := effects + [Send(ListUsers(filters))];
      if resp.Ok? {
        users := resp.data;
        storeOwners := StoreOwners(resp.data);
        loading := false;
      }
    }

    /** `fetchStores`: load the stores matching the store filters; a failure is ignored. */
    method FetchStores(resp: Response<seq<Store>>)
      requires Valid()
      modifies this`stores, this`effects
      ensures Valid()
      ensures stores == (if resp.Ok? then resp.data else old(stores))
      ensures effects == old(effects) + [Send(ListStores(storeFilters))]
    {
      effects := effects + [Send(ListStores(storeFilters))];
      if resp.Ok? {
        stores := resp.data;
      }
    }

    /** On mount: fetch the totals, the users and the stores. */
    method Mount(statsResp: Response<Stats>, usersResp: Response<seq<User>>, storesResp: Response<seq<Store>>)
      requires Valid()
      modifies this`stats, this`users, this`storeOwners, this`loading, this`stores, this`effects
      ensures Valid()
      ensures stats == (if statsResp.Ok? then statsResp.data else old(stats))
      ensures users == (if usersResp.Ok? then usersResp.data else old(users))
      ensures stores == (if storesResp.Ok? then storesResp.data else old(stores))
      ensures loading == (old(loading) && usersResp.Err?)
      ensures effects == old(effects)
                         + (if statsResp.Ok? then [Send(DashboardTotals)] else [Send(DashboardTotals), LogOut, Navigate(Entry)])
                         + [Send(ListUsers(filters)), Send(ListStores(storeFilters))]
    {
      FetchStats(statsResp);
      FetchUsers(usersResp);
      FetchStores(storesResp);
    }

    /** The header's Logout button calls `logout` and nothing else. */
    method ClickLogout()
      requires Valid()
      modifies this`effects
      ensures Valid()
      ensures effects == old(effects) + [LogOut]
    {
      effects := effects + [LogOut];
    }

    /** One user-filter input changed: only that filter takes the new value. */
    method HandleFilterChange(field: UserField, value: string)
      requires Valid()
      modifies this`filters
      ensures Valid()
      ensures filters == old(filters).With(field, value)
    {
      filters := filters.With(field, value);
    }

    /** One store-filter input changed: only that filter takes the new value. */
    method HandleStoreFilterChange(field: StoreField, value: string)
      requires Valid()
      modifies this`storeFilters
      ensures Valid()
      ensures storeFilters == old(storeFilters).With(field, value)
    {
      storeFilters := storeFilters.With(field, value);
    }

    /** One add-user input changed. */
    method EditNewUser(field: NewUserField, value: string)
      requires Valid()
      modifies this`newUser
      ensures Valid()
      ensures newUser == old(newUser).With(field, value)
    {
      newUser := newUser.With(field, value);
    }

    /** One add-store input changed. */
    method EditNewStore(field: NewStoreField, value: string)
      requires Valid()
      modifies this`newStore
      ensures Valid()
      ensures newStore == old(newStore).With(field, value)
    {
      newStore := newStore.With(field, value);
    }

    /** `handleAddUser`: post the form; on success report the server's text,
        blank the form and refetch the users (`refetch` is the answer to that
        fetch); on failure keep the form and report the error. */
    method HandleAddUser(resp: Response<string>, refetch: Response<seq<User>>)
      requires Valid()
      modifies this`newUser, this`userMessage, this`users, this`storeOwners, this`loading, this`effects
      ensures Valid()
      ensures userMessage == Some(CreateMessage(resp, CreateUserFailed))
      ensures resp.Ok? ==>
                newUser == BlankNewUser() &&
                effects == old(effects) + [Send(CreateUser(old(newUser))), Send(ListUsers(filters))] &&
                users == (if refetch.Ok? then refetch.data else old(users)) &&
                loading == (old(loading) && refetch.Err?)
      ensures resp.Err? ==>
                newUser == old(newUser) && effects == old(effects) + [Send(CreateUser(old(newUser)))] &&
                users == old(users) && loading == old(loading)
    {
      effects := effects + [Send(CreateUser(newUser))];
      match resp
      case Ok(_) =>
        userMessage := Some(CreateMessage(resp, CreateUserFailed));
        newUser := BlankNewUser();
        FetchUsers(refetch);
      case Err(_) =>
        userMessage := Some(CreateMessage(resp, CreateUserFailed));
    }

    /** `handleAddStore`: post the form; on success report the server's text,
        blank the form and refetch the stores (`refetch` is the answer to
        that fetch); on failure keep the form and report the error. */
    method HandleAddStore(resp: Response<string>, refetch: Response<seq<Store>>)
      requires Valid()
      modifies this`newStore, this`storeMessage, this`stores, this`effects
      ensures Valid()
      ensures storeMessage == Some(CreateMessage(resp, CreateStoreFailed))
      ensures resp.Ok? ==>
                newStore == BlankNewStore() &&
                effects == old(effects) + [Send(CreateStore(old(newStore))), Send(ListStores(storeFilters))] &&
                stores == (if refetch.Ok? then refetch.data else old(stores))
      ensures resp.Err? ==>
                newStore == old(newStore) && effects == old(effects) + [Send(CreateStore(old(newStore)))] &&
                stores == old(stores)
    {
      effects := effects + [Send(CreateStore(newStore))];
      match resp
      case Ok(_) =>
        storeMessage := Some(CreateMessage(resp, CreateStoreFailed));
        newStore := BlankNewStore();
        FetchStores(refetch);
      case Err(_) =>
        storeMessage := Some(CreateMessage(resp, CreateStoreFailed));
    }
  }
}
