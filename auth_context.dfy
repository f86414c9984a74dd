/** The authentication context of src/context/AuthContext.tsx: the signed-in
    user and the saved outfits, changed in place by the context's
    operations. Server replies are parameters (`Err` is an exception the
    call threw); "today" and the generated outfit id are parameters too. */
module Auth {
  import opened Wrappers
  import opened Lists
  import opened Text
  import opened Storage

  datatype Role = UserRole | Admin | SuperAdmin

  datatype Plan = Free | Basic | Pro

  datatype Subscription = Subscription(plan: Plan, startDate: Option<string>, endDate: Option<string>, isActive: bool)

  datatype User = User(id: string, email: string, name: string, role: Role, subscription: Subscription, createdAt: string)

  datatype Product = Product(name: string, brand: string, price: int)

  datatype SavedOutfit = SavedOutfit(id: string, date: string, top: Product, bottom: Product, shoes: Product,
                                     total: int, reason: string)

  /** What `saveOutfit` is given: an outfit without its id and date. */
  datatype OutfitDraft = OutfitDraft(top: Product, bottom: Product, shoes: Product, total: int, reason: string)

  datatype Provider = Google | Kakao

  /** `{ success, data? }` as `fetchMe`, `fetchAdminMe` and `adminLogin` return it. */
  datatype ApiResponse<T> = ApiResponse(success: bool, data: Option<T>)

  datatype Me = Me(userId: int, email: string, name: string)

  datatype AdminMe = AdminMe(id: int, email: string, name: string)

  const FreeActive := Subscription(Free, None, None, true)
  const FreeInactive := Subscription(Free, None, None, false)
  const ProActive := Subscription(Pro, None, None, true)

  /** The outfits the context starts with. */
  const MockSavedOutfits := [
    SavedOutfit("1", "2025-01-15",
                Product("오버핏 옥스포드 셔츠", "무신사 스탠다드", 59000),
                Product("와이드 슬랙스 팬츠", "커버낫", 79000),
                Product("레더 코트 스니커즈", "컨버스", 51000),
                189000, "데이트에 어울리는 깔끔한 스타일"),
    SavedOutfit("2", "2025-01-10",
                Product("베이직 크루넥 니트", "유니클로", 39000),
                Product("스트레이트 데님 팬츠", "리바이스", 89000),
                Product("클래식 레더 로퍼", "닥터마틴", 159000),
                287000, "회사에서 깔끔하게 보이는 캐주얼 룩")
  ]

  /** The mail addresses the duplicate check treats as taken. */
  const ExistingEmails := ["test@test.com", "admin@admin.com", "user@example.com"]

  predicate IsAdminRole(role: Role) {
    role == Admin || role == SuperAdmin
  }

  /** `isAdmin()` for a given user. */
  function IsAdminUser(user: Option<User>): (r: bool)
    ensures r <==> user.Some? && (user.value.role == Admin || user.value.role == SuperAdmin)
    ensures r ==> user.value.role != UserRole
  {
    user.Some? && IsAdminRole(user.value.role)
  }

  /** `email.split("@")[0]`: everything before the first '@'. */
  function BeforeAt(email: string): (r: string)
    ensures |r| <= |email| && r == email[..|r|]
    ensures '@' !in r
    ensures |r| < |email| ==> email[|r|] == '@'
    decreases |email|
  {
    if email == [] || email[0] == '@' then [] else [email[0]] + BeforeAt(email[1..])
  }

  /** Whether a reply passes `res.success && res.data`. */
  predicate Accepted<T>(reply: Result<ApiResponse<T>, string>) {
    reply.Ok? && reply.value.success && reply.value.data.Some?
  }

  /** The user `refreshUserFromServer` leaves behind: the server's user as a
      plain "user" on the free plan, or nobody at all when the reply is
      refused or the call threw. */
  function RefreshedUser(reply: Result<ApiResponse<Me>, string>, today: string): (user: Option<User>)
    ensures user.Some? <==> Accepted(reply)
    ensures user.Some? ==>
              var me := reply.value.data.value;
              user.value == User(IntToDecimal(me.userId), me.email, me.name, UserRole, FreeActive, today)
  {
    if Accepted(reply) then
      var me := reply.value.data.value;
      Some(User(IntToDecimal(me.userId), me.email, me.name, UserRole, FreeActive, today))
    else None
  }

  /** The user `refreshAdminFromServer` leaves behind: the server's admin as
      an "admin" on the pro plan, or nobody. */
  function RefreshedAdmin(reply: Result<ApiResponse<AdminMe>, string>, today: string): (user: Option<User>)
    ensures user.Some? <==> Accepted(reply)
    ensures user.Some? ==>
              var admin := reply.value.data.value;
              user.value == User(IntToDecimal(admin.id), admin.email, admin.name, Admin, ProActive, today)
  {
    if Accepted(reply) then
      var admin := reply.value.data.value;
      Some(User(IntToDecimal(admin.id), admin.email, admin.name, Admin, ProActive, today))
    else None
  }

  /** A user refreshed through the user endpoint is never an admin; one
      refreshed through the admin endpoint always is. */
  lemma RefreshRoles(me: Result<ApiResponse<Me>, string>, admin: Result<ApiResponse<AdminMe>, string>, today: string)
    ensures !IsAdminUser(RefreshedUser(me, today))
    ensures IsAdminUser(RefreshedAdmin(admin, today)) <==> Accepted(admin)
  {
  }

  /** `checkEmailDuplicate`: true means the address is free. */
  function CheckEmailDuplicate(email: string): (available: bool)
    ensures available <==> forall i :: 0 <= i < |ExistingEmails| ==> ToLower(email) != ExistingEmails[i]
  {
    ToLower(email) !in ExistingEmails
  }

  /** The check ignores ASCII case. */
  lemma EmailCheckIgnoresCase(email: string)
    ensures CheckEmailDuplicate(ToUpper(email)) == CheckEmailDuplicate(email)
  {
    assert ToLower(ToUpper(email)) == ToLower(email) by {
      assert forall i :: 0 <= i < |email| ==> LowerChar(UpperChar(email[i])) == LowerChar(email[i]);
    }
  }

  /** The outfit `saveOutfit` builds from a draft. */
  function NewOutfit(draft: OutfitDraft, id: string, date: string): SavedOutfit {
    SavedOutfit(id, date, draft.top, draft.bottom, draft.shoes, draft.total, draft.reason)
  }

  predicate HasOtherId(id: string, outfit: SavedOutfit) {
    outfit.id != id
  }

  /** `prev.filter(outfit => outfit.id !== id)`. */
  function WithoutOutfit(outfits: seq<SavedOutfit>, id: string): (r: seq<SavedOutfit>)
    ensures forall i :: 0 <= i < |r| ==> r[i].id != id && r[i] in outfits
    ensures forall i :: 0 <= i < |outfits| && outfits[i].id != id ==> outfits[i] in r
    ensures forall o :: multiset(r)[o] == if o.id != id then multiset(outfits)[o] else 0
  {
    FilterMultiplicity(outfits, o => HasOtherId(id, o));
    Filter(outfits, o => HasOtherId(id, o))
  }

  /** Removing keeps the rest in their order, and removing an outfit just
      saved under a fresh id gives back the list from before. */
  lemma RemoveProperties(outfits: seq<SavedOutfit>, draft: OutfitDraft, id: string, date: string)
    ensures IsSubsequence(WithoutOutfit(outfits, id), outfits)
    ensures (forall i :: 0 <= i < |outfits| ==> outfits[i].id != id) ==>
              WithoutOutfit([NewOutfit(draft, id, date)] + outfits, id) == outfits
  {
    FilterIsSubsequence(outfits, o => HasOtherId(id, o));
    if forall i :: 0 <= i < |outfits| ==> outfits[i].id != id {
      FilterAllPass(outfits, o => HasOtherId(id, o));
      assert ([NewOutfit(draft, id, date)] + outfits)[1..] == outfits;
    }
  }

  /** Removing twice is removing once. */
  lemma RemoveIdempotent(outfits: seq<SavedOutfit>, id: string)
    ensures WithoutOutfit(WithoutOutfit(outfits, id), id) == WithoutOutfit(outfits, id)
  {
    FilterAllPass(WithoutOutfit(outfits, id), o => HasOtherId(id, o));
  }

  class AuthProvider {
    var user: Option<User>
    var savedOutfits: seq<SavedOutfit>

    constructor ()
      ensures user.None? && savedOutfits == MockSavedOutfits
    {
      user := None;
      savedOutfits := MockSavedOutfits;
    }

    /** `isAdmin()`. */
    function IsAdmin(): (r: bool)
      reads this
      ensures r <==> user.Some? && IsAdminRole(user.value.role)
    {
      IsAdminUser(user)
    }

    /** `login`: any non-empty email and password sign in a free user named
        after the part of the address before '@'. */
    method Login(email: string, password: string, today: string) returns (ok: bool)
      modifies this
      ensures ok <==> email != "" && password != ""
      ensures ok ==> user == Some(User("1", email, BeforeAt(email), UserRole, FreeActive, today))
      ensures !ok ==> user == old(user)
      ensures savedOutfits == old(savedOutfits)
    {
      if email != "" && password != "" {
        user := Some(User("1", email, BeforeAt(email), UserRole, FreeActive, today));
        return true;
      }
      return false;
    }

    /** `adminLogin`: an accepted reply signs in the admin; otherwise
        nothing changes. */
    method AdminLogin(reply: Result<ApiResponse<AdminMe>, string>, today: string) returns (ok: bool)
      modifies this
      ensures ok <==> Accepted(reply)
      ensures ok ==> user == RefreshedAdmin(reply, today)
      ensures !ok ==> user == old(user)
      ensures savedOutfits == old(savedOutfits)
    {
      if Accepted(reply) {
        user := RefreshedAdmin(reply, today);
        return true;
      }
      return false;
    }

    /** `refreshUserFromServer`: fails closed. */
    method RefreshUserFromServer(reply: Result<ApiResponse<Me>, string>, today: string) returns (ok: bool)
      modifies this
      ensures user == RefreshedUser(reply, today)
      ensures ok <==> user.Some?
      ensures !IsAdmin()
      ensures savedOutfits == old(savedOutfits)
    {
      user := RefreshedUser(reply, today);
      ok := user.Some?;
    }

    /** `refreshAdminFromServer`: fails closed. */
    method RefreshAdminFromServer(reply: Result<ApiResponse<AdminMe>, string>, today: string) returns (ok: bool)
      modifies this
      ensures user == RefreshedAdmin(reply, today)
      ensures ok <==> user.Some?
      ensures ok <==> IsAdmin()
      ensures savedOutfits == old(savedOutfits)
    {
      user := RefreshedAdmin(reply, today);
      ok := user.Some?;
    }

    /** `socialLogin`: always signs in the provider's placeholder user with
        an inactive free subscription. */
    method SocialLogin(provider: Provider, today: string) returns (ok: bool)
      modifies this
      ensures ok && user.Some? && user.value.role == UserRole && user.value.subscription == FreeInactive
      ensures provider == Google ==> user.value == User("google-1", "google_user@example.com", "Google 사용자", UserRole, FreeInactive, today)
      ensures provider == Kakao ==> user.value == User("kakao-1", "kakao_user@example.com", "Kakao 사용자", UserRole, FreeInactive, today)
      ensures savedOutfits == old(savedOutfits)
    {
      var email := if provider == Google then "google_user@example.com" else "kakao_user@example.com";
      var name := if provider == Google then "Google 사용자" else "Kakao 사용자";
      var id := (if provider == Google then "google" else "kakao") + "-1";
      user := Some(User(id, email, name, UserRole, FreeInactive, today));
      return true;
    }

    /** `signup`: non-empty email, password and name sign in a new user. */
    method Signup(email: string, password: string, name: string, today: string) returns (ok: bool)
      modifies this
      ensures ok <==> email != "" && password != "" && name != ""
      ensures ok ==> user == Some(User("1", email, name, UserRole, FreeInactive, today))
      ensures !ok ==> user == old(user)
      ensures savedOutfits == old(savedOutfits)
    {
      if email != "" && password != "" && name != "" {
        user := Some(User("1", email, name, UserRole, FreeInactive, today));
        return true;
      }
      return false;
    }

    /** `logout`: the server call (the admin one for an admin) may fail; the
        authentication keys are cleared and the user is gone regardless.
        The result says which logout endpoint was called. */
    method Logout(local: WebStorage, session: WebStorage) returns (calledAdminLogout: bool)
      requires local != session
      modifies this, local, session
      ensures calledAdminLogout <==> old(IsAdmin())
      ensures user.None?
      ensures local.items == ClearedLocal(old(local.items))
      ensures session.items == ClearedSession(old(session.items))
      ensures savedOutfits == old(savedOutfits)
    {
      calledAdminLogout := IsAdmin();
      ClearAuthKeys(local, session);
      user := None;
    }

    /** `saveOutfit`: the new outfit goes in front of the old list. */
    method SaveOutfit(draft: OutfitDraft, id: string, date: string)
      modifies this
      ensures savedOutfits == [NewOutfit(draft, id, date)] + old(savedOutfits)
      ensures user == old(user)
    {
      savedOutfits := [NewOutfit(draft, id, date)] + savedOutfits;
    }

    /** `removeOutfit`. */
    method RemoveOutfit(id: string)
      modifies this
      ensures savedOutfits == WithoutOutfit(old(savedOutfits), id)
      ensures user == old(user)
    {
      savedOutfits := WithoutOutfit(savedOutfits, id);
    }

    /** `subscribe`: only a signed-in user and a paid plan; the dates are
        today and a month from today. */
    method Subscribe(plan: Plan, startDate: string, endDate: string) returns (ok: bool)
      modifies this
      ensures ok <==> old(user).Some? && plan != Free
      ensures ok ==> user == Some(old(user).value.(subscription := Subscription(plan, Some(startDate), Some(endDate), true)))
      ensures !ok ==> user == old(user)
      ensures savedOutfits == old(savedOutfits)
    {
      if user.Some? && plan != Free {
        user := Some(user.value.(subscription := Subscription(plan, Some(startDate), Some(endDate), true)));
        return true;
      }
      return false;
    }

    /** `cancelSubscription`: back to an inactive free plan with no dates. */
    method CancelSubscription()
      modifies this
      ensures old(user).None? ==> user.None?
      ensures old(user).Some? ==> user == Some(old(user).value.(subscription := FreeInactive))
      ensures savedOutfits == old(savedOutfits)
    {
      if user.Some? {
        user := Some(user.value.(subscription := FreeInactive));
      }
    }
  }
}
