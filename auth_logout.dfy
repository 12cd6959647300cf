/**
 * `useAuthLogout`: the log-out handler of the navigation, a fixed teardown that clears the
 * stored auth token and both storages, signs out of the identity provider, reports the
 * outcome in a toast, and always navigates to the login page.
 */
module AuthLogout {
  import opened Effects

  const TokenKey := "supabase.auth.token"
  const LoginPath := "/login"
  const SignedOutTitle := "Signed Out"
  const SuccessDescription := "Successfully logged out"
  const FallbackDescription := "You have been signed out."

  /**
   * Storage teardown: the token item is removed twice, the first `RemoveStorageItem` from
   * `localStorage` and the second from `sessionStorage`; then both storages are cleared
   * entirely, `localStorage` first.
   */
  const StorageTeardown: seq<Effect> :=
    [RemoveStorageItem(TokenKey), RemoveStorageItem(TokenKey), ClearLocalStorage, ClearSessionStorage]

  /**
   * The toast shown after the provider's `signOut`: the success text only when it returned
   * no error; a returned error and a rejection (caught by the `catch`) both give the fallback.
   */
  function LogoutToast(reply: CallOutcome): (t: Effect)
    ensures t.Toast? && t.kind == Info && t.title == SignedOutTitle
    ensures t.description == SuccessDescription <==> reply.Ok?
  {
    Toast(Info, SignedOutTitle, if reply.Ok? then SuccessDescription else FallbackDescription)
  }

  /** `handleLogout()` as a trace, given how the provider's `signOut` ends. */
  function LogoutEffects(reply: CallOutcome): seq<Effect> {
    StorageTeardown + [Backend(SignOut), LogoutToast(reply), Navigate(LoginPath)]
  }

  /**
   * Every outcome clears storage before the `signOut` call, shows one "Signed Out" toast,
   * and ends by navigating to the login page; nothing is thrown, since the handler has no
   * error outcome at all.
   */
  lemma LogoutAlwaysNavigates(reply: CallOutcome)
    ensures var effects := LogoutEffects(reply);
      && |effects| == 7
      && effects[..4] == StorageTeardown
      && effects[4] == Backend(SignOut)
      && effects[5].Toast? && effects[5].title == SignedOutTitle
      && effects[6] == Navigate(LoginPath)
  {
  }

  /** The provider is called exactly once, whatever it answers. */
  lemma LogoutCallsProviderOnce(reply: CallOutcome)
    ensures CallCount(LogoutEffects(reply)) == 1
  {
    var head := StorageTeardown + [Backend(SignOut)];
    var ending := [LogoutToast(reply), Navigate(LoginPath)];
    assert CallCount(head) == 1 by {
      NoCallCounted(StorageTeardown);
      SingleEffect(Backend(SignOut));
      CallCountAppend(StorageTeardown, [Backend(SignOut)]);
    }
    NoCallCounted(ending);
    CallCountAppend(head, ending);
    assert LogoutEffects(reply) == head + ending;
  }

  /**
   * `handleLogout()`: the straight-line teardown, with the toast chosen by the provider's
   * answer; the navigation runs in `finally`.
   */
  method HandleLogout(reply: CallOutcome) returns (effects: seq<Effect>)
    ensures effects == LogoutEffects(reply)
  {
    effects := [RemoveStorageItem(TokenKey), RemoveStorageItem(TokenKey)];
    effects := effects + [ClearLocalStorage, ClearSessionStorage];
    effects := effects + [Backend(SignOut)];
    match reply {
      case Ok =>
        effects := effects + [Toast(Info, SignedOutTitle, SuccessDescription)];
      case ReturnedError(_) =>
        effects := effects + [Toast(Info, SignedOutTitle, FallbackDescription)];
      case Threw(_) =>
        effects := effects + [Toast(Info, SignedOutTitle, FallbackDescription)];
    }
    effects := effects + [Navigate(LoginPath)];
  }
}
