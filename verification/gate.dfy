/** The superuser gate shared by the admin pages (user add, update, delete
    and list, hospital create). The page holds a `loading` flag that starts
    true and an `isSuperuser` flag that starts false; the profile fetched
    from `/auth/users/me/` sets the flag, and the page renders in the order
    loading, access denied, protected content. */
module Gate {
  import opened Js
  import opened Http

  datatype Gate = Gate(loading: bool, isSuperuser: Value)

  /** Deny by default: still loading, and not a superuser. */
  const Initial: Gate := Gate(true, Bool(false))

  /** The fields of the `/auth/users/me/` profile the pages read. */
  datatype Profile = Profile(id: Value, isSuperuser: Value)

  datatype Screen = LoadingScreen | AccessDenied | Protected

  /** `if (loading) ...Loading; if (!isSuperuser) ...Access Denied;` and
      only then the protected form or action. */
  function ScreenOf(g: Gate): (s: Screen)
    ensures s == Protected <==> !g.loading && Truthy(g.isSuperuser)
    ensures s == LoadingScreen <==> g.loading
  {
    if g.loading then LoadingScreen
    else if !Truthy(g.isSuperuser) then AccessDenied
    else Protected
  }

  const MeUrl: string := Api + "/auth/users/me/"

  /** The profile request, authorised with the stored token. */
  function MeRequest(token: Value): Effect {
    Request(GET, MeUrl, Bearer(token), [])
  }

  /** The gate after the profile arrived, on the pages whose profile
      handler also clears `loading`. */
  function Settle(p: Profile): (g: Gate)
    ensures ScreenOf(g) == Protected <==> Truthy(p.isSuperuser)
    ensures ScreenOf(g) != LoadingScreen
  {
    Gate(false, p.isSuperuser)
  }

  /** A profile whose flag is missing, `null` or `false` never opens the
      gate, and the gate is closed before any profile has arrived. */
  lemma DenyByDefault(p: Profile)
    ensures ScreenOf(Initial) == LoadingScreen
    ensures !Truthy(p.isSuperuser) ==> ScreenOf(Settle(p)) == AccessDenied
    ensures p.isSuperuser.Undefined? ==> ScreenOf(Settle(p)) == AccessDenied
  {
  }
}
