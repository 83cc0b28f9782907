/** Resolution of the backend's base address (`getBaseURL`, exported again as
    `getApiBaseUrl`). The build-time override `VITE_API_BASE_URL` and the page's
    hostname are passed in as inputs. */
module BaseUrl {
  import opened Js

  const RenderUrl := "https://hotel-management-system-backend-reuj.onrender.com"
  const LocalUrl := "http://localhost:5000"
  const RenderHost := "hotel-management-system-backend-reuj.onrender.com"
  const VercelHost := "vercel.app"
  const LocalHost := "localhost"

  /** The hostname is one of the two production fallback triggers. */
  predicate IsProductionHost(hostname: string)
  {
    Includes(hostname, RenderHost) || Includes(hostname, VercelHost)
  }

  /** The base address the client is built with. */
  function GetBaseUrl(envOverride: Option<string>, hostname: string): (r: string)
    ensures r == RenderUrl || r == LocalUrl || (Truthy(envOverride) && r == envOverride.value)
  {
    if Truthy(envOverride) then envOverride.value
    else if IsProductionHost(hostname) then RenderUrl
    else if hostname == LocalHost then LocalUrl
    else RenderUrl
  }

  /** A non-empty override is returned unchanged, whatever the hostname. */
  lemma OverrideWins(envOverride: Option<string>, hostname: string, otherHostname: string)
    requires Truthy(envOverride)
    ensures GetBaseUrl(envOverride, hostname) == envOverride.value
    ensures GetBaseUrl(envOverride, hostname) == GetBaseUrl(envOverride, otherHostname)
  {
  }

  /** Without an override, a Render or Vercel hostname selects the Render backend. */
  lemma ProductionHostGivesRender(envOverride: Option<string>, hostname: string)
    requires !Truthy(envOverride)
    requires Includes(hostname, RenderHost) || Includes(hostname, VercelHost)
    ensures GetBaseUrl(envOverride, hostname) == RenderUrl
  {
  }

  /** Without an override, the exact hostname `localhost` selects the local backend:
      it contains neither production trigger. */
  lemma LocalhostGivesLocal(envOverride: Option<string>)
    requires !Truthy(envOverride)
    ensures GetBaseUrl(envOverride, LocalHost) == LocalUrl
  {
  }

  /** Without an override, the local backend is chosen exactly for `localhost`;
      every other hostname gets the Render backend. */
  lemma NoOverrideChoice(envOverride: Option<string>, hostname: string)
    requires !Truthy(envOverride)
    ensures GetBaseUrl(envOverride, hostname) == LocalUrl <==> hostname == LocalHost
    ensures hostname != LocalHost ==> GetBaseUrl(envOverride, hostname) == RenderUrl
  {
  }
}
