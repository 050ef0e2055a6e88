/** Where a Kernel keeps its session path between page loads: one cookie per
    kernel-spec name, holding the path `kernel-<uuid>` minted on first use. */
module KernelPath {
  import opened Wrappers
  import opened Services

  const PathCookieName := "jupyter-react-kernel-path"
  const MintedPathPrefix := "kernel-"

  /** The cookie name for a kernel-spec name: the fixed prefix, `_`, then the spec name. */
  function CookieName(kernelSpecName: string): (r: string)
    ensures |r| == |PathCookieName| + 1 + |kernelSpecName|
    ensures r[..|PathCookieName|] == PathCookieName && r[|PathCookieName|] == '_'
    ensures r[|PathCookieName| + 1..] == kernelSpecName
  {
    PathCookieName + "_" + kernelSpecName
  }

  /** Distinct kernel-spec names never share a cookie. */
  lemma CookieNameInjective(a: string, b: string)
    ensures CookieName(a) == CookieName(b) ==> a == b
  {
  }

  /** The path a Kernel settles on when no kernel model is given: the stored one,
      or a freshly minted one that must then be written back. */
  datatype Resolution = Reused(path: string) | Minted(path: string)

  /** `!path` treats both a missing and an empty cookie as absent. */
  function ResolvePath(stored: Option<string>, uuid: string): (r: Resolution)
    ensures r.path != ""
    ensures r.Reused? <==> stored.Some? && stored.value != ""
    ensures r.Reused? ==> r.path == stored.value
    ensures r.Minted? ==> r.path == MintedPathPrefix + uuid
  {
    if stored.Some? && stored.value != "" then Reused(stored.value)
    else Minted(MintedPathPrefix + uuid)
  }

  /** The cookie jar after resolution: a minted path is written under `name`, a
      reused one leaves the jar as it was. */
  function Persist(cookies: map<string, string>, name: string, r: Resolution): (after: map<string, string>)
    ensures Lookup(after, name) == if r.Minted? then Some(r.path) else Lookup(cookies, name)
    ensures forall other :: other != name ==> Lookup(after, other) == Lookup(cookies, other)
  {
    if r.Minted? then cookies[name := r.path] else cookies
  }

  /** A later resolution under the same name, whatever uuid it is offered, reuses the
      path the first one settled on: the path is stable across page loads. */
  lemma ResolutionIsStable(cookies: map<string, string>, name: string, uuid: string, laterUuid: string)
    ensures var r := ResolvePath(Lookup(cookies, name), uuid);
            ResolvePath(Lookup(Persist(cookies, name, r), name), laterUuid) == Reused(r.path)
  {
  }

  /** Resolving the path for one kernel-spec name leaves every other spec's cookie untouched. */
  lemma ResolutionIsolatedPerSpec(cookies: map<string, string>, spec: string, otherSpec: string, uuid: string)
    requires spec != otherSpec
    ensures var r := ResolvePath(Lookup(cookies, CookieName(spec)), uuid);
            Lookup(Persist(cookies, CookieName(spec), r), CookieName(otherSpec)) == Lookup(cookies, CookieName(otherSpec))
  {
  }
}
