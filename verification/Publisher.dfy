/** The pushed reference and the Argo CD source derived back from it
    (internal/adapter/outbound/oci/publisher.go and the executor's argoSpec). */
module Publisher {
  import opened Text
  import opened Aggregate

  function BuildRef(registryHost: string, repositoryPrefix: string, appID: string, chartName: string,
                    version: string): string
  {
    var host := "oci://" + registryHost;
    var base := if repositoryPrefix != "" then host + "/" + repositoryPrefix else host;
    base + "/" + appID + "/charts/" + chartName + ":" + version
  }

  // What a successful Publish returns.
  function Published(registryHost: string, repositoryPrefix: string, appID: string, chartName: string,
                     version: string, digest: string): Artifact
  {
    Artifact(BuildRef(registryHost, repositoryPrefix, appID, chartName, version), digest, registryHost,
             appID + "/charts/" + chartName, version)
  }

  // What an artifact must be to name a chart of the application: where it is, in
  // full and in parts, under which tag, and with the digest the registry gave it.
  predicate IsNamed(a: Artifact, registryHost: string, repositoryPrefix: string, appID: string, chartName: string,
                    version: string, digest: string)
  {
    && a.ociReference == "oci://" + registryHost + (if repositoryPrefix == "" then "" else "/" + repositoryPrefix)
                         + "/" + appID + "/charts/" + chartName + ":" + version
    && a.registry == registryHost
    && a.repository == appID + "/charts/" + chartName
    && a.tag == version
    && a.digest == digest
  }

  lemma PublishedIsNamed(registryHost: string, repositoryPrefix: string, appID: string, chartName: string,
                         version: string, digest: string)
    ensures IsNamed(Published(registryHost, repositoryPrefix, appID, chartName, version, digest),
                    registryHost, repositoryPrefix, appID, chartName, version, digest)
  {
    var host := "oci://" + registryHost;
    assert host + ("/" + repositoryPrefix) == host + "/" + repositoryPrefix;
    assert host + "" == host;
  }

  // The chart path Argo CD is given: the reference without scheme, tag and host.
  function ChartPath(a: Artifact): string {
    var full := TrimPrefix(a.ociReference, "oci://");
    var untagged := TrimSuffix(full, ":" + a.tag);
    TrimPrefix(untagged, a.registry + "/")
  }

  // Argo CD's repository, chart and version put together again.
  function Reassembled(repoURL: string, chart: string, version: string): string {
    "oci://" + repoURL + "/" + chart + ":" + version
  }

  // The reference without its scheme: host, path and tag.
  function PathOf(prefix: string, appID: string, chartName: string): string {
    (if prefix != "" then prefix + "/" else "") + appID + "/charts/" + chartName
  }

  lemma {:induction false} RefParts(host: string, prefix: string, appID: string, chartName: string, version: string)
    ensures BuildRef(host, prefix, appID, chartName, version) ==
      "oci://" + (((host + "/") + PathOf(prefix, appID, chartName)) + (":" + version))
  {
    var scheme, slash, charts, colon := "oci://", "/", "/charts/", ":";
    var base := if prefix != "" then scheme + host + slash + prefix else scheme + host;
    assert base + slash == scheme + ((host + slash) + if prefix != "" then prefix + slash else "");
  }

  // They name exactly the reference that was pushed.
  lemma {:induction false} ReassemblesPushed(host: string, prefix: string, appID: string, chartName: string,
                                             version: string, digest: string)
    ensures
      var a := Published(host, prefix, appID, chartName, version, digest);
      Reassembled(a.registry, ChartPath(a), a.tag) == a.ociReference
  {
    var path := PathOf(prefix, appID, chartName);
    var full := ((host + "/") + path) + (":" + version);
    RefParts(host, prefix, appID, chartName, version);
    TrimsItsPrefix("oci://", full);
    TrimsItsSuffix((host + "/") + path, ":" + version);
    TrimsItsPrefix(host + "/", path);
    assert Reassembled(host, path, version) == "oci://" + full;
  }
}
