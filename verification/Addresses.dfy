/** What an endpoint says: the cluster address of a Service (internal/controller/managedservice_status.go, lines 52-56). */
module Addresses {
  import opened Wrappers
  import opened Objects
  import opened Conditions
  import opened Routing

  /** The labels of a host name, between its dots. */
  function HostLabels(host: string): (r: seq<string>)
    ensures r != []
  {
    if host == "" then [""]
    else
      var rest := HostLabels(host[1..]);
      if host[0] == '.' then [""] + rest else [[host[0]] + rest[0]] + rest[1..]
  }

  /** An HTTP address whose host is the cluster's name for the Service of that key. */
  predicate NamesService(endpoint: string, key: Key) {
    && |endpoint| >= 7 && endpoint[..7] == "http://"
    && HostLabels(endpoint[7..]) == [key.name, key.namespace, "svc", "cluster", "local"]
  }

  /** Keys of the API server: name and namespace are DNS labels. */
  predicate LabelKey(key: Key) { DnsLabel(key.name) && DnsLabel(key.namespace) }

  lemma {:induction false} HostOfLabel(label_: string)
    requires '.' !in label_
    ensures HostLabels(label_) == [label_]
  {
    if label_ != "" {
      assert label_[0] in label_ && label_ == [label_[0]] + label_[1..];
      HostOfLabel(label_[1..]);
    }
  }

  lemma {:induction false} HostSplits(first: string, rest: string)
    requires '.' !in first
    ensures HostLabels(first + "." + rest) == [first] + HostLabels(rest)
  {
    var s := first + "." + rest;
    if first == "" {
      assert s == "." + rest && s[1..] == rest;
    } else {
      assert first[0] in first && first == [first[0]] + first[1..];
      assert s[1..] == first[1..] + "." + rest;
      HostSplits(first[1..], rest);
    }
  }

  lemma DomainLabels(svc: string, cluster: string, local: string)
    requires '.' !in svc && '.' !in cluster && '.' !in local
    ensures HostLabels(svc + "." + (cluster + "." + local)) == [svc, cluster, local]
  {
    HostOfLabel(local);
    HostSplits(cluster, local);
    HostSplits(svc, cluster + "." + local);
  }

  /** The endpoint of a successful status names the Service that the operator stores under the key. */
  lemma EndpointNamesService(key: Key, endpoint: string)
    requires LabelKey(key) && endpoint == Endpoint(key)
    ensures NamesService(endpoint, key)
  {
    var svc, cluster, local := "svc", "cluster", "local";
    var domain := svc + "." + (cluster + "." + local);
    assert '.' !in key.name && '.' !in key.namespace;
    DomainLabels(svc, cluster, local);
    HostSplits(key.namespace, domain);
    HostSplits(key.name, key.namespace + "." + domain);
    EndpointText(key, svc, cluster, local);
  }

  lemma EndpointText(key: Key, svc: string, cluster: string, local: string)
    requires svc == "svc" && cluster == "cluster" && local == "local"
    ensures Endpoint(key) == "http://" + (key.name + "." + (key.namespace + "." + (svc + "." + (cluster + "." + local))))
  {
    var tail := "." + (svc + "." + (cluster + "." + local));
    assert tail == ".svc.cluster.local";
    assert Endpoint(key) == "http://" + (key.name + ("." + (key.namespace + tail)));
  }

  /** A sound status that is not Degraded has such an endpoint, and no other Service's. */
  lemma SoundNamesService(key: Key, ms: ManagedService)
    requires LabelKey(key) && SoundStatus(key, ms) && ms.status.conditions != []
    ensures ms.status.conditions[2].status == False ==> NamesService(ms.status.endpoint, key)
    ensures ms.status.conditions[2].status == True ==> ms.status.endpoint == ""
  {
    EndpointNamesService(key, Endpoint(key));
  }
}
