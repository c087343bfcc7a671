/**
  The deployer in the form it has (internal/deployer/knative.go): methods that read and write
  the cluster's objects, each shown to do what the functions of `Cluster` say.
*/
module Deployer {
  import opened Wrappers
  import opened Model
  import opened Cluster
  import C = Cluster

  class KnativeDeployer {
    const hash: (string, string) -> string
    var namespaces: set<string>
    var services: map<Key, Service>
    var configMaps: map<Key, ConfigMap>

    constructor (hash: (string, string) -> string)
      ensures this.hash == hash && Objects() == Cluster(hash, {}, map[], map[])
    {
      this.hash := hash;
      namespaces, services, configMaps := {}, map[], map[];
    }

    function Objects(): Cluster
      reads this
    {
      Cluster(hash, namespaces, services, configMaps)
    }

    /** `refused` is the error of whichever request goes wrong. */
    method EnsureNamespace(ns: string, refused: Option<string>) returns (err: Option<string>)
      modifies this`namespaces
      ensures err == refused
      ensures namespaces == if err.None? then old(namespaces) + {ns} else old(namespaces)
    {
      if refused.None? && ns !in namespaces {
        namespaces := namespaces + {ns};
      }
      return refused;
    }

    method EnsureConfigMap(ns: string, fn: FunctionSpec, o: Outcome) returns (err: Option<string>)
      modifies this`configMaps
      ensures (Objects(), err) == C.EnsureConfigMap(old(Objects()), ns, fn, o)
    {
      var key := CodeKey(ns, fn);
      var cm := ConfigMap(map[LABEL_MANAGED_BY := PLATFORM], map[CodeFileName(fn.runtime) := fn.code]);
      if key in configMaps && !o.getFails {
        var existing := configMaps[key];
        existing := existing.(data := cm.data);
        if o.writeFails.Some? {
          return o.writeFails;
        }
        configMaps := configMaps[key := existing];
        return None;
      }
      if o.writeFails.Some? {
        return o.writeFails;
      }
      if key in configMaps {
        return Some("already exists");
      }
      configMaps := configMaps[key := cm];
      return None;
    }

    /** The URL is whatever the cluster reports on the service it has stored. */
    method Deploy(ns: string, fn: FunctionSpec, cm: Outcome, svc: Outcome) returns (url: string, err: Option<string>)
      modifies this`configMaps, this`services
      ensures (Objects(), err) == C.Deploy(old(Objects()), ns, fn, cm, svc)
      ensures err.None? ==> StoredAs(Objects(), ns, fn) && url == services[Key(ns, "fn-" + fn.name)].url
      ensures err.Some? ==> url == ""
    {
      if C.Deploy(Objects(), ns, fn, cm, svc).1.None? {
        DeploySucceeds(Objects(), ns, fn, cm, svc);
      }
      if fn.deployType == MANAGED {
        var failed := EnsureConfigMap(ns, fn, cm);
        if failed.Some? {
          return "", Some("create configmap: " + failed.value);
        }
      }
      var key, ksvc := ServiceKey(ns, fn), BuildService(hash, fn);
      if key in services && !svc.getFails {
        var existing := services[key];
        existing := existing.(spec := ksvc.spec);
        existing := existing.(labels := ksvc.labels);
        if fn.public {
          existing := existing.(annotations := existing.annotations - {ANNOTATION_VISIBILITY});
        } else {
          existing := existing.(annotations := existing.annotations[ANNOTATION_VISIBILITY := CLUSTER_LOCAL]);
        }
        if svc.writeFails.Some? {
          return "", Some("update knative service: " + svc.writeFails.value);
        }
        services := services[key := existing];
        return existing.url, None;
      }
      if svc.writeFails.Some? {
        return "", Some("create knative service: " + svc.writeFails.value);
      }
      if key in services {
        return "", Some("create knative service: already exists");
      }
      services := services[key := ksvc];
      return ksvc.url, None;
    }

    /** The service is removed first; the code of a managed function follows, and its failure is not reported. */
    method Delete(ns: string, name: string, svc: Outcome, codeFails: bool) returns (err: Option<string>)
      modifies this`services, this`configMaps
      ensures (Objects(), err) == Deleted(old(Objects()), ns, name, svc, codeFails)
    {
      var key := Key(ns, ServiceName(name));
      if svc.getFails {
        return Some("get knative service");
      }
      if key !in services {
        return Some("function not found");
      }
      var labels := services[key].labels;
      if svc.writeFails.Some? {
        return Some("delete knative service: " + svc.writeFails.value);
      }
      services := services - {key};
      if LABEL_DEPLOY_TYPE in labels && labels[LABEL_DEPLOY_TYPE] == MANAGED && !codeFails {
        configMaps := configMaps - {Key(ns, ConfigMapName(name))};
      }
      return None;
    }
  }

  function Deleted(k: Cluster, ns: string, name: string, svc: Outcome, codeFails: bool): (Cluster, Option<string>) {
    var key := Key(ns, ServiceName(name));
    if svc.getFails then (k, Some("get knative service"))
    else if key !in k.services then (k, Some("function not found"))
    else if svc.writeFails.Some? then (k, Some("delete knative service: " + svc.writeFails.value))
    else
      var labels := k.services[key].labels;
      (k.(services := k.services - {key},
          configMaps := if LABEL_DEPLOY_TYPE in labels && labels[LABEL_DEPLOY_TYPE] == MANAGED && !codeFails
                        then k.configMaps - {Key(ns, ConfigMapName(name))} else k.configMaps), None)
  }

  /** Deploying and then deleting leaves no trace of the function, and nothing else has moved. */
  lemma {:induction false} DeployThenDelete(k: Cluster, ns: string, fn: FunctionSpec, cm: Outcome, svc: Outcome)
    requires Deploy(k, ns, fn, cm, svc).1.None?
    ensures var k' := Deleted(Deploy(k, ns, fn, cm, svc).0, ns, fn.name, Outcome(false, None), false).0;
            && k'.services == k.services - {ServiceKey(ns, fn)}
            && k'.configMaps == if fn.deployType == MANAGED then k.configMaps - {CodeKey(ns, fn)} else k.configMaps
  {
    var k1 := Deploy(k, ns, fn, cm, svc).0;
    DeploySucceeds(k, ns, fn, cm, svc);
    CodeEnsured(k, ns, fn, cm);
    var k2 := EnsureCode(k, ns, fn, cm).0;
    ServiceEnsured(k2, ns, fn, svc);
    assert k1.services[ServiceKey(ns, fn)].labels[LABEL_DEPLOY_TYPE] == fn.deployType;
    assert k1.services - {ServiceKey(ns, fn)} == k.services - {ServiceKey(ns, fn)};
    assert k1.configMaps - {CodeKey(ns, fn)} == k.configMaps - {CodeKey(ns, fn)};
  }
}
