/** The API server as an object: what the reconcilers' client talks to. */
module Server {
  import opened Objects
  import opened Watch
  import opened Admission
  import opened ApiStore

  class ApiServer {
    var pipelines: map<string, Pipeline>
    var clusters: map<string, Cluster>
    var classes: map<string, Class>
    var configMaps: map<string, ConfigMap>
    var deployments: map<string, Deployment>
    var services: map<string, Service>
    var autoscalers: map<string, Autoscaler>
    var pods: seq<Pod>
    var queue: set<string>
    var clock: nat

    constructor ()
      ensures View() == Store(map[], map[], map[], map[], Others(map[], map[], map[], []), {}, 0)
    {
      pipelines, clusters, classes, configMaps := map[], map[], map[], map[];
      deployments, services, autoscalers := map[], map[], map[];
      pods, queue, clock := [], {}, 0;
    }

    ghost function View(): Store
      reads this
    {
      Store(pipelines, clusters, configMaps, deployments, Others(classes, services, autoscalers, pods), queue, clock)
    }

    /** Lists all pipelines, in an order of the server's choosing. */
    method ListPipelines() returns (items: seq<Item>)
      ensures Listing(items, pipelines)
    {
      items := [];
      var rest := pipelines.Keys;
      while rest != {}
        invariant rest <= pipelines.Keys
        invariant forall i :: 0 <= i < |items| ==>
                    items[i].name in pipelines && items[i].name !in rest && pipelines[items[i].name] == items[i].pipeline
        invariant forall n :: n in pipelines && n !in rest ==> exists i :: 0 <= i < |items| && items[i].name == n
        invariant forall i, j :: 0 <= i < j < |items| ==> items[i].name != items[j].name
        decreases rest
      {
        var n :| n in rest;
        ghost var before := items;
        items := items + [Item(n, pipelines[n])];
        rest := rest - {n};
        forall k | k in pipelines && k !in rest
          ensures exists i :: 0 <= i < |items| && items[i].name == k
        {
          if k == n {
            assert items[|items| - 1].name == k;
          } else {
            var i :| 0 <= i < |before| && before[i].name == k;
            assert items[i].name == k;
          }
        }
      }
    }

    method WriteConfigMap(name: string, data: map<DataKey, Content>)
      modifies this`configMaps, this`queue, this`clock
      ensures View() == PutConfigMap(old(View()), name, data)
    {
      configMaps := configMaps[name := ConfigMap(data, clock + 1)];
      queue := queue + EventTargets(pipelines, name);
      clock := clock + 1;
    }

    method DeleteConfigMap(name: string)
      modifies this`configMaps, this`queue
      ensures View() == DropConfigMap(old(View()), name)
    {
      if name in configMaps {
        configMaps := configMaps - {name};
        queue := queue + EventTargets(pipelines, name);
      }
    }

    method WriteDeployment(name: string, d: Deployment)
      modifies this`deployments, this`clock
      ensures View() == PutDeployment(old(View()), name, d)
    {
      deployments := deployments[name := d.(version := clock + 1)];
      clock := clock + 1;
    }

    /** An Update that may turn out to change nothing. */
    method UpdateDeployment(name: string, d: Deployment)
      modifies this`deployments, this`clock
      ensures View() == ReviseDeployment(old(View()), name, d)
    {
      if name !in deployments || deployments[name] != d {
        WriteDeployment(name, d);
      }
    }

    /** The webhook's answer for one object. */
    method Admitted(name: string, spec: PipelineSpec) returns (ok: bool)
      ensures ok <==> Admissible(pipelines, name, spec)
    {
      var items := ListPipelines();
      ValidateExact(pipelines, items, name, spec);
      ok := Validate(name, spec, Listed(items)) == Admit;
    }

    method WritePipeline(name: string, p: Pipeline)
      modifies this`pipelines, this`queue, this`clock
      ensures View() == PutPipeline(old(View()), name, p)
    {
      pipelines := pipelines[name := p.(version := clock + 1)];
      queue := queue + {name};
      clock := clock + 1;
    }

    /** The last finalizer of an object marked for deletion is gone. */
    method RemovePipeline(name: string)
      modifies this`pipelines, this`queue
      ensures View() == DropPipeline(old(View()), name)
    {
      pipelines := pipelines - {name};
      queue := queue + {name};
    }

    method WriteClusterStatus(name: string, status: ClusterStatus)
      requires name in clusters
      modifies this`clusters, this`queue
      ensures View() == Enqueue(old(View()).(clusters := old(clusters)[name := old(clusters)[name].(status := status)]),
                                Members(old(pipelines), name))
    {
      clusters := clusters[name := clusters[name].(status := status)];
      queue := queue + Members(pipelines, name);
    }
  }
}
