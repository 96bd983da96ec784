/** DataPrepperPipelineReconciler, method by method.  `faults` are the API calls that fail, each without
    effect or after taking effect. */
module PipelineController {
  import opened Objects
  import opened Names
  import opened Merge
  import opened PodHealth
  import opened Conditions
  import opened Rebuild
  import opened Reconcile
  import opened PipelineOutcome
  import opened Server

  class PipelineReconciler {
    const api: ApiServer

    constructor (api: ApiServer)
      ensures this.api == api
    {
      this.api := api;
    }

    method RebuildClusterConfig(h: Digest, clusterRef: string, exclude: Option<string>, faults: Faults)
      returns (outcome: Outcome)
      modifies api`configMaps, api`deployments, api`queue, api`clock
      ensures Result(api.View(), outcome) == RebuildCluster(old(api.View()), h, clusterRef, exclude, faults)
    {
      if ListPipelines in faults {
        return Failed;
      }
      var items := api.ListPipelines();
      var collected := CollectContent(items, api.pipelines, clusterRef, exclude);
      if collected.None? {
        return Failed;
      }
      var content := collected.value;

      var cmName := ConfigMapName(clusterRef);
      if GetConfigMap in faults {
        return Failed;
      }
      if cmName !in api.configMaps {
        return Missing;
      }
      var data := api.configMaps[cmName].data;
      if PipelinesYaml !in data || data[PipelinesYaml] != content {
        data := data[PipelinesYaml := content];
        if Lands(faults, UpdateConfigMap) {
          api.WriteConfigMap(cmName, data);
        }
        if UpdateConfigMap in faults {
          return Failed;
        }
      }

      var hash := h(content);
      if GetDeployment in faults {
        return Failed;
      }
      if clusterRef !in api.deployments {
        return Missing;
      }
      var deploy := api.deployments[clusterRef];
      if Lookup(deploy.annotations, PipelinesHash) == hash {
        return Done;
      }
      deploy := deploy.(annotations := deploy.annotations[PipelinesHash := hash]);
      if Lands(faults, UpdateDeployment) {
        api.WriteDeployment(clusterRef, deploy);
      }
      return if UpdateDeployment in faults then Failed else Done;
    }

    /** The condition list part of setStatus. */
    method PipelineConditions(pipeline: Pipeline, phase: Phase, health: Health, now: nat) returns (conditions: seq<Condition>)
      ensures conditions == NextStatus(pipeline, phase, health, now).conditions
    {
      conditions := pipeline.status.conditions;
      var ready := phase == Applied;
      var readyCond := Signal(Ready, False, "", Words(""), pipeline.generation);
      if ready {
        readyCond := readyCond.(status := True, reason := "PipelineApplied", message := Words("pipeline content merged into cluster ConfigMap"));
      } else {
        readyCond := readyCond.(reason := "ClusterNotFound", message := Words("cluster \"" + pipeline.spec.clusterRef + "\" not found in namespace"));
      }
      conditions := SetCondition(conditions, readyCond, now);
      ghost var signals := [readyCond];
      if health.known {
        var healthyCond := Signal(Healthy, False, health.reason, Words(health.message), pipeline.generation);
        if health.healthy {
          healthyCond := healthyCond.(status := True);
        }
        conditions := SetCondition(conditions, healthyCond, now);
        signals := [readyCond, healthyCond];
        SetTwo(pipeline.status.conditions, readyCond, healthyCond, now);
      } else {
        SetOne(pipeline.status.conditions, readyCond, now);
      }
      assert signals == PipelineSignals(pipeline.spec.clusterRef, pipeline.generation, phase, health);
    }

    method SetStatus(name: string, pipeline: Pipeline, phase: Phase, health: Health, faults: Faults, now: nat)
      returns (ok: bool)
      modifies api`pipelines, api`queue, api`clock
      ensures Attempt(api.View(), ok) == WriteStatus(old(api.View()), name, pipeline, phase, health, faults, now)
      ensures ok && name in old(api.pipelines) && old(api.pipelines)[name] == pipeline ==>
                name in api.pipelines
                && var status := api.pipelines[name].status;
                   && status.phase == phase && status.observedGeneration == pipeline.generation
                   && Get(status.conditions, Ready).Some? && (Get(status.conditions, Ready).value.status == True <==> phase == Applied)
    {
      ReadyValues(pipeline, phase, health, now);
      var conditions := PipelineConditions(pipeline, phase, health, now);
      if pipeline.status.phase == phase && pipeline.status.observedGeneration == pipeline.generation && pipeline.status.conditions == conditions {
        return true;
      }
      if Lands(faults, UpdateStatus) {
        api.WritePipeline(name, pipeline.(status := PipelineStatus(phase, pipeline.generation, conditions)));
      }
      return UpdateStatus !in faults;
    }

    method Reconcile(h: Digest, name: string, faults: Faults, now: nat) returns (ok: bool)
      modifies api`pipelines, api`configMaps, api`deployments, api`queue, api`clock
      ensures Attempt(api.View(), ok) == ReconcilePipeline(old(api.View()), h, name, faults, now)
    {
      if GetPipeline in faults {
        return false;
      }
      if name !in api.pipelines {
        return true;
      }
      var pipeline := api.pipelines[name];
      var clusterRef := pipeline.spec.clusterRef;

      if pipeline.deleting {
        if pipeline.finalizer {
          var outcome := RebuildClusterConfig(h, clusterRef, Some(name), faults);
          if outcome == Failed {
            return false;
          }
          var admitted := api.Admitted(name, pipeline.spec);
          if !admitted {
            return false;
          }
          if Lands(faults, UpdatePipeline) {
            api.RemovePipeline(name);
          }
          return UpdatePipeline !in faults;
        }
        return true;
      }

      if !pipeline.finalizer {
        var admitted := api.Admitted(name, pipeline.spec);
        if !admitted {
          return false;
        }
        if Lands(faults, UpdatePipeline) {
          api.WritePipeline(name, pipeline.(finalizer := true));
        }
        return UpdatePipeline !in faults;
      }

      if GetCluster in faults {
        return false;
      }
      if clusterRef !in api.clusters {
        ok := SetStatus(name, pipeline, Pending, UNKNOWN, faults, now);
        return;
      }
      var outcome := RebuildClusterConfig(h, clusterRef, None, faults);
      if outcome != Done {
        return false;
      }
      var listing := if ListPods in faults then None else Some(PodsOf(api.pods, clusterRef));
      var health := InspectClusterHealth(listing);
      ReportsUnique(health, HealthOf(listing), listing);
      ok := SetStatus(name, pipeline, Applied, health, faults, now);
    }
  }

  lemma SetOne(cs: seq<Condition>, a: Signal, now: nat)
    ensures SetAll(cs, [a], now) == SetCondition(cs, a, now)
  {
  }

  lemma SetTwo(cs: seq<Condition>, a: Signal, b: Signal, now: nat)
    ensures SetAll(cs, [a, b], now) == SetCondition(SetCondition(cs, a, now), b, now)
  {
    assert [a, b][1..] == [b];
    SetOne(SetCondition(cs, a, now), b, now);
  }
}
