/** The API server's reaction to writes: versions move and watches enqueue.  Every write but
    `ReviseDeployment` is only issued when it changes the object. */
module ApiStore {
  import opened Objects
  import opened Watch

  function Enqueue(st: Store, names: set<string>): Store {
    st.(queue := st.queue + names)
  }

  /** Writes a ConfigMap; the watch enqueues the pipelines the name maps to. */
  function PutConfigMap(st: Store, name: string, data: map<DataKey, Content>): Store {
    st.(configMaps := st.configMaps[name := ConfigMap(data, st.clock + 1)],
        queue := st.queue + EventTargets(st.pipelines, name),
        clock := st.clock + 1)
  }

  function DropConfigMap(st: Store, name: string): Store {
    if name !in st.configMaps then st
    else st.(configMaps := st.configMaps - {name}, queue := st.queue + EventTargets(st.pipelines, name))
  }

  /** Writes a Deployment.  The pipeline controller does not watch Deployments. */
  function PutDeployment(st: Store, name: string, d: Deployment): Store {
    st.(deployments := st.deployments[name := d.(version := st.clock + 1)],
        clock := st.clock + 1)
  }

  /** An Update that may change nothing, in which case the API server leaves the object alone. */
  function ReviseDeployment(st: Store, name: string, d: Deployment): Store {
    if name in st.deployments && d == st.deployments[name] then st else PutDeployment(st, name, d)
  }

  /** Writes a pipeline; its own watch enqueues it. */
  function PutPipeline(st: Store, name: string, p: Pipeline): Store {
    st.(pipelines := st.pipelines[name := p.(version := st.clock + 1)],
        queue := st.queue + {name},
        clock := st.clock + 1)
  }

  function DropPipeline(st: Store, name: string): Store {
    st.(pipelines := st.pipelines - {name}, queue := st.queue + {name})
  }
}
